// When the link of a binding can come apart: the label and the status are written one after the
// other, and a failure in between is not always made good.
module LinkFaults {
  import opened Core
  import opened Cluster
  import opened Invariant
  import opened BindingReconciler
  import BS = BindingSafety
  import BP = BindingProgress
  import MC = MetadataCache

  /**
   The label went through and the status did not; and then the error could not be recorded either,
   or the token that the label names was new and is rolled back.
   */
  predicate Breaks(linked: string, p: Picked, e: BindingEnv) {
    && p.Picked? && p.token != linked && e.labelOk && !e.linkStatusOk
    && (!e.errorStatusOk || (p.created && e.rollbackOk))
  }

  lemma RollbackOutcome(w: World, k: Key, e: BindingEnv)
    requires Key(k.ns, e.newName) in w.tokens && Minted(w, k) > 0
    requires w.tokens[Key(k.ns, e.newName)].finalizers == {}
    ensures var w' := Rollback(w, k, e);
            && w'.bindings == w.bindings
            && w'.tokens == if e.rollbackOk then w.tokens - {Key(k.ns, e.newName)} else w.tokens
  {
  }

  /** A token that was picked and not created has been there before; a created one has no finalizers. */
  lemma PickedTokenExists(w: World, c: Configuration, k: Key, b: Binding, e: BindingEnv)
    requires TokensOk(w) && k in w.bindings && e.provider.Found? && FoundReady(w.tokens, k.ns, e.lookup.found)
    requires e.newName != "" && Key(k.ns, e.newName) !in w.tokens
    ensures var p := PickToken(w, c, k, b, e);
            && w.tokens.Keys <= p.world.tokens.Keys
            && (p.Picked? ==> p.token != "")
            && (p.Picked? && !p.created ==> p.world.tokens == w.tokens)
            && (p.Picked? && p.created ==>
                  && p.token == e.newName && p.world.tokens - {Key(k.ns, p.token)} == w.tokens
                  && p.world.tokens[Key(k.ns, p.token)].finalizers == {})
  {
    if e.lookup.found == Some([]) {
      var t := NewToken(w.now, e.provider.baseUrl, b.permissions);
      assert w.tokens[Key(k.ns, e.newName) := t] - {Key(k.ns, e.newName)} == w.tokens;
    }
  }

  /** The second half of linkToken, from the token picked on. */
  lemma PersistBreaksExactlyWhen(w: World, k: Key, b: Binding, p: Picked, e: BindingEnv)
    requires BS.InMemory(p.world, k, b) && b.link == b.status.linked && !b.deleting && p.Picked?
    requires Key(k.ns, p.token) in p.world.tokens && w.tokens.Keys <= p.world.tokens.Keys
    requires b.link != "" ==> Key(k.ns, b.link) in w.tokens
    requires p.token != ""
    requires p.created ==> p.token == e.newName && Minted(p.world, k) > 0
                           && p.world.tokens - {Key(k.ns, p.token)} == w.tokens
                           && p.world.tokens[Key(k.ns, p.token)].finalizers == {} && Key(k.ns, p.token) !in w.tokens
    ensures var r := PersistLink(p.world, k, b, p.token, p.matching, e);
            var w' := if r.NotLinked? && p.created then Rollback(r.world, k, e) else r.world;
            k in w'.bindings && (LinkOk(w', k) <==> !Breaks(b.status.linked, p, e))
  {
    BS.PersistLinkOutcome(p.world, k, b, p.token, p.matching, e);
    var r := PersistLink(p.world, k, b, p.token, p.matching, e);
    if r.NotLinked? && p.created {
      RollbackOutcome(r.world, k, e);
    }
  }

  lemma MetadataKeepsLink(w: World, k: Key, written: map<string, Option<MC.Metadata>>)
    requires TokensOk(w) && k in w.bindings && LinkOk(w, k)
    ensures var w1 := WriteMetadata(w, k.ns, written);
            && TokensOk(w1) && w1.bindings == w.bindings && LinkOk(w1, k) && w1.tokens.Keys == w.tokens.Keys
            && forall t :: t in w.tokens ==> w1.tokens[t].status.phase == w.tokens[t].status.phase
  {
  }

  /**
   Main result: exactly when linkToken takes a sound link apart. In all other cases, faulty or not,
   label and status still agree on a token that exists.
   */
  lemma LinkBreaksExactlyWhen(w: World, c: Configuration, k: Key, b: Binding, e: BindingEnv)
    requires TokensOk(w) && BS.InMemory(w, k, b) && LinkOk(w, k) && !b.deleting
    requires e.provider.Found? && FoundReady(w.tokens, k.ns, e.lookup.found)
    requires e.newName != "" && Key(k.ns, e.newName) !in w.tokens
    ensures var p := PickToken(WriteMetadata(w, k.ns, e.lookup.written), c, k, b, e);
            var w' := LinkToken(w, c, k, b, e).world;
            && k in w'.bindings && (LinkOk(w', k) <==> !Breaks(b.status.linked, p, e))
  {
    var w1 := WriteMetadata(w, k.ns, e.lookup.written);
    MetadataKeepsLink(w, k, e.lookup.written);
    BP.PickTokenMoves(w1, c, k, b, e);
    PickedTokenExists(w1, c, k, b, e);
    var p := PickToken(w1, c, k, b, e);
    if p.Picked? {
      PersistBreaksExactlyWhen(w1, k, b, p, e);
    } else {
      NotPickedKeepsLabel(w1, c, k, b, e);
    }
  }

  lemma NotPickedKeepsLabel(w: World, c: Configuration, k: Key, b: Binding, e: BindingEnv)
    requires TokensOk(w) && BS.InMemory(w, k, b) && LinkOk(w, k)
    requires e.provider.Found? && FoundReady(w.tokens, k.ns, e.lookup.found)
    ensures var p := PickToken(w, c, k, b, e);
            p.NotPicked? ==> k in p.world.bindings && LinkOk(p.world, k)
  {
    BP.PickTokenMoves(w, c, k, b, e);
  }
}
