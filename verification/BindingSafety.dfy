// What a binding reconcile does to the shared state, stage by stage: it touches its own binding,
// the dependents of that binding and the tokens it creates, and it keeps its binding in order.
module BindingSafety {
  import opened Core
  import opened Cluster
  import opened Invariant
  import opened BindingReconciler
  import MC = MetadataCache

  /**
   The faults that take a link apart: the label goes through and the status does not, and then the
   error is not recorded either, or the label names a token that was created and is rolled back.
   */
  predicate LinkFault(e: BindingEnv) {
    && e.labelOk && !e.linkStatusOk
    && (!e.errorStatusOk || (e.lookup.found == Some([]) && e.rollbackOk))
  }

  /** The assumptions of the mode, for one reconcile. */
  predicate EnvOk(m: Mode, e: BindingEnv) {
    && (m.links ==> !LinkFault(e))
    && (m.deps ==> e.revertOk && e.cleanupOk && e.finalCleanupOk)
    && (m.counts ==> e.rollbackOk)
  }

  ghost predicate Kept(m: Mode, w: World, w': World, k: Key) {
    TouchesBinding(w, w', k) && TokensOk(w') && SlotOk(m, w', k)
  }

  /** In memory the status may differ from the stored one, but not in what the invariant is about. */
  predicate InMemory(w: World, k: Key, b: Binding) {
    && k in w.bindings && b == w.bindings[k].(status := b.status)
    && b.status.linked == w.bindings[k].status.linked && b.status.synced == w.bindings[k].status.synced
  }

  lemma KeptTransitive(m: Mode, w: World, w1: World, w2: World, k: Key)
    requires TouchesBinding(w, w1, k) && Kept(m, w1, w2, k)
    ensures Kept(m, w, w2, k)
  {
  }

  lemma WriteErrorKept(m: Mode, w: World, k: Key, s: BindingStatus, reason: BindingReason, e: BindingEnv)
    requires k in w.bindings && TokensOk(w) && BindingOk(m, w, k)
    requires s.linked == w.bindings[k].status.linked && s.synced == w.bindings[k].status.synced
    ensures Kept(m, w, WriteError(w, k, s, reason, e), k)
  {
  }

  /** The caches write metadata only, so the phases of the tokens stay. */
  lemma WriteMetadataKept(m: Mode, w: World, k: Key, written: map<string, Option<MC.Metadata>>)
    requires k in w.bindings && TokensOk(w) && BindingOk(m, w, k)
    ensures var w1 := WriteMetadata(w, k.ns, written);
            && Kept(m, w, w1, k) && w1.bindings == w.bindings
            && w1.tokens.Keys == w.tokens.Keys
            && forall t :: t in w.tokens ==> w1.tokens[t].status.phase == w.tokens[t].status.phase
  {
  }

  // ----- linking -----

  lemma CreateKept(m: Mode, w: World, c: Configuration, k: Key, b: Binding, url: string, e: BindingEnv)
    requires k in w.bindings && TokensOk(w) && BindingOk(m, w, k)
    requires e.newName != "" && Key(k.ns, e.newName) !in w.tokens
    ensures var w1 := Create(w, c, k, b, url, e);
            && TouchesBinding(w, w1, k) && TokensOk(w1) && BindingOk(m.(counts := false), w1, k)
            && Minted(w1, k) == Minted(w, k) + 1
  {
  }

  lemma PickTokenKept(m: Mode, w: World, c: Configuration, k: Key, b: Binding, e: BindingEnv)
    requires k in w.bindings && TokensOk(w) && BindingOk(m, w, k) && InMemory(w, k, b)
    requires e.provider.Found? && FoundReady(w.tokens, k.ns, e.lookup.found)
    ensures var r := PickToken(w, c, k, b, e);
            && (r.NotPicked? ==> Kept(m, w, r.world, k))
            && (r.Picked? && !r.created ==> r.world == w && Key(k.ns, r.token) in w.tokens)
            && (r.Picked? && r.created ==>
                  && r.world == Create(w, c, k, b, e.provider.baseUrl, e)
                  && w.bindings[k].status.linked == "" && e.lookup.found == Some([]))
  {
    match e.lookup.found
    case None => WriteErrorKept(m, w, k, b.status, TokenLookup, e);
    case Some(found) =>
      if found != [] {
        assert Choose(b.status.linked, found) in found;
      } else if b.status.linked == "" && !e.baseUrlOk {
        WriteErrorKept(m, w, k, b.status.(phase := BindingError), UnknownServiceProviderType, e);
      } else if b.status.linked == "" && !e.createOk {
        WriteErrorKept(m, w, k, b.status, LinkedToken, e);
      }
  }

  lemma BindingWriteKept(m: Mode, w: World, k: Key, b: Binding)
    requires k in w.bindings && TokensOk(w) && BindingOk(m, w.(bindings := w.bindings[k := b]), k)
    ensures Kept(m, w, w.(bindings := w.bindings[k := b]), k)
  {
  }

  lemma PersistLinkStatusShape(w: World, k: Key, b: Binding, token: string, matching: bool, e: BindingEnv)
    requires InMemory(w, k, b) && Key(k.ns, token) in w.tokens
    ensures var r := PersistLinkStatus(w, k, b, token, matching, e);
            var b' := r.world.bindings[k];
            && r.world == w.(bindings := w.bindings[k := b'])
            && b' == w.bindings[k].(status := b'.status) && b'.status.synced == b.status.synced
            && (b'.status.linked == b.status.linked || b'.status.linked == token)
            && (b'.status.reason in {NoBindingReason, LinkedToken} || b'.status.reason == w.bindings[k].status.reason)
            && (r.Linked? ==> b'.status.linked == token && InMemory(r.world, k, r.memory))
  {
    assert w.bindings == w.bindings[k := w.bindings[k]];
  }

  /** Writing the link changes the label, the status, or both, and only there the two may differ. */
  lemma PersistLinkShape(w: World, k: Key, b: Binding, token: string, matching: bool, e: BindingEnv)
    requires InMemory(w, k, b) && Key(k.ns, token) in w.tokens && !b.deleting
    ensures var r := PersistLink(w, k, b, token, matching, e);
            var b' := r.world.bindings[k];
            && r.world == w.(bindings := w.bindings[k := b'])
            && b' == w.bindings[k].(link := b'.link, status := b'.status)
            && b'.status.synced == w.bindings[k].status.synced
            && (b'.status.linked == w.bindings[k].status.linked || b'.status.linked == token)
            && (b'.status.reason in {NoBindingReason, LinkedToken} || b'.status.reason == w.bindings[k].status.reason)
            && (r.Linked? ==> b'.link == token && b'.status.linked == token && InMemory(r.world, k, r.memory))
  {
    if b.link == token {
      PersistLinkStatusShape(w, k, b, token, matching, e);
    } else if !e.labelOk {
      assert w.bindings == w.bindings[k := w.bindings[k]];
    } else {
      var b1 := UpdatedBinding(w, k, b.(link := token));
      PersistLinkStatusShape(UpdateBinding(w, k, b1), k, b1, token, matching, e);
      var b' := PersistLink(w, k, b, token, matching, e).world.bindings[k];
      assert w.bindings[k := b1][k := b'] == w.bindings[k := b'];
    }
  }

  /** What the write of the link does to label and status, fault by fault. */
  lemma PersistLinkOutcome(w: World, k: Key, b: Binding, token: string, matching: bool, e: BindingEnv)
    requires InMemory(w, k, b) && b.link == b.status.linked && Key(k.ns, token) in w.tokens && !b.deleting
    ensures var r := PersistLink(w, k, b, token, matching, e);
            var b' := r.world.bindings[k];
            var moves := b.link != token;
            && (r.Linked? <==> moves ==> e.labelOk && e.linkStatusOk)
            && b'.link == (if moves && e.labelOk then token else b.link)
            && b'.status.linked
               == (if moves && e.labelOk && (e.linkStatusOk || e.errorStatusOk) then token else b.status.linked)
  {
  }

  /** Writing the link keeps everything but the count, which the caller answers for. */
  lemma PersistLinkKept(m: Mode, w: World, k: Key, b: Binding, token: string, matching: bool, e: BindingEnv)
    requires k in w.bindings && TokensOk(w) && BindingOk(m.(counts := false), w, k) && InMemory(w, k, b)
    requires Key(k.ns, token) in w.tokens && !b.deleting && EnvOk(m, e)
    requires m.counts ==> Minted(w, k) <= 1
    ensures var r := PersistLink(w, k, b, token, matching, e);
            && Kept(m.(counts := false), w, r.world, k)
            && ((m.counts ==> CountOk(w, k)) || r.Linked? ==> Kept(m, w, r.world, k))
  {
    PersistLinkShape(w, k, b, token, matching, e);
    var r := PersistLink(w, k, b, token, matching, e);
    assert token != "";
    if m.links {
      PersistLinkOutcome(w, k, b, token, matching, e);
    }
    BindingWriteKept(m.(counts := false), w, k, r.world.bindings[k]);
  }

  lemma RollbackRemoves(w0: World, w: World, k: Key, t: Token, e: BindingEnv)
    requires Key(k.ns, e.newName) !in w0.tokens && t.finalizers == {} && e.rollbackOk
    requires w.tokens == w0.tokens[Key(k.ns, e.newName) := t] && Minted(w, k) == Minted(w0, k) + 1
    ensures var w' := Rollback(w, k, e);
            && w'.tokens == w0.tokens && Minted(w', k) == Minted(w0, k)
            && (forall j :: j != k ==> Minted(w', j) == Minted(w, j))
            && w' == w.(tokens := w'.tokens, minted := w'.minted)
  {
    assert w0.tokens[Key(k.ns, e.newName) := t] - {Key(k.ns, e.newName)} == w0.tokens;
  }

  /** Rolling back takes away the new token and nothing else: it has no finalizers and no data yet. */
  lemma RollbackKept(m: Mode, w0: World, w: World, k: Key, t: Token, e: BindingEnv)
    requires TokensOk(w0) && k in w0.bindings && k in w.bindings
    requires m.links && e.rollbackOk ==> w.bindings[k].link != e.newName
    requires m.counts ==> Minted(w0, k) == 0 && e.rollbackOk
    requires Key(k.ns, e.newName) !in w0.tokens && t.finalizers == {}
    requires w.tokens == w0.tokens[Key(k.ns, e.newName) := t] && Minted(w, k) == Minted(w0, k) + 1
    requires Kept(m.(counts := false), w0, w, k)
    ensures Kept(m, w0, Rollback(w, k, e), k)
  {
    if e.rollbackOk {
      RollbackRemoves(w0, w, k, t, e);
    }
  }

  /** What becomes of a token that was just created for the binding. */
  lemma LinkCreatedKept(m: Mode, w: World, c: Configuration, k: Key, b: Binding, e: BindingEnv)
    requires k in w.bindings && TokensOk(w) && BindingOk(m, w, k) && InMemory(w, k, b) && EnvOk(m, e)
    requires e.provider.Found? && !b.deleting && w.bindings[k].status.linked == "" && e.lookup.found == Some([])
    requires e.newName != "" && Key(k.ns, e.newName) !in w.tokens
    ensures var r := PersistLink(Create(w, c, k, b, e.provider.baseUrl, e), k, b, e.newName, true, e);
            && (r.Linked? ==> Kept(m, w, r.world, k))
            && (r.NotLinked? ==> Minted(r.world, k) > 0 && Kept(m, w, Rollback(r.world, k, e), k))
  {
    var w1 := Create(w, c, k, b, e.provider.baseUrl, e);
    CreateKept(m, w, c, k, b, e.provider.baseUrl, e);
    PersistLinkShape(w1, k, b, e.newName, true, e);
    PersistLinkKept(m, w1, k, b, e.newName, true, e);
    var r := PersistLink(w1, k, b, e.newName, true, e);
    if r.Linked? {
      KeptTransitive(m, w, w1, r.world, k);
    } else {
      KeptTransitive(m.(counts := false), w, w1, r.world, k);
      if m.links {
        PersistLinkOutcome(w1, k, b, e.newName, true, e);
      }
      RollbackKept(m, w, r.world, k, NewToken(w.now, e.provider.baseUrl, b.permissions), e);
    }
  }

  /** linkToken after the lookup. */
  lemma PickAndPersistKept(m: Mode, w: World, c: Configuration, k: Key, b: Binding, e: BindingEnv)
    requires k in w.bindings && TokensOk(w) && BindingOk(m, w, k) && InMemory(w, k, b) && EnvOk(m, e)
    requires e.provider.Found? && FoundReady(w.tokens, k.ns, e.lookup.found) && !b.deleting
    requires e.newName != "" && Key(k.ns, e.newName) !in w.tokens
    ensures var p := PickToken(w, c, k, b, e);
            var r := if p.NotPicked? then NotLinked(p.world) else PersistOrRollback(p, k, b, e);
            && Kept(m, w, r.world, k)
            && (r.Linked? ==>
                  InMemory(r.world, k, r.memory) && r.memory.finalizers == b.finalizers && !r.memory.deleting)
  {
    PickTokenKept(m, w, c, k, b, e);
    var p := PickToken(w, c, k, b, e);
    if p.Picked? {
      PersistLinkShape(p.world, k, b, p.token, p.matching, e);
      if p.created {
        LinkCreatedKept(m, w, c, k, b, e);
      } else {
        PersistLinkKept(m, w, k, b, p.token, p.matching, e);
      }
    }
  }

  lemma LinkTokenKept(m: Mode, w: World, c: Configuration, k: Key, b: Binding, e: BindingEnv)
    requires k in w.bindings && TokensOk(w) && BindingOk(m, w, k) && InMemory(w, k, b) && EnvOk(m, e)
    requires e.provider.Found? && FoundReady(w.tokens, k.ns, e.lookup.found) && !b.deleting
    requires e.newName != "" && Key(k.ns, e.newName) !in w.tokens
    ensures var r := LinkToken(w, c, k, b, e);
            && Kept(m, w, r.world, k)
            && (r.Linked? ==>
                  InMemory(r.world, k, r.memory) && r.memory.finalizers == b.finalizers && !r.memory.deleting)
  {
    var w1 := WriteMetadata(w, k.ns, e.lookup.written);
    WriteMetadataKept(m, w, k, e.lookup.written);
    PickAndPersistKept(m, w1, c, k, b, e);
    KeptTransitive(m, w, w1, LinkToken(w, c, k, b, e).world, k);
  }

  // ----- syncing -----

  /** Only the dependents of the binding differ. */
  ghost predicate ChangedDependents(w: World, w': World, k: Key) {
    w' == w.(dependents := w'.dependents) && forall j :: j != k ==> Dependents(w', j) == Dependents(w, j)
  }

  /** The binding itself is as in w, the rest is in order, and both sides of the equivalence are known. */
  lemma SyncedKept(m: Mode, w: World, w': World, k: Key)
    requires k in w.bindings && TokensOk(w) && BindingOk(m, w, k) && Guarded(w.bindings[k])
    requires k in w'.bindings && ChangedDependents(w.(bindings := w'.bindings), w', k)
    requires w'.bindings == w.bindings[k := w.bindings[k].(status := w'.bindings[k].status)]
    requires w'.bindings[k].status.linked == w.bindings[k].status.linked
    requires m.deps ==> DependentsOk(w', k)
    ensures Kept(m, w, w', k)
  {
  }

  lemma RevertKept(m: Mode, w: World, w1: World, k: Key, e: BindingEnv)
    requires k in w.bindings && TokensOk(w) && BindingOk(m, w, k) && EnvOk(m, e) && Guarded(w.bindings[k])
    requires k in w1.bindings && ChangedDependents(w.(bindings := w1.bindings), w1, k)
    requires w1.bindings == w.bindings[k := w.bindings[k].(status := w1.bindings[k].status)]
    requires w1.bindings[k].status.linked == w.bindings[k].status.linked
    requires w1.bindings[k].status.synced == w.bindings[k].status.synced
    ensures Kept(m, w, Revert(w1, k, Dependents(w, k), e), k)
  {
    SyncedKept(m, w, Revert(w1, k, Dependents(w, k), e), k);
  }

  lemma SettleKept(m: Mode, w: World, w1: World, c: Configuration, k: Key, s: BindingStatus,
      lifetime: Lifetime, e: BindingEnv)
    requires k in w.bindings && TokensOk(w) && BindingOk(m, w, k) && EnvOk(m, e) && Guarded(w.bindings[k])
    requires ChangedDependents(w, w1, k) && s.linked == w.bindings[k].status.linked
    requires if s.phase == Injected then s.synced != "" && Dependents(w1, k) != {} else s.synced == ""
    ensures Kept(m, w, Settle(w1, c, k, s, lifetime, Dependents(w, k), e).world, k)
  {
    if !e.statusOk {
      assert w.bindings == w.bindings[k := w.bindings[k]];
      RevertKept(m, w, w1, k, e);
    } else {
      var w' := Settle(w1, c, k, s, lifetime, Dependents(w, k), e).world;
      assert forall j :: j != k ==> Dependents(w', j) == Dependents(w1, j) == Dependents(w, j);
      SyncedKept(m, w, w', k);
    }
  }

  lemma SyncReadyKept(m: Mode, w: World, c: Configuration, k: Key, s: BindingStatus, lifetime: Lifetime, e: BindingEnv)
    requires k in w.bindings && TokensOk(w) && BindingOk(m, w, k) && EnvOk(m, e) && Guarded(w.bindings[k])
    requires s.linked == w.bindings[k].status.linked && s.synced == w.bindings[k].status.synced && e.checkpointOk
    requires e.sync.Synced? ==> e.sync.secret != "" && e.sync.objects != {}
    ensures Kept(m, w, SyncDependents(w, c, k, s, true, lifetime, e).world, k)
  {
    match e.sync
    case Synced(secret, objects, accounts) =>
      SettleKept(m, w, SetDependents(w, k, objects), c, k,
                 s.(phase := Injected, synced := secret, accounts := accounts), lifetime, e);
    case DataNotFound(partial) =>
      SettleKept(m, w, SetDependents(w, k, partial), c, k, Awaiting(s), lifetime, e);
    case SyncFailed(reason, partial) =>
      var w1 := WriteError(SetDependents(w, k, partial), k, s.(phase := BindingError), SyncReason(reason), e);
      assert w.bindings == w.bindings[k := w.bindings[k]];
      RevertKept(m, w, w1, k, e);
  }

  lemma SyncDependentsKept(m: Mode, w: World, c: Configuration, k: Key, s: BindingStatus, ready: bool,
      lifetime: Lifetime, e: BindingEnv)
    requires k in w.bindings && TokensOk(w) && BindingOk(m, w, k) && EnvOk(m, e) && Guarded(w.bindings[k])
    requires s.linked == w.bindings[k].status.linked && s.synced == w.bindings[k].status.synced
    requires e.sync.Synced? ==> e.sync.secret != "" && e.sync.objects != {}
    ensures Kept(m, w, SyncDependents(w, c, k, s, ready, lifetime, e).world, k)
  {
    if !e.checkpointOk {
      WriteErrorKept(m, w, k, s.(phase := BindingError), ServiceAccountUpdate, e);
    } else if !ready {
      SettleKept(m, w, w, c, k, Awaiting(s), lifetime, e);
    } else {
      SyncReadyKept(m, w, c, k, s, lifetime, e);
    }
  }

  // ----- the stages of a reconcile, last to first -----

  lemma SyncWithTokenKept(m: Mode, w: World, c: Configuration, k: Key, s: BindingStatus, t: Token,
      matching: bool, lifetime: Lifetime, e: BindingEnv)
    requires k in w.bindings && TokensOk(w) && BindingOk(m, w, k) && EnvOk(m, e) && Guarded(w.bindings[k])
    requires s.linked == w.bindings[k].status.linked && s.synced == w.bindings[k].status.synced
    requires e.sync.Synced? ==> e.sync.secret != "" && e.sync.objects != {}
    ensures Kept(m, w, SyncWithToken(w, c, k, s, t, matching, lifetime, e).world, k)
  {
    if !matching && t.status.phase == Ready {
      WriteErrorKept(m, w, k, s.(phase := BindingError, oauthUrl := ""), LinkedToken, e);
    } else {
      SyncDependentsKept(m, w, c, k, s.(oauthUrl := t.status.oauthUrl, uploadUrl := t.status.uploadUrl),
                         t.status.phase == Ready, lifetime, e);
    }
  }

  lemma LinkAndSyncKept(m: Mode, w: World, c: Configuration, k: Key, b: Binding, lifetime: Lifetime, e: BindingEnv)
    requires k in w.bindings && TokensOk(w) && BindingOk(m, w, k) && InMemory(w, k, b) && EnvOk(m, e)
    requires e.provider.Found? && FoundReady(w.tokens, k.ns, e.lookup.found) && !b.deleting && Guarded(b)
    requires e.newName != "" && Key(k.ns, e.newName) !in w.tokens
    requires e.sync.Synced? ==> e.sync.secret != "" && e.sync.objects != {}
    ensures Kept(m, w, LinkAndSync(w, c, k, b, lifetime, e).world, k)
  {
    LinkTokenKept(m, w, c, k, b, e);
    var r := LinkToken(w, c, k, b, e);
    if r.Linked? {
      var t := r.world.tokens[Key(k.ns, r.token)];
      SyncWithTokenKept(m, r.world, c, k, r.memory.status, t, r.matching, lifetime, e);
      KeptTransitive(m, w, r.world, LinkAndSync(w, c, k, b, lifetime, e).world, k);
    }
  }

  lemma CheckSpecKept(m: Mode, w: World, c: Configuration, k: Key, lifetime: Lifetime, e: BindingEnv)
    requires k in w.bindings && TokensOk(w) && BindingOk(m, w, k) && EnvOk(m, e)
    requires e.provider.Found? && FoundReady(w.tokens, k.ns, e.lookup.found)
    requires !w.bindings[k].deleting && Guarded(w.bindings[k])
    requires e.newName != "" && Key(k.ns, e.newName) !in w.tokens
    requires e.sync.Synced? ==> e.sync.secret != "" && e.sync.objects != {}
    ensures Kept(m, w, CheckSpec(w, c, k, lifetime, e).world, k)
  {
    var b := w.bindings[k];
    var s := if b.status.phase == NoBindingPhase then b.status.(phase := AwaitingData) else b.status;
    if !e.consistent {
      WriteErrorKept(m, w, k, s.(phase := BindingError), InconsistentSpec, e);
    } else if e.validation == InvalidScopes {
      WriteErrorKept(m, w, k, s.(phase := BindingError), UnsupportedPermissions, e);
    } else if e.validation == Valid {
      LinkAndSyncKept(m, w, c, k, b.(status := s), lifetime, e);
      assert CheckSpec(w, c, k, lifetime, e) == LinkAndSync(w, c, k, b.(status := s), lifetime, e);
    }
  }

  lemma CheckLifetimeKept(m: Mode, w: World, c: Configuration, k: Key, e: BindingEnv)
    requires k in w.bindings && TokensOk(w) && BindingOk(m, w, k) && EnvOk(m, e)
    requires e.provider.Found? && FoundReady(w.tokens, k.ns, e.lookup.found)
    requires !w.bindings[k].deleting && Guarded(w.bindings[k])
    requires e.newName != "" && Key(k.ns, e.newName) !in w.tokens
    requires e.sync.Synced? ==> e.sync.secret != "" && e.sync.objects != {}
    ensures Kept(m, w, CheckLifetime(w, c, k, e).world, k)
  {
    var b := w.bindings[k];
    WriteErrorKept(m, w, k, b.status.(phase := BindingError), InvalidLifetime, e);
    BindingWriteKept(m, w, k, b.(deleting := true));
    CheckSpecKept(m, w, c, k, LifetimeOf(c, b.lifetime), e);
  }

  lemma BindingRemovedKept(m: Mode, w: World, k: Key)
    requires k in w.bindings && TokensOk(w) && Dependents(w, k) == {}
    ensures Kept(m, w, w.(bindings := w.bindings - {k}), k)
  {
  }

  /** An update that neither lifts the guard nor touches the link. */
  lemma UpdateBindingKept(m: Mode, w: World, k: Key, sent: Binding)
    requires k in w.bindings && TokensOk(w) && BindingOk(m, w, k)
    requires sent.link == w.bindings[k].link && sent.deleting == w.bindings[k].deleting
    requires Dependents(w, k) != {} ==> Guarded(sent)
    ensures Kept(m, w, UpdateBinding(w, k, sent), k)
  {
    if sent.deleting && sent.finalizers == {} {
      BindingRemovedKept(m, w, k);
    } else {
      BindingWriteKept(m, w, k, UpdatedBinding(w, k, sent));
    }
  }

  lemma CleanedUpKept(m: Mode, w: World, k: Key, objects: set<string>)
    requires k in w.bindings && TokensOk(w) && BindingOk(m, w, k)
    requires w.bindings[k].deleting && Guarded(w.bindings[k]) && (m.deps ==> objects == {})
    ensures Kept(m, w, SetDependents(w, k, objects), k)
  {
  }

  /** The binding goes with its last finalizer, and by then its dependents are gone. */
  lemma FinalizeDeletedKept(m: Mode, w: World, k: Key, b: Binding, e: BindingEnv)
    requires k in w.bindings && TokensOk(w) && BindingOk(m, w, k) && EnvOk(m, e)
    requires w.bindings[k].deleting && b == w.bindings[k].(finalizers := MigratedFinalizers(w.bindings[k].finalizers))
    ensures Kept(m, w, FinalizeDeleted(w, k, b, e).world, k)
  {
    if LinkedObjects in b.finalizers {
      CleanedUpKept(m, w, k, if e.finalCleanupOk then {} else e.leftover);
      var w1 := SetDependents(w, k, {});
      var sent := b.(finalizers := b.finalizers - {LinkedObjects});
      if e.finalizerProviderOk && e.finalCleanupOk && e.finalizersOk {
        UpdateBindingKept(m, w1, k, sent);
        KeptTransitive(m, w, w1, UpdateBinding(w1, k, sent), k);
      }
    }
  }

  lemma FinalizeAndGoOnKept(m: Mode, w: World, c: Configuration, k: Key, b: Binding, e: BindingEnv)
    requires k in w.bindings && TokensOk(w) && BindingOk(m, w, k) && EnvOk(m, e)
    requires e.provider.Found? && FoundReady(w.tokens, k.ns, e.lookup.found)
    requires b == CopyInMemory(w.bindings[k])
    requires e.newName != "" && Key(k.ns, e.newName) !in w.tokens
    requires e.sync.Synced? ==> e.sync.secret != "" && e.sync.objects != {}
    ensures Kept(m, w, FinalizeAndGoOn(w, c, k, b, e).world, k)
  {
    if b.deleting {
      FinalizeDeletedKept(m, w, k, b, e);
    } else if LinkedObjects in b.finalizers {
      CheckLifetimeKept(m, w, c, k, e);
    } else if e.finalizersOk {
      var b1 := b.(finalizers := b.finalizers + {LinkedObjects});
      var w1 := UpdateBinding(w, k, b1);
      BindingWriteKept(m, w, k, b1);
      CheckLifetimeKept(m, w1, c, k, e);
      KeptTransitive(m, w, w1, CheckLifetime(w1, c, k, e).world, k);
    }
  }

  lemma CheckProviderKept(m: Mode, w: World, c: Configuration, k: Key, b: Binding, e: BindingEnv)
    requires k in w.bindings && TokensOk(w) && BindingOk(m, w, k) && EnvOk(m, e)
    requires e.provider.Found? ==> FoundReady(w.tokens, k.ns, e.lookup.found)
    requires b == CopyInMemory(w.bindings[k])
    requires e.newName != "" && Key(k.ns, e.newName) !in w.tokens
    requires e.sync.Synced? ==> e.sync.secret != "" && e.sync.objects != {}
    ensures Kept(m, w, CheckProvider(w, c, k, b, e).world, k)
  {
    match e.provider
    case InvalidConfiguration => WriteErrorKept(m, w, k, b.status.(phase := BindingError), UnsupportedConfiguration, e);
    case Unknown => WriteErrorKept(m, w, k, b.status.(phase := BindingError), UnknownServiceProviderType, e);
    case Found(name, _) =>
      if name == "Quay" && HasOldArea(b) {
        MigratedAreasKept(m, w, k, b);
      } else {
        FinalizeAndGoOnKept(m, w, c, k, b, e);
      }
  }

  lemma MigratedAreasKept(m: Mode, w: World, k: Key, b: Binding)
    requires k in w.bindings && TokensOk(w) && BindingOk(m, w, k)
    requires b == CopyInMemory(w.bindings[k])
    ensures AcceptsFinalizers(w.bindings[k], MigratedAreas(b)) ==>
              Kept(m, w, UpdateBinding(w, k, MigratedAreas(b)), k)
  {
    UpdateBindingKept(m, w, k, MigratedAreas(b));
  }

  lemma MigrateFinalizersKept(m: Mode, w: World, c: Configuration, k: Key, e: BindingEnv)
    requires k in w.bindings && TokensOk(w) && BindingOk(m, w, k) && EnvOk(m, e)
    requires e.provider.Found? ==> FoundReady(w.tokens, k.ns, e.lookup.found)
    requires e.newName != "" && Key(k.ns, e.newName) !in w.tokens
    requires e.sync.Synced? ==> e.sync.secret != "" && e.sync.objects != {}
    ensures Kept(m, w, MigrateFinalizers(w, c, k, e).world, k)
  {
    var b := w.bindings[k];
    var migrated := b.(finalizers := MigratedFinalizers(b.finalizers));
    if LinkedSecrets !in b.finalizers || b.deleting {
      CheckProviderKept(m, w, c, k, migrated, e);
    } else if e.migrateOk {
      BindingWriteKept(m, w, k, migrated);
      var w1 := UpdateBinding(w, k, migrated);
      CheckProviderKept(m, w1, c, k, migrated, e);
      KeptTransitive(m, w, w1, CheckProvider(w1, c, k, migrated, e).world, k);
    }
  }

  lemma ReconcileKept(m: Mode, w: World, c: Configuration, k: Key, e: BindingEnv)
    requires TokensOk(w) && SlotOk(m, w, k) && EnvOk(m, e) && Plausible(w, c, k, e)
    ensures Kept(m, w, ReconcileBinding(w, c, k, e).world, k)
  {
    if e.getOk && k in w.bindings {
      PlausibleFindsReady(w, c, k, e);
      var b := w.bindings[k];
      WriteErrorKept(m, w, k, b.status.(phase := BindingError), UnknownServiceProviderType, e);
      MigrateFinalizersKept(m, w, c, k, e);
      var url := ProperRepoUrl(c.host, b.repoUrl);
      if url.Some? {
        UpdateBindingKept(m, w, k, b.(repoUrl := url.value));
      }
    }
  }
}
