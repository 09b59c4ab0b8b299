// What holds of the shared state between two reconciles, and how it splits into what a single
// reconcile touches.
module Invariant {
  import opened Core
  import opened Cluster

  // ----- tokens -----

  /** Exceptional phases carry a reason and no other phase does; a Ready token needs no OAuth flow. */
  predicate StatusOk(s: TokenStatus) {
    && (s.phase == Error || s.phase == Invalid <==> s.reason != NoTokenReason)
    && (s.phase == Ready ==> s.oauthUrl == "")
  }

  predicate TokenOk(t: Token) {
    && (t.finalizers == {} || t.finalizers == TOKEN_FINALIZERS)
    && (t.deleting ==> t.finalizers == TOKEN_FINALIZERS)
    && StatusOk(t.status)
  }

  predicate TokensOk(w: World) {
    && (forall k :: k in w.tokens ==> TokenOk(w.tokens[k]) && k.name != "")
    && w.storage.Keys <= w.tokens.Keys
  }

  // ----- bindings -----

  /**
   Which assumptions a run is made under. `links`: no binding reconcile meets the faults that take a
   link apart. `deps`: reverting and cleaning up dependents succeeds when called. `counts`:
   deleting a token that was just created succeeds.
   */
  datatype Mode = Mode(links: bool, deps: bool, counts: bool)

  predicate Guarded(b: Binding) {
    LinkedObjects in b.finalizers || LinkedSecrets in b.finalizers
  }

  predicate LinkOk(w: World, k: Key)
    requires k in w.bindings
  {
    var b := w.bindings[k];
    b.link == b.status.linked && (b.link != "" ==> Key(k.ns, b.link) in w.tokens)
  }

  predicate DependentsOk(w: World, k: Key)
    requires k in w.bindings
  {
    var b := w.bindings[k];
    && (Dependents(w, k) != {} ==> b.status.synced != "")
    && (!b.deleting && b.status.synced != "" ==> Dependents(w, k) != {})
  }

  predicate CountOk(w: World, k: Key)
    requires k in w.bindings
  {
    Minted(w, k) <= 1 && (w.bindings[k].status.linked == "" ==> Minted(w, k) == 0)
  }

  predicate BindingOk(m: Mode, w: World, k: Key)
    requires k in w.bindings
  {
    && (Dependents(w, k) != {} ==> Guarded(w.bindings[k]))
    && (m.links ==> LinkOk(w, k))
    && (m.deps ==> DependentsOk(w, k))
    && (m.counts ==> CountOk(w, k))
  }

  /** No dependents outlive their binding. */
  predicate SlotOk(m: Mode, w: World, k: Key) {
    if k in w.bindings then BindingOk(m, w, k) else Dependents(w, k) == {}
  }

  ghost predicate Inv(m: Mode, w: World) {
    TokensOk(w) && forall k :: SlotOk(m, w, k)
  }

  // ----- what one reconcile touches -----

  /** Of the bindings at most k changes; tokens come, but none that was there goes. */
  ghost predicate TouchesBinding(w: World, w': World, k: Key) {
    && w'.storage == w.storage && w.tokens.Keys <= w'.tokens.Keys
    && (forall j :: j != k ==>
          && (j in w'.bindings <==> j in w.bindings)
          && (j in w.bindings ==> w'.bindings[j] == w.bindings[j])
          && Dependents(w', j) == Dependents(w, j) && Minted(w', j) == Minted(w, j))
  }

  /** Of the tokens at most k changes; it goes only when no binding is linked to it, with its data. */
  ghost predicate TouchesToken(w: World, w': World, k: Key) {
    && w'.bindings == w.bindings && w'.dependents == w.dependents && w'.minted == w.minted
    && (forall j :: j != k ==>
          && (j in w'.tokens <==> j in w.tokens)
          && (j in w.tokens ==> w'.tokens[j] == w.tokens[j]))
    && w'.storage.Keys <= w.storage.Keys + {k}
    && (k in w'.tokens ==> TokenOk(w'.tokens[k]))
    && (k !in w'.tokens ==> k !in w'.storage && (k in w.tokens ==> w.tokens[k].deleting && !HasLinkedBindings(w, k)))
  }

  lemma BindingStepKeepsInv(m: Mode, w: World, w': World, k: Key)
    requires Inv(m, w) && TouchesBinding(w, w', k) && TokensOk(w') && SlotOk(m, w', k)
    ensures Inv(m, w')
  {
    forall j ensures SlotOk(m, w', j) {
      assert SlotOk(m, w, j);
    }
  }

  lemma TokenStepKeepsInv(m: Mode, w: World, w': World, k: Key)
    requires Inv(m, w) && TouchesToken(w, w', k) && (k in w'.tokens ==> k.name != "")
    ensures Inv(m, w')
  {
    forall j ensures SlotOk(m, w', j) {
      assert SlotOk(m, w, j);
      if j in w.bindings && m.links && w.bindings[j].link != "" && Key(j.ns, w.bindings[j].link) == k {
        assert HasLinkedBindings(w, k);
      }
    }
  }
}
