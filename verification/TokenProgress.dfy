// How a successful token reconcile ends: the status it leaves behind and the wake-up it asks for.
module TokenProgress {
  import opened Core
  import opened MetadataCache
  import opened Cluster
  import opened TokenReconciler

  /** Ready exactly when the metadata names a user, awaiting data otherwise, and no error. */
  predicate SuccessfulStatus(s: TokenStatus) {
    && s.reason == NoTokenReason
    && s.phase == (if HasUser(s) then Ready else AwaitingTokenData)
  }

  /** Every write of a success status goes through SucceedWith. */
  lemma SuccessWrite(w: World, c: Configuration, k: Key, s: TokenStatus, e: TokenEnv)
    requires k in w.tokens && !w.tokens[k].deleting
    requires (HasUser(s) || e.oauthUrl.Some?) && e.statusOk
    ensures var w' := SucceedWith(w, c, k, s, e).world;
            && k in w'.tokens && SuccessfulStatus(w'.tokens[k].status)
            && w'.tokens[k].status.metadata == s.metadata
  {
  }

  /** What the end of a reconcile that asks to come back says about the token. */
  predicate Concluded(w: World, c: Configuration, k: Key, r: Reconciled)
    requires k in w.tokens
  {
    r.ending.RequeueAfter? ==>
      && k in r.world.tokens && SuccessfulStatus(r.world.tokens[k].status)
      && r.world.tokens[k].created == w.tokens[k].created && !r.world.tokens[k].deleting
      && r.ending.delay == w.tokens[k].created + c.tokenTtl + c.grace - w.now
  }

  lemma SucceedWithConcluded(w: World, c: Configuration, k: Key, s: TokenStatus, e: TokenEnv)
    requires k in w.tokens && !w.tokens[k].deleting
    ensures Concluded(w, c, k, SucceedWith(w, c, k, s, e))
  {
  }

  lemma LabelAndSucceedConcluded(w: World, c: Configuration, k: Key, s: TokenStatus, provider: string, e: TokenEnv)
    requires k in w.tokens && !w.tokens[k].deleting
    ensures Concluded(w, c, k, LabelAndSucceed(w, c, k, s, provider, e))
  {
    SucceedWithConcluded(w, c, k, s, e);
    var labelled := EnsuredLabels(c, w.tokens[k], provider);
    SucceedWithConcluded(UpdateToken(w, k, labelled), c, k, w.tokens[k].status, e);
  }

  lemma PersistConcluded(w: World, c: Configuration, k: Key, s: TokenStatus, provider: string, e: TokenEnv)
    requires k in w.tokens && !w.tokens[k].deleting
    ensures Concluded(w, c, k, Persist(w, c, k, s, provider, e))
  {
    match Decide(e.policy, s.metadata, e.encounter)
    case Serve => LabelAndSucceedConcluded(w, c, k, s, provider, e);
    case NothingThere => LabelAndSucceedConcluded(w, c, k, s.(metadata := None), provider, e);
    case FetchFailed(_) =>
    case Write(metadata) =>
      var s1 := s.(metadata := metadata);
      LabelAndSucceedConcluded(UpdateTokenStatus(w, k, s1), c, k, s1, provider, e);
  }

  lemma CheckProviderConcluded(w: World, c: Configuration, k: Key, s: TokenStatus, e: TokenEnv)
    requires k in w.tokens && !w.tokens[k].deleting
    ensures Concluded(w, c, k, CheckProvider(w, c, k, s, e))
  {
    if e.provider.Found? {
      PersistConcluded(w, c, k, s, e.provider.name, e);
    }
  }

  lemma CheckLifetimeConcluded(w: World, c: Configuration, k: Key, e: TokenEnv)
    requires k in w.tokens && !w.tokens[k].deleting
    ensures Concluded(w, c, k, CheckLifetime(w, c, k, e))
  {
    var s := w.tokens[k].status;
    CheckProviderConcluded(w, c, k, s, e);
    CheckProviderConcluded(w, c, k, s.(metadata := None), e);
  }

  /** Only a token that was found, is live, and got through every stage asks for a wake-up. */
  lemma ReconcileConcluded(w: World, c: Configuration, k: Key, e: TokenEnv)
    ensures var r := ReconcileToken(w, c, k, e);
            r.ending.RequeueAfter? ==> k in w.tokens && Concluded(w, c, k, r)
  {
    if k in w.tokens && !w.tokens[k].deleting {
      var t := w.tokens[k];
      var t1 := t.(finalizers := t.finalizers + TOKEN_FINALIZERS);
      CheckLifetimeConcluded(if TOKEN_FINALIZERS <= t.finalizers then w else UpdateToken(w, k, t1), c, k, e);
    }
  }

  lemma OverdueIsDeleted(w: World, c: Configuration, k: Key, e: TokenEnv)
    requires k in w.tokens && !w.tokens[k].deleting && w.now - w.tokens[k].created > c.tokenTtl
    requires e.listOk && e.deleteOk && !HasLinkedBindings(w, k)
    ensures CheckLifetime(w, c, k, e) == Reconciled(DeleteToken(w, k), Finished)
  {
  }

  /**
   Main result: after a reconcile that asks for a wake-up, a reconcile at that time or later, with
   the same configuration, that reaches the lifetime check deletes the token unless a binding is
   linked to it.
   */
  lemma WakeUpIsSound(w: World, c: Configuration, k: Key, e: TokenEnv, r: Reconciled, w2: World, e2: TokenEnv)
    requires r == ReconcileToken(w, c, k, e) && r.ending.RequeueAfter? && c.grace > 0
    requires k in r.world.tokens && k in w2.tokens && !w2.tokens[k].deleting
    requires w2.tokens[k].created == r.world.tokens[k].created && w2.now >= w.now + r.ending.delay
    requires e2.listOk && e2.deleteOk && !HasLinkedBindings(w2, k)
    ensures CheckLifetime(w2, c, k, e2) == Reconciled(DeleteToken(w2, k), Finished)
  {
    ReconcileConcluded(w, c, k, e);
    OverdueIsDeleted(w2, c, k, e2);
  }
}
