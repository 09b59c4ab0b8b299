// What a token reconcile does to the shared state, whatever fails: stage by stage it touches only
// its own token and the data of that token.
module TokenSafety {
  import opened Core
  import opened MetadataCache
  import opened Cluster
  import opened Invariant
  import opened TokenReconciler

  lemma RefreshAndFinishTouches(w: World, c: Configuration, k: Key, e: TokenEnv)
    requires k in w.tokens && !w.tokens[k].deleting && TokenOk(w.tokens[k])
    ensures TouchesToken(w, RefreshAndFinish(w, c, k, e).world, k)
  {
  }

  lemma AfterStatusWrite(w: World, k: Key, s: TokenStatus, w': World)
    requires k in w.tokens && TouchesToken(UpdateTokenStatus(w, k, s), w', k)
    ensures TouchesToken(w, w', k)
  {
  }

  lemma SucceedWithTouches(w: World, c: Configuration, k: Key, s: TokenStatus, e: TokenEnv)
    requires k in w.tokens && !w.tokens[k].deleting && TokenOk(w.tokens[k])
    ensures TouchesToken(w, SucceedWith(w, c, k, s, e).world, k)
  {
    if (HasUser(s) || e.oauthUrl.Some?) && e.statusOk {
      var oauthUrl := if e.oauthUrl.Some? then e.oauthUrl.value else "";
      var written := SuccessStatus(c, k, s, oauthUrl);
      var w1 := UpdateTokenStatus(w, k, written);
      RefreshAndFinishTouches(w1, c, k, e);
      AfterStatusWrite(w, k, written, RefreshAndFinish(w1, c, k, e).world);
      assert SucceedWith(w, c, k, s, e) == RefreshAndFinish(w1, c, k, e);
    } else {
      assert SucceedWith(w, c, k, s, e) == Reconciled(w, Retry);
    }
  }

  lemma LabelAndSucceedTouches(w: World, c: Configuration, k: Key, s: TokenStatus, provider: string, e: TokenEnv)
    requires k in w.tokens && !w.tokens[k].deleting && TokenOk(w.tokens[k])
    ensures TouchesToken(w, LabelAndSucceed(w, c, k, s, provider, e).world, k)
  {
    var t := w.tokens[k];
    SucceedWithTouches(w, c, k, s, e);
    SucceedWithTouches(UpdateToken(w, k, EnsuredLabels(c, t, provider)), c, k, t.status, e);
  }

  /** In memory the status differs from the stored one in the metadata at most. */
  predicate Remembers(w: World, k: Key, s: TokenStatus)
    requires k in w.tokens
  {
    s == w.tokens[k].status.(metadata := s.metadata)
  }

  lemma FlipTouches(w: World, k: Key, s: TokenStatus, phase: TokenPhase, reason: TokenReason, e: TokenEnv, r: Ending)
    requires k in w.tokens && TokenOk(w.tokens[k])
    requires (phase == Error || phase == Invalid) && reason != NoTokenReason
    ensures TouchesToken(w, Flip(w, k, s, phase, reason, e, r).world, k)
  {
  }

  /** The cache keeps phase and reason as they are stored. */
  lemma WriteTouches(w: World, c: Configuration, k: Key, s: TokenStatus, provider: string, e: TokenEnv)
    requires k in w.tokens && !w.tokens[k].deleting && TokenOk(w.tokens[k]) && Remembers(w, k, s)
    ensures TouchesToken(w, LabelAndSucceed(UpdateTokenStatus(w, k, s), c, k, s, provider, e).world, k)
  {
    var w1 := UpdateTokenStatus(w, k, s);
    LabelAndSucceedTouches(w1, c, k, s, provider, e);
    AfterStatusWrite(w, k, s, LabelAndSucceed(w1, c, k, s, provider, e).world);
  }

  lemma PersistTouches(w: World, c: Configuration, k: Key, s: TokenStatus, provider: string, e: TokenEnv)
    requires k in w.tokens && !w.tokens[k].deleting && TokenOk(w.tokens[k]) && Remembers(w, k, s)
    ensures TouchesToken(w, Persist(w, c, k, s, provider, e).world, k)
  {
    match Decide(e.policy, s.metadata, e.encounter)
    case Serve => LabelAndSucceedTouches(w, c, k, s, provider, e);
    case NothingThere => LabelAndSucceedTouches(w, c, k, s.(metadata := None), provider, e);
    case FetchFailed(InvalidAccessToken) =>
      FlipTouches(w, k, s.(metadata := None), Invalid, MetadataFailure, e, Finished);
    case FetchFailed(OtherError) =>
      FlipTouches(w, k, s.(metadata := None), Error, MetadataFailure, e, Retry);
    case Write(metadata) =>
      var s1 := s.(metadata := metadata);
      WriteTouches(w, c, k, s1, provider, e);
      FlipTouches(w, k, s1, Error, MetadataFailure, e, Retry);
  }

  lemma CheckProviderTouches(w: World, c: Configuration, k: Key, s: TokenStatus, e: TokenEnv)
    requires k in w.tokens && !w.tokens[k].deleting && TokenOk(w.tokens[k]) && Remembers(w, k, s)
    ensures TouchesToken(w, CheckProvider(w, c, k, s, e).world, k)
  {
    match e.provider
    case InvalidConfiguration => FlipTouches(w, k, s, Error, UnsupportedServiceProviderConfiguration, e, Finished);
    case Unknown => FlipTouches(w, k, s, Error, UnknownServiceProvider, e, Finished);
    case Found(name, _) =>
      FlipTouches(w, k, s, Invalid, UnsupportedTokenPermissions, e, Finished);
      PersistTouches(w, c, k, s, name, e);
  }

  lemma CheckDataTouches(w: World, c: Configuration, k: Key, e: TokenEnv)
    requires k in w.tokens && !w.tokens[k].deleting && TokenOk(w.tokens[k])
    ensures TouchesToken(w, CheckData(w, c, k, e).world, k)
  {
    var s := w.tokens[k].status;
    CheckProviderTouches(w, c, k, s, e);
    CheckProviderTouches(w, c, k, s.(metadata := None), e);
  }

  /** The finalizers are in place by now, so deleting the token only marks it. */
  lemma CheckLifetimeTouches(w: World, c: Configuration, k: Key, e: TokenEnv)
    requires k in w.tokens && !w.tokens[k].deleting && TokenOk(w.tokens[k])
    requires w.tokens[k].finalizers == TOKEN_FINALIZERS
    ensures TouchesToken(w, CheckLifetime(w, c, k, e).world, k)
  {
    CheckDataTouches(w, c, k, e);
  }

  lemma ReconcileTouches(w: World, c: Configuration, k: Key, e: TokenEnv)
    requires TokensOk(w)
    ensures TouchesToken(w, ReconcileToken(w, c, k, e).world, k)
  {
    if k in w.tokens && !w.tokens[k].deleting {
      var t := w.tokens[k];
      var t1 := t.(finalizers := t.finalizers + TOKEN_FINALIZERS);
      assert t1.finalizers == TOKEN_FINALIZERS;
      CheckLifetimeTouches(if t.finalizers == TOKEN_FINALIZERS then w else UpdateToken(w, k, t1), c, k, e);
    }
  }

  /**
   A token leaves only by the pass over its finalizers, with the link check and the deletion of its
   data both successful; when one of them fails, all tokens stay exactly as they are.
   */
  lemma TokenLeaves(w: World, c: Configuration, k: Key, e: TokenEnv)
    requires TokensOk(w) && k in w.tokens
    ensures var w' := ReconcileToken(w, c, k, e).world;
            var released := e.listOk && !HasLinkedBindings(w, k) && e.storageDeleteOk;
            && (k !in w'.tokens <==> e.getOk && w.tokens[k].deleting && released && e.finalizersOk)
            && (w.tokens[k].deleting && !released ==> w'.tokens == w.tokens)
  {
    ReconcileTouches(w, c, k, e);
    assert TOKEN_FINALIZERS - TOKEN_FINALIZERS == {};
  }
}
