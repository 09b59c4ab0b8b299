// What a reconcile leaves behind of a live token: whether it puts an end to it, and if not, which
// status, metadata and labels it ends up with.
module TokenOutcome {
  import opened Core
  import opened MetadataCache
  import opened Cluster
  import opened TokenReconciler
  import BR = BindingReconciler

  // ----- the end of a token -----

  predicate Live(w: World, k: Key) {
    k in w.tokens && !w.tokens[k].deleting
  }

  /** The finalizers are there, or can be put there. */
  predicate Protected(t: Token, e: TokenEnv) {
    (LinkedBindings in t.finalizers && TokenStorage in t.finalizers) || e.finalizersOk
  }

  /** Past its time, or past the grace period without any data. */
  predicate Outlived(c: Configuration, t: Token, now: int) {
    now > t.created + c.tokenTtl || (t.status.phase == AwaitingTokenData && now > t.created + c.grace)
  }

  /** The link label of no binding of the namespace names the token. */
  predicate Unlinked(w: World, k: Key) {
    forall b :: b in w.bindings && b.ns == k.ns ==> w.bindings[b].link != k.name
  }

  /** The reconcile gets beyond the lifetime check. */
  predicate GetsToData(w: World, c: Configuration, k: Key, e: TokenEnv) {
    && e.getOk && Live(w, k) && Protected(w.tokens[k], e)
    && (Outlived(c, w.tokens[k], w.now) ==> e.listOk && !Unlinked(w, k))
  }

  /** By then the finalizers are in place. */
  function AtData(w: World, k: Key): World
    requires k in w.tokens
  {
    w.(tokens := w.tokens[k := w.tokens[k].(finalizers := w.tokens[k].finalizers + TOKEN_FINALIZERS)])
  }

  lemma ReachesLifetime(w: World, c: Configuration, k: Key, e: TokenEnv)
    requires e.getOk && Live(w, k) && Protected(w.tokens[k], e)
    ensures ReconcileToken(w, c, k, e) == CheckLifetime(AtData(w, k), c, k, e)
  {
    var t := w.tokens[k];
    if TOKEN_FINALIZERS <= t.finalizers {
      assert t.finalizers + TOKEN_FINALIZERS == t.finalizers;
      assert w.tokens[k := t] == w.tokens;
      assert AtData(w, k) == w;
    }
  }

  lemma ReachesData(w: World, c: Configuration, k: Key, e: TokenEnv)
    requires GetsToData(w, c, k, e)
    ensures ReconcileToken(w, c, k, e) == CheckData(AtData(w, k), c, k, e)
  {
    ReachesLifetime(w, c, k, e);
    assert HasLinkedBindings(AtData(w, k), k) == !Unlinked(w, k);
  }

  lemma SucceedKeepsLive(w: World, c: Configuration, k: Key, s: TokenStatus, e: TokenEnv)
    requires Live(w, k)
    ensures Live(SucceedWith(w, c, k, s, e).world, k)
  {
  }

  lemma LabelKeepsLive(w: World, c: Configuration, k: Key, s: TokenStatus, provider: string, e: TokenEnv)
    requires Live(w, k)
    ensures Live(LabelAndSucceed(w, c, k, s, provider, e).world, k)
  {
    var t := w.tokens[k];
    SucceedKeepsLive(w, c, k, s, e);
    SucceedKeepsLive(UpdateToken(w, k, EnsuredLabels(c, t, provider)), c, k, t.status, e);
  }

  lemma PersistKeepsLive(w: World, c: Configuration, k: Key, s: TokenStatus, provider: string, e: TokenEnv)
    requires Live(w, k)
    ensures Live(Persist(w, c, k, s, provider, e).world, k)
  {
    match Decide(e.policy, s.metadata, e.encounter)
    case Serve => LabelKeepsLive(w, c, k, s, provider, e);
    case NothingThere => LabelKeepsLive(w, c, k, s.(metadata := None), provider, e);
    case FetchFailed(_) =>
    case Write(m) =>
      var s1 := s.(metadata := m);
      LabelKeepsLive(UpdateTokenStatus(w, k, s1), c, k, s1, provider, e);
  }

  lemma DataKeepsLive(w: World, c: Configuration, k: Key, e: TokenEnv)
    requires Live(w, k)
    ensures Live(CheckData(w, c, k, e).world, k)
  {
    if e.provider.Found? {
      PersistKeepsLive(w, c, k, w.tokens[k].status, e.provider.name, e);
      PersistKeepsLive(w, c, k, w.tokens[k].status.(metadata := None), e.provider.name, e);
    }
  }

  /**
   Main result: a reconcile puts an end to a live token exactly when the token is past its time, or
   past the grace period and still without data, no binding is linked to it, and the calls on the way
   succeed. The token stays until its finalizers are gone, with its status and its data.
   */
  lemma EndedExactlyWhen(w: World, c: Configuration, k: Key, e: TokenEnv)
    requires Live(w, k)
    ensures var t, w' := w.tokens[k], ReconcileToken(w, c, k, e).world;
            && k in w'.tokens
            && (w'.tokens[k].deleting <==>
                  && e.getOk && Protected(t, e) && e.listOk && e.deleteOk && Unlinked(w, k)
                  && (w.now - t.created > c.tokenTtl
                      || (t.status.phase == AwaitingTokenData && w.now - t.created > c.grace)))
            && (w'.tokens[k].deleting ==> w'.tokens[k].status == t.status && w'.storage == w.storage)
  {
    if e.getOk && Protected(w.tokens[k], e) {
      ReachesLifetime(w, c, k, e);
      var w1 := AtData(w, k);
      assert HasLinkedBindings(w1, k) == !Unlinked(w, k);
      DataKeepsLive(w1, c, k, e);
    }
  }

  // ----- the status of a token -----

  /** Metadata of a Ready token whose data is gone is not believed. */
  function Believed(w: World, k: Key): Option<Metadata>
    requires k in w.tokens
  {
    var s := w.tokens[k].status;
    if s.phase == Ready && k !in w.storage then None else s.metadata
  }

  /** The storage can be asked whenever it has to be. */
  predicate GetsToProvider(w: World, c: Configuration, k: Key, e: TokenEnv) {
    && GetsToData(w, c, k, e)
    && (w.tokens[k].status.phase == Ready && w.tokens[k].status.metadata.Some? ==> e.storageGetOk)
  }

  lemma ReachesProvider(w: World, c: Configuration, k: Key, e: TokenEnv)
    requires GetsToProvider(w, c, k, e)
    ensures var w1 := AtData(w, k);
            ReconcileToken(w, c, k, e)
            == CheckProvider(w1, c, k, w1.tokens[k].status.(metadata := Believed(w, k)), e)
  {
    ReachesData(w, c, k, e);
    var s := w.tokens[k].status;
    assert s.(metadata := s.metadata) == s;
  }

  /** An error is shown, and what the token is and which data there is has not changed. */
  predicate ShowsError(w: World, r: Reconciled, k: Key, phase: TokenPhase, reason: TokenReason, ending: Ending)
    requires k in w.tokens
  {
    && k in r.world.tokens && r.ending == ending && r.world.storage == w.storage
    && var s, s' := w.tokens[k].status, r.world.tokens[k].status;
       s'.phase == phase && s'.reason == reason && s'.oauthUrl == s.oauthUrl && s'.uploadUrl == s.uploadUrl
  }

  /** There is nothing to serve without a fetch. */
  predicate MustFetch(policy: Policy, m: Option<Metadata>, now: int) {
    m.None? || (policy.Ttl? && now > m.value.lastRefresh * SECOND + policy.ttl)
  }

  /** Something is wrong with the provider, with what the token asks for, or with its metadata. */
  predicate Fails(w: World, k: Key, e: TokenEnv)
    requires k in w.tokens
  {
    var m, fetched := Believed(w, k), e.encounter.fetched;
    || !e.provider.Found? || e.validation == InvalidScopes
    || (e.validation == Valid && MustFetch(e.policy, m, e.encounter.checkAt)
        && (fetched.Err? || ((m.Some? || fetched.value.Some?) && !e.encounter.persistOk)))
  }

  /** The phase, reason and ending that tell which. */
  predicate TellsCause(w: World, r: Reconciled, k: Key, e: TokenEnv)
    requires k in w.tokens
  {
    if e.provider.InvalidConfiguration? then
      ShowsError(w, r, k, Error, UnsupportedServiceProviderConfiguration, Finished)
    else if e.provider.Unknown? then ShowsError(w, r, k, Error, UnknownServiceProvider, Finished)
    else if e.validation == InvalidScopes then ShowsError(w, r, k, Invalid, UnsupportedTokenPermissions, Finished)
    else if e.encounter.fetched == Err(InvalidAccessToken) then
      ShowsError(w, r, k, Invalid, MetadataFailure, Finished)
    else ShowsError(w, r, k, Error, MetadataFailure, Retry)
  }

  lemma PersistFails(w: World, c: Configuration, k: Key, s: TokenStatus, provider: string, e: TokenEnv)
    requires Live(w, k) && s == w.tokens[k].status.(metadata := s.metadata) && e.statusOk
    requires MustFetch(e.policy, s.metadata, e.encounter.checkAt)
    requires var fetched := e.encounter.fetched;
             fetched.Err? || ((s.metadata.Some? || fetched.value.Some?) && !e.encounter.persistOk)
    ensures var r, fetched := Persist(w, c, k, s, provider, e), e.encounter.fetched;
            if fetched == Err(InvalidAccessToken) then ShowsError(w, r, k, Invalid, MetadataFailure, Finished)
            else ShowsError(w, r, k, Error, MetadataFailure, Retry)
  {
  }

  lemma ProviderFails(w: World, c: Configuration, k: Key, s: TokenStatus, e: TokenEnv)
    requires Live(w, k) && s == w.tokens[k].status.(metadata := s.metadata) && e.statusOk
    requires e.provider.Found? ==> e.validation == InvalidScopes
    ensures TellsCause(w, CheckProvider(w, c, k, s, e), k, e)
  {
  }

  /** That the finalizers have been put in place makes no difference. */
  lemma TellsCauseFrom(w: World, r: Reconciled, k: Key, e: TokenEnv)
    requires k in w.tokens && TellsCause(AtData(w, k), r, k, e)
    ensures TellsCause(w, r, k, e)
  {
  }

  /**
   Main result: the phase and the reason of a live token whose reconcile gets to its provider and
   fails there tell the cause, as long as its status can be written: a provider that is not configured
   properly or not known, permissions that the provider does not support, an access token that the
   provider refuses, or metadata that cannot be fetched or written.
   */
  lemma FailureTellsCause(w: World, c: Configuration, k: Key, e: TokenEnv)
    requires GetsToProvider(w, c, k, e) && e.statusOk && Fails(w, k, e)
    ensures TellsCause(w, ReconcileToken(w, c, k, e), k, e)
  {
    ReachesProvider(w, c, k, e);
    var w1 := AtData(w, k);
    var s := w1.tokens[k].status.(metadata := Believed(w, k));
    if e.provider.Found? && e.validation == Valid {
      PersistFails(w1, c, k, s, e.provider.name, e);
      assert CheckProvider(w1, c, k, s, e) == Persist(w1, c, k, s, e.provider.name, e);
    } else {
      ProviderFails(w1, c, k, s, e);
    }
    TellsCauseFrom(w, ReconcileToken(w, c, k, e), k, e);
  }

  // ----- success -----

  predicate HasHost(c: Configuration, t: Token) {
    t.url != "" && c.host(t.url).Some?
  }

  /** The labels do not say yet what the lookup asks for. */
  predicate Relabels(c: Configuration, t: Token, provider: string) {
    t.providerLabel != provider || (HasHost(c, t) && t.hostLabel != c.host(t.url).value)
  }

  /**
   The metadata that the status is filled from: what is believed, else what was fetched, stamped. Only
   when there is neither and the labels change, what was stored and not believed comes back.
   */
  function Final(w: World, c: Configuration, k: Key, e: TokenEnv): Option<Metadata>
    requires k in w.tokens && e.provider.Found? && !Fails(w, k, e) && e.validation == Valid
  {
    var m := Believed(w, k);
    if !MustFetch(e.policy, m, e.encounter.checkAt) then m
    else
      match e.encounter.fetched.value
      case Some(answer) => Some(answer.(lastRefresh := e.encounter.stampAt / SECOND))
      case None => if m.None? && Relabels(c, w.tokens[k], e.provider.name) then w.tokens[k].status.metadata else None
  }

  predicate NamesUser(m: Option<Metadata>) {
    m.Some? && m.value.username != ""
  }

  /** Everything up to the success status succeeds. */
  predicate Succeeds(w: World, c: Configuration, k: Key, e: TokenEnv)
    requires k in w.tokens
  {
    && e.provider.Found? && e.validation == Valid && !Fails(w, k, e) && e.statusOk
    && (Relabels(c, w.tokens[k], e.provider.name) ==> e.labelsOk)
    && (NamesUser(Final(w, c, k, e)) || e.oauthUrl.Some?)
  }

  /** Ready with the metadata if that names a user, else waiting for data with a way to get it. */
  predicate StatusTells(c: Configuration, k: Key, s: TokenStatus, m: Option<Metadata>, e: TokenEnv) {
    && s.metadata == m && s.reason == NoTokenReason && s.uploadUrl == c.baseUrl + "/token/" + k.ns + "/" + k.name
    && if NamesUser(m) then s.phase == Ready && s.oauthUrl == ""
       else s.phase == AwaitingTokenData && Some(s.oauthUrl) == e.oauthUrl
  }

  /** The labels say what the lookup asks for. */
  predicate Labelled(c: Configuration, t: Token, t': Token, provider: string) {
    && t'.url == t.url && t'.permissions == t.permissions && t'.created == t.created && !t'.deleting
    && t'.providerLabel == provider && t'.hostLabel == (if HasHost(c, t) then c.host(t.url).value else t.hostLabel)
  }

  /** A token labelled for it gets its data refreshed and loses the label; then the next visit is asked for. */
  predicate Refreshes(w: World, c: Configuration, k: Key, r: Reconciled, e: TokenEnv)
    requires k in w.tokens && k in r.world.tokens
  {
    var t, mark := w.tokens[k], r.world.tokens[k].refreshLabel;
    var next := RequeueAfter(t.created + c.tokenTtl + c.grace - w.now);
    if t.refreshLabel != "true" then r.world.storage == w.storage && mark == t.refreshLabel && r.ending == next
    else if e.refreshGetOk && e.refreshed.Some? && e.storeOk then
      && r.world.storage == w.storage[k := e.refreshed.value]
      && (if e.unlabelOk then mark == "" && r.ending == next else mark == "true" && r.ending == Retry)
    else r.world.storage == w.storage && mark == "true" && r.ending == Retry
  }

  predicate EndsWell(w: World, c: Configuration, k: Key, r: Reconciled, provider: string, m: Option<Metadata>,
      e: TokenEnv)
    requires k in w.tokens
  {
    && k in r.world.tokens && StatusTells(c, k, r.world.tokens[k].status, m, e)
    && Labelled(c, w.tokens[k], r.world.tokens[k], provider) && Refreshes(w, c, k, r, e)
  }

  lemma SucceedEndsWell(w: World, c: Configuration, k: Key, s: TokenStatus, provider: string, e: TokenEnv)
    requires Live(w, k) && !Relabels(c, w.tokens[k], provider) && e.statusOk
    requires NamesUser(s.metadata) || e.oauthUrl.Some?
    ensures EndsWell(w, c, k, SucceedWith(w, c, k, s, e), provider, s.metadata, e)
  {
  }

  lemma EndsWellFrom(w: World, w1: World, c: Configuration, k: Key, r: Reconciled, provider: string,
      m: Option<Metadata>, e: TokenEnv)
    requires Live(w, k) && Live(w1, k) && w1 == w.(tokens := w1.tokens)
    requires w1.tokens[k] == w.tokens[k].(status := w1.tokens[k].status, finalizers := w1.tokens[k].finalizers,
               providerLabel := w1.tokens[k].providerLabel, hostLabel := w1.tokens[k].hostLabel)
    requires !HasHost(c, w.tokens[k]) ==> w1.tokens[k].hostLabel == w.tokens[k].hostLabel
    requires EndsWell(w1, c, k, r, provider, m, e)
    ensures EndsWell(w, c, k, r, provider, m, e)
  {
  }

  lemma LabelEndsWell(w: World, c: Configuration, k: Key, s: TokenStatus, provider: string, e: TokenEnv)
    requires Live(w, k) && e.statusOk && (Relabels(c, w.tokens[k], provider) ==> e.labelsOk)
    requires var m := if Relabels(c, w.tokens[k], provider) then w.tokens[k].status.metadata else s.metadata;
             NamesUser(m) || e.oauthUrl.Some?
    ensures var m := if Relabels(c, w.tokens[k], provider) then w.tokens[k].status.metadata else s.metadata;
            EndsWell(w, c, k, LabelAndSucceed(w, c, k, s, provider, e), provider, m, e)
  {
    var t := w.tokens[k];
    var labelled := EnsuredLabels(c, t, provider);
    if Relabels(c, t, provider) {
      var w1 := UpdateToken(w, k, labelled);
      SucceedEndsWell(w1, c, k, t.status, provider, e);
      EndsWellFrom(w, w1, c, k, SucceedWith(w1, c, k, t.status, e), provider, t.status.metadata, e);
      assert LabelAndSucceed(w, c, k, s, provider, e) == SucceedWith(w1, c, k, t.status, e);
    } else {
      assert labelled == t;
      SucceedEndsWell(w, c, k, s, provider, e);
    }
  }

  lemma WriteEndsWell(w: World, c: Configuration, k: Key, s: TokenStatus, provider: string, e: TokenEnv)
    requires Live(w, k) && e.statusOk && (Relabels(c, w.tokens[k], provider) ==> e.labelsOk)
    requires NamesUser(s.metadata) || e.oauthUrl.Some?
    ensures var r := LabelAndSucceed(UpdateTokenStatus(w, k, s), c, k, s, provider, e);
            EndsWell(w, c, k, r, provider, s.metadata, e)
  {
    var w1 := UpdateTokenStatus(w, k, s);
    LabelEndsWell(w1, c, k, s, provider, e);
    EndsWellFrom(w, w1, c, k, LabelAndSucceed(w1, c, k, s, provider, e), provider, s.metadata, e);
  }

  lemma PersistEndsWell(w: World, c: Configuration, k: Key, e: TokenEnv)
    requires Live(w, k) && Succeeds(w, c, k, e)
    ensures var s, provider := w.tokens[k].status.(metadata := Believed(w, k)), e.provider.name;
            EndsWell(w, c, k, Persist(w, c, k, s, provider, e), provider, Final(w, c, k, e), e)
  {
    var s, provider := w.tokens[k].status.(metadata := Believed(w, k)), e.provider.name;
    match Decide(e.policy, s.metadata, e.encounter)
    case Serve => LabelEndsWell(w, c, k, s, provider, e);
    case NothingThere => LabelEndsWell(w, c, k, s.(metadata := None), provider, e);
    case Write(m) => WriteEndsWell(w, c, k, s.(metadata := m), provider, e);
    case FetchFailed(_) =>
  }

  lemma AtDataSucceeds(w: World, c: Configuration, k: Key, e: TokenEnv)
    requires Live(w, k) && Succeeds(w, c, k, e)
    ensures var w1 := AtData(w, k); Succeeds(w1, c, k, e) && Final(w1, c, k, e) == Final(w, c, k, e)
  {
  }

  /**
   Main result: a live token whose reconcile gets through is Ready exactly when the metadata believed or
   fetched names a user, and shows that metadata; else it waits for data. Either way the lookup of its
   namespace finds it as a candidate for its provider and host, and it is refreshed if it asks for that.
   */
  lemma SuccessTellsMetadata(w: World, c: Configuration, k: Key, e: TokenEnv)
    requires GetsToProvider(w, c, k, e) && Succeeds(w, c, k, e)
    ensures var t, r := w.tokens[k], ReconcileToken(w, c, k, e);
            && EndsWell(w, c, k, r, e.provider.name, Final(w, c, k, e), e)
            && (HasHost(c, t) ==> BR.IsCandidate(r.world, k.ns, e.provider.name, c.host(t.url).value, k.name))
  {
    ReachesProvider(w, c, k, e);
    AtDataSucceeds(w, c, k, e);
    var w1 := AtData(w, k);
    PersistEndsWell(w1, c, k, e);
    var s := w1.tokens[k].status.(metadata := Believed(w, k));
    assert ReconcileToken(w, c, k, e) == Persist(w1, c, k, s, e.provider.name, e);
    EndsWellFrom(w, w1, c, k, ReconcileToken(w, c, k, e), e.provider.name, Final(w, c, k, e), e);
  }

  /**
   A finding: a Ready token whose data is gone, and for which the provider finds nothing, is to wait for
   data again. It stays Ready through a reconcile that changes its labels, because the update of the
   labels brings the metadata that was not believed back from the cluster.
   */
  lemma StaysReadyWithoutDataExactlyWhen(w: World, c: Configuration, k: Key, e: TokenEnv)
    requires GetsToProvider(w, c, k, e) && Succeeds(w, c, k, e)
    requires w.tokens[k].status.phase == Ready && NamesUser(w.tokens[k].status.metadata)
    requires k !in w.storage && e.encounter.fetched == Ok(None)
    ensures var w' := ReconcileToken(w, c, k, e).world;
            k in w'.tokens && (w'.tokens[k].status.phase == Ready <==> Relabels(c, w.tokens[k], e.provider.name))
  {
    SuccessTellsMetadata(w, c, k, e);
  }
}
