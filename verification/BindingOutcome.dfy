// What a reconcile leaves behind of a live binding that gets through to its link: whether it is
// injected, waits for data or is in error, and what is synced for it.
module BindingOutcome {
  import opened Core
  import opened Cluster
  import opened Perms = Permissions
  import opened BindingReconciler
  import BP = BindingProgress
  import BS = BindingSafety
  import MC = MetadataCache

  // ----- getting to the link -----

  /** Of a Quay binding no area is one of the two old ones. */
  predicate InPresentAreas(b: Binding, provider: string) {
    provider == "Quay" ==>
      forall p :: p in b.permissions.required ==> p.area != Repository && p.area != RepositoryMetadata
  }

  /** Nothing before the lifetime check ends the reconcile of the binding. */
  predicate GetsToLifetime(w: World, c: Configuration, k: Key, e: BindingEnv) {
    && e.getOk && k in w.bindings && !w.bindings[k].deleting
    && var b := w.bindings[k];
       && c.host(b.repoUrl).Some? && c.host(b.repoUrl).value != ""
       && e.provider.Found? && InPresentAreas(b, e.provider.name)
       && (LinkedSecrets in b.finalizers ==> e.migrateOk)
       && (LinkedSecrets !in b.finalizers && LinkedObjects !in b.finalizers ==> e.finalizersOk)
  }

  /** Nor does its lifetime. */
  predicate GetsToSpec(w: World, c: Configuration, k: Key, e: BindingEnv) {
    && GetsToLifetime(w, c, k, e)
    && !BP.RefusedLifetime(c, w.bindings[k].lifetime) && !BP.LivedOut(c, w.bindings[k], w.now)
  }

  /** Nor what it asks for. */
  predicate GetsToLink(w: World, c: Configuration, k: Key, e: BindingEnv) {
    GetsToSpec(w, c, k, e) && e.consistent && e.validation == Valid
  }

  /** By then the finalizer of the binding is in its present form, and nothing else has been written. */
  function AtLink(w: World, k: Key): World
    requires k in w.bindings
  {
    var b := w.bindings[k];
    w.(bindings := w.bindings[k := b.(finalizers := b.finalizers - {LinkedSecrets} + {LinkedObjects})])
  }

  /** In memory a new binding has a phase by then. */
  function CopyAtLink(b: Binding): Binding {
    b.(status := if b.status.phase == NoBindingPhase then b.status.(phase := AwaitingData) else b.status)
  }

  lemma LifetimeToSpec(w: World, c: Configuration, k: Key, e: BindingEnv)
    requires k in w.bindings && !w.bindings[k].deleting && e.provider.Found?
    requires FoundReady(w.tokens, k.ns, e.lookup.found)
    requires !BP.RefusedLifetime(c, w.bindings[k].lifetime) && !BP.LivedOut(c, w.bindings[k], w.now)
    ensures CheckLifetime(w, c, k, e) == CheckSpec(w, c, k, LifetimeOf(c, w.bindings[k].lifetime), e)
  {
  }

  lemma FinalizersToLifetime(w: World, c: Configuration, k: Key, e: BindingEnv)
    requires k in w.bindings && !w.bindings[k].deleting && e.provider.Found?
    requires FoundReady(w.tokens, k.ns, e.lookup.found) && LinkedSecrets !in w.bindings[k].finalizers
    requires LinkedObjects in w.bindings[k].finalizers || e.finalizersOk
    ensures FinalizeAndGoOn(w, c, k, w.bindings[k], e) == CheckLifetime(AtLink(w, k), c, k, e)
  {
    var f := w.bindings[k].finalizers;
    if LinkedObjects in f {
      assert f - {LinkedSecrets} + {LinkedObjects} == f;
      assert w.bindings == w.bindings[k := w.bindings[k]];
      assert AtLink(w, k) == w;
    } else {
      assert f - {LinkedSecrets} + {LinkedObjects} == f + {LinkedObjects};
    }
  }

  lemma ProviderToLifetime(w: World, c: Configuration, k: Key, e: BindingEnv)
    requires k in w.bindings && !w.bindings[k].deleting && e.provider.Found?
    requires FoundReady(w.tokens, k.ns, e.lookup.found) && LinkedSecrets !in w.bindings[k].finalizers
    requires LinkedObjects in w.bindings[k].finalizers || e.finalizersOk
    requires InPresentAreas(w.bindings[k], e.provider.name)
    ensures CheckProvider(w, c, k, w.bindings[k], e) == CheckLifetime(AtLink(w, k), c, k, e)
  {
    FinalizersToLifetime(w, c, k, e);
    assert CheckAreas(w, c, k, w.bindings[k], e) == FinalizeAndGoOn(w, c, k, w.bindings[k], e);
  }

  lemma MigrationToLifetime(w: World, c: Configuration, k: Key, e: BindingEnv)
    requires GetsToLifetime(w, c, k, e) && FoundReady(w.tokens, k.ns, e.lookup.found)
    requires LinkedSecrets in w.bindings[k].finalizers
    ensures MigrateFinalizers(w, c, k, e) == CheckLifetime(AtLink(w, k), c, k, e)
  {
    var b := w.bindings[k];
    var migrated := b.(finalizers := b.finalizers - {LinkedSecrets} + {LinkedObjects});
    var w1 := AtLink(w, k);
    assert MigrateFinalizers(w, c, k, e) == CheckProvider(w1, c, k, migrated, e);
    ProviderToLifetime(w1, c, k, e);
    assert AtLink(w1, k) == w1 by {
      var f := migrated.finalizers;
      assert f - {LinkedSecrets} + {LinkedObjects} == f;
      assert w1.bindings == w1.bindings[k := migrated];
    }
  }

  lemma NoMigrationToLifetime(w: World, c: Configuration, k: Key, e: BindingEnv)
    requires GetsToLifetime(w, c, k, e) && FoundReady(w.tokens, k.ns, e.lookup.found)
    requires LinkedSecrets !in w.bindings[k].finalizers
    ensures MigrateFinalizers(w, c, k, e) == CheckLifetime(AtLink(w, k), c, k, e)
  {
    ProviderToLifetime(w, c, k, e);
    assert MigrateFinalizers(w, c, k, e) == CheckProvider(w, c, k, w.bindings[k], e);
  }

  lemma ReachesLifetime(w: World, c: Configuration, k: Key, e: BindingEnv)
    requires Plausible(w, c, k, e) && GetsToLifetime(w, c, k, e)
    ensures FoundReady(w.tokens, k.ns, e.lookup.found)
    ensures ReconcileBinding(w, c, k, e) == CheckLifetime(AtLink(w, k), c, k, e)
  {
    PlausibleFindsReady(w, c, k, e);
    if LinkedSecrets in w.bindings[k].finalizers {
      MigrationToLifetime(w, c, k, e);
    } else {
      NoMigrationToLifetime(w, c, k, e);
    }
  }

  lemma ReachesLink(w: World, c: Configuration, k: Key, e: BindingEnv)
    requires Plausible(w, c, k, e) && GetsToLink(w, c, k, e)
    ensures FoundReady(w.tokens, k.ns, e.lookup.found)
    ensures var w1 := AtLink(w, k);
            ReconcileBinding(w, c, k, e)
            == LinkAndSync(w1, c, k, CopyAtLink(w1.bindings[k]), LifetimeOf(c, w.bindings[k].lifetime), e)
  {
    ReachesLifetime(w, c, k, e);
    LifetimeToSpec(AtLink(w, k), c, k, e);
  }

  // ----- getting linked -----

  /** The token that the binding ends up linked to. */
  function Target(b: Binding, e: BindingEnv): string
    requires e.lookup.found.Some?
  {
    var found := e.lookup.found.value;
    if b.status.linked in found then b.status.linked
    else if found != [] then found[0]
    else if b.status.linked != "" then b.status.linked
    else e.newName
  }

  /** The lookup and the writes that the link takes succeed. */
  predicate GetsLinked(w: World, k: Key, e: BindingEnv)
    requires k in w.bindings
  {
    var b := w.bindings[k];
    && e.lookup.found.Some?
    && (e.lookup.found == Some([]) ==>
          if b.status.linked != "" then e.tokenGetOk && Key(k.ns, b.status.linked) in w.tokens
          else e.baseUrlOk && e.createOk)
    && (b.link != Target(b, e) ==> e.labelOk) && (b.status.linked != Target(b, e) ==> e.linkStatusOk)
  }

  /** The lookup refreshed the metadata of some tokens of the namespace. */
  function MetadataAtLink(w: World, k: Key, e: BindingEnv, j: Key): Option<MC.Metadata>
    requires j in w.tokens
  {
    if j.ns == k.ns && j.name in e.lookup.written then e.lookup.written[j.name] else w.tokens[j].status.metadata
  }

  /** Nothing else has changed in the tokens; one is new when nothing matches and nothing was linked. */
  predicate TokensAtLink(w: World, tokens: map<Key, Token>, k: Key, e: BindingEnv)
    requires k in w.bindings && e.provider.Found?
  {
    var b, n := w.bindings[k], Key(k.ns, e.newName);
    var created := e.lookup.found == Some([]) && b.status.linked == "";
    && tokens.Keys == w.tokens.Keys + (if created then {n} else {})
    && (forall j :: j in w.tokens && (created ==> j != n) ==>
          tokens[j] == w.tokens[j].(status := w.tokens[j].status.(metadata := MetadataAtLink(w, k, e, j))))
    && (created ==>
          var t := tokens[n];
          && !t.deleting && t.created == w.now && t.finalizers == {} && t.url == e.provider.baseUrl
          && t.permissions == b.permissions && t.status == NEW_TOKEN_STATUS)
  }

  predicate SameSync(s: BindingStatus, s': BindingStatus) {
    s'.synced == s.synced && s'.accounts == s.accounts
  }

  predicate LinkedAtLink(w: World, r: Linking, k: Key, e: BindingEnv)
    requires k in w.bindings && e.provider.Found? && e.lookup.found.Some?
  {
    && r.Linked? && r.token == Target(w.bindings[k], e) && Key(k.ns, r.token) in r.world.tokens
    && r.matching == !(e.lookup.found == Some([]) && w.bindings[k].status.linked != "")
    && k in r.world.bindings && r.world.bindings[k].link == r.token && r.memory.status.linked == r.token
    && r.world.bindings[k].status.linked == r.token
    && SameSync(w.bindings[k].status, r.memory.status)
    && SameSync(w.bindings[k].status, r.world.bindings[k].status)
    && r.world.bindings[k].created == w.bindings[k].created
    && r.world.dependents == w.dependents && r.world.now == w.now && TokensAtLink(w, r.world.tokens, k, e)
  }

  lemma PersistLinks(w: World, k: Key, b: Binding, token: string, matching: bool, e: BindingEnv)
    requires BS.InMemory(w, k, b) && !b.deleting && Key(k.ns, token) in w.tokens
    requires SameSync(w.bindings[k].status, b.status)
    requires (b.link != token ==> e.labelOk) && (b.status.linked != token ==> e.linkStatusOk)
    ensures var r := PersistLink(w, k, b, token, matching, e);
            && r.Linked? && r.matching == matching && r.world.tokens == w.tokens && r.world.dependents == w.dependents
            && r.world.now == w.now && r.world.bindings[k].created == w.bindings[k].created
            && r.world.bindings[k].link == token && r.world.bindings[k].status.linked == token
            && r.memory.status.linked == token && SameSync(b.status, r.memory.status)
            && SameSync(b.status, r.world.bindings[k].status)
  {
  }

  lemma MetadataWritten(w: World, k: Key, e: BindingEnv)
    requires k in w.bindings && e.provider.Found? && GetsLinked(w, k, e)
    requires FoundReady(w.tokens, k.ns, e.lookup.found)
    ensures var w1 := WriteMetadata(w, k.ns, e.lookup.written);
            && w1 == w.(tokens := w1.tokens) && w1.tokens.Keys == w.tokens.Keys && GetsLinked(w1, k, e)
            && FoundReady(w1.tokens, k.ns, e.lookup.found)
            && forall j :: j in w.tokens ==>
                 w1.tokens[j] == w.tokens[j].(status := w.tokens[j].status.(metadata := MetadataAtLink(w, k, e, j)))
  {
  }

  lemma GetsPicked(w: World, c: Configuration, k: Key, b: Binding, e: BindingEnv)
    requires BS.InMemory(w, k, b) && e.provider.Found? && GetsLinked(w, k, e)
    requires FoundReady(w.tokens, k.ns, e.lookup.found)
    requires forall j :: j in w.tokens ==> w.tokens[j].status.metadata == MetadataAtLink(w, k, e, j)
    ensures var p := PickToken(w, c, k, b, e);
            && p.Picked? && p.token == Target(w.bindings[k], e)
            && p.matching == !(e.lookup.found == Some([]) && w.bindings[k].status.linked != "")
            && p.world == w.(tokens := p.world.tokens, minted := p.world.minted)
            && TokensAtLink(w, p.world.tokens, k, e)
  {
  }

  lemma TokensAtLinkFrom(w: World, w1: World, tokens: map<Key, Token>, k: Key, e: BindingEnv)
    requires k in w.bindings && e.provider.Found? && w1 == w.(tokens := w1.tokens) && w1.tokens.Keys == w.tokens.Keys
    requires forall j :: j in w.tokens ==>
               w1.tokens[j] == w.tokens[j].(status := w.tokens[j].status.(metadata := MetadataAtLink(w, k, e, j)))
    requires TokensAtLink(w1, tokens, k, e)
    ensures TokensAtLink(w, tokens, k, e)
  {
  }

  lemma LinkTokenLinks(w: World, c: Configuration, k: Key, b: Binding, e: BindingEnv)
    requires BS.InMemory(w, k, b) && !b.deleting && e.provider.Found? && GetsLinked(w, k, e)
    requires FoundReady(w.tokens, k.ns, e.lookup.found) && SameSync(w.bindings[k].status, b.status)
    ensures LinkedAtLink(w, LinkToken(w, c, k, b, e), k, e)
  {
    MetadataWritten(w, k, e);
    var w1 := WriteMetadata(w, k.ns, e.lookup.written);
    GetsPicked(w1, c, k, b, e);
    var p := PickToken(w1, c, k, b, e);
    TokensAtLinkFrom(w, w1, p.world.tokens, k, e);
    PersistLinks(p.world, k, b, p.token, p.matching, e);
  }

  // ----- syncing -----

  /** An error is recorded, and nothing else has happened to what is synced. */
  predicate InError(w: World, w': World, k: Key, reason: BindingReason)
    requires k in w.bindings && k in w'.bindings
  {
    var s, s' := w.bindings[k].status, w'.bindings[k].status;
    && s'.phase == BindingError && s'.reason == reason && s'.synced == s.synced && s'.accounts == s.accounts
    && Dependents(w', k) == Dependents(w, k)
  }

  /** What was synced is there, and the status tells it. */
  predicate InjectedWith(w': World, k: Key, secret: string, objects: set<string>, accounts: seq<string>)
    requires k in w'.bindings
  {
    var s' := w'.bindings[k].status;
    && s'.phase == Injected && s'.reason == NoBindingReason && s'.synced == secret && s'.accounts == accounts
    && Dependents(w', k) == objects
  }

  predicate AwaitsData(w': World, k: Key)
    requires k in w'.bindings
  {
    var s' := w'.bindings[k].status;
    && s'.phase == AwaitingData && s'.reason == NoBindingReason && s'.synced == "" && s'.accounts == []
    && Dependents(w', k) == {}
  }

  /** Every call from the link on succeeds, but for the sync itself. */
  predicate GetsSynced(e: BindingEnv) {
    e.checkpointOk && e.statusOk && e.revertOk && e.cleanupOk && e.errorStatusOk
  }

  /**
   How the reconcile of a binding linked to t ends, with everything after the link but the sync
   successful; next is when the binding is to be looked at again.
   */
  predicate Concludes(w: World, r: Reconciled, k: Key, t: Token, matching: bool, next: Ending, e: BindingEnv)
    requires k in w.bindings && k in r.world.bindings
  {
    var s' := r.world.bindings[k].status;
    if t.status.phase == Ready && !matching then
      InError(w, r.world, k, LinkedToken) && s'.oauthUrl == "" && r.ending == Finished
    else
      && s'.oauthUrl == t.status.oauthUrl && s'.uploadUrl == t.status.uploadUrl
      && if t.status.phase != Ready || e.sync.DataNotFound? then AwaitsData(r.world, k) && r.ending == next
         else if e.sync.SyncFailed? then InError(w, r.world, k, SyncReason(e.sync.reason)) && r.ending == Retry
         else InjectedWith(r.world, k, e.sync.secret, e.sync.objects, e.sync.accounts) && r.ending == next
  }

  lemma SettleConcludes(w: World, c: Configuration, k: Key, s: BindingStatus, lifetime: Lifetime,
      checkpoint: set<string>, e: BindingEnv)
    requires k in w.bindings && GetsSynced(e)
    ensures var r := Settle(w, c, k, s, lifetime, checkpoint, e);
            && r.world == w.(bindings := r.world.bindings, dependents := r.world.dependents)
            && k in r.world.bindings
            && r.world.bindings[k] == w.bindings[k].(status := s.(reason := NoBindingReason))
            && Dependents(r.world, k) == (if s.phase == Injected then Dependents(w, k) else {})
            && r.ending == Schedule(w, c, k, lifetime)
  {
  }

  /** What the sync leaves in the status, apart from the link. */
  predicate SyncedFrom(w: World, r: Reconciled, k: Key, s: BindingStatus)
    requires k in w.bindings && k in r.world.bindings
  {
    && r.world.tokens == w.tokens && r.world.bindings[k] == w.bindings[k].(status := r.world.bindings[k].status)
    && r.world.bindings[k].status.linked == s.linked
  }

  lemma SyncedConcludes(w: World, c: Configuration, k: Key, s: BindingStatus, t: Token, lifetime: Lifetime,
      e: BindingEnv)
    requires k in w.bindings && GetsSynced(e) && t.status.phase == Ready && e.sync.Synced?
    requires s.oauthUrl == t.status.oauthUrl && s.uploadUrl == t.status.uploadUrl
    ensures var r := SyncDependents(w, c, k, s, true, lifetime, e);
            && k in r.world.bindings && SyncedFrom(w, r, k, s)
            && Concludes(w, r, k, t, true, Schedule(w, c, k, lifetime), e)
  {
    var s1 := s.(phase := Injected, synced := e.sync.secret, accounts := e.sync.accounts);
    var w1 := SetDependents(w, k, e.sync.objects);
    SettleConcludes(w1, c, k, s1, lifetime, Dependents(w, k), e);
    assert SyncDependents(w, c, k, s, true, lifetime, e) == Settle(w1, c, k, s1, lifetime, Dependents(w, k), e);
  }

  lemma NoDataConcludes(w: World, c: Configuration, k: Key, s: BindingStatus, t: Token, lifetime: Lifetime,
      e: BindingEnv)
    requires k in w.bindings && GetsSynced(e) && t.status.phase == Ready && e.sync.DataNotFound?
    requires s.oauthUrl == t.status.oauthUrl && s.uploadUrl == t.status.uploadUrl
    ensures var r := SyncDependents(w, c, k, s, true, lifetime, e);
            && k in r.world.bindings && SyncedFrom(w, r, k, s)
            && Concludes(w, r, k, t, true, Schedule(w, c, k, lifetime), e)
  {
    var w1 := SetDependents(w, k, e.sync.partial);
    SettleConcludes(w1, c, k, Awaiting(s), lifetime, Dependents(w, k), e);
    assert SyncDependents(w, c, k, s, true, lifetime, e)
           == Settle(w1, c, k, Awaiting(s), lifetime, Dependents(w, k), e);
  }

  lemma FailedSyncConcludes(w: World, c: Configuration, k: Key, s: BindingStatus, t: Token, lifetime: Lifetime,
      e: BindingEnv)
    requires k in w.bindings && GetsSynced(e) && SameSync(w.bindings[k].status, s)
    requires t.status.phase == Ready && e.sync.SyncFailed?
    requires s.oauthUrl == t.status.oauthUrl && s.uploadUrl == t.status.uploadUrl
    ensures var r := SyncDependents(w, c, k, s, true, lifetime, e);
            && k in r.world.bindings && SyncedFrom(w, r, k, s)
            && Concludes(w, r, k, t, true, Schedule(w, c, k, lifetime), e)
  {
  }

  lemma SyncReadyConcludes(w: World, c: Configuration, k: Key, s: BindingStatus, t: Token, lifetime: Lifetime,
      e: BindingEnv)
    requires k in w.bindings && GetsSynced(e) && SameSync(w.bindings[k].status, s) && t.status.phase == Ready
    requires s.oauthUrl == t.status.oauthUrl && s.uploadUrl == t.status.uploadUrl
    ensures var r := SyncDependents(w, c, k, s, true, lifetime, e);
            && k in r.world.bindings && SyncedFrom(w, r, k, s)
            && Concludes(w, r, k, t, true, Schedule(w, c, k, lifetime), e)
  {
    if e.sync.Synced? {
      SyncedConcludes(w, c, k, s, t, lifetime, e);
    } else if e.sync.DataNotFound? {
      NoDataConcludes(w, c, k, s, t, lifetime, e);
    } else {
      FailedSyncConcludes(w, c, k, s, t, lifetime, e);
    }
  }

  lemma SyncWaitingConcludes(w: World, c: Configuration, k: Key, s: BindingStatus, t: Token, matching: bool,
      lifetime: Lifetime, e: BindingEnv)
    requires k in w.bindings && GetsSynced(e) && SameSync(w.bindings[k].status, s) && t.status.phase != Ready
    requires s.oauthUrl == t.status.oauthUrl && s.uploadUrl == t.status.uploadUrl
    ensures var r := SyncDependents(w, c, k, s, false, lifetime, e);
            && k in r.world.bindings && SyncedFrom(w, r, k, s)
            && Concludes(w, r, k, t, matching, Schedule(w, c, k, lifetime), e)
  {
    SettleConcludes(w, c, k, Awaiting(s), lifetime, Dependents(w, k), e);
  }

  lemma SyncConcludes(w: World, c: Configuration, k: Key, s: BindingStatus, t: Token, matching: bool,
      lifetime: Lifetime, e: BindingEnv)
    requires k in w.bindings && GetsSynced(e) && SameSync(w.bindings[k].status, s)
    ensures var r := SyncWithToken(w, c, k, s, t, matching, lifetime, e);
            && k in r.world.bindings && SyncedFrom(w, r, k, s)
            && Concludes(w, r, k, t, matching, Schedule(w, c, k, lifetime), e)
  {
    var s1 := s.(oauthUrl := t.status.oauthUrl, uploadUrl := t.status.uploadUrl);
    if t.status.phase != Ready {
      SyncWaitingConcludes(w, c, k, s1, t, matching, lifetime, e);
    } else if matching {
      SyncReadyConcludes(w, c, k, s1, t, lifetime, e);
    }
  }

  // ----- the whole reconcile -----

  /** Linked to the target and concluded accordingly. */
  predicate EndsLinked(w: World, r: Reconciled, k: Key, next: Ending, e: BindingEnv)
    requires k in w.bindings && e.provider.Found? && e.lookup.found.Some?
  {
    var b, w' := w.bindings[k], r.world;
    var target := Key(k.ns, Target(b, e));
    && k in w'.bindings && target in w'.tokens && TokensAtLink(w, w'.tokens, k, e)
    && w'.bindings[k].link == target.name && w'.bindings[k].status.linked == target.name
    && Concludes(w, r, k, w'.tokens[target], b.status.linked == "" || e.lookup.found != Some([]), next, e)
  }

  lemma ConcludesFrom(w: World, w1: World, r: Reconciled, k: Key, t: Token, matching: bool, next: Ending, e: BindingEnv)
    requires k in w.bindings && k in w1.bindings && k in r.world.bindings
    requires SameSync(w.bindings[k].status, w1.bindings[k].status) && Dependents(w1, k) == Dependents(w, k)
    requires Concludes(w1, r, k, t, matching, next, e)
    ensures Concludes(w, r, k, t, matching, next, e)
  {
  }

  lemma LinkedConcludes(w: World, c: Configuration, k: Key, linking: Linking, lifetime: Lifetime, e: BindingEnv)
    requires k in w.bindings && e.provider.Found? && e.lookup.found.Some? && LinkedAtLink(w, linking, k, e)
    requires GetsSynced(e)
    ensures var t := linking.world.tokens[Key(k.ns, linking.token)];
            var r := SyncWithToken(linking.world, c, k, linking.memory.status, t, linking.matching, lifetime, e);
            EndsLinked(w, r, k, Schedule(w, c, k, lifetime), e)
  {
    var t := linking.world.tokens[Key(k.ns, linking.token)];
    SyncConcludes(linking.world, c, k, linking.memory.status, t, linking.matching, lifetime, e);
    var r := SyncWithToken(linking.world, c, k, linking.memory.status, t, linking.matching, lifetime, e);
    ConcludesFrom(w, linking.world, r, k, t, linking.matching, Schedule(linking.world, c, k, lifetime), e);
  }

  lemma LinkAndSyncConcludes(w: World, c: Configuration, k: Key, b: Binding, lifetime: Lifetime, e: BindingEnv)
    requires BS.InMemory(w, k, b) && !b.deleting && e.provider.Found? && GetsLinked(w, k, e)
    requires FoundReady(w.tokens, k.ns, e.lookup.found) && SameSync(w.bindings[k].status, b.status) && GetsSynced(e)
    ensures EndsLinked(w, LinkAndSync(w, c, k, b, lifetime, e), k, Schedule(w, c, k, lifetime), e)
  {
    LinkTokenLinks(w, c, k, b, e);
    LinkedConcludes(w, c, k, LinkToken(w, c, k, b, e), lifetime, e);
  }

  /** The finalizers that have been written by the link make no difference. */
  lemma TokensFromLink(w: World, tokens: map<Key, Token>, k: Key, e: BindingEnv)
    requires k in w.bindings && e.provider.Found? && TokensAtLink(AtLink(w, k), tokens, k, e)
    ensures TokensAtLink(w, tokens, k, e)
  {
  }

  lemma EndsLinkedFrom(w: World, r: Reconciled, k: Key, next: Ending, e: BindingEnv)
    requires k in w.bindings && e.provider.Found? && e.lookup.found.Some? && EndsLinked(AtLink(w, k), r, k, next, e)
    ensures EndsLinked(w, r, k, next, e)
  {
    TokensFromLink(w, r.world.tokens, k, e);
    var b := w.bindings[k];
    var t := r.world.tokens[Key(k.ns, Target(b, e))];
    ConcludesFrom(w, AtLink(w, k), r, k, t, b.status.linked == "" || e.lookup.found != Some([]), next, e);
  }

  /** When a binding with this lifetime is to be looked at again. */
  predicate IsNextVisit(c: Configuration, b: Binding, now: int, next: Ending) {
    if b.lifetime == "-1" then next == Finished
    else if b.lifetime == "" then next == RequeueAfter(b.created + c.bindingTtl + c.grace - now)
    else
      && c.parseDuration(b.lifetime).Some?
      && next == RequeueAfter(b.created + c.parseDuration(b.lifetime).value + c.grace - now)
  }

  predicate PhaseTells(w: World, r: Reconciled, k: Key, e: BindingEnv)
    requires k in w.bindings && k in r.world.bindings && e.lookup.found.Some?
    requires Key(k.ns, Target(w.bindings[k], e)) in r.world.tokens
  {
    var b := w.bindings[k];
    var ready := r.world.tokens[Key(k.ns, Target(b, e))].status.phase == Ready;
    var matching := b.status.linked == "" || e.lookup.found != Some([]);
    var phase := r.world.bindings[k].status.phase;
    && (phase == Injected <==> ready && matching && e.sync.Synced?)
    && (phase == AwaitingData <==> !ready || (matching && e.sync.DataNotFound?))
  }

  lemma EndsLinkedTells(w: World, r: Reconciled, k: Key, next: Ending, e: BindingEnv)
    requires k in w.bindings && e.provider.Found? && e.lookup.found.Some? && EndsLinked(w, r, k, next, e)
    ensures PhaseTells(w, r, k, e)
  {
  }

  lemma ScheduledForNextVisit(w: World, c: Configuration, k: Key)
    requires k in w.bindings && !BP.RefusedLifetime(c, w.bindings[k].lifetime)
    ensures IsNextVisit(c, w.bindings[k], w.now, Schedule(AtLink(w, k), c, k, LifetimeOf(c, w.bindings[k].lifetime)))
  {
  }

  /**
   Main result: a live binding whose reconcile gets through the link, with everything after it but
   the sync successful, ends up linked to its target. When that token is Ready and matches, and its
   data is there and was synced, the binding is injected with exactly what was synced. When it is
   not Ready or has no data, the binding waits for data and nothing is synced for it. A sync that
   fails and a Ready token that does not match are errors, which leave what was synced as it was.
   */
  lemma InjectedExactlyWhen(w: World, c: Configuration, k: Key, e: BindingEnv)
    requires Plausible(w, c, k, e) && GetsToLink(w, c, k, e) && GetsLinked(w, k, e) && GetsSynced(e)
    ensures var b, r := w.bindings[k], ReconcileBinding(w, c, k, e);
            exists next :: IsNextVisit(c, b, w.now, next) && EndsLinked(w, r, k, next, e) && PhaseTells(w, r, k, e)
  {
    ReachesLink(w, c, k, e);
    var w1, lifetime := AtLink(w, k), LifetimeOf(c, w.bindings[k].lifetime);
    LinkAndSyncConcludes(w1, c, k, CopyAtLink(w1.bindings[k]), lifetime, e);
    var r, next := ReconcileBinding(w, c, k, e), Schedule(w1, c, k, lifetime);
    EndsLinkedFrom(w, r, k, next, e);
    EndsLinkedTells(w, r, k, next, e);
    ScheduledForNextVisit(w, c, k);
    assert IsNextVisit(c, w.bindings[k], w.now, next) && EndsLinked(w, r, k, next, e);
  }

  // ----- errors -----

  /** Parsed neither as it is nor with a scheme in front, or without a host both times. */
  predicate HasNoProperUrl(c: Configuration, url: string) {
    || c.host(url).None?
    || (c.host(url).value == "" && (c.host("https://" + url).None? || c.host("https://" + url).value == ""))
  }

  /** Nothing but the status has changed, apart from the form of the finalizer. */
  predicate EndsInError(w: World, r: Reconciled, k: Key, reason: BindingReason, ending: Ending)
    requires k in w.bindings
  {
    && k in r.world.bindings && InError(w, r.world, k, reason) && r.ending == ending && r.world.tokens == w.tokens
    && r.world.bindings[k].link == w.bindings[k].link
    && r.world.bindings[k].status.linked == w.bindings[k].status.linked
  }

  lemma ProviderErrors(w: World, c: Configuration, k: Key, b: Binding, e: BindingEnv)
    requires k in w.bindings && b == w.bindings[k] && !b.deleting && !e.provider.Found? && e.errorStatusOk
    ensures EndsInError(w, CheckProvider(w, c, k, b, e), k,
              if e.provider.Unknown? then UnknownServiceProviderType else UnsupportedConfiguration, Finished)
  {
  }

  lemma SpecErrors(w: World, c: Configuration, k: Key, lifetime: Lifetime, e: BindingEnv)
    requires k in w.bindings && !w.bindings[k].deleting && e.provider.Found? && e.errorStatusOk
    requires FoundReady(w.tokens, k.ns, e.lookup.found)
    ensures var r := CheckSpec(w, c, k, lifetime, e);
            && (!e.consistent ==> EndsInError(w, r, k, InconsistentSpec, Finished))
            && (e.consistent && e.validation == InvalidScopes ==>
                  EndsInError(w, r, k, UnsupportedPermissions, Finished))
            && (e.consistent && e.validation == ValidationFailed ==> r == Reconciled(w, Retry))
  {
  }

  lemma EndsInErrorFrom(w: World, r: Reconciled, k: Key, reason: BindingReason, ending: Ending)
    requires k in w.bindings && EndsInError(AtLink(w, k), r, k, reason, ending)
    ensures EndsInError(w, r, k, reason, ending)
  {
  }

  lemma UrlError(w: World, c: Configuration, k: Key, e: BindingEnv)
    requires Plausible(w, c, k, e) && e.getOk && k in w.bindings && e.errorStatusOk
    requires HasNoProperUrl(c, w.bindings[k].repoUrl)
    ensures EndsInError(w, ReconcileBinding(w, c, k, e), k, UnknownServiceProviderType, Finished)
  {
  }

  lemma ProviderError(w: World, c: Configuration, k: Key, e: BindingEnv)
    requires Plausible(w, c, k, e) && e.getOk && k in w.bindings && !w.bindings[k].deleting && e.errorStatusOk
    requires c.host(w.bindings[k].repoUrl).Some? && c.host(w.bindings[k].repoUrl).value != ""
    requires !e.provider.Found? && (LinkedSecrets in w.bindings[k].finalizers ==> e.migrateOk)
    ensures EndsInError(w, ReconcileBinding(w, c, k, e), k,
              if e.provider.Unknown? then UnknownServiceProviderType else UnsupportedConfiguration, Finished)
  {
    var b := w.bindings[k];
    if LinkedSecrets in b.finalizers {
      var w1 := AtLink(w, k);
      ProviderErrors(w1, c, k, w1.bindings[k], e);
      assert MigrateFinalizers(w, c, k, e) == CheckProvider(w1, c, k, w1.bindings[k], e);
    } else {
      ProviderErrors(w, c, k, b, e);
      assert MigrateFinalizers(w, c, k, e) == CheckProvider(w, c, k, b, e);
    }
  }

  lemma LifetimeError(w: World, c: Configuration, k: Key, e: BindingEnv)
    requires Plausible(w, c, k, e) && GetsToLifetime(w, c, k, e) && e.errorStatusOk
    requires BP.RefusedLifetime(c, w.bindings[k].lifetime)
    ensures EndsInError(w, ReconcileBinding(w, c, k, e), k, InvalidLifetime, Retry)
  {
    ReachesLifetime(w, c, k, e);
    BP.LifetimeIsRefusedExactlyWhen(AtLink(w, k), c, k, e);
  }

  lemma SpecError(w: World, c: Configuration, k: Key, e: BindingEnv)
    requires Plausible(w, c, k, e) && GetsToSpec(w, c, k, e) && e.errorStatusOk
    requires !e.consistent || e.validation == InvalidScopes
    ensures EndsInError(w, ReconcileBinding(w, c, k, e), k,
              if e.consistent then UnsupportedPermissions else InconsistentSpec, Finished)
  {
    ReachesLifetime(w, c, k, e);
    LifetimeToSpec(AtLink(w, k), c, k, e);
    SpecErrors(AtLink(w, k), c, k, LifetimeOf(c, w.bindings[k].lifetime), e);
    EndsInErrorFrom(w, ReconcileBinding(w, c, k, e), k,
      if e.consistent then UnsupportedPermissions else InconsistentSpec, Finished);
  }

  /**
   Main result: the error in the status tells the first thing that was wrong with the binding, as
   long as it can be written: its URL, its provider, its lifetime, its own consistency, or what it asks for.
   */
  lemma ErrorTellsFirstCause(w: World, c: Configuration, k: Key, e: BindingEnv)
    requires Plausible(w, c, k, e) && e.getOk && k in w.bindings && !w.bindings[k].deleting && e.errorStatusOk
    ensures var b, r := w.bindings[k], ReconcileBinding(w, c, k, e);
            && (HasNoProperUrl(c, b.repoUrl) ==> EndsInError(w, r, k, UnknownServiceProviderType, Finished))
            && (c.host(b.repoUrl).Some? && c.host(b.repoUrl).value != "" && !e.provider.Found?
                && (LinkedSecrets in b.finalizers ==> e.migrateOk) ==>
                  EndsInError(w, r, k,
                    if e.provider.Unknown? then UnknownServiceProviderType else UnsupportedConfiguration, Finished))
            && (GetsToLifetime(w, c, k, e) && BP.RefusedLifetime(c, b.lifetime) ==>
                  EndsInError(w, r, k, InvalidLifetime, Retry))
            && (GetsToSpec(w, c, k, e) && (!e.consistent || e.validation == InvalidScopes) ==>
                  EndsInError(w, r, k, if e.consistent then UnsupportedPermissions else InconsistentSpec, Finished))
  {
    var url := w.bindings[k].repoUrl;
    if HasNoProperUrl(c, url) {
      UrlError(w, c, k, e);
    } else if c.host(url).Some? && c.host(url).value != "" && !e.provider.Found? {
      if LinkedSecrets in w.bindings[k].finalizers ==> e.migrateOk {
        ProviderError(w, c, k, e);
      }
    } else if GetsToLifetime(w, c, k, e) && BP.RefusedLifetime(c, w.bindings[k].lifetime) {
      LifetimeError(w, c, k, e);
    } else if GetsToSpec(w, c, k, e) && (!e.consistent || e.validation == InvalidScopes) {
      SpecError(w, c, k, e);
    }
  }

  // ----- faults at and after the link -----

  /** The reason is recorded, nothing was created and nothing else has happened to what is synced. */
  predicate EndsUnlinked(w: World, r: Reconciled, k: Key, reason: BindingReason)
    requires k in w.bindings
  {
    && k in r.world.bindings && r.ending == Retry && r.world.bindings[k].status.reason == reason
    && r.world.bindings[k].link == w.bindings[k].link
    && r.world.bindings[k].status.linked == w.bindings[k].status.linked
    && SameSync(w.bindings[k].status, r.world.bindings[k].status)
    && Dependents(r.world, k) == Dependents(w, k) && r.world.tokens.Keys == w.tokens.Keys
  }

  lemma LinkErrors(w: World, c: Configuration, k: Key, b: Binding, lifetime: Lifetime, e: BindingEnv)
    requires BS.InMemory(w, k, b) && !b.deleting && e.provider.Found? && e.errorStatusOk
    requires FoundReady(w.tokens, k.ns, e.lookup.found) && SameSync(w.bindings[k].status, b.status)
    ensures var r := LinkAndSync(w, c, k, b, lifetime, e);
            && (e.lookup.found.None? ==> EndsUnlinked(w, r, k, TokenLookup))
            && (e.lookup.found == Some([]) && b.status.linked == "" && !(e.baseUrlOk && e.createOk) ==>
                  EndsUnlinked(w, r, k, if e.baseUrlOk then LinkedToken else UnknownServiceProviderType))
  {
  }

  /** A lookup that fails, and a token that cannot be created, are recorded and link nothing. */
  lemma UnlinkedErrorTellsCause(w: World, c: Configuration, k: Key, e: BindingEnv)
    requires Plausible(w, c, k, e) && GetsToLink(w, c, k, e) && e.errorStatusOk
    ensures var r := ReconcileBinding(w, c, k, e);
            && (e.lookup.found.None? ==> EndsUnlinked(w, r, k, TokenLookup))
            && (e.lookup.found == Some([]) && w.bindings[k].status.linked == "" && !(e.baseUrlOk && e.createOk) ==>
                  EndsUnlinked(w, r, k, if e.baseUrlOk then LinkedToken else UnknownServiceProviderType))
  {
    ReachesLink(w, c, k, e);
    var w1 := AtLink(w, k);
    LinkErrors(w1, c, k, CopyAtLink(w1.bindings[k]), LifetimeOf(c, w.bindings[k].lifetime), e);
  }

  /** What each fault after the link leaves behind; ready says whether the token was Ready. */
  predicate FaultLeaves(w: World, r: Reconciled, k: Key, ready: bool, e: BindingEnv)
    requires k in w.bindings && k in r.world.bindings
  {
    var s, s' := w.bindings[k].status, r.world.bindings[k].status;
    && (!e.checkpointOk && e.errorStatusOk ==> InError(w, r.world, k, ServiceAccountUpdate) && r.ending == Retry)
    && (e.checkpointOk && !e.statusOk && e.revertOk && !(ready && e.sync.SyncFailed?) ==>
          SameSync(s, s') && Dependents(r.world, k) == Dependents(w, k) && r.ending == Retry)
    && (e.checkpointOk && e.statusOk && !e.cleanupOk && e.errorStatusOk && (!ready || e.sync.DataNotFound?) ==>
          && s'.phase == AwaitingData && s'.reason == TokenSync && s'.synced == "" && s'.accounts == []
          && Dependents(r.world, k) == e.leftover && r.ending == Retry)
  }

  /** The faults of settling, after the dependents have been changed or not. */
  lemma SettleFaults(w: World, w1: World, c: Configuration, k: Key, s: BindingStatus, lifetime: Lifetime,
      ready: bool, e: BindingEnv)
    requires k in w.bindings && (w1 == w || w1 == w.(dependents := w1.dependents)) && e.checkpointOk
    requires s.phase == Injected ==> ready && e.sync.Synced?
    requires s.phase != Injected ==> s.phase == AwaitingData && s.synced == "" && s.accounts == []
    ensures var r := Settle(w1, c, k, s, lifetime, Dependents(w, k), e);
            k in r.world.bindings && FaultLeaves(w, r, k, ready, e) && r.world.tokens == w.tokens
  {
  }

  lemma SyncReadyFaults(w: World, c: Configuration, k: Key, s: BindingStatus, lifetime: Lifetime, e: BindingEnv)
    requires k in w.bindings && e.checkpointOk
    ensures var r := SyncDependents(w, c, k, s, true, lifetime, e);
            k in r.world.bindings && FaultLeaves(w, r, k, true, e) && r.world.tokens == w.tokens
  {
    match e.sync
    case Synced(secret, objects, accounts) =>
      var s1 := s.(phase := Injected, synced := secret, accounts := accounts);
      SettleFaults(w, SetDependents(w, k, objects), c, k, s1, lifetime, true, e);
    case DataNotFound(partial) =>
      SettleFaults(w, SetDependents(w, k, partial), c, k, Awaiting(s), lifetime, true, e);
    case SyncFailed(_, _) =>
  }

  lemma SyncFaults(w: World, c: Configuration, k: Key, s: BindingStatus, ready: bool, lifetime: Lifetime, e: BindingEnv)
    requires k in w.bindings && SameSync(w.bindings[k].status, s)
    ensures var r := SyncDependents(w, c, k, s, ready, lifetime, e);
            k in r.world.bindings && FaultLeaves(w, r, k, ready, e) && r.world.tokens == w.tokens
  {
    if e.checkpointOk && ready {
      SyncReadyFaults(w, c, k, s, lifetime, e);
    } else if e.checkpointOk {
      SettleFaults(w, w, c, k, Awaiting(s), lifetime, false, e);
      assert SyncDependents(w, c, k, s, ready, lifetime, e)
             == Settle(w, c, k, Awaiting(s), lifetime, Dependents(w, k), e);
    }
  }

  lemma FaultLeavesFrom(w: World, w1: World, r: Reconciled, k: Key, ready: bool, e: BindingEnv)
    requires k in w.bindings && k in w1.bindings && k in r.world.bindings
    requires SameSync(w.bindings[k].status, w1.bindings[k].status) && Dependents(w1, k) == Dependents(w, k)
    requires FaultLeaves(w1, r, k, ready, e)
    ensures FaultLeaves(w, r, k, ready, e)
  {
  }

  lemma LinkedFaults(w: World, c: Configuration, k: Key, linking: Linking, lifetime: Lifetime, e: BindingEnv)
    requires k in w.bindings && e.provider.Found? && e.lookup.found.Some? && LinkedAtLink(w, linking, k, e)
    requires var ready := linking.world.tokens[Key(k.ns, linking.token)].status.phase == Ready;
             !ready || linking.matching
    ensures var t := linking.world.tokens[Key(k.ns, linking.token)];
            var r := SyncWithToken(linking.world, c, k, linking.memory.status, t, linking.matching, lifetime, e);
            k in r.world.bindings && FaultLeaves(w, r, k, t.status.phase == Ready, e)
            && r.world.tokens == linking.world.tokens
  {
    var t := linking.world.tokens[Key(k.ns, linking.token)];
    var s := linking.memory.status.(oauthUrl := t.status.oauthUrl, uploadUrl := t.status.uploadUrl);
    SyncFaults(linking.world, c, k, s, t.status.phase == Ready, lifetime, e);
    var r := SyncDependents(linking.world, c, k, s, t.status.phase == Ready, lifetime, e);
    FaultLeavesFrom(w, linking.world, r, k, t.status.phase == Ready, e);
  }

  lemma LinkAndSyncFaults(w: World, c: Configuration, k: Key, b: Binding, lifetime: Lifetime, e: BindingEnv)
    requires BS.InMemory(w, k, b) && !b.deleting && e.provider.Found? && GetsLinked(w, k, e)
    requires FoundReady(w.tokens, k.ns, e.lookup.found) && SameSync(w.bindings[k].status, b.status)
    requires w.bindings[k].status.linked == "" || e.lookup.found != Some([])
    ensures var r := LinkAndSync(w, c, k, b, lifetime, e);
            var target := Key(k.ns, Target(w.bindings[k], e));
            k in r.world.bindings && target in r.world.tokens
            && FaultLeaves(w, r, k, r.world.tokens[target].status.phase == Ready, e)
  {
    LinkTokenLinks(w, c, k, b, e);
    LinkedFaults(w, c, k, LinkToken(w, c, k, b, e), lifetime, e);
  }

  /**
   Main result: a fault after the link takes nothing away from a binding that it had before, as far
   as reverting succeeds, and leaves nothing half done, but for what a clean-up that fails leaves over.
   */
  lemma FaultsAfterLink(w: World, c: Configuration, k: Key, e: BindingEnv)
    requires Plausible(w, c, k, e) && GetsToLink(w, c, k, e) && GetsLinked(w, k, e)
    requires w.bindings[k].status.linked == "" || e.lookup.found != Some([])
    ensures var r := ReconcileBinding(w, c, k, e);
            var target := Key(k.ns, Target(w.bindings[k], e));
            k in r.world.bindings && target in r.world.tokens
            && FaultLeaves(w, r, k, r.world.tokens[target].status.phase == Ready, e)
  {
    ReachesLink(w, c, k, e);
    var w1 := AtLink(w, k);
    LinkAndSyncFaults(w1, c, k, CopyAtLink(w1.bindings[k]), LifetimeOf(c, w.bindings[k].lifetime), e);
    FaultLeavesFrom(w, w1, ReconcileBinding(w, c, k, e), k,
      ReconcileBinding(w, c, k, e).world.tokens[Key(k.ns, Target(w.bindings[k], e))].status.phase == Ready, e);
  }

  // ----- the end of a binding -----

  lemma ProviderKeepsLive(w: World, c: Configuration, k: Key, b: Binding, e: BindingEnv)
    requires BP.Live(w, k) && b == w.bindings[k] && (e.provider.Found? ==> FoundReady(w.tokens, k.ns, e.lookup.found))
    requires !e.provider.Found? || !InPresentAreas(b, e.provider.name)
             || (LinkedObjects !in b.finalizers && !e.finalizersOk)
    ensures BP.Live(CheckProvider(w, c, k, b, e).world, k)
  {
  }

  lemma MigrationKeepsLive(w: World, c: Configuration, k: Key, e: BindingEnv)
    requires BP.Live(w, k) && (e.provider.Found? ==> FoundReady(w.tokens, k.ns, e.lookup.found))
    requires c.host(w.bindings[k].repoUrl).Some? && c.host(w.bindings[k].repoUrl).value != "" && e.getOk
    requires !GetsToLifetime(w, c, k, e)
    ensures BP.Live(MigrateFinalizers(w, c, k, e).world, k)
  {
    var b := w.bindings[k];
    if LinkedSecrets !in b.finalizers {
      ProviderKeepsLive(w, c, k, b, e);
      assert MigrateFinalizers(w, c, k, e) == CheckProvider(w, c, k, b, e);
    } else if e.migrateOk {
      var w1 := AtLink(w, k);
      ProviderKeepsLive(w1, c, k, w1.bindings[k], e);
      assert MigrateFinalizers(w, c, k, e) == CheckProvider(w1, c, k, w1.bindings[k], e);
    }
  }

  lemma StopsBeforeLifetime(w: World, c: Configuration, k: Key, e: BindingEnv)
    requires Plausible(w, c, k, e) && BP.Live(w, k) && !GetsToLifetime(w, c, k, e)
    ensures BP.Live(ReconcileBinding(w, c, k, e).world, k)
  {
    PlausibleFindsReady(w, c, k, e);
    if e.getOk && c.host(w.bindings[k].repoUrl).Some? && c.host(w.bindings[k].repoUrl).value != "" {
      MigrationKeepsLive(w, c, k, e);
      assert ReconcileBinding(w, c, k, e) == MigrateFinalizers(w, c, k, e);
    }
  }

  lemma LivedOutIsDeleted(w: World, c: Configuration, k: Key, e: BindingEnv)
    requires BP.Live(w, k) && e.provider.Found? && FoundReady(w.tokens, k.ns, e.lookup.found)
    requires BP.LivedOut(c, w.bindings[k], w.now) && LinkedObjects in w.bindings[k].finalizers
    ensures var w' := CheckLifetime(w, c, k, e).world;
            k in w'.bindings && w'.bindings[k].deleting == e.deleteOk
  {
  }

  /**
   Main result: a reconcile puts an end to a live binding exactly when it gets to the lifetime check, the
   binding has lived out its lifetime, and deleting it succeeds; it stays until its finalizers are gone.
   */
  lemma EndedExactlyWhen(w: World, c: Configuration, k: Key, e: BindingEnv)
    requires Plausible(w, c, k, e) && BP.Live(w, k)
    ensures var w' := ReconcileBinding(w, c, k, e).world;
            && k in w'.bindings
            && (w'.bindings[k].deleting <==>
                  GetsToLifetime(w, c, k, e) && BP.LivedOut(c, w.bindings[k], w.now) && e.deleteOk)
  {
    if !GetsToLifetime(w, c, k, e) {
      StopsBeforeLifetime(w, c, k, e);
    } else {
      ReachesLifetime(w, c, k, e);
      if BP.LivedOut(c, w.bindings[k], w.now) {
        LivedOutIsDeleted(AtLink(w, k), c, k, e);
      } else {
        BP.CheckLifetimeProceeds(AtLink(w, k), c, k, e);
      }
    }
  }

  lemma FinalizerLetsGo(w: World, k: Key, b: Binding, e: BindingEnv)
    requires k in w.bindings && w.bindings[k].deleting && w.bindings[k].finalizers != {}
    requires b == CopyInMemory(w.bindings[k])
    ensures var w', f := FinalizeDeleted(w, k, b, e).world, w.bindings[k].finalizers;
            && (k !in w'.bindings <==>
                  f <= {LinkedObjects, LinkedSecrets} && e.finalizerProviderOk && e.finalCleanupOk && e.finalizersOk)
            && (k !in w'.bindings ==> Dependents(w', k) == {})
  {
    var f := w.bindings[k].finalizers;
    var left := b.finalizers - {LinkedObjects};
    assert left <= f;
    assert left == {} <==> f <= {LinkedObjects, LinkedSecrets};
    if f <= {LinkedObjects, LinkedSecrets} {
      assert LinkedObjects in b.finalizers;
    }
  }

  lemma DeletedStaysUnlessFinalized(w: World, c: Configuration, k: Key, b: Binding, e: BindingEnv)
    requires k in w.bindings && w.bindings[k].deleting && w.bindings[k].finalizers != {}
    requires b == CopyInMemory(w.bindings[k]) && (e.provider.Found? ==> FoundReady(w.tokens, k.ns, e.lookup.found))
    ensures var r := CheckProvider(w, c, k, b, e);
            if e.provider.Found? && InPresentAreas(w.bindings[k], e.provider.name) then r == FinalizeDeleted(w, k, b, e)
            else k in r.world.bindings
  {
  }

  /**
   Main result: a reconcile removes a binding exactly when it is being deleted, nobody else holds it, and the
   pass over its finalizer gets through; then nothing that was synced for it is left. (The server keeps no
   object that is being deleted and has no finalizer.)
   */
  lemma LeavesExactlyWhen(w: World, c: Configuration, k: Key, e: BindingEnv)
    requires Plausible(w, c, k, e) && k in w.bindings
    requires w.bindings[k].deleting ==> w.bindings[k].finalizers != {}
    ensures var b, w' := w.bindings[k], ReconcileBinding(w, c, k, e).world;
            && (k !in w'.bindings <==>
                  && e.getOk && b.deleting && b.finalizers <= {LinkedObjects, LinkedSecrets}
                  && c.host(b.repoUrl).Some? && c.host(b.repoUrl).value != ""
                  && e.provider.Found? && InPresentAreas(b, e.provider.name)
                  && e.finalizerProviderOk && e.finalCleanupOk && e.finalizersOk)
            && (k !in w'.bindings ==> Dependents(w', k) == {})
  {
    var b := w.bindings[k];
    PlausibleFindsReady(w, c, k, e);
    if !b.deleting {
      EndedExactlyWhen(w, c, k, e);
    } else if e.getOk && c.host(b.repoUrl).Some? && c.host(b.repoUrl).value != "" {
      assert ReconcileBinding(w, c, k, e) == CheckProvider(w, c, k, CopyInMemory(b), e);
      DeletedStaysUnlessFinalized(w, c, k, CopyInMemory(b), e);
      FinalizerLetsGo(w, k, CopyInMemory(b), e);
    }
  }
}
