// The SPIAccessTokenBinding controller (controllers/spiaccesstokenbinding_controller.go): first
// what one atomic reconcile does to the world, stage by stage, then the reconciler that does it
// in place.
module BindingReconciler {
  import opened Core
  import opened Cluster
  import opened Perms = Permissions
  import MC = MetadataCache
  import Lookup

  /**
   What the token lookup meets: whether the repository URL is parsed and the tokens are listed, the
   listed tokens with the verdicts on them, the metadata that the caches wrote while looking, and
   what came out, in the order in which it came out.
   */
  datatype LookupEnv = LookupEnv(
    listOk: bool, candidates: seq<Lookup.Candidate>, written: map<string, Option<MC.Metadata>>,
    found: Option<seq<string>>)

  /** The contract of DependentsHandler.Sync: it succeeds, or it leaves some objects behind. */
  datatype SyncOutcome =
    | Synced(secret: string, objects: set<string>, accounts: seq<string>)
    | DataNotFound(partial: set<string>)
    | SyncFailed(reason: string, partial: set<string>)

  datatype BindingEnv = BindingEnv(
    getOk: bool, urlUpdateOk: bool, migrateOk: bool, provider: ProviderOutcome, areasUpdateOk: bool,
    finalizerProviderOk: bool, finalCleanupOk: bool, finalizersOk: bool, deleteOk: bool,
    consistent: bool, validation: Validation, lookup: LookupEnv, tokenGetOk: bool,
    baseUrlOk: bool, createOk: bool, newName: string, labelOk: bool, linkStatusOk: bool, rollbackOk: bool,
    checkpointOk: bool, sync: SyncOutcome, statusOk: bool, revertOk: bool, cleanupOk: bool,
    leftover: set<string>, errorStatusOk: bool)

  /** The API server answers every request; providers, lookup and syncing may still fail. */
  predicate ApiOk(e: BindingEnv) {
    && e.getOk && e.urlUpdateOk && e.migrateOk && e.areasUpdateOk && e.finalizersOk && e.deleteOk
    && e.tokenGetOk && e.createOk && e.labelOk && e.linkStatusOk && e.statusOk && e.errorStatusOk
  }

  /** The candidates are the tokens of the namespace that carry the provider's two labels. */
  predicate IsCandidate(w: World, ns: string, provider: string, host: string, name: string) {
    var k := Key(ns, name);
    k in w.tokens && w.tokens[k].providerLabel == provider && w.tokens[k].hostLabel == host
  }

  ghost predicate ListedLookup(w: World, ns: string, provider: string, host: string, l: LookupEnv) {
    && (forall x :: x in l.candidates ==>
          IsCandidate(w, ns, provider, host, x.name) && x.ready == (w.tokens[Key(ns, x.name)].status.phase == Ready))
    && (forall name :: IsCandidate(w, ns, provider, host, name) ==> exists x :: x in l.candidates && x.name == name)
    && (forall i, j :: 0 <= i < j < |l.candidates| ==> l.candidates[i].name != l.candidates[j].name)
    && (forall name :: name in l.written ==> exists x :: x in l.candidates && x.ready && x.name == name)
    && Lookup.IsOutcome(l.candidates, l.found)
  }

  /** A lookup that cannot list the tokens fails without looking at any. */
  ghost predicate LookupPossible(w: World, ns: string, provider: string, host: string, l: LookupEnv) {
    if l.listOk then ListedLookup(w, ns, provider, host, l) else l.found == None && l.written == map[]
  }

  predicate FoundReady(tokens: map<Key, Token>, ns: string, found: Option<seq<string>>) {
    found.Some? ==> forall name :: name in found.value ==>
      Key(ns, name) in tokens && tokens[Key(ns, name)].status.phase == Ready
  }

  /** What the environment may answer to a reconcile of k: generated names are new, and so on. */
  ghost predicate Plausible(w: World, c: Configuration, k: Key, e: BindingEnv) {
    && (k in w.bindings && e.provider.Found? ==>
          LookupPossible(w, k.ns, e.provider.name, HostOf(c, w.bindings[k].repoUrl), e.lookup))
    && e.newName != "" && Key(k.ns, e.newName) !in w.tokens
    && (e.sync.Synced? ==> e.sync.secret != "" && e.sync.objects != {})
  }

  function HostOf(c: Configuration, url: string): string {
    if c.host(url).Some? then c.host(url).value else ""
  }

  // ----- normalisation -----

  const HTTPS := "https://"

  /** assureProperRepoUrl. */
  function ProperRepoUrl(host: string -> Option<string>, url: string): Option<string> {
    match host(url)
    case None => None
    case Some(h) =>
      if h != "" then Some(url)
      else
        match host(HTTPS + url)
        case None => None
        case Some(h') => if h' != "" then Some(HTTPS + url) else None
  }

  function MigratedFinalizers(f: set<BindingFinalizer>): set<BindingFinalizer> {
    if LinkedSecrets in f then f - {LinkedSecrets} + {LinkedObjects} else f
  }

  /** The copy a reconcile goes on with: of a binding being deleted, only that copy is migrated. */
  function CopyInMemory(b: Binding): Binding {
    if b.deleting then b.(finalizers := MigratedFinalizers(b.finalizers)) else b
  }

  function MigratedArea(a: PermissionArea): PermissionArea {
    match a
    case Repository => Registry
    case RepositoryMetadata => RegistryMetadata
    case _ => a
  }

  predicate OldArea(p: Permission) {
    p.area == Repository || p.area == RepositoryMetadata
  }

  function MigratedRequired(required: seq<Permission>): (r: seq<Permission>)
    ensures |r| == |required|
    ensures forall i :: 0 <= i < |r| ==> r[i] == required[i].(area := MigratedArea(required[i].area))
  {
    seq(|required|, i requires 0 <= i < |required| => required[i].(area := MigratedArea(required[i].area)))
  }

  predicate HasOldArea(b: Binding) {
    exists p :: p in b.permissions.required && OldArea(p)
  }

  function MigratedAreas(b: Binding): Binding {
    b.(permissions := b.permissions.(required := MigratedRequired(b.permissions.required)))
  }

  // ----- lifetime -----

  datatype Lifetime = Unlimited | Limited(duration: int) | BadLifetime

  /** bindingLifetime. */
  function LifetimeOf(c: Configuration, lifetime: string): Lifetime {
    if lifetime == "" then Limited(c.bindingTtl)
    else if lifetime == "-1" then Unlimited
    else
      match c.parseDuration(lifetime)
      case None => BadLifetime
      case Some(d) => if d < 60 * SECOND then BadLifetime else Limited(d)
  }

  // ----- linking -----

  function WriteError(w: World, k: Key, s: BindingStatus, reason: BindingReason, e: BindingEnv): World
    requires k in w.bindings
  {
    if e.errorStatusOk then UpdateBindingStatus(w, k, s.(reason := reason)) else w
  }

  /** The tokens after the caches have written the metadata they refreshed during the lookup. */
  function WriteMetadata(w: World, ns: string, written: map<string, Option<MC.Metadata>>): World {
    w.(tokens := map k | k in w.tokens ::
         if k.ns == ns && k.name in written
         then w.tokens[k].(status := w.tokens[k].status.(metadata := written[k.name]))
         else w.tokens[k])
  }

  datatype Linking =
    | Linked(world: World, memory: Binding, token: string, matching: bool)
    | NotLinked(world: World)

  /** Keeps the link when its token still matches, else takes the first one that does. */
  function Choose(linked: string, found: seq<string>): string
    requires found != []
  {
    if linked in found then linked else found[0]
  }

  function LinkStatus(s: BindingStatus, t: Token, token: string): BindingStatus {
    s.(linked := token, oauthUrl := t.status.oauthUrl, uploadUrl := t.status.uploadUrl)
  }

  function PersistLinkStatus(w: World, k: Key, b: Binding, token: string, matching: bool, e: BindingEnv): (r: Linking)
    requires k in w.bindings && Key(k.ns, token) in w.tokens
    ensures k in r.world.bindings && r.world.tokens == w.tokens && r.world.minted == w.minted
    ensures r.Linked? ==> r.token == token
  {
    if b.status.linked == token then Linked(w, b, token, matching)
    else
      var s := LinkStatus(b.status, w.tokens[Key(k.ns, token)], token).(reason := NoBindingReason);
      if e.linkStatusOk then Linked(UpdateBindingStatus(w, k, s), w.bindings[k].(status := s), token, matching)
      else NotLinked(WriteError(w, k, s, LinkedToken, e))
  }

  /** persistWithMatchingLabels: first the label, then the status. */
  function PersistLink(w: World, k: Key, b: Binding, token: string, matching: bool, e: BindingEnv): (r: Linking)
    requires k in w.bindings && Key(k.ns, token) in w.tokens && !b.deleting
    ensures k in r.world.bindings && r.world.tokens == w.tokens && r.world.minted == w.minted
    ensures r.Linked? ==> r.token == token
  {
    if b.link == token then PersistLinkStatus(w, k, b, token, matching, e)
    else if !e.labelOk then NotLinked(WriteError(w, k, b.status, LinkedToken, e))
    else
      var sent := b.(link := token);
      PersistLinkStatus(UpdateBinding(w, k, sent), k, UpdatedBinding(w, k, sent), token, matching, e)
  }

  function Create(w: World, c: Configuration, k: Key, b: Binding, url: string, e: BindingEnv): World {
    w.(tokens := w.tokens[Key(k.ns, e.newName) := NewToken(w.now, url, b.permissions)],
       minted := w.minted[k := Minted(w, k) + 1])
  }

  /** Deleting the token that was just created. */
  function Rollback(w: World, k: Key, e: BindingEnv): World
    requires Key(k.ns, e.newName) in w.tokens && Minted(w, k) > 0
  {
    if e.rollbackOk then DeleteToken(w, Key(k.ns, e.newName)).(minted := w.minted[k := Minted(w, k) - 1]) else w
  }

  datatype Picked = Picked(world: World, token: string, matching: bool, created: bool) | NotPicked(world: World)

  /** The first half of linkToken: a matching token, the one linked so far, or a new one. */
  function PickToken(w: World, c: Configuration, k: Key, b: Binding, e: BindingEnv): (r: Picked)
    requires k in w.bindings && e.provider.Found?
    requires FoundReady(w.tokens, k.ns, e.lookup.found)
    ensures k in r.world.bindings && r.world.bindings[k].deleting == w.bindings[k].deleting
    ensures r.Picked? ==> Key(k.ns, r.token) in r.world.tokens
    ensures r.Picked? && r.created ==> r.token == e.newName && Minted(r.world, k) > 0
  {
    match e.lookup.found
    case None => NotPicked(WriteError(w, k, b.status, TokenLookup, e))
    case Some(found) =>
      if found != [] then Picked(w, Choose(b.status.linked, found), true, false)
      else if b.status.linked != "" then
        if e.tokenGetOk && Key(k.ns, b.status.linked) in w.tokens then Picked(w, b.status.linked, false, false)
        else NotPicked(w)
      else if !e.baseUrlOk then
        NotPicked(WriteError(w, k, b.status.(phase := BindingError), UnknownServiceProviderType, e))
      else if !e.createOk then NotPicked(WriteError(w, k, b.status, LinkedToken, e))
      else Picked(Create(w, c, k, b, e.provider.baseUrl, e), e.newName, true, true)
  }

  /** The second half of linkToken: the link is persisted, or a token that was created goes again. */
  function PersistOrRollback(p: Picked, k: Key, b: Binding, e: BindingEnv): (r: Linking)
    requires p.Picked? && k in p.world.bindings && Key(k.ns, p.token) in p.world.tokens && !b.deleting
    requires p.created ==> p.token == e.newName && Minted(p.world, k) > 0
    ensures r.Linked? ==> r.token == p.token && k in r.world.bindings && r.world.tokens == p.world.tokens
  {
    var linking := PersistLink(p.world, k, b, p.token, p.matching, e);
    if linking.NotLinked? && p.created then NotLinked(Rollback(linking.world, k, e)) else linking
  }

  /** linkToken. */
  function LinkToken(w: World, c: Configuration, k: Key, b: Binding, e: BindingEnv): (r: Linking)
    requires k in w.bindings && !b.deleting && e.provider.Found?
    requires FoundReady(w.tokens, k.ns, e.lookup.found)
    ensures r.Linked? ==> k in r.world.bindings && Key(k.ns, r.token) in r.world.tokens
  {
    var p := PickToken(WriteMetadata(w, k.ns, e.lookup.written), c, k, b, e);
    if p.NotPicked? then NotLinked(p.world) else PersistOrRollback(p, k, b, e)
  }

  /** A lookup finds Ready tokens of the namespace, because those are the only candidates examined. */
  lemma PossibleLookupFindsReady(w: World, ns: string, provider: string, host: string, l: LookupEnv)
    requires LookupPossible(w, ns, provider, host, l)
    ensures FoundReady(w.tokens, ns, l.found)
  {
    if l.found.Some? {
      forall name | name in l.found.value
        ensures Key(ns, name) in w.tokens && w.tokens[Key(ns, name)].status.phase == Ready
      {
        assert name in multiset(l.found.value);
        SelectedAreCandidates(l.candidates, (x: Lookup.Candidate) => x.Matching(), name);
      }
    }
  }

  lemma SelectedAreCandidates(cands: seq<Lookup.Candidate>, p: Lookup.Candidate -> bool, name: string)
    requires name in multiset(Lookup.Select(cands, p))
    ensures exists x :: x in cands && p(x) && x.name == name
  {
    if p(cands[0]) && cands[0].name == name {
      assert cands[0] in cands;
    } else {
      SelectedAreCandidates(cands[1..], p, name);
      var x :| x in cands[1..] && p(x) && x.name == name;
      assert x in cands;
    }
  }

  // ----- syncing -----

  function Revert(w: World, k: Key, checkpoint: set<string>, e: BindingEnv): World {
    if e.revertOk then SetDependents(w, k, checkpoint) else w
  }

  function Awaiting(s: BindingStatus): BindingStatus {
    s.(phase := AwaitingData, synced := "", accounts := [])
  }

  function Schedule(w: World, c: Configuration, k: Key, lifetime: Lifetime): Ending
    requires k in w.bindings
  {
    if lifetime.Limited? then RequeueAfter(w.bindings[k].created + lifetime.duration + c.grace - w.now) else Finished
  }

  /** The status write that decides whether the changes to the dependents stay. */
  function Settle(w: World, c: Configuration, k: Key, s: BindingStatus, lifetime: Lifetime,
      checkpoint: set<string>, e: BindingEnv): Reconciled
    requires k in w.bindings
  {
    var s1 := s.(reason := NoBindingReason);
    if !e.statusOk then Reconciled(Revert(w, k, checkpoint, e), Retry)
    else
      var w1 := UpdateBindingStatus(w, k, s1);
      if s1.phase == Injected then Reconciled(w1, Schedule(w1, c, k, lifetime))
      else if e.cleanupOk then Reconciled(SetDependents(w1, k, {}), Schedule(w1, c, k, lifetime))
      else Reconciled(WriteError(SetDependents(w1, k, e.leftover), k, s1, TokenSync, e), Retry)
  }

  function SyncDependents(w: World, c: Configuration, k: Key, s: BindingStatus, ready: bool,
      lifetime: Lifetime, e: BindingEnv): Reconciled
    requires k in w.bindings
  {
    var checkpoint := Dependents(w, k);
    if !e.checkpointOk then
      Reconciled(WriteError(w, k, s.(phase := BindingError), ServiceAccountUpdate, e), Retry)
    else if !ready then Settle(w, c, k, Awaiting(s), lifetime, checkpoint, e)
    else
      match e.sync
      case Synced(secret, objects, accounts) =>
        Settle(SetDependents(w, k, objects), c, k,
               s.(phase := Injected, synced := secret, accounts := accounts), lifetime, checkpoint, e)
      case DataNotFound(partial) =>
        Settle(SetDependents(w, k, partial), c, k, Awaiting(s), lifetime, checkpoint, e)
      case SyncFailed(reason, partial) =>
        var w1 := WriteError(SetDependents(w, k, partial), k, s.(phase := BindingError), SyncReason(reason), e);
        Reconciled(Revert(w1, k, checkpoint, e), Retry)
  }

  // ----- the stages of a reconcile, last to first -----

  /** From the linked token on: a Ready one that does not match is an error, else the dependents are synced. */
  function SyncWithToken(w: World, c: Configuration, k: Key, s: BindingStatus, t: Token, matching: bool,
      lifetime: Lifetime, e: BindingEnv): Reconciled
    requires k in w.bindings
  {
    if !matching && t.status.phase == Ready then
      Reconciled(WriteError(w, k, s.(phase := BindingError, oauthUrl := ""), LinkedToken, e), Finished)
    else
      SyncDependents(w, c, k, s.(oauthUrl := t.status.oauthUrl, uploadUrl := t.status.uploadUrl),
                     t.status.phase == Ready, lifetime, e)
  }

  function LinkAndSync(w: World, c: Configuration, k: Key, b: Binding, lifetime: Lifetime, e: BindingEnv): Reconciled
    requires k in w.bindings && !b.deleting && e.provider.Found?
    requires FoundReady(w.tokens, k.ns, e.lookup.found)
  {
    match LinkToken(w, c, k, b, e)
    case NotLinked(w1) => Reconciled(w1, Retry)
    case Linked(w1, b1, token, matching) =>
      SyncWithToken(w1, c, k, b1.status, w1.tokens[Key(k.ns, token)], matching, lifetime, e)
  }

  function CheckSpec(w: World, c: Configuration, k: Key, lifetime: Lifetime, e: BindingEnv): Reconciled
    requires k in w.bindings && !w.bindings[k].deleting && e.provider.Found?
    requires FoundReady(w.tokens, k.ns, e.lookup.found)
  {
    var b := w.bindings[k];
    var s := if b.status.phase == NoBindingPhase then b.status.(phase := AwaitingData) else b.status;
    if !e.consistent then Reconciled(WriteError(w, k, s.(phase := BindingError), InconsistentSpec, e), Finished)
    else if e.validation == ValidationFailed then Reconciled(w, Retry)
    else if e.validation == InvalidScopes then
      Reconciled(WriteError(w, k, s.(phase := BindingError), UnsupportedPermissions, e), Finished)
    else LinkAndSync(w, c, k, b.(status := s), lifetime, e)
  }

  predicate Expired(w: World, k: Key, lifetime: Lifetime)
    requires k in w.bindings
  {
    lifetime.Limited? && w.now - w.bindings[k].created > lifetime.duration
  }

  function CheckLifetime(w: World, c: Configuration, k: Key, e: BindingEnv): Reconciled
    requires k in w.bindings && !w.bindings[k].deleting && e.provider.Found?
    requires FoundReady(w.tokens, k.ns, e.lookup.found)
  {
    var b := w.bindings[k];
    var lifetime := LifetimeOf(c, b.lifetime);
    if lifetime.BadLifetime? then
      Reconciled(WriteError(w, k, b.status.(phase := BindingError), InvalidLifetime, e), Retry)
    else if Expired(w, k, lifetime) then
      if e.deleteOk then Reconciled(DeleteBinding(w, k), Finished) else Reconciled(w, Retry)
    else CheckSpec(w, c, k, lifetime, e)
  }

  /** linkedObjectsFinalizer for a binding being deleted, and the update that lets go of it. */
  function FinalizeDeleted(w: World, k: Key, b: Binding, e: BindingEnv): Reconciled
    requires k in w.bindings
  {
    if LinkedObjects !in b.finalizers then Reconciled(w, Finished)
    else if !e.finalizerProviderOk then Reconciled(w, Retry)
    else if !e.finalCleanupOk then Reconciled(SetDependents(w, k, e.leftover), Retry)
    else
      var w1 := SetDependents(w, k, {});
      var sent := b.(finalizers := b.finalizers - {LinkedObjects});
      if e.finalizersOk && AcceptsFinalizers(w.bindings[k], sent) then Reconciled(UpdateBinding(w1, k, sent), Finished)
      else Reconciled(w1, Retry)
  }

  /** From the finalizers on; `b` is the copy in memory. */
  function FinalizeAndGoOn(w: World, c: Configuration, k: Key, b: Binding, e: BindingEnv): Reconciled
    requires k in w.bindings && e.provider.Found?
    requires b.deleting == w.bindings[k].deleting && (!b.deleting ==> b == w.bindings[k])
    requires FoundReady(w.tokens, k.ns, e.lookup.found)
  {
    if b.deleting then FinalizeDeleted(w, k, b, e)
    else if LinkedObjects in b.finalizers then CheckLifetime(w, c, k, e)
    else if !e.finalizersOk then Reconciled(w, Retry)
    else
      var w1 := UpdateBinding(w, k, b.(finalizers := b.finalizers + {LinkedObjects}));
      CheckLifetime(w1, c, k, e)
  }

  function CheckAreas(w: World, c: Configuration, k: Key, b: Binding, e: BindingEnv): Reconciled
    requires k in w.bindings && e.provider.Found?
    requires b.deleting == w.bindings[k].deleting && (!b.deleting ==> b == w.bindings[k])
    requires FoundReady(w.tokens, k.ns, e.lookup.found)
  {
    if e.provider.name == "Quay" && HasOldArea(b) then
      var sent := MigratedAreas(b);
      if e.areasUpdateOk && AcceptsFinalizers(w.bindings[k], sent) then
        Reconciled(UpdateBinding(w, k, sent), NormalisedAreas)
      else Reconciled(w, Retry)
    else FinalizeAndGoOn(w, c, k, b, e)
  }

  function CheckProvider(w: World, c: Configuration, k: Key, b: Binding, e: BindingEnv): Reconciled
    requires k in w.bindings
    requires b.deleting == w.bindings[k].deleting && (!b.deleting ==> b == w.bindings[k])
    requires e.provider.Found? ==> FoundReady(w.tokens, k.ns, e.lookup.found)
  {
    match e.provider
    case InvalidConfiguration =>
      Reconciled(WriteError(w, k, b.status.(phase := BindingError), UnsupportedConfiguration, e), Finished)
    case Unknown =>
      Reconciled(WriteError(w, k, b.status.(phase := BindingError), UnknownServiceProviderType, e), Finished)
    case Found(_, _) => CheckAreas(w, c, k, b, e)
  }

  /** The deprecated finalizer is replaced; in the cluster only while the binding is not being deleted. */
  function MigrateFinalizers(w: World, c: Configuration, k: Key, e: BindingEnv): Reconciled
    requires k in w.bindings
    requires e.provider.Found? ==> FoundReady(w.tokens, k.ns, e.lookup.found)
  {
    var b := w.bindings[k];
    var migrated := b.(finalizers := MigratedFinalizers(b.finalizers));
    if LinkedSecrets !in b.finalizers || b.deleting then CheckProvider(w, c, k, migrated, e)
    else if !e.migrateOk then Reconciled(w, Retry)
    else CheckProvider(UpdateBinding(w, k, migrated), c, k, migrated, e)
  }

  function AssureProperValues(w: World, c: Configuration, k: Key, e: BindingEnv): Reconciled
    requires k in w.bindings
    requires e.provider.Found? ==> FoundReady(w.tokens, k.ns, e.lookup.found)
  {
    var b := w.bindings[k];
    match ProperRepoUrl(c.host, b.repoUrl)
    case None =>
      Reconciled(WriteError(w, k, b.status.(phase := BindingError), UnknownServiceProviderType, e), Finished)
    case Some(url) =>
      if url != b.repoUrl then
        if e.urlUpdateOk then Reconciled(UpdateBinding(w, k, b.(repoUrl := url)), NormalisedUrl)
        else Reconciled(w, NormalisedUrl)
      else MigrateFinalizers(w, c, k, e)
  }

  /** One atomic reconcile of the binding k. */
  function ReconcileBinding(w: World, c: Configuration, k: Key, e: BindingEnv): Reconciled
    requires Plausible(w, c, k, e)
  {
    if !e.getOk then Reconciled(w, Retry)
    else if k !in w.bindings then Reconciled(w, Finished)
    else
      PlausibleFindsReady(w, c, k, e);
      AssureProperValues(w, c, k, e)
  }

  lemma PlausibleFindsReady(w: World, c: Configuration, k: Key, e: BindingEnv)
    requires Plausible(w, c, k, e)
    ensures k in w.bindings && e.provider.Found? ==> FoundReady(w.tokens, k.ns, e.lookup.found)
  {
    if k in w.bindings && e.provider.Found? {
      PossibleLookupFindsReady(w, k.ns, e.provider.name, HostOf(c, w.bindings[k].repoUrl), e.lookup);
    }
  }

  // ----- the reconciler -----

  class Reconciler {
    const api: ApiServer
    const config: Configuration

    constructor (api: ApiServer, config: Configuration)
      ensures this.api == api && this.config == config
    {
      this.api, this.config := api, config;
    }

    method UpdateBindingStatusError(k: Key, b: BindingObject, reason: BindingReason, e: BindingEnv)
      requires k in api.bindings
      modifies api, b
      ensures api.View() == WriteError(old(api.View()), k, old(b.it.status), reason, e)
    {
      b.it := b.it.(status := b.it.status.(reason := reason));
      var _ := api.SendBindingStatus(k, b, e.errorStatusOk);
    }

    /** Flips the phase and writes the error. */
    method Fail(k: Key, b: BindingObject, reason: BindingReason, e: BindingEnv)
      requires k in api.bindings
      modifies api, b
      ensures api.View() == WriteError(old(api.View()), k, old(b.it.status).(phase := BindingError), reason, e)
    {
      b.it := b.it.(status := b.it.status.(phase := BindingError));
      UpdateBindingStatusError(k, b, reason, e);
    }

    method UpdateBindingStatusSuccess(k: Key, b: BindingObject, ok: bool) returns (done: bool)
      requires k in api.bindings
      modifies api, b
      ensures done == ok
      ensures var s := old(b.it.status).(reason := NoBindingReason);
              if ok then api.View() == UpdateBindingStatus(old(api.View()), k, s) && b.it == api.bindings[k]
              else api.View() == old(api.View()) && b.it == old(b.it).(status := s)
    {
      b.it := b.it.(status := b.it.status.(reason := NoBindingReason));
      done := api.SendBindingStatus(k, b, ok);
    }

    /** checkQuayPermissionAreasMigration: rewrites the areas one by one. */
    method CheckQuayPermissionAreasMigration(b: BindingObject, provider: string) returns (changed: bool)
      modifies b
      ensures changed == (provider == "Quay" && HasOldArea(old(b.it)))
      ensures b.it == if changed then MigratedAreas(old(b.it)) else old(b.it)
    {
      changed := false;
      if provider == "Quay" {
        var required := b.it.permissions.required;
        for i := 0 to |required|
          invariant |b.it.permissions.required| == |required|
          invariant b.it == old(b.it).(permissions := old(b.it).permissions.(required := b.it.permissions.required))
          invariant forall j :: 0 <= j < |required| ==>
                      b.it.permissions.required[j]
                      == if j < i then required[j].(area := MigratedArea(required[j].area)) else required[j]
          invariant changed <==> exists j :: 0 <= j < i && OldArea(required[j])
        {
          var p := required[i];
          if p.area == Repository {
            b.it := b.it.(permissions := b.it.permissions.(required :=
              b.it.permissions.required[i := p.(area := Registry)]));
            changed := true;
          }
          if p.area == RepositoryMetadata {
            b.it := b.it.(permissions := b.it.permissions.(required :=
              b.it.permissions.required[i := p.(area := RegistryMetadata)]));
            changed := true;
          }
        }
        assert b.it.permissions.required == MigratedRequired(required);
        if !changed {
          assert b.it.permissions.required == required;
        }
      }
    }

    method PersistWithMatchingLabels(k: Key, b: BindingObject, token: string, ghost matching: bool, e: BindingEnv)
      returns (ok: bool)
      requires k in api.bindings && Key(k.ns, token) in api.tokens && !b.it.deleting && !api.bindings[k].deleting
      modifies api, b
      ensures var linking := PersistLink(old(api.View()), k, old(b.it), token, matching, e);
              && ok == linking.Linked? && api.View() == linking.world
              && (ok ==> b.it == linking.memory)
    {
      if b.it.link != token {
        b.it := b.it.(link := token);
        ok := api.SendBinding(k, b, e.labelOk);
        if !ok {
          UpdateBindingStatusError(k, b, LinkedToken, e);
          return;
        }
      }
      if b.it.status.linked != token {
        b.it := b.it.(status := LinkStatus(b.it.status, api.tokens[Key(k.ns, token)], token));
        ok := UpdateBindingStatusSuccess(k, b, e.linkStatusOk);
        if !ok {
          UpdateBindingStatusError(k, b, LinkedToken, e);
          return;
        }
      }
      ok := true;
    }

    /** sp.LookupTokens, with the metadata that the caches write meanwhile. */
    method LookupTokens(k: Key, e: BindingEnv) returns (found: Option<seq<string>>)
      modifies api`tokens
      ensures found == e.lookup.found
      ensures api.View() == WriteMetadata(old(api.View()), k.ns, e.lookup.written)
    {
      api.tokens := map t | t in api.tokens ::
        if t.ns == k.ns && t.name in e.lookup.written
        then api.tokens[t].(status := api.tokens[t].status.(metadata := e.lookup.written[t.name]))
        else api.tokens[t];
      found := e.lookup.found;
    }

    method FindOrCreateToken(k: Key, b: BindingObject, found: Option<seq<string>>, e: BindingEnv)
      returns (token: Option<string>, matching: bool, created: bool)
      requires k in api.bindings && e.provider.Found? && found == e.lookup.found
      requires FoundReady(api.tokens, k.ns, e.lookup.found)
      modifies api, b
      ensures var picked := PickToken(old(api.View()), config, k, old(b.it), e);
              && api.View() == picked.world && token.Some? == picked.Picked?
              && (token.Some? ==>
                    && token.value == picked.token && matching == picked.matching && created == picked.created
                    && b.it == old(b.it))
    {
      matching, created := false, false;
      if found.None? {
        UpdateBindingStatusError(k, b, TokenLookup, e);
        return None, matching, created;
      }
      if |found.value| > 0 {
        token := Some(if b.it.status.linked in found.value then b.it.status.linked else found.value[0]);
        matching := true;
        return;
      }
      if b.it.status.linked != "" {
        if !e.tokenGetOk || Key(k.ns, b.it.status.linked) !in api.tokens {
          return None, matching, created;
        }
        return Some(b.it.status.linked), matching, created;
      }
      if !e.baseUrlOk {
        Fail(k, b, UnknownServiceProviderType, e);
        return None, matching, created;
      }
      if !e.createOk {
        UpdateBindingStatusError(k, b, LinkedToken, e);
        return None, matching, created;
      }
      api.tokens := api.tokens[Key(k.ns, e.newName) := NewToken(api.now, e.provider.baseUrl, b.it.permissions)];
      api.minted := api.minted[k := Minted(api.View(), k) + 1];
      token, matching, created := Some(e.newName), true, true;
    }

    /** The clean-up of a token that was created and could not be linked. */
    method RollbackToken(k: Key, e: BindingEnv)
      requires Key(k.ns, e.newName) in api.tokens && Minted(api.View(), k) > 0
      modifies api
      ensures api.View() == Rollback(old(api.View()), k, e)
    {
      var deleted := api.RemoveToken(Key(k.ns, e.newName), e.rollbackOk);
      if deleted {
        api.minted := api.minted[k := Minted(api.View(), k) - 1];
      }
    }

    method PersistOrRollbackLink(k: Key, b: BindingObject, ghost p: Picked, token: string, created: bool, e: BindingEnv)
      returns (ok: bool)
      requires p.Picked? && api.View() == p.world && token == p.token && created == p.created
      requires k in api.bindings && Key(k.ns, token) in api.tokens && !b.it.deleting && !api.bindings[k].deleting
      requires created ==> token == e.newName && Minted(api.View(), k) > 0
      modifies api, b
      ensures var linking := PersistOrRollback(p, k, old(b.it), e);
              && api.View() == linking.world && ok == linking.Linked?
              && (ok ==> b.it == linking.memory && linking.matching == p.matching)
    {
      ok := PersistWithMatchingLabels(k, b, token, p.matching, e);
      if !ok && created {
        RollbackToken(k, e);
      }
    }

    method EstablishLink(k: Key, b: BindingObject, e: BindingEnv) returns (linked: Option<string>, matching: bool)
      requires k in api.bindings && !b.it.deleting && !api.bindings[k].deleting && e.provider.Found?
      requires FoundReady(api.tokens, k.ns, e.lookup.found)
      modifies api, b
      ensures var linking := LinkToken(old(api.View()), config, k, old(b.it), e);
              && api.View() == linking.world && linked.Some? == linking.Linked?
              && (linked.Some? ==>
                    linked.value == linking.token && b.it == linking.memory && matching == linking.matching)
    {
      var found := LookupTokens(k, e);
      ghost var p := PickToken(api.View(), config, k, b.it, e);
      var created: bool;
      linked, matching, created := FindOrCreateToken(k, b, found, e);
      if linked.Some? {
        var ok := PersistOrRollbackLink(k, b, p, linked.value, created, e);
        if !ok {
          linked := None;
        }
      }
    }

    /** DependentsHandler.RevertTo, as far as its contract goes. */
    method RevertTo(k: Key, checkpoint: set<string>, e: BindingEnv)
      modifies api`dependents
      ensures api.View() == Revert(old(api.View()), k, checkpoint, e)
    {
      if e.revertOk {
        api.dependents := api.dependents[k := checkpoint];
      }
    }

    method SettleDependents(k: Key, b: BindingObject, lifetime: Lifetime, checkpoint: set<string>, e: BindingEnv)
      returns (result: Ending)
      requires k in api.bindings
      modifies api, b
      ensures Reconciled(api.View(), result)
              == Settle(old(api.View()), config, k, old(b.it.status), lifetime, checkpoint, e)
    {
      var ok := UpdateBindingStatusSuccess(k, b, e.statusOk);
      if !ok {
        RevertTo(k, checkpoint, e);
        return Retry;
      }
      if b.it.status.phase != Injected {
        api.dependents := api.dependents[k := if e.cleanupOk then {} else e.leftover];
        if !e.cleanupOk {
          UpdateBindingStatusError(k, b, TokenSync, e);
          return Retry;
        }
      }
      if lifetime.Limited? {
        return RequeueAfter(api.bindings[k].created + lifetime.duration + config.grace - api.now);
      }
      result := Finished;
    }

    method SyncToken(k: Key, b: BindingObject, ready: bool, lifetime: Lifetime, e: BindingEnv) returns (result: Ending)
      requires k in api.bindings
      modifies api, b
      ensures Reconciled(api.View(), result)
              == SyncDependents(old(api.View()), config, k, old(b.it.status), ready, lifetime, e)
    {
      var checkpoint := if k in api.dependents then api.dependents[k] else {};
      if !e.checkpointOk {
        Fail(k, b, ServiceAccountUpdate, e);
        return Retry;
      }
      if ready {
        match e.sync
        case DataNotFound(partial) =>
          api.dependents := api.dependents[k := partial];
          b.it := b.it.(status := Awaiting(b.it.status));
        case SyncFailed(reason, partial) =>
          api.dependents := api.dependents[k := partial];
          Fail(k, b, SyncReason(reason), e);
          RevertTo(k, checkpoint, e);
          return Retry;
        case Synced(secret, objects, accounts) =>
          api.dependents := api.dependents[k := objects];
          b.it := b.it.(status := b.it.status.(phase := Injected, synced := secret, accounts := accounts));
      } else {
        b.it := b.it.(status := Awaiting(b.it.status));
      }
      result := SettleDependents(k, b, lifetime, checkpoint, e);
    }

    /** Reconcile from the link to the token on. */
    method LinkAndSyncToken(k: Key, b: BindingObject, lifetime: Lifetime, e: BindingEnv) returns (result: Ending)
      requires k in api.bindings && !b.it.deleting && !api.bindings[k].deleting && e.provider.Found?
      requires FoundReady(api.tokens, k.ns, e.lookup.found)
      modifies api, b
      ensures Reconciled(api.View(), result) == LinkAndSync(old(api.View()), config, k, old(b.it), lifetime, e)
    {
      var linked, matching := EstablishLink(k, b, e);
      if linked.None? {
        return Retry;
      }
      var t := api.tokens[Key(k.ns, linked.value)];
      if !matching && t.status.phase == Ready {
        b.it := b.it.(status := b.it.status.(oauthUrl := ""));
        Fail(k, b, LinkedToken, e);
        return Finished;
      }
      b.it := b.it.(status := b.it.status.(oauthUrl := t.status.oauthUrl, uploadUrl := t.status.uploadUrl));
      result := SyncToken(k, b, t.status.phase == Ready, lifetime, e);
    }

    /** Reconcile from the lifetime check on. */
    method ReconcileLiveBinding(k: Key, b: BindingObject, e: BindingEnv) returns (result: Ending)
      requires k in api.bindings && b.it == api.bindings[k] && !b.it.deleting && e.provider.Found?
      requires FoundReady(api.tokens, k.ns, e.lookup.found)
      modifies api, b
      ensures Reconciled(api.View(), result) == CheckLifetime(old(api.View()), config, k, e)
    {
      var lifetime := LifetimeOf(config, b.it.lifetime);
      if lifetime.BadLifetime? {
        Fail(k, b, InvalidLifetime, e);
        return Retry;
      }
      if lifetime.Limited? && api.now - b.it.created > lifetime.duration {
        var ok := api.RemoveBinding(k, e.deleteOk);
        return if ok then Finished else Retry;
      }
      if b.it.status.phase == NoBindingPhase {
        b.it := b.it.(status := b.it.status.(phase := AwaitingData));
      }
      if !e.consistent {
        Fail(k, b, InconsistentSpec, e);
        return Finished;
      }
      if e.validation == ValidationFailed {
        return Retry;
      }
      if e.validation == InvalidScopes {
        Fail(k, b, UnsupportedPermissions, e);
        return Finished;
      }
      result := LinkAndSyncToken(k, b, lifetime, e);
    }

    /** The pass over the finalizers of a binding being deleted, and the update after it. */
    method FinalizeDeletedBinding(k: Key, b: BindingObject, e: BindingEnv) returns (result: Ending)
      requires k in api.bindings && b.it.deleting
      modifies api, b
      ensures Reconciled(api.View(), result) == FinalizeDeleted(old(api.View()), k, old(b.it), e)
    {
      if LinkedObjects !in b.it.finalizers {
        return Finished;
      }
      if !e.finalizerProviderOk {
        return Retry;
      }
      api.dependents := api.dependents[k := if e.finalCleanupOk then {} else e.leftover];
      if !e.finalCleanupOk {
        return Retry;
      }
      b.it := b.it.(finalizers := b.it.finalizers - {LinkedObjects});
      var ok := api.SendBinding(k, b, e.finalizersOk);
      result := if ok then Finished else Retry;
    }

    /** Reconcile from the service provider on. */
    method ReconcileWithProvider(k: Key, b: BindingObject, e: BindingEnv) returns (result: Ending)
      requires k in api.bindings
      requires b.it.deleting == api.bindings[k].deleting && (!b.it.deleting ==> b.it == api.bindings[k])
      requires e.provider.Found? ==> FoundReady(api.tokens, k.ns, e.lookup.found)
      modifies api, b
      ensures Reconciled(api.View(), result) == CheckProvider(old(api.View()), config, k, old(b.it), e)
    {
      match e.provider
      case InvalidConfiguration =>
        Fail(k, b, UnsupportedConfiguration, e);
        return Finished;
      case Unknown =>
        Fail(k, b, UnknownServiceProviderType, e);
        return Finished;
      case Found(provider, _) =>
        var changed := CheckQuayPermissionAreasMigration(b, provider);
        if changed {
          var ok := api.SendBinding(k, b, e.areasUpdateOk);
          return if ok then NormalisedAreas else Retry;
        }
        if b.it.deleting {
          result := FinalizeDeletedBinding(k, b, e);
          return;
        }
        if LinkedObjects !in b.it.finalizers {
          b.it := b.it.(finalizers := b.it.finalizers + {LinkedObjects});
          var ok := api.SendBinding(k, b, e.finalizersOk);
          if !ok {
            return Retry;
          }
        }
        result := ReconcileLiveBinding(k, b, e);
    }

    /** Reconcile of a binding that was found in the cluster. */
    method ReconcileExisting(k: Key, b: BindingObject, e: BindingEnv) returns (result: Ending)
      requires k in api.bindings && b.it == api.bindings[k]
      requires e.provider.Found? ==> FoundReady(api.tokens, k.ns, e.lookup.found)
      modifies api, b
      ensures Reconciled(api.View(), result) == AssureProperValues(old(api.View()), config, k, e)
    {
      var url := ProperRepoUrl(config.host, b.it.repoUrl);
      if url.None? {
        Fail(k, b, UnknownServiceProviderType, e);
        return Finished;
      }
      if url.value != b.it.repoUrl {
        b.it := b.it.(repoUrl := url.value);
        var _ := api.SendBinding(k, b, e.urlUpdateOk);
        return NormalisedUrl;
      }
      if LinkedSecrets in b.it.finalizers {
        b.it := b.it.(finalizers := b.it.finalizers - {LinkedSecrets} + {LinkedObjects});
        if !b.it.deleting {
          var ok := api.SendBinding(k, b, e.migrateOk);
          if !ok {
            return Retry;
          }
        }
      }
      result := ReconcileWithProvider(k, b, e);
    }

    method Reconcile(k: Key, e: BindingEnv) returns (result: Ending)
      requires Plausible(api.View(), config, k, e)
      modifies api
      ensures Reconciled(api.View(), result) == ReconcileBinding(old(api.View()), config, k, e)
    {
      if !e.getOk {
        return Retry;
      }
      if k !in api.bindings {
        return Finished;
      }
      PlausibleFindsReady(api.View(), config, k, e);
      var b := new BindingObject(api.bindings[k]);
      result := ReconcileExisting(k, b, e);
    }
  }
}
