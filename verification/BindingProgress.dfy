// How a binding reconcile moves its binding on: which token it may be linked to, when it is asked
// to come back, when its lifetime ends it, and how its spec is brought into normal form.
module BindingProgress {
  import opened Core
  import opened Cluster
  import opened Perms = Permissions
  import opened BindingReconciler
  import BS = BindingSafety
  import Lookup

  // ----- what every stage after the normalisation does -----

  /** A link stays, moves to the first token found when its own is not among them, or is made to a new token. */
  predicate LinkMoves(before: string, after: string, e: BindingEnv) {
    || after == before
    || (e.provider.Found? && e.lookup.found.Some? && e.lookup.found.value != [] && before !in e.lookup.found.value
        && after == e.lookup.found.value[0])
    || (e.provider.Found? && e.lookup.found == Some([]) && before == "" && after == e.newName)
  }

  predicate SameSpec(b: Binding, b': Binding, e: BindingEnv) {
    && b'.created == b.created && b'.lifetime == b.lifetime && b'.repoUrl == b.repoUrl
    && b'.permissions == b.permissions && (LinkedSecrets in b'.finalizers ==> LinkedSecrets in b.finalizers)
    && LinkMoves(b.status.linked, b'.status.linked, e)
  }

  predicate WakesUp(w: World, c: Configuration, k: Key, ending: Ending)
    requires k in w.bindings
  {
    ending.RequeueAfter? ==>
      var l := LifetimeOf(c, w.bindings[k].lifetime);
      && l.Limited? && w.now - w.bindings[k].created <= l.duration
      && ending.delay == w.bindings[k].created + l.duration + c.grace - w.now
  }

  /** Live stages keep the binding; only the lifetime check deletes it. */
  predicate Proceeds(w: World, c: Configuration, k: Key, r: Reconciled, e: BindingEnv)
    requires k in w.bindings
  {
    var b := w.bindings[k];
    && r.ending != NormalisedUrl && r.ending != NormalisedAreas
    && WakesUp(w, c, k, r.ending)
    && (r.ending.RequeueAfter? ==> k in r.world.bindings && !b.deleting)
    && (k in r.world.bindings ==> SameSpec(b, r.world.bindings[k], e))
    && (!b.deleting && (k in r.world.bindings ==> r.world.bindings[k].deleting) ==>
          Expired(w, k, LifetimeOf(c, b.lifetime)) && e.deleteOk)
  }

  /** A lifetime error is not recorded, unless it was before. */
  predicate NoLifetimeError(b: Binding, b': Binding) {
    b'.status.reason == InvalidLifetime ==> b.status.reason == InvalidLifetime
  }

  /** Another status at most, and no other link and no lifetime error in it. */
  predicate StatusOnly(w: World, w': World, k: Key) {
    && k in w.bindings && k in w'.bindings && w'.now == w.now
    && w'.bindings[k] == w.bindings[k].(status := w'.bindings[k].status)
    && w'.bindings[k].status.linked == w.bindings[k].status.linked
    && NoLifetimeError(w.bindings[k], w'.bindings[k])
  }

  /** The binding is there, with a change of label and status at most. */
  predicate Relinked(w: World, w': World, k: Key) {
    && k in w.bindings && k in w'.bindings && w'.now == w.now
    && w'.bindings[k] == w.bindings[k].(link := w'.bindings[k].link, status := w'.bindings[k].status)
    && NoLifetimeError(w.bindings[k], w'.bindings[k])
  }

  predicate EndsWith(w: World, c: Configuration, k: Key, lifetime: Lifetime, ending: Ending)
    requires k in w.bindings
  {
    || ending == Retry || ending == Finished
    || (lifetime.Limited? && ending == RequeueAfter(w.bindings[k].created + lifetime.duration + c.grace - w.now))
  }

  predicate Live(w: World, k: Key) {
    k in w.bindings && !w.bindings[k].deleting
  }

  // ----- the stages -----

  lemma PickTokenMoves(w: World, c: Configuration, k: Key, b: Binding, e: BindingEnv)
    requires BS.InMemory(w, k, b) && e.provider.Found?
    requires FoundReady(w.tokens, k.ns, e.lookup.found)
    ensures var r := PickToken(w, c, k, b, e);
            && (r.Picked? ==> LinkMoves(b.status.linked, r.token, e) && BS.InMemory(r.world, k, b)
                              && r.world.bindings == w.bindings && r.world.now == w.now)
            && (r.NotPicked? ==> StatusOnly(w, r.world, k))
  {
  }

  lemma LinkTokenMoves(w: World, c: Configuration, k: Key, b: Binding, e: BindingEnv)
    requires BS.InMemory(w, k, b) && !b.deleting && e.provider.Found?
    requires FoundReady(w.tokens, k.ns, e.lookup.found)
    ensures var r := LinkToken(w, c, k, b, e);
            && Relinked(w, r.world, k) && LinkMoves(b.status.linked, r.world.bindings[k].status.linked, e)
            && (r.Linked? ==> BS.InMemory(r.world, k, r.memory))
  {
    var w1 := WriteMetadata(w, k.ns, e.lookup.written);
    PickTokenMoves(w1, c, k, b, e);
    var p := PickToken(w1, c, k, b, e);
    if p.Picked? {
      BS.PersistLinkShape(p.world, k, b, p.token, p.matching, e);
    }
  }

  lemma WriteErrorStatusOnly(w: World, k: Key, s: BindingStatus, reason: BindingReason, e: BindingEnv)
    requires k in w.bindings && s.linked == w.bindings[k].status.linked && reason != InvalidLifetime
    ensures StatusOnly(w, WriteError(w, k, s, reason, e), k)
  {
  }

  lemma SettleProceeds(w: World, c: Configuration, k: Key, s: BindingStatus, lifetime: Lifetime,
      checkpoint: set<string>, e: BindingEnv)
    requires k in w.bindings && s.linked == w.bindings[k].status.linked
    ensures var r := Settle(w, c, k, s, lifetime, checkpoint, e);
            StatusOnly(w, r.world, k) && EndsWith(w, c, k, lifetime, r.ending)
  {
  }

  lemma SyncFailedProceeds(w: World, k: Key, s: BindingStatus, reason: string, partial: set<string>, e: BindingEnv)
    requires k in w.bindings && s.linked == w.bindings[k].status.linked
    ensures var w1 := WriteError(SetDependents(w, k, partial), k, s.(phase := BindingError), SyncReason(reason), e);
            StatusOnly(w, Revert(w1, k, Dependents(w, k), e), k)
  {
    WriteErrorStatusOnly(SetDependents(w, k, partial), k, s.(phase := BindingError), SyncReason(reason), e);
  }

  /** Settling after the dependents have been changed. */
  lemma SettleChangedProceeds(w: World, c: Configuration, k: Key, s: BindingStatus, objects: set<string>,
      lifetime: Lifetime, e: BindingEnv)
    requires k in w.bindings && s.linked == w.bindings[k].status.linked
    ensures var r := Settle(SetDependents(w, k, objects), c, k, s, lifetime, Dependents(w, k), e);
            StatusOnly(w, r.world, k) && EndsWith(w, c, k, lifetime, r.ending)
  {
    SettleProceeds(SetDependents(w, k, objects), c, k, s, lifetime, Dependents(w, k), e);
  }

  lemma SyncReadyProceeds(w: World, c: Configuration, k: Key, s: BindingStatus, lifetime: Lifetime, e: BindingEnv)
    requires k in w.bindings && s.linked == w.bindings[k].status.linked && e.checkpointOk
    ensures var r := SyncDependents(w, c, k, s, true, lifetime, e);
            StatusOnly(w, r.world, k) && EndsWith(w, c, k, lifetime, r.ending)
  {
    match e.sync
    case Synced(secret, objects, accounts) =>
      var s1 := s.(phase := Injected, synced := secret, accounts := accounts);
      SettleChangedProceeds(w, c, k, s1, objects, lifetime, e);
    case DataNotFound(partial) => SettleChangedProceeds(w, c, k, Awaiting(s), partial, lifetime, e);
    case SyncFailed(reason, partial) => SyncFailedProceeds(w, k, s, reason, partial, e);
  }

  lemma SyncDependentsProceeds(w: World, c: Configuration, k: Key, s: BindingStatus, ready: bool,
      lifetime: Lifetime, e: BindingEnv)
    requires k in w.bindings && s.linked == w.bindings[k].status.linked
    ensures var r := SyncDependents(w, c, k, s, ready, lifetime, e);
            StatusOnly(w, r.world, k) && EndsWith(w, c, k, lifetime, r.ending)
  {
    if !e.checkpointOk {
      WriteErrorStatusOnly(w, k, s.(phase := BindingError), ServiceAccountUpdate, e);
    } else if !ready {
      SettleProceeds(w, c, k, Awaiting(s), lifetime, Dependents(w, k), e);
    } else {
      SyncReadyProceeds(w, c, k, s, lifetime, e);
    }
  }

  lemma SyncWithTokenProceeds(w: World, c: Configuration, k: Key, s: BindingStatus, t: Token, matching: bool,
      lifetime: Lifetime, e: BindingEnv)
    requires k in w.bindings && s.linked == w.bindings[k].status.linked
    ensures var r := SyncWithToken(w, c, k, s, t, matching, lifetime, e);
            StatusOnly(w, r.world, k) && EndsWith(w, c, k, lifetime, r.ending)
  {
    if !matching && t.status.phase == Ready {
      WriteErrorStatusOnly(w, k, s.(phase := BindingError, oauthUrl := ""), LinkedToken, e);
    } else {
      SyncDependentsProceeds(w, c, k, s.(oauthUrl := t.status.oauthUrl, uploadUrl := t.status.uploadUrl),
                             t.status.phase == Ready, lifetime, e);
    }
  }

  lemma LinkAndSyncProceeds(w: World, c: Configuration, k: Key, b: Binding, lifetime: Lifetime, e: BindingEnv)
    requires BS.InMemory(w, k, b) && !b.deleting && e.provider.Found?
    requires FoundReady(w.tokens, k.ns, e.lookup.found)
    ensures var r := LinkAndSync(w, c, k, b, lifetime, e);
            && Relinked(w, r.world, k) && LinkMoves(b.status.linked, r.world.bindings[k].status.linked, e)
            && EndsWith(w, c, k, lifetime, r.ending)
  {
    LinkTokenMoves(w, c, k, b, e);
    var r := LinkToken(w, c, k, b, e);
    if r.Linked? {
      var t := r.world.tokens[Key(k.ns, r.token)];
      SyncWithTokenProceeds(r.world, c, k, r.memory.status, t, r.matching, lifetime, e);
    }
  }

  lemma CheckSpecProceeds(w: World, c: Configuration, k: Key, lifetime: Lifetime, e: BindingEnv)
    requires k in w.bindings && !w.bindings[k].deleting && e.provider.Found?
    requires FoundReady(w.tokens, k.ns, e.lookup.found)
    ensures var r := CheckSpec(w, c, k, lifetime, e);
            && Relinked(w, r.world, k)
            && LinkMoves(w.bindings[k].status.linked, r.world.bindings[k].status.linked, e)
            && EndsWith(w, c, k, lifetime, r.ending)
  {
    var b := w.bindings[k];
    var s := if b.status.phase == NoBindingPhase then b.status.(phase := AwaitingData) else b.status;
    if !e.consistent {
      WriteErrorStatusOnly(w, k, s.(phase := BindingError), InconsistentSpec, e);
    } else if e.validation == InvalidScopes {
      WriteErrorStatusOnly(w, k, s.(phase := BindingError), UnsupportedPermissions, e);
    } else if e.validation == Valid {
      LinkAndSyncProceeds(w, c, k, b.(status := s), lifetime, e);
      assert CheckSpec(w, c, k, lifetime, e) == LinkAndSync(w, c, k, b.(status := s), lifetime, e);
    }
  }

  lemma CheckLifetimeProceeds(w: World, c: Configuration, k: Key, e: BindingEnv)
    requires k in w.bindings && !w.bindings[k].deleting && e.provider.Found?
    requires FoundReady(w.tokens, k.ns, e.lookup.found)
    ensures Proceeds(w, c, k, CheckLifetime(w, c, k, e), e)
  {
    var lifetime := LifetimeOf(c, w.bindings[k].lifetime);
    if !lifetime.BadLifetime? && !Expired(w, k, lifetime) {
      CheckSpecProceeds(w, c, k, lifetime, e);
      assert CheckLifetime(w, c, k, e) == CheckSpec(w, c, k, lifetime, e);
    }
  }

  // ----- lifetimes that are not accepted -----

  /** What the code refuses; docs/USER.md says of the short and the negative ones that they are ignored. */
  predicate RefusedLifetime(c: Configuration, lifetime: string) {
    && lifetime != "" && lifetime != "-1"
    && (c.parseDuration(lifetime).None? || c.parseDuration(lifetime).value < 60 * SECOND)
  }

  /** The configured time without a lifetime of its own, no limit for "-1", else that lifetime, is over. */
  predicate LivedOut(c: Configuration, b: Binding, now: int) {
    if b.lifetime == "" then now > b.created + c.bindingTtl
    else
      && b.lifetime != "-1" && c.parseDuration(b.lifetime).Some? && c.parseDuration(b.lifetime).value >= 60 * SECOND
      && now > b.created + c.parseDuration(b.lifetime).value
  }

  /** A lifetime error, with nothing linked and no other change. */
  predicate RecordsLifetimeError(w: World, k: Key, r: Reconciled)
    requires k in w.bindings
  {
    && r.ending == Retry && k in r.world.bindings && r.world.tokens == w.tokens
    && r.world.bindings[k].status.reason == InvalidLifetime
    && r.world.bindings[k] == w.bindings[k].(status := r.world.bindings[k].status)
    && r.world.bindings[k].status.linked == w.bindings[k].status.linked
  }

  /**
   Main result: a live binding that reaches the lifetime check ends in a retry that records a lifetime
   error and links nothing, if and only if its lifetime is neither empty nor "-1" and does not parse
   or is below 60 seconds. (A status that cannot be written, or that was a lifetime error before,
   tells nothing.)
   */
  lemma LifetimeIsRefusedExactlyWhen(w: World, c: Configuration, k: Key, e: BindingEnv)
    requires k in w.bindings && !w.bindings[k].deleting && e.provider.Found?
    requires FoundReady(w.tokens, k.ns, e.lookup.found)
    ensures var b, r := w.bindings[k], CheckLifetime(w, c, k, e);
            && (RefusedLifetime(c, b.lifetime) ==>
                  r == Reconciled(WriteError(w, k, b.status.(phase := BindingError), InvalidLifetime, e), Retry))
            && (e.errorStatusOk && b.status.reason != InvalidLifetime ==>
                  (RefusedLifetime(c, b.lifetime) <==> RecordsLifetimeError(w, k, r)))
  {
    if !RefusedLifetime(c, w.bindings[k].lifetime) {
      CheckSpecProceeds(w, c, k, LifetimeOf(c, w.bindings[k].lifetime), e);
    }
  }

  lemma FinalizeDeletedProceeds(w: World, c: Configuration, k: Key, b: Binding, e: BindingEnv)
    requires k in w.bindings && b.deleting
    requires b == w.bindings[k].(finalizers := MigratedFinalizers(w.bindings[k].finalizers))
    ensures Proceeds(w, c, k, FinalizeDeleted(w, k, b, e), e)
  {
  }

  /** Proceeding from a world that differs in the finalizers of the binding only. */
  lemma ProceedsFrom(w: World, w1: World, c: Configuration, k: Key, r: Reconciled, e: BindingEnv)
    requires k in w.bindings && k in w1.bindings && w1.now == w.now && Proceeds(w1, c, k, r, e)
    requires w1.bindings[k] == w.bindings[k].(finalizers := w1.bindings[k].finalizers)
    requires LinkedSecrets in w1.bindings[k].finalizers ==> LinkedSecrets in w.bindings[k].finalizers
    ensures Proceeds(w, c, k, r, e)
  {
  }

  lemma FinalizeAndGoOnProceeds(w: World, c: Configuration, k: Key, b: Binding, e: BindingEnv)
    requires k in w.bindings && e.provider.Found? && FoundReady(w.tokens, k.ns, e.lookup.found)
    requires b == CopyInMemory(w.bindings[k])
    ensures Proceeds(w, c, k, FinalizeAndGoOn(w, c, k, b, e), e)
  {
    if b.deleting {
      FinalizeDeletedProceeds(w, c, k, b, e);
    } else if LinkedObjects in b.finalizers {
      CheckLifetimeProceeds(w, c, k, e);
    } else if e.finalizersOk {
      var w1 := UpdateBinding(w, k, b.(finalizers := b.finalizers + {LinkedObjects}));
      CheckLifetimeProceeds(w1, c, k, e);
      ProceedsFrom(w, w1, c, k, CheckLifetime(w1, c, k, e), e);
    }
  }

  // ----- normalisation -----

  predicate NeedsUrl(c: Configuration, b: Binding) {
    ProperRepoUrl(c.host, b.repoUrl).Some? && ProperRepoUrl(c.host, b.repoUrl).value != b.repoUrl
  }

  /** How many reconciles may still end early to normalise the binding. */
  function Pending(c: Configuration, b: Binding): nat {
    (if NeedsUrl(c, b) then 1 else 0) + (if HasOldArea(b) then 1 else 0)
  }

  lemma ProperRepoUrlIsIdempotent(host: string -> Option<string>, url: string)
    ensures ProperRepoUrl(host, url).Some? ==>
              ProperRepoUrl(host, ProperRepoUrl(host, url).value) == ProperRepoUrl(host, url)
  {
  }

  /** The two old areas of Quay, and what they are called now. */
  predicate SameArea(a: PermissionArea, a': PermissionArea) {
    || a' == a
    || (a == Repository && a' == Registry) || (a == RepositoryMetadata && a' == RegistryMetadata)
  }

  /** The same permissions with the same types, whatever their areas are called. */
  predicate SamePermissions(p: Permissions, q: Permissions) {
    && |p.required| == |q.required| && p.additionalScopes == q.additionalScopes
    && forall i :: 0 <= i < |p.required| ==>
         && p.required[i].kind == q.required[i].kind && SameArea(p.required[i].area, q.required[i].area)
  }

  lemma MigratedAreasHasNoOldArea(b: Binding)
    ensures !HasOldArea(MigratedAreas(b)) && SamePermissions(b.permissions, MigratedAreas(b).permissions)
  {
    var required := b.permissions.required;
    forall p | p in MigratedRequired(required) ensures !OldArea(p) {
      var i :| 0 <= i < |required| && p == MigratedRequired(required)[i];
    }
  }

  /** What a reconcile that ends early to write the normalised areas leaves behind. */
  predicate NormalisesAreas(c: Configuration, b: Binding, b': Binding) {
    && HasOldArea(b) && !HasOldArea(b') && SamePermissions(b.permissions, b'.permissions)
    && b'.repoUrl == b.repoUrl && b'.created == b.created && b'.lifetime == b.lifetime
    && b'.status.linked == b.status.linked
    && (LinkedSecrets in b'.finalizers ==> LinkedSecrets in b.finalizers)
  }

  /** From the areas on: a reconcile either normalises them and ends, or proceeds. */
  predicate NormalisesOrProceeds(w: World, c: Configuration, k: Key, r: Reconciled, e: BindingEnv)
    requires k in w.bindings
  {
    if r.ending == NormalisedAreas then
      (k in r.world.bindings ==> NormalisesAreas(c, w.bindings[k], r.world.bindings[k]))
      && (!w.bindings[k].deleting ==> k in r.world.bindings && !r.world.bindings[k].deleting)
    else Proceeds(w, c, k, r, e)
  }

  lemma CheckAreasProceeds(w: World, c: Configuration, k: Key, b: Binding, e: BindingEnv)
    requires k in w.bindings && e.provider.Found? && FoundReady(w.tokens, k.ns, e.lookup.found)
    requires b == CopyInMemory(w.bindings[k])
    ensures NormalisesOrProceeds(w, c, k, CheckAreas(w, c, k, b, e), e)
    ensures var r := CheckAreas(w, c, k, b, e);
            e.provider.name == "Quay" && e.areasUpdateOk && !b.deleting && k in r.world.bindings ==>
              !HasOldArea(r.world.bindings[k])
  {
    if e.provider.name == "Quay" && HasOldArea(b) {
      MigratedAreasHasNoOldArea(b);
    } else {
      FinalizeAndGoOnProceeds(w, c, k, b, e);
    }
  }

  lemma CheckProviderProceeds(w: World, c: Configuration, k: Key, b: Binding, e: BindingEnv)
    requires k in w.bindings && (e.provider.Found? ==> FoundReady(w.tokens, k.ns, e.lookup.found))
    requires b == CopyInMemory(w.bindings[k])
    ensures NormalisesOrProceeds(w, c, k, CheckProvider(w, c, k, b, e), e)
    ensures var r := CheckProvider(w, c, k, b, e);
            var forQuay := e.provider.Found? && e.provider.name == "Quay";
            forQuay && e.areasUpdateOk && !b.deleting && k in r.world.bindings ==> !HasOldArea(r.world.bindings[k])
  {
    match e.provider
    case InvalidConfiguration =>
    case Unknown =>
    case Found(_, _) =>
      CheckAreasProceeds(w, c, k, b, e);
      assert CheckProvider(w, c, k, b, e) == CheckAreas(w, c, k, b, e);
  }

  lemma NormalisesOrProceedsFrom(w: World, w1: World, c: Configuration, k: Key, r: Reconciled, e: BindingEnv)
    requires k in w.bindings && k in w1.bindings && w1.now == w.now && NormalisesOrProceeds(w1, c, k, r, e)
    requires w1.bindings[k] == w.bindings[k].(finalizers := w1.bindings[k].finalizers)
    requires LinkedSecrets in w1.bindings[k].finalizers ==> LinkedSecrets in w.bindings[k].finalizers
    ensures NormalisesOrProceeds(w, c, k, r, e)
  {
    if r.ending != NormalisedAreas {
      ProceedsFrom(w, w1, c, k, r, e);
    }
  }

  /** The deprecated finalizer and the old areas of a Quay binding are gone. */
  predicate InNormalForm(b: Binding, provider: ProviderOutcome) {
    LinkedSecrets !in b.finalizers && (provider.Found? && provider.name == "Quay" ==> !HasOldArea(b))
  }

  lemma MigrateFinalizersProceeds(w: World, c: Configuration, k: Key, e: BindingEnv)
    requires k in w.bindings && (e.provider.Found? ==> FoundReady(w.tokens, k.ns, e.lookup.found))
    ensures var r := MigrateFinalizers(w, c, k, e);
            && NormalisesOrProceeds(w, c, k, r, e)
            && (!w.bindings[k].deleting && e.migrateOk && e.areasUpdateOk && k in r.world.bindings ==>
                  InNormalForm(r.world.bindings[k], e.provider))
  {
    var b := w.bindings[k];
    var migrated := b.(finalizers := MigratedFinalizers(b.finalizers));
    if LinkedSecrets !in b.finalizers || b.deleting {
      CheckProviderProceeds(w, c, k, migrated, e);
    } else if e.migrateOk {
      var w1 := UpdateBinding(w, k, migrated);
      CheckProviderProceeds(w1, c, k, migrated, e);
      NormalisesOrProceedsFrom(w, w1, c, k, CheckProvider(w1, c, k, migrated, e), e);
    }
  }

  /** What a reconcile that ends early for the URL leaves behind: that URL, if it could be written. */
  predicate NormalisesUrl(w: World, c: Configuration, k: Key, r: Reconciled, e: BindingEnv)
    requires k in w.bindings
  {
    var b := w.bindings[k];
    && NeedsUrl(c, b)
    && (k in r.world.bindings ==>
          r.world.bindings[k] == if e.urlUpdateOk then b.(repoUrl := ProperRepoUrl(c.host, b.repoUrl).value) else b)
    && (!b.deleting ==> k in r.world.bindings)
  }

  lemma ReconcileProceeds(w: World, c: Configuration, k: Key, e: BindingEnv)
    requires Plausible(w, c, k, e) && k in w.bindings
    ensures var r := ReconcileBinding(w, c, k, e);
            if r.ending == NormalisedUrl then NormalisesUrl(w, c, k, r, e) else NormalisesOrProceeds(w, c, k, r, e)
  {
    PlausibleFindsReady(w, c, k, e);
    MigrateFinalizersProceeds(w, c, k, e);
  }

  /**
   Main result: a reconcile ends early for the URL exactly when the binding is read and its URL is
   to be normalised. Whether the update went through makes no difference: its failure is not
   reported, and it leaves everything as it was.
   */
  lemma UrlEndsReconcileExactlyWhen(w: World, c: Configuration, k: Key, e: BindingEnv)
    requires Plausible(w, c, k, e)
    ensures var r := ReconcileBinding(w, c, k, e);
            && (r.ending == NormalisedUrl <==> e.getOk && k in w.bindings && NeedsUrl(c, w.bindings[k]))
            && (r.ending == NormalisedUrl && !e.urlUpdateOk ==> r.world == w)
  {
    if k in w.bindings {
      ReconcileProceeds(w, c, k, e);
    }
  }

  /**
   Main result: when the two updates that normalise succeed, one reconcile that gets past the URL brings a live
   binding into normal form, whatever else fails in it.
   */
  lemma ReconcileNormalises(w: World, c: Configuration, k: Key, e: BindingEnv)
    requires Plausible(w, c, k, e) && k in w.bindings && !w.bindings[k].deleting
    requires e.getOk && e.migrateOk && e.areasUpdateOk
    requires ProperRepoUrl(c.host, w.bindings[k].repoUrl) == Some(w.bindings[k].repoUrl)
    ensures var w' := ReconcileBinding(w, c, k, e).world;
            k in w'.bindings ==>
              && InNormalForm(w'.bindings[k], e.provider)
              && SamePermissions(w.bindings[k].permissions, w'.bindings[k].permissions)
  {
    PlausibleFindsReady(w, c, k, e);
    MigrateFinalizersProceeds(w, c, k, e);
  }

  /**
   A finding: a Quay binding that is deleted while it still has the deprecated finalizer and old
   areas cannot go. The update of the areas would carry the new finalizer along, the server refuses
   that on an object being deleted, and so every reconcile ends there and changes nothing.
   */
  lemma DeprecatedFinalizerBlocksDeletion(w: World, c: Configuration, k: Key, e: BindingEnv)
    requires Plausible(w, c, k, e) && e.getOk && k in w.bindings
    requires ProperRepoUrl(c.host, w.bindings[k].repoUrl) == Some(w.bindings[k].repoUrl)
    requires e.provider.Found? && e.provider.name == "Quay" && HasOldArea(w.bindings[k]) && w.bindings[k].deleting
    ensures ReconcileBinding(w, c, k, e) == Reconciled(w, Retry)
            <==> !e.areasUpdateOk ||
                 (LinkedSecrets in w.bindings[k].finalizers && LinkedObjects !in w.bindings[k].finalizers)
  {
    PlausibleFindsReady(w, c, k, e);
  }

  // ----- links, wake-ups and lifetimes -----

  /** Whenever this reconcile examines any candidates, the token that the binding is linked to matches. */
  predicate StillMatches(linked: string, e: BindingEnv) {
    e.provider.Found? && e.lookup.listOk ==>
      exists x :: x in e.lookup.candidates && x.name == linked && x.Matching()
  }

  /** Then it is among the tokens found, unless the lookup fails. */
  lemma MatchingIsFound(w: World, c: Configuration, k: Key, e: BindingEnv)
    requires Plausible(w, c, k, e) && k in w.bindings && e.provider.Found?
    requires StillMatches(w.bindings[k].status.linked, e)
    ensures e.lookup.found.Some? <==>
              e.lookup.listOk && forall x :: x in e.lookup.candidates ==> !x.Failing()
    ensures e.lookup.found.Some? ==> w.bindings[k].status.linked in e.lookup.found.value
  {
    if e.lookup.found.Some? {
      var x :| x in e.lookup.candidates && x.name == w.bindings[k].status.linked && x.Matching();
      MatchingIsSelected(e.lookup.candidates, (x: Lookup.Candidate) => x.Matching(), x);
      assert w.bindings[k].status.linked in multiset(e.lookup.found.value);
    }
  }

  /**
   Main result: a binding linked to a token that still matches stays linked to it, wherever the
   token comes in the result, and also when the lookup fails.
   */
  lemma MatchingLinkIsKept(w: World, c: Configuration, k: Key, e: BindingEnv)
    requires Plausible(w, c, k, e) && k in w.bindings
    requires StillMatches(w.bindings[k].status.linked, e)
    ensures var w' := ReconcileBinding(w, c, k, e).world;
            k in w'.bindings ==> w'.bindings[k].status.linked == w.bindings[k].status.linked
  {
    if e.provider.Found? {
      MatchingIsFound(w, c, k, e);
    }
    ReconcileProceeds(w, c, k, e);
  }

  lemma {:induction false} MatchingIsSelected(cands: seq<Lookup.Candidate>, p: Lookup.Candidate -> bool,
      x: Lookup.Candidate)
    requires x in cands && p(x)
    ensures x.name in Lookup.Select(cands, p)
  {
    if cands[0] != x {
      MatchingIsSelected(cands[1..], p, x);
    }
  }

  lemma ExpiredIsDeleted(w: World, c: Configuration, k: Key, e: BindingEnv)
    requires k in w.bindings && !w.bindings[k].deleting && e.provider.Found? && e.deleteOk
    requires FoundReady(w.tokens, k.ns, e.lookup.found)
    requires Expired(w, k, LifetimeOf(c, w.bindings[k].lifetime))
    ensures CheckLifetime(w, c, k, e) == Reconciled(DeleteBinding(w, k), Finished)
  {
  }

  /**
   Main result: a reconcile that asks for a wake-up asks for one that is at least the grace period
   away, and a reconcile at that time or later, with the same configuration and lifetime, that
   reaches the lifetime check deletes the binding.
   */
  lemma WakeUpIsSound(w: World, c: Configuration, k: Key, e: BindingEnv, r: Reconciled, w2: World, e2: BindingEnv)
    requires Plausible(w, c, k, e) && r == ReconcileBinding(w, c, k, e) && r.ending.RequeueAfter? && c.grace > 0
    requires k in r.world.bindings && k in w2.bindings && !w2.bindings[k].deleting && w2.now >= w.now + r.ending.delay
    requires w2.bindings[k].created == r.world.bindings[k].created
    requires w2.bindings[k].lifetime == r.world.bindings[k].lifetime
    requires e2.provider.Found? && FoundReady(w2.tokens, k.ns, e2.lookup.found) && e2.deleteOk
    ensures r.ending.delay >= c.grace
    ensures CheckLifetime(w2, c, k, e2) == Reconciled(DeleteBinding(w2, k), Finished)
  {
    ReconcileProceeds(w, c, k, e);
    ExpiredIsDeleted(w2, c, k, e2);
  }
}
