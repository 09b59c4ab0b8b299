// What runs do to one token: what puts an end to it, and what else writes to it.
module TokenLife {
  import opened Core
  import opened Cluster
  import opened Invariant
  import opened BR = BindingReconciler
  import TO = TokenOutcome
  import TS = TokenSafety
  import TU = TokenUpload
  import opened Runs

  // ----- reconciles of bindings -----

  /** Every token is still there, with other metadata at most. */
  predicate KeepsTokens(w: World, w': World) {
    forall j :: j in w.tokens ==>
      && j in w'.tokens
      && w'.tokens[j] == w.tokens[j].(status := w.tokens[j].status.(metadata := w'.tokens[j].status.metadata))
  }

  lemma SettleKeepsTokens(w: World, c: Configuration, k: Key, s: BindingStatus, lifetime: Lifetime,
      checkpoint: set<string>, e: BindingEnv)
    requires k in w.bindings
    ensures Settle(w, c, k, s, lifetime, checkpoint, e).world.tokens == w.tokens
  {
  }

  lemma SyncReadyKeepsTokens(w: World, c: Configuration, k: Key, s: BindingStatus, lifetime: Lifetime, e: BindingEnv)
    requires k in w.bindings && e.checkpointOk
    ensures SyncDependents(w, c, k, s, true, lifetime, e).world.tokens == w.tokens
  {
    match e.sync
    case Synced(secret, objects, accounts) =>
      var s1 := s.(phase := Injected, synced := secret, accounts := accounts);
      SettleKeepsTokens(SetDependents(w, k, objects), c, k, s1, lifetime, Dependents(w, k), e);
    case DataNotFound(partial) =>
      SettleKeepsTokens(SetDependents(w, k, partial), c, k, Awaiting(s), lifetime, Dependents(w, k), e);
    case SyncFailed(_, _) =>
  }

  lemma SyncDependentsKeepsTokens(w: World, c: Configuration, k: Key, s: BindingStatus, ready: bool,
      lifetime: Lifetime, e: BindingEnv)
    requires k in w.bindings
    ensures SyncDependents(w, c, k, s, ready, lifetime, e).world.tokens == w.tokens
  {
    if e.checkpointOk && ready {
      SyncReadyKeepsTokens(w, c, k, s, lifetime, e);
    } else if e.checkpointOk {
      SettleKeepsTokens(w, c, k, Awaiting(s), lifetime, Dependents(w, k), e);
      assert SyncDependents(w, c, k, s, ready, lifetime, e)
             == Settle(w, c, k, Awaiting(s), lifetime, Dependents(w, k), e);
    }
  }

  lemma SyncKeepsTokens(w: World, c: Configuration, k: Key, s: BindingStatus, t: Token, matching: bool,
      lifetime: Lifetime, e: BindingEnv)
    requires k in w.bindings
    ensures SyncWithToken(w, c, k, s, t, matching, lifetime, e).world.tokens == w.tokens
  {
    SyncDependentsKeepsTokens(w, c, k, s.(oauthUrl := t.status.oauthUrl, uploadUrl := t.status.uploadUrl),
                              t.status.phase == Ready, lifetime, e);
  }

  lemma PickKeepsTokens(w: World, c: Configuration, k: Key, b: Binding, e: BindingEnv)
    requires k in w.bindings && e.provider.Found? && FoundReady(w.tokens, k.ns, e.lookup.found)
    requires Key(k.ns, e.newName) !in w.tokens
    ensures var p := PickToken(w, c, k, b, e);
            && (forall j :: j in w.tokens ==> j in p.world.tokens && p.world.tokens[j] == w.tokens[j])
            && (p.Picked? && p.created ==> Key(k.ns, e.newName) !in w.tokens)
  {
  }

  lemma PersistKeepsTokens(p: Picked, k: Key, b: Binding, e: BindingEnv, j: Key)
    requires p.Picked? && k in p.world.bindings && Key(k.ns, p.token) in p.world.tokens && !b.deleting
    requires p.created ==> p.token == e.newName && Minted(p.world, k) > 0
    requires j in p.world.tokens && (p.created ==> j != Key(k.ns, e.newName))
    ensures var w' := PersistOrRollback(p, k, b, e).world; j in w'.tokens && w'.tokens[j] == p.world.tokens[j]
  {
    var linking := PersistLink(p.world, k, b, p.token, p.matching, e);
    assert linking.world.tokens == p.world.tokens;
  }

  lemma MetadataKeepsTokens(w: World, k: Key, e: BindingEnv)
    requires k in w.bindings && FoundReady(w.tokens, k.ns, e.lookup.found)
    ensures var w1 := WriteMetadata(w, k.ns, e.lookup.written);
            && KeepsTokens(w, w1) && w1.tokens.Keys == w.tokens.Keys && FoundReady(w1.tokens, k.ns, e.lookup.found)
  {
  }

  lemma KeepsTokensFrom(w: World, w1: World, w': World)
    requires KeepsTokens(w, w1)
    requires forall j :: j in w.tokens ==> j in w'.tokens && w'.tokens[j] == w1.tokens[j]
    ensures KeepsTokens(w, w')
  {
  }

  lemma PickedKeepsTokens(w: World, p: Picked, k: Key, b: Binding, e: BindingEnv)
    requires p.Picked? && k in p.world.bindings && Key(k.ns, p.token) in p.world.tokens && !b.deleting
    requires p.created ==> p.token == e.newName && Minted(p.world, k) > 0
    requires Key(k.ns, e.newName) !in w.tokens
    requires forall j :: j in w.tokens ==> j in p.world.tokens && p.world.tokens[j] == w.tokens[j]
    ensures var w' := PersistOrRollback(p, k, b, e).world;
            forall j :: j in w.tokens ==> j in w'.tokens && w'.tokens[j] == w.tokens[j]
  {
    forall j | j in w.tokens
      ensures var w' := PersistOrRollback(p, k, b, e).world; j in w'.tokens && w'.tokens[j] == w.tokens[j]
    {
      PersistKeepsTokens(p, k, b, e, j);
    }
  }

  /** At most a token that was not there before comes, and goes again. */
  lemma LinkKeepsTokens(w: World, c: Configuration, k: Key, b: Binding, e: BindingEnv)
    requires k in w.bindings && !b.deleting && e.provider.Found? && FoundReady(w.tokens, k.ns, e.lookup.found)
    requires Key(k.ns, e.newName) !in w.tokens
    ensures KeepsTokens(w, LinkToken(w, c, k, b, e).world)
  {
    MetadataKeepsTokens(w, k, e);
    var w1 := WriteMetadata(w, k.ns, e.lookup.written);
    PickKeepsTokens(w1, c, k, b, e);
    var p := PickToken(w1, c, k, b, e);
    if p.Picked? {
      PickedKeepsTokens(w1, p, k, b, e);
      KeepsTokensFrom(w, w1, PersistOrRollback(p, k, b, e).world);
    } else {
      KeepsTokensFrom(w, w1, p.world);
    }
  }

  lemma LinkAndSyncKeepsTokens(w: World, c: Configuration, k: Key, b: Binding, lifetime: Lifetime, e: BindingEnv)
    requires k in w.bindings && !b.deleting && e.provider.Found? && FoundReady(w.tokens, k.ns, e.lookup.found)
    requires Key(k.ns, e.newName) !in w.tokens
    ensures KeepsTokens(w, LinkAndSync(w, c, k, b, lifetime, e).world)
  {
    LinkKeepsTokens(w, c, k, b, e);
    var r := LinkToken(w, c, k, b, e);
    if r.Linked? {
      SyncKeepsTokens(r.world, c, k, r.memory.status, r.world.tokens[Key(k.ns, r.token)], r.matching, lifetime, e);
    }
  }

  lemma CheckSpecKeepsTokens(w: World, c: Configuration, k: Key, lifetime: Lifetime, e: BindingEnv)
    requires k in w.bindings && !w.bindings[k].deleting && e.provider.Found?
    requires FoundReady(w.tokens, k.ns, e.lookup.found) && Key(k.ns, e.newName) !in w.tokens
    ensures KeepsTokens(w, CheckSpec(w, c, k, lifetime, e).world)
  {
    var b := w.bindings[k];
    var s := if b.status.phase == NoBindingPhase then b.status.(phase := AwaitingData) else b.status;
    if e.consistent && e.validation == Valid {
      LinkAndSyncKeepsTokens(w, c, k, b.(status := s), lifetime, e);
      assert CheckSpec(w, c, k, lifetime, e) == LinkAndSync(w, c, k, b.(status := s), lifetime, e);
    } else {
      assert CheckSpec(w, c, k, lifetime, e).world.tokens == w.tokens;
    }
  }

  lemma CheckLifetimeKeepsTokens(w: World, c: Configuration, k: Key, e: BindingEnv)
    requires k in w.bindings && !w.bindings[k].deleting && e.provider.Found?
    requires FoundReady(w.tokens, k.ns, e.lookup.found) && Key(k.ns, e.newName) !in w.tokens
    ensures KeepsTokens(w, CheckLifetime(w, c, k, e).world)
  {
    var lifetime := LifetimeOf(c, w.bindings[k].lifetime);
    if !lifetime.BadLifetime? && !Expired(w, k, lifetime) {
      CheckSpecKeepsTokens(w, c, k, lifetime, e);
      assert CheckLifetime(w, c, k, e) == CheckSpec(w, c, k, lifetime, e);
    } else {
      assert CheckLifetime(w, c, k, e).world.tokens == w.tokens;
    }
  }

  lemma FinalizeAndGoOnKeepsTokens(w: World, c: Configuration, k: Key, b: Binding, e: BindingEnv)
    requires k in w.bindings && e.provider.Found? && b == CopyInMemory(w.bindings[k])
    requires FoundReady(w.tokens, k.ns, e.lookup.found) && Key(k.ns, e.newName) !in w.tokens
    ensures KeepsTokens(w, FinalizeAndGoOn(w, c, k, b, e).world)
  {
    if b.deleting {
      assert FinalizeAndGoOn(w, c, k, b, e).world.tokens == w.tokens;
    } else if LinkedObjects in b.finalizers {
      CheckLifetimeKeepsTokens(w, c, k, e);
    } else if e.finalizersOk {
      CheckLifetimeKeepsTokens(UpdateBinding(w, k, b.(finalizers := b.finalizers + {LinkedObjects})), c, k, e);
    }
  }

  lemma CheckProviderKeepsTokens(w: World, c: Configuration, k: Key, b: Binding, e: BindingEnv)
    requires k in w.bindings && b == CopyInMemory(w.bindings[k]) && Key(k.ns, e.newName) !in w.tokens
    requires e.provider.Found? ==> FoundReady(w.tokens, k.ns, e.lookup.found)
    ensures KeepsTokens(w, CheckProvider(w, c, k, b, e).world)
  {
    if e.provider.Found? {
      FinalizeAndGoOnKeepsTokens(w, c, k, b, e);
    }
  }

  lemma MigrateFinalizersKeepsTokens(w: World, c: Configuration, k: Key, e: BindingEnv)
    requires k in w.bindings && Key(k.ns, e.newName) !in w.tokens
    requires e.provider.Found? ==> FoundReady(w.tokens, k.ns, e.lookup.found)
    ensures KeepsTokens(w, MigrateFinalizers(w, c, k, e).world)
  {
    var b := w.bindings[k];
    var migrated := b.(finalizers := MigratedFinalizers(b.finalizers));
    if LinkedSecrets !in b.finalizers || b.deleting {
      CheckProviderKeepsTokens(w, c, k, migrated, e);
    } else if e.migrateOk {
      CheckProviderKeepsTokens(UpdateBinding(w, k, migrated), c, k, migrated, e);
    }
  }

  lemma BindingPassKeepsTokens(w: World, c: Configuration, k: Key, e: BindingEnv)
    requires Plausible(w, c, k, e)
    ensures KeepsTokens(w, ReconcileBinding(w, c, k, e).world)
  {
    if e.getOk && k in w.bindings && ProperRepoUrl(c.host, w.bindings[k].repoUrl) == Some(w.bindings[k].repoUrl) {
      PlausibleFindsReady(w, c, k, e);
      MigrateFinalizersKeepsTokens(w, c, k, e);
      assert ReconcileBinding(w, c, k, e) == MigrateFinalizers(w, c, k, e);
    } else {
      assert ReconcileBinding(w, c, k, e).world.tokens == w.tokens;
    }
  }

  // ----- what ends a token -----

  lemma UploadPassKeepsTokens(w: World, k: Key, e: TU.UploadEnv)
    requires e.newName != "" && Key(k.ns, e.newName) !in w.tokens
    ensures KeepsTokens(w, TU.ReconcileUpload(w, k, e).world)
  {
    if TU.TakesUp(w, k, e) {
      TU.UploadOnce(w, k, e);
    }
  }

  lemma ActionKeepsLive(w: World, a: Action, k: Key)
    requires Legal(w, a) && TO.Live(w, k) && a != DeleteToken(k)
    ensures TO.Live(Act(w, a), k)
  {
  }

  lemma OthersKeepLive(w: World, c: Configuration, s: Step, k: Key)
    requires TokensOk(w) && Allowed(w, c, s) && TO.Live(w, k)
    requires !(s.TokenPass? && s.token == k) && s != Outside(DeleteToken(k))
    ensures TO.Live(Next(w, c, s), k)
  {
    match s
    case TokenPass(j, e) => TS.ReconcileTouches(w, c, j, e);
    case BindingPass(j, e) => BindingPassKeepsTokens(w, c, j, e);
    case UploadPass(j, e) => UploadPassKeepsTokens(w, j, e);
    case Outside(a) => ActionKeepsLive(w, a, k);
  }

  /**
   Main result: in every run, a live token is ended only by a user, or by its own reconcile when the
   token is past its time, or past the grace period and still without data, and no binding is
   linked to it.
   */
  lemma OnlyUserOrLifetimeEndsToken(c: Configuration, steps: seq<Step>, s: Step, k: Key)
    requires Allowed(Run(c, steps), c, s)
    requires TO.Live(Run(c, steps), k) && !TO.Live(Next(Run(c, steps), c, s), k)
    ensures var w := Run(c, steps);
            var t := w.tokens[k];
            || s == Outside(DeleteToken(k))
            || (s.TokenPass? && s.token == k && TO.Unlinked(w, k)
                && (w.now - t.created > c.tokenTtl
                    || (t.status.phase == AwaitingTokenData && w.now - t.created > c.grace)))
  {
    RunKeepsInv(ANYTHING, c, steps);
    if s.TokenPass? && s.token == k {
      TO.EndedExactlyWhen(Run(c, steps), c, k, s.te);
    } else if s != Outside(DeleteToken(k)) {
      OthersKeepLive(Run(c, steps), c, s, k);
    }
  }
}
