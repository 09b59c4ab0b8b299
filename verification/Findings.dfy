// Inputs at which the code does not do what is promised, as runs from an empty cluster.
module Findings {
  import opened Core
  import opened Cluster
  import opened BindingReconciler
  import opened Permissions
  import BP = BindingProgress
  import DU = DataUpdates
  import MC = MetadataCache
  import N = Notification
  import Normalisation
  import Runs
  import TO = TokenOutcome
  import TR = TokenReconciler

  const K := Key("ns", "binding")
  const TOKEN := Key("ns", "token")

  /** Everything succeeds, and the lookup finds no token. */
  function Answers(provider: ProviderOutcome): BindingEnv {
    BindingEnv(
      true, true, true, provider, true, true, true, true, true, true, Valid,
      LookupEnv(true, [], map[], Some([])), true, true, true, "token", true, true, true, true,
      DataNotFound({}), true, true, true, {}, true)
  }

  function Config(host: string -> Option<string>, parseDuration: string -> Option<int>): Configuration {
    Configuration(60 * SECOND, 60 * SECOND, SECOND, "https://spi", host, parseDuration)
  }

  function NewBinding(url: string, required: seq<Permission>, lifetime: string, f: set<BindingFinalizer>): Binding {
    Binding(false, 0, f, "", url, Permissions(required, []), lifetime, NEW_BINDING_STATUS)
  }

  /** The cluster after a user has created the binding. */
  function Created(b: Binding): World {
    EMPTY_WORLD.(bindings := map[K := b], minted := map[K := 0])
  }

  lemma RunOfOne(c: Configuration, s: Runs.Step)
    requires Runs.Allowed(EMPTY_WORLD, c, s)
    ensures Runs.Run(c, [s]) == Runs.Next(EMPTY_WORLD, c, s)
  {
    assert [s][..0] == [];
  }

  lemma RunOneMore(c: Configuration, steps: seq<Runs.Step>, s: Runs.Step)
    requires Runs.Allowed(Runs.Run(c, steps), c, s)
    ensures Runs.Run(c, steps + [s]) == Runs.Next(Runs.Run(c, steps), c, s)
  {
    assert (steps + [s])[..|steps|] == steps;
  }

  lemma RunCreates(c: Configuration, b: Binding)
    requires !b.deleting && b.created == 0 && b.link == "" && b.status == NEW_BINDING_STATUS
    ensures Runs.Run(c, [Runs.Outside(Runs.CreateBinding(K, b))]) == Created(b)
  {
    RunOfOne(c, Runs.Outside(Runs.CreateBinding(K, b)));
  }

  /** In a cluster without tokens, finding none is what a lookup does. */
  lemma AnswersArePlausible(b: Binding, c: Configuration, e: BindingEnv)
    requires e.lookup == LookupEnv(true, [], map[], Some([])) && e.newName != "" && !e.sync.Synced?
    ensures Plausible(Created(b), c, K, e)
  {
  }

  /** The first reconcile adds the finalizer and reaches the lifetime check. */
  lemma FirstPassReachesLifetimeCheck(c: Configuration, b: Binding, e: BindingEnv)
    requires Plausible(Created(b), c, K, e)
    requires !b.deleting && b.finalizers == {} && ProperRepoUrl(c.host, b.repoUrl) == Some(b.repoUrl)
    requires e.getOk && e.provider.Found? && e.provider.name != "Quay" && e.finalizersOk
    ensures var w := Created(b.(finalizers := {LinkedObjects}));
            && FoundReady(w.tokens, K.ns, e.lookup.found)
            && ReconcileBinding(Created(b), c, K, e) == CheckLifetime(w, c, K, e)
  {
    var b1 := b.(finalizers := b.finalizers + {LinkedObjects});
    assert b1.finalizers == {LinkedObjects};
    assert UpdateBinding(Created(b), K, b1) == Created(b1);
    PlausibleFindsReady(Created(b), c, K, e);
  }

  // ----- the link -----

  /** A new token is labelled, the status is not written, and the token is rolled back. */
  lemma FaultsTakeLinkApart(c: Configuration, b: Binding, memory: Binding, e: BindingEnv)
    requires !b.deleting && b.link == "" && b.status.linked == "" && e.provider.Found?
    requires memory == b.(status := memory.status) && memory.status.linked == ""
    requires e.lookup == LookupEnv(true, [], map[], Some([])) && e.newName != ""
    requires e.baseUrlOk && e.createOk && e.labelOk && !e.linkStatusOk && !e.errorStatusOk && e.rollbackOk
    ensures var r := LinkToken(Created(b), c, K, memory, e);
            && r.NotLinked? && K in r.world.bindings && r.world.tokens == map[]
            && r.world.bindings[K].link == e.newName && r.world.bindings[K].status.linked == ""
  {
    assert WriteMetadata(Created(b), K.ns, map[]).tokens == map[];
  }

  lemma LinkingFails(c: Configuration, b: Binding, e: BindingEnv)
    requires !b.deleting && b.created == 0 && b.link == "" && b.lifetime == "" && c.bindingTtl > 0
    requires b.status == NEW_BINDING_STATUS && e.provider.Found? && e.consistent && e.validation == Valid
    requires e.lookup == LookupEnv(true, [], map[], Some([])) && e.newName != ""
    requires e.baseUrlOk && e.createOk && e.labelOk && !e.linkStatusOk && !e.errorStatusOk && e.rollbackOk
    ensures var w' := CheckLifetime(Created(b), c, K, e).world;
            && K in w'.bindings && w'.tokens == map[]
            && w'.bindings[K].link == e.newName && w'.bindings[K].status.linked == ""
  {
    var memory := b.(status := b.status.(phase := AwaitingData));
    FaultsTakeLinkApart(c, b, memory, e);
    assert CheckLifetime(Created(b), c, K, e) == LinkAndSync(Created(b), c, K, memory, Limited(c.bindingTtl), e);
  }

  /** A user creates a binding, its first reconcile meets the faults: the label names no token, the status none. */
  lemma LinkComesApart() returns (c: Configuration, steps: seq<Runs.Step>)
    ensures var w := Runs.Run(c, steps);
            && K in w.bindings && w.tokens == map[]
            && w.bindings[K].link == "token" && w.bindings[K].status.linked == ""
  {
    c := Config(_ => Some("github.com"), _ => None);
    var b := NewBinding("https://github.com/org/repo", [], "", {});
    var e := Answers(Found("GitHub", "https://github.com")).(linkStatusOk := false, errorStatusOk := false);
    var create := Runs.Outside(Runs.CreateBinding(K, b));
    RunCreates(c, b);
    AnswersArePlausible(b, c, e);
    RunOneMore(c, [create], Runs.BindingPass(K, e));
    steps := [create] + [Runs.BindingPass(K, e)];
    FirstPassReachesLifetimeCheck(c, b, e);
    LinkingFails(c, b.(finalizers := {LinkedObjects}), e);
  }

  // ----- the lifetime -----

  function ThirtySeconds(): string -> Option<int> {
    (d: string) => if d == "30s" then Some(30 * SECOND) else None
  }

  /** A lifetime of 30 seconds is an error, and the binding is not linked. */
  lemma ShortLifetimeIsAnError() returns (c: Configuration, steps: seq<Runs.Step>)
    ensures var w := Runs.Run(c, steps);
            && K in w.bindings && w.bindings[K].lifetime == "30s" && c.parseDuration("30s") == Some(30 * SECOND)
            && w.bindings[K].status.reason == InvalidLifetime && w.bindings[K].status.phase == BindingError
            && w.bindings[K].link == "" && w.tokens == map[]
  {
    c := Config(_ => Some("github.com"), ThirtySeconds());
    var b := NewBinding("https://github.com/org/repo", [], "30s", {});
    var e := Answers(Found("GitHub", "https://github.com"));
    var create := Runs.Outside(Runs.CreateBinding(K, b));
    RunCreates(c, b);
    AnswersArePlausible(b, c, e);
    RunOneMore(c, [create], Runs.BindingPass(K, e));
    steps := [create] + [Runs.BindingPass(K, e)];
    FirstPassReachesLifetimeCheck(c, b, e);
    var b1 := b.(finalizers := {LinkedObjects});
    assert BP.RefusedLifetime(c, b1.lifetime);
    BP.LifetimeIsRefusedExactlyWhen(Created(b1), c, K, e);
  }

  // ----- the URL -----

  function QuayHost(): string -> Option<string> {
    (url: string) => if HTTPS <= url then Some("quay.io") else Some("")
  }

  /** An update of the URL that fails: nothing changes, and the ending is that of one that succeeded. */
  lemma FailedUrlUpdateIsNotReported() returns (c: Configuration, b: Binding, e: BindingEnv)
    ensures Runs.Run(c, [Runs.Outside(Runs.CreateBinding(K, b))]) == Created(b)
    ensures Plausible(Created(b), c, K, e) && !e.urlUpdateOk
    ensures ReconcileBinding(Created(b), c, K, e) == Reconciled(Created(b), NormalisedUrl)
  {
    c := Config(QuayHost(), _ => None);
    b := NewBinding("quay.io/org/repo", [], "", {});
    e := Answers(Found("Quay", "https://quay.io")).(urlUpdateOk := false);
    RunCreates(c, b);
    AnswersArePlausible(b, c, e);
    assert HTTPS[0] == 'h' && b.repoUrl[0] == 'q';
    assert c.host(b.repoUrl) == Some("") && c.host(HTTPS + b.repoUrl) == Some("quay.io");
    assert |HTTPS + b.repoUrl| != |b.repoUrl|;
    BP.UrlEndsReconcileExactlyWhen(Created(b), c, K, e);
  }

  // ----- the deprecated finalizer -----

  /** A binding with the deprecated finalizer and an old area that a user deletes is stuck. */
  lemma DeletionGetsStuck() returns (c: Configuration, steps: seq<Runs.Step>, e: BindingEnv)
    ensures Normalisation.Stuck(Runs.Run(c, steps), c, K)
    ensures e == Answers(Found("Quay", "https://quay.io")) && ApiOk(e) && Plausible(Runs.Run(c, steps), c, K, e)
    ensures ReconcileBinding(Runs.Run(c, steps), c, K, e) == Reconciled(Runs.Run(c, steps), Retry)
  {
    e := Answers(Found("Quay", "https://quay.io"));
    c := Config(QuayHost(), _ => None);
    var b := NewBinding("https://quay.io/org/repo", [Permission(Read, Repository)], "", {LinkedSecrets});
    var create := Runs.Outside(Runs.CreateBinding(K, b));
    RunCreates(c, b);
    RunOneMore(c, [create], Runs.Outside(Runs.DeleteBinding(K)));
    steps := [create] + [Runs.Outside(Runs.DeleteBinding(K))];
    assert b.permissions.required[0] in b.permissions.required;
    assert "https://quay.io/org/repo"[..8] == HTTPS;
    assert LinkedSecrets in b.finalizers;
    var w := Runs.Run(c, steps);
    assert w == Created(b.(deleting := true));
    AnswersArePlausible(b.(deleting := true), c, e);
    BP.DeprecatedFinalizerBlocksDeletion(w, c, K, e);
  }

  // ----- a token without data -----

  const USER := MC.Metadata("user", "1", [], "", 0)

  /** A Ready token whose data is gone, and whose label names no provider any more. */
  function Unlabelled(): World {
    var status := TokenStatus(Ready, NoTokenReason, "", "https://spi/token/ns/token", Some(USER));
    var t := Token(false, 0, TOKEN_FINALIZERS, "", "github.com", "", "https://github.com", Permissions([], []), status);
    EMPTY_WORLD.(tokens := map[TOKEN := t])
  }

  /** Everything succeeds; there is nothing to fetch metadata with. */
  function NothingToFetch(): TR.TokenEnv {
    TR.TokenEnv(
      true, true, true, true, true, true, Found("GitHub", "https://github.com"), Valid, MC.Ttl(60 * SECOND),
      MC.Encounter(0, Ok(None), 0, true), true, Some("https://oauth"), true, true, None, true, true)
  }

  /** The reconcile that restores the label leaves the token Ready, without any data. */
  lemma TokenStaysReadyWithoutData() returns (c: Configuration)
    ensures var w' := TR.ReconcileToken(Unlabelled(), c, TOKEN, NothingToFetch()).world;
            TOKEN in w'.tokens && w'.tokens[TOKEN].status.phase == Ready && w'.storage == map[]
  {
    c := Config(_ => Some("github.com"), _ => None);
    TO.StaysReadyWithoutDataExactlyWhen(Unlabelled(), c, TOKEN, NothingToFetch());
    TO.SuccessTellsMetadata(Unlabelled(), c, TOKEN, NothingToFetch());
  }

  // ----- the wake-up -----

  const UPDATE := Key("ns", "update")
  const WRITTEN := Data("user", "access", "refresh", 0)

  /** The write of the witness, and the event about it, which is the same when the update is consumed. */
  const WRITE := N.Write(TOKEN, 1)
  const EVENT := N.Event(UPDATE, DU.UpdateFor(TOKEN), 1)

  lemma StepsOneMore(steps: seq<N.Step>, step: N.Step)
    requires N.Enabled(N.Run(steps), step)
    ensures N.Run(steps + [step]) == N.Next(N.Run(steps), step)
  {
    assert (steps + [step])[..|steps|] == steps;
  }

  /** The binding is linked and not served; the write has been announced. */
  predicate Waiting(s: N.State, announced: set<N.Event>, updates: map<Key, DU.DataUpdate>) {
    && s.links == map[K := "token"] && K !in s.bindings.queue && K !in s.bindings.started
    && s.bindings.events == announced && s.dataUpdates.events == announced
    && s.updates == updates && N.AnnouncedAt(s, UPDATE) == 1
    && s.store.inFlight == map[] && WRITE in s.record.notified && s.now > 1
  }

  function Written(): seq<N.Step> {
    [N.SetLink(K, "token"), N.WriteData(0, TOKEN, DU.Store(WRITTEN))]
  }

  function Announced(): seq<N.Step> {
    Written() + [N.Notify(0, "update")]
  }

  lemma WriteIsAnnounced()
    ensures N.WrittenBy(Announced(), 1, WRITE) && K !in N.Run(Announced()[..1]).bindings.queue
    ensures Waiting(N.Run(Announced()), {EVENT}, map[UPDATE := DU.UpdateFor(TOKEN)])
  {
    var first := [N.SetLink(K, "token")];
    StepsOneMore([], N.SetLink(K, "token"));
    assert [] + first == first;
    StepsOneMore(first, N.WriteData(0, TOKEN, DU.Store(WRITTEN)));
    assert first + [N.WriteData(0, TOKEN, DU.Store(WRITTEN))] == Written();
    assert Announced()[..1] == first;
    assert N.Run(Written()).store.inFlight[0] == WRITE;
    StepsOneMore(Written(), N.Notify(0, "update"));
  }

  /** Both controllers map the event; the one of the bindings cannot list them. */
  function FailedRound(): seq<N.Step> {
    [N.MapForBindings(EVENT, false, false), N.MapForUpdate(EVENT, false)]
  }

  lemma RoundFails(steps: seq<N.Step>, updates: map<Key, DU.DataUpdate>)
    requires Waiting(N.Run(steps), {EVENT}, updates)
    ensures Waiting(N.Run(steps + FailedRound()), {}, updates)
    ensures UPDATE in N.Run(steps + FailedRound()).dataUpdates.queue
  {
    StepsOneMore(steps, N.MapForBindings(EVENT, false, false));
    StepsOneMore(steps + [N.MapForBindings(EVENT, false, false)], N.MapForUpdate(EVENT, false));
    assert steps + [N.MapForBindings(EVENT, false, false)] + [N.MapForUpdate(EVENT, false)] == steps + FailedRound();
  }

  /** Consuming the update takes it away, and announces that once more. */
  lemma UpdateIsConsumed(steps: seq<N.Step>)
    requires Waiting(N.Run(steps), {}, map[UPDATE := DU.UpdateFor(TOKEN)])
    requires UPDATE in N.Run(steps).dataUpdates.queue
    ensures Waiting(N.Run(steps + [N.ReconcileUpdate(UPDATE, true, true)]), {EVENT}, map[])
  {
    StepsOneMore(steps, N.ReconcileUpdate(UPDATE, true, true));
    var s := N.Run(steps);
    assert s.updates - {UPDATE} == map[];
    assert N.Announcement(s, UPDATE, true, true) == EVENT;
  }

  lemma ConsumedWriteIsSettled(s: N.State)
    requires Waiting(s, {}, map[])
    ensures N.Settled(s, WRITE) && !N.Served(s.bindings, K, WRITE.at)
  {
  }

  function Consumed(): seq<N.Step> {
    Announced() + FailedRound() + [N.ReconcileUpdate(UPDATE, true, true)]
  }

  lemma LostRunWaits()
    ensures Waiting(N.Run(Consumed() + FailedRound()), {}, map[])
  {
    WriteIsAnnounced();
    RoundFails(Announced(), map[UPDATE := DU.UpdateFor(TOKEN)]);
    UpdateIsConsumed(Announced() + FailedRound());
    RoundFails(Consumed(), map[]);
  }

  lemma LostRunQueuesNothing(steps: seq<N.Step>)
    requires steps == Consumed() + FailedRound()
    ensures N.WrittenBy(steps, 1, WRITE) && N.OnlyQueuedBy(steps, 1, WRITE, K)
    ensures forall j :: 1 < j < |steps| ==> !steps[j].EnqueueBinding? && (steps[j].MapForBindings? ==> !steps[j].listOk)
  {
    WriteIsAnnounced();
    assert steps[..1] == Announced()[..1];
    forall j | 1 < j < |steps| ensures !N.QueuesOtherwise(N.Run(steps[..j]), steps[j], WRITE, K) {
      NothingElseQueues(N.Run(steps[..j]), steps[j]);
    }
  }

  /**
   A binding linked to a token that is written: neither when the data update appears nor when it is
   consumed can the bindings be listed. Nothing about the write is left, and nothing woke the binding;
   nor does anything later, unless it queues the binding for another reason.
   */
  lemma WakeUpIsLost() returns (steps: seq<N.Step>, w: N.Write)
    ensures var s := N.Run(steps);
            && w in s.record.notified && K in s.links && Key(K.ns, s.links[K]) == w.token
            && N.Settled(s, w) && s.bindings.events == {} && s.dataUpdates.events == {} && s.updates == map[]
            && !N.Served(s.bindings, K, w.at)
    ensures N.WrittenBy(steps, 1, w) && N.OnlyQueuedBy(steps, 1, w, K)
    ensures forall more :: N.OnlyQueuedBy(steps + more, 1, w, K) ==> !N.Served(N.Run(steps + more).bindings, K, w.at)
  {
    steps, w := Consumed() + FailedRound(), WRITE;
    LostRunWaits();
    ConsumedWriteIsSettled(N.Run(steps));
    LostRunQueuesNothing(steps);
    forall more | N.OnlyQueuedBy(steps + more, 1, w, K)
      ensures !N.Served(N.Run(steps + more).bindings, K, w.at)
    {
      StaysLost(steps, more);
    }
  }

  lemma NothingElseQueues(s: N.State, step: N.Step)
    requires !step.EnqueueBinding? && (step.MapForBindings? ==> !step.listOk)
    ensures !N.QueuesOtherwise(s, step, WRITE, K)
  {
  }

  lemma StaysLost(steps: seq<N.Step>, more: seq<N.Step>)
    requires N.WrittenBy(steps, 1, WRITE) && N.Settled(N.Run(steps), WRITE)
    requires forall j :: 1 < j < |steps| ==> (steps[j].MapForBindings? ==> !steps[j].listOk)
    requires N.OnlyQueuedBy(steps + more, 1, WRITE, K)
    ensures !N.Served(N.Run(steps + more).bindings, K, WRITE.at)
  {
    var all := steps + more;
    assert all[..1] == steps[..1] && all[..|steps|] == steps;
    N.WakeUpIsLostExactlyWhen(all, 1, |steps|, WRITE, K);
  }
}
