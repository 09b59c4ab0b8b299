// The concurrent token lookup (pkg/serviceprovider/lookup.go): one goroutine per Ready candidate,
// two slices shared under a mutex, and a wait group. Appending to a shared slice reads it and
// then writes it, so the two halves are separate steps.
module Lookup {
  import opened Core

  datatype Verdict = EnsureFails | FilterFails | Matches | Mismatch

  datatype Candidate = Candidate(name: string, ready: bool, verdict: Verdict) {
    predicate Failing() {
      ready && (verdict == EnsureFails || verdict == FilterFails)
    }

    predicate Matching() {
      ready && verdict == Matches
    }

    predicate Delivers() {
      Failing() || Matching()
    }
  }

  /** The names of the candidates with some property, in listing order. */
  function Select(cands: seq<Candidate>, p: Candidate -> bool): seq<string> {
    if cands == [] then []
    else (if p(cands[0]) then [cands[0].name] else []) + Select(cands[1..], p)
  }

  /** The outcome that the sequential reading of the code promises, up to the order of the result. */
  ghost predicate IsOutcome(cands: seq<Candidate>, found: Option<seq<string>>) {
    if exists c :: c in cands && c.Failing() then found.None?
    else found.Some? && multiset(found.value) == multiset(Select(cands, (c: Candidate) => c.Matching()))
  }

  // ----- the goroutines -----

  datatype Pc =
    | NotSpawned | Ensuring | Filtering
    | AtLock                        // has something to append
    | Reading | Writing(seen: seq<string>) | Unlocking   // holds the mutex
    | Done

  datatype Machine = Machine(
    spawned: nat, pcs: seq<Pc>, holder: Option<nat>, result: seq<string>, errs: seq<string>)

  datatype Action = Spawn | Go(i: nat)

  function Start(cands: seq<Candidate>): Machine {
    Machine(0, seq(|cands|, _ => NotSpawned), None, [], [])
  }

  predicate Finished(m: Machine) {
    m.spawned == |m.pcs| && forall i :: 0 <= i < |m.pcs| ==> m.pcs[i] == Done
  }

  predicate Enabled(m: Machine, a: Action) {
    match a
    case Spawn => m.spawned < |m.pcs|
    case Go(i) =>
      && i < |m.pcs| && i < m.spawned && m.pcs[i] != Done
      && (m.pcs[i] == AtLock ==> m.holder == None)
  }

  predicate Shaped(cands: seq<Candidate>, m: Machine) {
    |m.pcs| == |cands| && m.spawned <= |cands|
  }

  function Step(cands: seq<Candidate>, m: Machine, a: Action): (m': Machine)
    requires Shaped(cands, m) && Enabled(m, a)
    ensures Shaped(cands, m')
  {
    match a
    case Spawn =>
      m.(spawned := m.spawned + 1,
         pcs := m.pcs[m.spawned := if cands[m.spawned].ready then Ensuring else Done])
    case Go(i) =>
      var c := cands[i];
      match m.pcs[i]
      case NotSpawned => m
      case Ensuring => m.(pcs := m.pcs[i := if c.verdict == EnsureFails then AtLock else Filtering])
      case Filtering => m.(pcs := m.pcs[i := if c.verdict == Mismatch then Done else AtLock])
      case AtLock => m.(holder := Some(i), pcs := m.pcs[i := Reading])
      case Reading => m.(pcs := m.pcs[i := Writing(if c.Failing() then m.errs else m.result)])
      case Writing(seen) =>
        if c.Failing() then m.(errs := seen + [c.name], pcs := m.pcs[i := Unlocking])
        else m.(result := seen + [c.name], pcs := m.pcs[i := Unlocking])
      case Unlocking => m.(holder := None, pcs := m.pcs[i := Done])
  }

  predicate HoldsMutex(pc: Pc) {
    pc == Reading || pc.Writing? || pc == Unlocking
  }

  predicate HasAppended(c: Candidate, pc: Pc) {
    c.Delivers() && (pc == Unlocking || pc == Done)
  }

  /** The names that have been appended by now, in listing order. */
  function Appended(cands: seq<Candidate>, pcs: seq<Pc>, p: Candidate -> bool): seq<string>
    requires |cands| == |pcs|
  {
    if cands == [] then []
    else (if p(cands[0]) && HasAppended(cands[0], pcs[0]) then [cands[0].name] else [])
         + Appended(cands[1..], pcs[1..], p)
  }

  function Failing(): Candidate -> bool {
    (c: Candidate) => c.Failing()
  }

  function Matching(): Candidate -> bool {
    (c: Candidate) => c.Matching()
  }

  ghost predicate GoroutineOk(c: Candidate, m: Machine, i: nat)
    requires i < |m.pcs|
  {
    && (i >= m.spawned <==> m.pcs[i] == NotSpawned)
    && (m.holder == Some(i) <==> HoldsMutex(m.pcs[i]))
    && (m.pcs[i] == AtLock || HoldsMutex(m.pcs[i]) ==> c.Delivers())
    && (m.pcs[i] == Ensuring || m.pcs[i] == Filtering ==> c.ready)
    && (m.pcs[i] == Filtering ==> c.verdict != EnsureFails)
    && (m.pcs[i].Writing? ==> m.pcs[i].seen == if c.Failing() then m.errs else m.result)
  }

  ghost predicate Inv(cands: seq<Candidate>, m: Machine) {
    && Shaped(cands, m)
    && (forall i :: 0 <= i < |cands| ==> GoroutineOk(cands[i], m, i))
    && (m.holder.Some? ==> m.holder.value < |cands|)
    && Accounted(cands, m)
  }

  /** The two slices hold, as multisets, what has been appended. */
  predicate Accounted(cands: seq<Candidate>, m: Machine)
    requires Shaped(cands, m)
  {
    && multiset(m.result) == multiset(Appended(cands, m.pcs, Matching()))
    && multiset(m.errs) == multiset(Appended(cands, m.pcs, Failing()))
  }

  /** Moving one goroutine adds its name exactly when it has just appended. */
  lemma {:induction false} AppendedStep(cands: seq<Candidate>, pcs: seq<Pc>, i: nat, pc: Pc, p: Candidate -> bool)
    requires |cands| == |pcs| && i < |pcs|
    requires HasAppended(cands[i], pcs[i]) ==> HasAppended(cands[i], pc)
    ensures multiset(Appended(cands, pcs[i := pc], p))
            == multiset(Appended(cands, pcs, p))
               + (if p(cands[i]) && HasAppended(cands[i], pc) && !HasAppended(cands[i], pcs[i])
                  then multiset{cands[i].name} else multiset{})
  {
    if i == 0 {
      assert pcs[0 := pc][1..] == pcs[1..];
    } else {
      assert pcs[i := pc][1..] == pcs[1..][i - 1 := pc];
      AppendedStep(cands[1..], pcs[1..], i - 1, pc, p);
    }
  }

  lemma StartInv(cands: seq<Candidate>)
    ensures Inv(cands, Start(cands))
  {
    NothingAppended(cands, Start(cands).pcs, Matching());
    NothingAppended(cands, Start(cands).pcs, Failing());
  }

  lemma NothingAppended(cands: seq<Candidate>, pcs: seq<Pc>, p: Candidate -> bool)
    requires |cands| == |pcs| && forall i :: 0 <= i < |pcs| ==> pcs[i] == NotSpawned
    ensures Appended(cands, pcs, p) == []
  {
  }

  /** The goroutine that an action moves; Spawn moves the next one into being. */
  function Mover(m: Machine, a: Action): nat {
    if a.Spawn? then m.spawned else a.i
  }

  lemma StepGoroutine(cands: seq<Candidate>, m: Machine, a: Action, j: nat)
    requires Shaped(cands, m) && Enabled(m, a) && j < |cands|
    requires GoroutineOk(cands[j], m, j) && GoroutineOk(cands[Mover(m, a)], m, Mover(m, a))
    ensures GoroutineOk(cands[j], Step(cands, m, a), j)
  {
  }

  /** Only the write half of an append changes a slice, and it makes the goroutine count as appended. */
  lemma StepShared(cands: seq<Candidate>, m: Machine, a: Action)
    requires Shaped(cands, m) && Enabled(m, a)
    requires GoroutineOk(cands[Mover(m, a)], m, Mover(m, a))
    ensures var i, m' := Mover(m, a), Step(cands, m, a);
            var c, writes := cands[i], m.pcs[i].Writing?;
            && m'.pcs == m.pcs[i := m'.pcs[i]]
            && m'.result == m.result + (if writes && c.Matching() then [c.name] else [])
            && m'.errs == m.errs + (if writes && c.Failing() then [c.name] else [])
            && (HasAppended(c, m'.pcs[i]) <==> writes || HasAppended(c, m.pcs[i]))
            && (writes ==> !HasAppended(c, m.pcs[i]))
  {
  }

  lemma StepAppended(cands: seq<Candidate>, m: Machine, a: Action)
    requires Shaped(cands, m) && Enabled(m, a)
    requires GoroutineOk(cands[Mover(m, a)], m, Mover(m, a)) && Accounted(cands, m)
    ensures Accounted(cands, Step(cands, m, a))
  {
    StepShared(cands, m, a);
    var i, m' := Mover(m, a), Step(cands, m, a);
    AppendedStep(cands, m.pcs, i, m'.pcs[i], Matching());
    AppendedStep(cands, m.pcs, i, m'.pcs[i], Failing());
  }

  /** Only a goroutine that exists can take the mutex. */
  lemma StepHolder(cands: seq<Candidate>, m: Machine, a: Action)
    requires Shaped(cands, m) && Enabled(m, a) && (m.holder.Some? ==> m.holder.value < |cands|)
    ensures var m' := Step(cands, m, a); m'.holder.Some? ==> m'.holder.value < |cands|
  {
  }

  lemma StepGoroutines(cands: seq<Candidate>, m: Machine, a: Action)
    requires Shaped(cands, m) && Enabled(m, a)
    requires forall j :: 0 <= j < |cands| ==> GoroutineOk(cands[j], m, j)
    ensures forall j :: 0 <= j < |cands| ==> GoroutineOk(cands[j], Step(cands, m, a), j)
  {
    var i := Mover(m, a);
    forall j | 0 <= j < |cands| ensures GoroutineOk(cands[j], Step(cands, m, a), j) {
      StepGoroutine(cands, m, a, j);
    }
  }

  lemma StepInv(cands: seq<Candidate>, m: Machine, a: Action)
    requires Inv(cands, m) && Enabled(m, a)
    ensures Inv(cands, Step(cands, m, a))
  {
    StepGoroutines(cands, m, a);
    StepHolder(cands, m, a);
    StepAppended(cands, m, a);
  }

  lemma {:induction false} AllAppended(cands: seq<Candidate>, pcs: seq<Pc>, p: Candidate -> bool)
    requires |cands| == |pcs| && forall i :: 0 <= i < |pcs| ==> pcs[i] == Done
    requires forall c :: p(c) ==> c.Delivers()
    ensures Appended(cands, pcs, p) == Select(cands, p)
  {
    if cands != [] {
      AllAppended(cands[1..], pcs[1..], p);
    }
  }

  lemma SelectEmpty(cands: seq<Candidate>, p: Candidate -> bool)
    ensures Select(cands, p) == [] <==> forall c :: c in cands ==> !p(c)
  {
    if cands != [] {
      assert cands == [cands[0]] + cands[1..];
    }
  }

  /** What Lookup returns once the wait group is released. */
  function Returned(m: Machine): Option<seq<string>> {
    if |m.errs| > 0 then None else Some(m.result)
  }

  /** Mutual exclusion and completeness: a finished machine has the promised outcome. */
  lemma FinishedOutcome(cands: seq<Candidate>, m: Machine)
    requires Inv(cands, m) && Finished(m)
    ensures IsOutcome(cands, Returned(m))
  {
    AllAppended(cands, m.pcs, Matching());
    AllAppended(cands, m.pcs, Failing());
    SelectEmpty(cands, Failing());
    assert |m.errs| == |multiset(m.errs)| == |Select(cands, Failing())|;
    SelectExtensional(cands, Matching(), (c: Candidate) => c.Matching());
  }

  lemma SelectExtensional(cands: seq<Candidate>, p: Candidate -> bool, q: Candidate -> bool)
    requires forall c :: p(c) <==> q(c)
    ensures Select(cands, p) == Select(cands, q)
  {
  }

  /** No goroutine is ever stuck for good: until all are done, one can move. */
  lemma NoDeadlock(cands: seq<Candidate>, m: Machine)
    requires Inv(cands, m) && !Finished(m)
    ensures exists a :: Enabled(m, a)
  {
    if m.spawned < |m.pcs| {
      assert Enabled(m, Spawn);
    } else if m.holder.Some? {
      assert GoroutineOk(cands[m.holder.value], m, m.holder.value);
      assert Enabled(m, Go(m.holder.value));
    } else {
      var i :| 0 <= i < |m.pcs| && m.pcs[i] != Done;
      assert Enabled(m, Go(i));
    }
  }

  function StepsLeft(pc: Pc): nat {
    match pc
    case NotSpawned => 7
    case Ensuring => 6
    case Filtering => 5
    case AtLock => 4
    case Reading => 3
    case Writing(_) => 2
    case Unlocking => 1
    case Done => 0
  }

  function Work(pcs: seq<Pc>): nat {
    if pcs == [] then 0 else StepsLeft(pcs[0]) + Work(pcs[1..])
  }

  lemma {:induction false} WorkUpdate(pcs: seq<Pc>, i: nat, pc: Pc)
    requires i < |pcs|
    ensures Work(pcs[i := pc]) == Work(pcs) - StepsLeft(pcs[i]) + StepsLeft(pc)
  {
    if i == 0 {
      assert pcs[0 := pc][1..] == pcs[1..];
    } else {
      assert pcs[i := pc][1..] == pcs[1..][i - 1 := pc];
      WorkUpdate(pcs[1..], i - 1, pc);
    }
  }

  lemma SpawnWorks(cands: seq<Candidate>, m: Machine)
    requires Shaped(cands, m) && Enabled(m, Spawn) && m.pcs[m.spawned] == NotSpawned
    ensures Work(Step(cands, m, Spawn).pcs) < Work(m.pcs)
  {
    WorkUpdate(m.pcs, m.spawned, Step(cands, m, Spawn).pcs[m.spawned]);
  }

  /** Each move of a goroutine brings its own program counter nearer to the end ... */
  lemma GoAdvances(cands: seq<Candidate>, m: Machine, i: nat)
    requires Shaped(cands, m) && Enabled(m, Go(i)) && m.pcs[i] != NotSpawned
    ensures var m' := Step(cands, m, Go(i));
            m'.pcs == m.pcs[i := m'.pcs[i]] && StepsLeft(m'.pcs[i]) < StepsLeft(m.pcs[i])
  {
  }

  /** ... and leaves less work. */
  lemma GoWorks(cands: seq<Candidate>, m: Machine, i: nat)
    requires Shaped(cands, m) && Enabled(m, Go(i)) && m.pcs[i] != NotSpawned
    ensures Work(Step(cands, m, Go(i)).pcs) < Work(m.pcs)
  {
    GoAdvances(cands, m, i);
    WorkUpdate(m.pcs, i, Step(cands, m, Go(i)).pcs[i]);
  }

  lemma StepWorks(cands: seq<Candidate>, m: Machine, a: Action)
    requires Inv(cands, m) && Enabled(m, a)
    ensures Work(Step(cands, m, a).pcs) < Work(m.pcs)
  {
    assert GoroutineOk(cands[Mover(m, a)], m, Mover(m, a));
    match a
    case Spawn => SpawnWorks(cands, m);
    case Go(i) => GoWorks(cands, m, i);
  }

  /**
   GenericLookup.Lookup. When the tokens cannot be listed it fails at once. Otherwise the scheduler
   is arbitrary: whichever goroutine it picks at each point, the lookup terminates with the
   promised outcome.
   */
  method LookupTokens(listed: Option<seq<Candidate>>) returns (found: Option<seq<string>>)
    ensures match listed
            case None => found == None
            case Some(cands) => IsOutcome(cands, found)
  {
    if listed.None? {
      return None;
    }
    var cands := listed.value;
    var m := Start(cands);
    StartInv(cands);
    while !Finished(m)
      invariant Inv(cands, m)
      decreases Work(m.pcs)
    {
      NoDeadlock(cands, m);
      var a :| Enabled(m, a);
      StepInv(cands, m, a);
      StepWorks(cands, m, a);
      m := Step(cands, m, a);
    }
    FinishedOutcome(cands, m);
    found := Returned(m);
  }

  // ----- every schedule -----

  predicate ValidSchedule(cands: seq<Candidate>, schedule: seq<Action>) {
    schedule == [] ||
    (ValidSchedule(cands, schedule[..|schedule| - 1])
     && Enabled(Execute(cands, schedule[..|schedule| - 1]), schedule[|schedule| - 1]))
  }

  function Execute(cands: seq<Candidate>, schedule: seq<Action>): (m: Machine)
    ensures Shaped(cands, m)
  {
    if schedule == [] then Start(cands)
    else
      var m := Execute(cands, schedule[..|schedule| - 1]);
      if Enabled(m, schedule[|schedule| - 1]) then Step(cands, m, schedule[|schedule| - 1]) else m
  }

  lemma {:induction false} ScheduleInv(cands: seq<Candidate>, schedule: seq<Action>)
    requires ValidSchedule(cands, schedule)
    ensures Inv(cands, Execute(cands, schedule))
    ensures |schedule| + Work(Execute(cands, schedule).pcs) <= Work(Start(cands).pcs)
  {
    StartInv(cands);
    if schedule != [] {
      var shorter := schedule[..|schedule| - 1];
      ScheduleInv(cands, shorter);
      StepInv(cands, Execute(cands, shorter), schedule[|schedule| - 1]);
      StepWorks(cands, Execute(cands, shorter), schedule[|schedule| - 1]);
    }
  }

  /**
   Main result: every schedule is finite, can be continued until all goroutines are done, and then
   has, as a multiset, the Ready candidates that match, or an error exactly when one of them failed.
   */
  lemma EverySchedule(cands: seq<Candidate>, schedule: seq<Action>)
    requires ValidSchedule(cands, schedule)
    ensures |schedule| <= Work(Start(cands).pcs)
    ensures var m := Execute(cands, schedule);
            if Finished(m) then IsOutcome(cands, Returned(m)) else exists a :: Enabled(m, a)
  {
    ScheduleInv(cands, schedule);
    var m := Execute(cands, schedule);
    if Finished(m) {
      FinishedOutcome(cands, m);
    } else {
      NoDeadlock(cands, m);
    }
  }
}
