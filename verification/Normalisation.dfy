// What runs do to one binding: how often reconciles end early to normalise it, and what ends it.
module Normalisation {
  import opened Core
  import opened Cluster
  import opened Invariant
  import opened BR = BindingReconciler
  import BP = BindingProgress
  import opened Runs

  // ----- normalisation ends -----

  /** Nobody edits or replaces the binding, and its URL can be written. */
  ghost predicate Undisturbed(w: World, c: Configuration, s: Step, k: Key) {
    && Allowed(w, c, s)
    && (Concerns(s, k) ==> if s.BindingPass? then s.be.urlUpdateOk else s.action.DeleteBinding?)
  }

  ghost predicate UndisturbedRun(w: World, c: Configuration, steps: seq<Step>, k: Key)
    decreases |steps|
  {
    steps == [] || (Undisturbed(w, c, steps[0], k) && UndisturbedRun(Next(w, c, steps[0]), c, steps[1..], k))
  }

  ghost predicate EndsEarly(w: World, c: Configuration, s: Step, k: Key)
    requires Allowed(w, c, s)
  {
    s.BindingPass? && s.binding == k
    && var ending := ReconcileBinding(w, c, k, s.be).ending;
       ending == NormalisedUrl || ending == NormalisedAreas
  }

  ghost function EarlyEnds(w: World, c: Configuration, steps: seq<Step>, k: Key): nat
    requires UndisturbedRun(w, c, steps, k)
    decreases |steps|
  {
    if steps == [] then 0
    else (if EndsEarly(w, c, steps[0], k) then 1 else 0) + EarlyEnds(Next(w, c, steps[0]), c, steps[1..], k)
  }

  function PendingAt(w: World, c: Configuration, k: Key): nat {
    if k in w.bindings then BP.Pending(c, w.bindings[k]) else 0
  }

  lemma OwnPassUsesUpPending(w: World, c: Configuration, k: Key, e: BindingEnv)
    requires Plausible(w, c, k, e) && e.urlUpdateOk && k in w.bindings
    ensures var r := ReconcileBinding(w, c, k, e);
            PendingAt(r.world, c, k) + (if r.ending == NormalisedUrl || r.ending == NormalisedAreas then 1 else 0)
            <= PendingAt(w, c, k)
  {
    BP.ReconcileProceeds(w, c, k, e);
    BP.ProperRepoUrlIsIdempotent(c.host, w.bindings[k].repoUrl);
    PassUsesUpPending(w, c, k, e, ReconcileBinding(w, c, k, e));
  }

  /** Deleting a binding makes nothing pending. */
  lemma DeletionKeepsPending(w: World, c: Configuration, k: Key)
    requires k in w.bindings
    ensures PendingAt(Cluster.DeleteBinding(w, k), c, k) <= PendingAt(w, c, k)
  {
  }

  /** Ending early uses up something that was pending, and nothing makes anything pending. */
  lemma StepUsesUpPending(w: World, c: Configuration, s: Step, k: Key)
    requires Inv(ANYTHING, w) && Undisturbed(w, c, s, k)
    ensures PendingAt(Next(w, c, s), c, k) + (if EndsEarly(w, c, s, k) then 1 else 0) <= PendingAt(w, c, k)
  {
    if !Concerns(s, k) {
      OthersKeepBinding(w, c, s, k);
    } else if s.Outside? {
      DeletionKeepsPending(w, c, k);
    } else if k in w.bindings {
      OwnPassUsesUpPending(w, c, k, s.be);
    } else {
      AbsentBindingStaysAbsent(w, c, k, s.be);
    }
  }

  lemma PassUsesUpPending(w: World, c: Configuration, k: Key, e: BindingEnv, r: Reconciled)
    requires k in w.bindings && e.urlUpdateOk
    requires if r.ending == NormalisedUrl then BP.NormalisesUrl(w, c, k, r, e)
             else BP.NormalisesOrProceeds(w, c, k, r, e)
    requires r.ending == NormalisedAreas ==> HasOldArea(w.bindings[k])
    requires var proper := ProperRepoUrl(c.host, w.bindings[k].repoUrl);
             proper.Some? ==> ProperRepoUrl(c.host, proper.value) == proper
    ensures PendingAt(r.world, c, k) + (if r.ending == NormalisedUrl || r.ending == NormalisedAreas then 1 else 0)
            <= PendingAt(w, c, k)
  {
  }

  /**
   Main result: as long as nobody edits a binding and its URL can be written, at most two of its reconciles
   end early to normalise it, in any run and among any other steps.
   */
  lemma {:induction false} AtMostTwoEarlyEnds(w: World, c: Configuration, steps: seq<Step>, k: Key)
    requires Inv(ANYTHING, w) && UndisturbedRun(w, c, steps, k)
    ensures EarlyEnds(w, c, steps, k) <= PendingAt(w, c, k) <= 2
    decreases |steps|
  {
    if steps != [] {
      StepUsesUpPending(w, c, steps[0], k);
      StepKeepsInv(ANYTHING, w, c, steps[0]);
      AtMostTwoEarlyEnds(Next(w, c, steps[0]), c, steps[1..], k);
    }
  }

  // ----- what ends a binding -----

  /**
   Main result: in every run, a live binding is ended only by a user, or by one of its own
   reconciles strictly after its creation plus its lifetime, which for an empty one is the
   configured time and for "-1" never.
   */
  lemma OnlyUserOrLifetimeEnds(c: Configuration, steps: seq<Step>, s: Step, k: Key)
    requires Allowed(Run(c, steps), c, s)
    requires BP.Live(Run(c, steps), k) && !BP.Live(Next(Run(c, steps), c, s), k)
    ensures Concerns(s, k)
    ensures (s.Outside? && s.action.DeleteBinding?)
            || (s.BindingPass? && BP.LivedOut(c, Run(c, steps).bindings[k], Run(c, steps).now))
  {
    var w := Run(c, steps);
    RunKeepsInv(ANYTHING, c, steps);
    if !Concerns(s, k) {
      OthersKeepBinding(w, c, s, k);
    } else if s.BindingPass? {
      BP.ReconcileProceeds(w, c, k, s.be);
    }
  }

  // ----- runs from a state -----

  ghost predicate AllowedRun(w: World, c: Configuration, steps: seq<Step>)
    decreases |steps|
  {
    steps == [] || (Allowed(w, c, steps[0]) && AllowedRun(Next(w, c, steps[0]), c, steps[1..]))
  }

  ghost function RunFrom(w: World, c: Configuration, steps: seq<Step>): World
    requires AllowedRun(w, c, steps)
    decreases |steps|
  {
    if steps == [] then w else RunFrom(Next(w, c, steps[0]), c, steps[1..])
  }

  predicate Creates(s: Step, k: Key) {
    s.Outside? && s.action.CreateBinding? && s.action.binding == k
  }

  predicate Edits(s: Step, k: Key) {
    s.Outside? && s.action.EditBinding? && s.action.binding == k
  }

  // ----- links that still match -----

  /** Every reconcile of the binding finds the token matching, and the binding is not created anew. */
  predicate KeepsMatching(s: Step, k: Key, linked: string) {
    !Creates(s, k) && (s.BindingPass? && s.binding == k ==> BP.StillMatches(linked, s.be))
  }

  predicate LinkedIfThere(w: World, k: Key, linked: string) {
    k in w.bindings ==> w.bindings[k].status.linked == linked
  }

  lemma ActionKeepsLinked(w: World, a: Action, k: Key, linked: string)
    requires Legal(w, a) && !Creates(Outside(a), k) && LinkedIfThere(w, k, linked)
    ensures LinkedIfThere(Act(w, a), k, linked)
  {
    if !Concerns(Outside(a), k) {
      OtherActionKeepsBinding(w, a, k);
    } else if k in Act(w, a).bindings {
      ActionKeepsLink(w, a, k);
    }
  }

  lemma StepKeepsLinked(w: World, c: Configuration, s: Step, k: Key, linked: string)
    requires Inv(ANYTHING, w) && Allowed(w, c, s) && KeepsMatching(s, k, linked) && LinkedIfThere(w, k, linked)
    ensures LinkedIfThere(Next(w, c, s), k, linked)
  {
    if s.Outside? {
      ActionKeepsLinked(w, s.action, k, linked);
    } else if !Concerns(s, k) {
      OthersKeepBinding(w, c, s, k);
    } else if k in w.bindings {
      BP.MatchingLinkIsKept(w, c, k, s.be);
    } else {
      AbsentBindingStaysAbsent(w, c, k, s.be);
    }
  }

  /**
   Main result: in every run, a binding whose token still matches at each of its reconciles is never
   relinked, whatever the lookups return besides it and in whatever order, and whichever of them fail.
   */
  lemma {:induction false} MatchingLinkIsNeverMoved(
    w: World, c: Configuration, steps: seq<Step>, k: Key, linked: string)
    requires Inv(ANYTHING, w) && AllowedRun(w, c, steps) && LinkedIfThere(w, k, linked)
    requires forall i :: 0 <= i < |steps| ==> KeepsMatching(steps[i], k, linked)
    ensures LinkedIfThere(RunFrom(w, c, steps), k, linked)
    decreases |steps|
  {
    if steps != [] {
      StepKeepsLinked(w, c, steps[0], k, linked);
      StepKeepsInv(ANYTHING, w, c, steps[0]);
      MatchingLinkIsNeverMoved(Next(w, c, steps[0]), c, steps[1..], k, linked);
    }
  }

  // ----- deletions that are stuck -----

  /** A Quay binding that is being deleted with only the deprecated finalizer and with old areas. */
  predicate Stuck(w: World, c: Configuration, k: Key) {
    && k in w.bindings && w.bindings[k].deleting && HasOldArea(w.bindings[k])
    && ProperRepoUrl(c.host, w.bindings[k].repoUrl) == Some(w.bindings[k].repoUrl)
    && LinkedSecrets in w.bindings[k].finalizers && LinkedObjects !in w.bindings[k].finalizers
  }

  /** Nobody edits the binding, and its URL stands for Quay whenever it stands for a provider. */
  predicate LeavesStuck(s: Step, k: Key) {
    !Edits(s, k) && (s.BindingPass? && s.binding == k && s.be.provider.Found? ==> s.be.provider.name == "Quay")
  }

  lemma StuckPass(w: World, c: Configuration, k: Key, e: BindingEnv)
    requires Plausible(w, c, k, e) && Stuck(w, c, k) && (e.provider.Found? ==> e.provider.name == "Quay")
    ensures Stuck(ReconcileBinding(w, c, k, e).world, c, k)
  {
    if e.getOk && e.provider.Found? {
      BP.DeprecatedFinalizerBlocksDeletion(w, c, k, e);
    }
  }

  lemma StuckAction(w: World, c: Configuration, a: Action, k: Key)
    requires Legal(w, a) && Stuck(w, c, k) && !Edits(Outside(a), k)
    ensures Stuck(Act(w, a), c, k)
  {
    if !Concerns(Outside(a), k) {
      OtherActionKeepsBinding(w, a, k);
    } else {
      assert a.DeleteBinding?;
    }
  }

  /**
   A finding: such a binding stays, and stays stuck, in every run in which nobody edits it, however
   often it is reconciled.
   */
  lemma {:induction false} StuckUntilEdited(w: World, c: Configuration, steps: seq<Step>, k: Key)
    requires Inv(ANYTHING, w) && AllowedRun(w, c, steps) && Stuck(w, c, k)
    requires forall i :: 0 <= i < |steps| ==> LeavesStuck(steps[i], k)
    ensures Stuck(RunFrom(w, c, steps), c, k)
    decreases |steps|
  {
    if steps != [] {
      var s := steps[0];
      assert LeavesStuck(s, k);
      if s.Outside? {
        StuckAction(w, c, s.action, k);
      } else if !Concerns(s, k) {
        OthersKeepBinding(w, c, s, k);
      } else {
        StuckPass(w, c, k, s.be);
      }
      StepKeepsInv(ANYTHING, w, c, s);
      StuckUntilEdited(Next(w, c, s), c, steps[1..], k);
    }
  }
}
