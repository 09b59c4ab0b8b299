// Runs of the whole system: reconciles of tokens, bindings and upload secrets in any order, the
// other writers of token data, what users do, and the clock. Each step is atomic; anything that a
// step calls may fail.
module Runs {
  import opened Core
  import opened Cluster
  import opened Invariant
  import TR = TokenReconciler
  import BR = BindingReconciler
  import TS = TokenSafety
  import BS = BindingSafety
  import TU = TokenUpload

  /** What users, the OAuth service and the clock do. */
  datatype Action =
    | DepositData(token: Key, data: Data, storeOk: bool)   // the OAuth service, or a direct upload to it
    | CreateToken(token: Key, t: Token)
    | EditToken(token: Key, t: Token)
    | DeleteToken(token: Key)
    | CreateBinding(binding: Key, b: Binding)
    | EditBinding(binding: Key, b: Binding)
    | DeleteBinding(binding: Key)
    | CreateUpload(secret: Key, u: UploadSecret)
    | Tick(now: int)

  datatype Step =
    | TokenPass(token: Key, te: TR.TokenEnv)
    | BindingPass(binding: Key, be: BR.BindingEnv)
    | UploadPass(secret: Key, ue: TU.UploadEnv)
    | Outside(action: Action)

  /**
   Users write neither status nor link label nor the finalizers of the operator, and delete a token
   only when its first reconcile is over; the clock does not run backwards.
   */
  predicate Legal(w: World, a: Action) {
    match a
    case DepositData(_, _, _) => true
    case CreateToken(k, t) =>
      && k !in w.tokens && k.name != "" && !t.deleting && t.finalizers == {}
      && t.created == w.now && t.status == NEW_TOKEN_STATUS
    case EditToken(k, t) =>
      && k in w.tokens && t.deleting == w.tokens[k].deleting && t.created == w.tokens[k].created
      && t.finalizers == w.tokens[k].finalizers && t.status == w.tokens[k].status
    case DeleteToken(k) => k in w.tokens && w.tokens[k].finalizers == TOKEN_FINALIZERS
    case CreateBinding(k, b) =>
      && k !in w.bindings && !b.deleting && b.created == w.now && b.link == "" && b.status == NEW_BINDING_STATUS
    case EditBinding(k, b) =>
      && k in w.bindings && b.deleting == w.bindings[k].deleting && b.created == w.bindings[k].created
      && b.link == w.bindings[k].link && b.status == w.bindings[k].status
      && (LinkedObjects in b.finalizers <==> LinkedObjects in w.bindings[k].finalizers)
      && (LinkedSecrets in b.finalizers <==> LinkedSecrets in w.bindings[k].finalizers)
    case DeleteBinding(k) => k in w.bindings
    case CreateUpload(k, _) => k !in w.uploads
    case Tick(now) => w.now <= now
  }

  function Act(w: World, a: Action): World
    requires Legal(w, a)
  {
    match a
    case DepositData(k, data, storeOk) =>
      if k in w.tokens && storeOk then w.(storage := w.storage[k := data]) else w
    case CreateToken(k, t) => w.(tokens := w.tokens[k := t])
    case EditToken(k, t) => UpdateToken(w, k, t)
    case DeleteToken(k) => Cluster.DeleteToken(w, k)
    case CreateBinding(k, b) => w.(bindings := w.bindings[k := b], minted := w.minted[k := 0])
    case EditBinding(k, b) => UpdateBinding(w, k, b)
    case DeleteBinding(k) => Cluster.DeleteBinding(w, k)
    case CreateUpload(k, u) => w.(uploads := w.uploads[k := u])
    case Tick(now) => w.(now := now)
  }

  /** The assumptions on the environment: besides those on actions, names are generated fresh. */
  ghost predicate Allowed(w: World, c: Configuration, s: Step) {
    match s
    case TokenPass(_, _) => true
    case BindingPass(k, e) => BR.Plausible(w, c, k, e)
    case UploadPass(k, e) => e.newName != "" && Key(k.ns, e.newName) !in w.tokens
    case Outside(a) => Legal(w, a)
  }

  ghost function Next(w: World, c: Configuration, s: Step): World
    requires Allowed(w, c, s)
  {
    match s
    case TokenPass(k, e) => TR.ReconcileToken(w, c, k, e).world
    case BindingPass(k, e) => BR.ReconcileBinding(w, c, k, e).world
    case UploadPass(k, e) => TU.ReconcileUpload(w, k, e).world
    case Outside(a) => Act(w, a)
  }

  /** The world after a run from an empty cluster; steps that are not allowed change nothing. */
  ghost function Run(c: Configuration, steps: seq<Step>): World {
    if steps == [] then EMPTY_WORLD
    else
      var w := Run(c, steps[..|steps| - 1]);
      if Allowed(w, c, steps[|steps| - 1]) then Next(w, c, steps[|steps| - 1]) else w
  }

  /** The assumptions of a mode hold for every binding reconcile of the run. */
  predicate Meets(m: Mode, s: Step) {
    s.BindingPass? ==> BS.EnvOk(m, s.be)
  }

  predicate AllMeet(m: Mode, steps: seq<Step>) {
    forall i :: 0 <= i < |steps| ==> Meets(m, steps[i])
  }

  const FAULTLESS := Mode(true, false, false)
  const REVERTIBLE := Mode(false, true, false)
  const ROLLED_BACK := Mode(false, false, true)
  const ANYTHING := Mode(false, false, false)

  // ----- the invariant along a run -----

  lemma UploadKeepsInv(m: Mode, w: World, k: Key, e: TU.UploadEnv)
    requires Inv(m, w) && e.newName != "" && Key(k.ns, e.newName) !in w.tokens
    ensures Inv(m, TU.ReconcileUpload(w, k, e).world)
  {
    var w' := TU.ReconcileUpload(w, k, e).world;
    UploadGrows(w, k, e);
    forall j ensures SlotOk(m, w', j) {
      assert SlotOk(m, w, j);
    }
  }

  /** An upload adds at most a new token, and data only for a token. */
  lemma UploadGrows(w: World, k: Key, e: TU.UploadEnv)
    requires TokensOk(w) && e.newName != "" && Key(k.ns, e.newName) !in w.tokens
    ensures var w' := TU.ReconcileUpload(w, k, e).world;
            && TokensOk(w') && w.tokens.Keys <= w'.tokens.Keys
            && w'.bindings == w.bindings && w'.dependents == w.dependents && w'.minted == w.minted
  {
    if TU.TakesUp(w, k, e) {
      var w1 := TU.WithoutSecret(w, k);
      ProcessGrows(w1, k, w.uploads[k], e);
      TU.ReportEffect(TU.Process(w1, k, w.uploads[k], e), k, e);
      assert TU.ReconcileUpload(w, k, e).world == TU.Report(TU.Process(w1, k, w.uploads[k], e), k, e);
    }
  }

  lemma ProcessGrows(w: World, k: Key, u: UploadSecret, e: TU.UploadEnv)
    requires TokensOk(w) && e.newName != ""
    ensures var w' := TU.Process(w, k, u, e).world;
            && TokensOk(w') && w.tokens.Keys <= w'.tokens.Keys
            && w'.bindings == w.bindings && w'.dependents == w.dependents && w'.minted == w.minted
  {
  }

  lemma BindingActionKeepsInv(m: Mode, w: World, a: Action)
    requires Inv(m, w) && Legal(w, a)
    requires a.CreateBinding? || a.EditBinding? || a.DeleteBinding?
    ensures Inv(m, Act(w, a))
  {
    var k := a.binding;
    assert SlotOk(m, w, k);
    if a.EditBinding? {
      BS.UpdateBindingKept(m, w, k, a.b);
    } else if a.DeleteBinding? && w.bindings[k].finalizers == {} {
      BS.BindingRemovedKept(m, w, k);
    } else if a.DeleteBinding? {
      BS.BindingWriteKept(m, w, k, w.bindings[k].(deleting := true));
    }
    BindingStepKeepsInv(m, w, Act(w, a), k);
  }

  lemma TokenWriteKeepsInv(m: Mode, w: World, k: Key, t: Token)
    requires Inv(m, w) && TokenOk(t) && k.name != ""
    ensures Inv(m, w.(tokens := w.tokens[k := t]))
  {
    TokenStepKeepsInv(m, w, w.(tokens := w.tokens[k := t]), k);
  }

  lemma TokenActionKeepsInv(m: Mode, w: World, a: Action)
    requires Inv(m, w) && Legal(w, a)
    requires a.CreateToken? || a.EditToken? || a.DeleteToken? || a.DepositData?
    ensures Inv(m, Act(w, a))
  {
    match a
    case CreateToken(k, t) => TokenWriteKeepsInv(m, w, k, t);
    case EditToken(k, t) => TokenWriteKeepsInv(m, w, k, t);
    case DeleteToken(k) => TokenWriteKeepsInv(m, w, k, w.tokens[k].(deleting := true));
    case DepositData(k, _, _) =>
      if k in w.tokens {
        TokenStepKeepsInv(m, w, Act(w, a), k);
      }
  }

  lemma OtherActionKeepsInv(m: Mode, w: World, w': World)
    requires Inv(m, w) && w' == w.(uploads := w'.uploads, now := w'.now)
    ensures Inv(m, w')
  {
    forall j ensures SlotOk(m, w', j) {
      assert SlotOk(m, w, j);
    }
  }

  lemma ActionKeepsInv(m: Mode, w: World, a: Action)
    requires Inv(m, w) && Legal(w, a)
    ensures Inv(m, Act(w, a))
  {
    if a.CreateBinding? || a.EditBinding? || a.DeleteBinding? {
      BindingActionKeepsInv(m, w, a);
    } else if a.CreateUpload? || a.Tick? {
      OtherActionKeepsInv(m, w, Act(w, a));
    } else {
      TokenActionKeepsInv(m, w, a);
    }
  }

  lemma StepKeepsInv(m: Mode, w: World, c: Configuration, s: Step)
    requires Inv(m, w) && Allowed(w, c, s) && Meets(m, s)
    ensures Inv(m, Next(w, c, s))
  {
    match s
    case TokenPass(k, e) =>
      TS.ReconcileTouches(w, c, k, e);
      TokenStepKeepsInv(m, w, Next(w, c, s), k);
    case BindingPass(k, e) =>
      assert SlotOk(m, w, k);
      BS.ReconcileKept(m, w, c, k, e);
      BindingStepKeepsInv(m, w, Next(w, c, s), k);
    case UploadPass(k, e) => UploadKeepsInv(m, w, k, e);
    case Outside(a) => ActionKeepsInv(m, w, a);
  }

  lemma {:induction false} RunKeepsInv(m: Mode, c: Configuration, steps: seq<Step>)
    requires AllMeet(m, steps)
    ensures Inv(m, Run(c, steps))
  {
    if steps != [] {
      var before := steps[..|steps| - 1];
      assert Meets(m, steps[|steps| - 1]);
      RunKeepsInv(m, c, before);
      if Allowed(Run(c, before), c, steps[|steps| - 1]) {
        StepKeepsInv(m, Run(c, before), c, steps[|steps| - 1]);
      }
    }
  }

  // ----- steps about other objects -----

  predicate Concerns(s: Step, k: Key) {
    match s
    case BindingPass(j, _) => j == k
    case Outside(a) => (a.CreateBinding? || a.EditBinding? || a.DeleteBinding?) && a.binding == k
    case _ => false
  }

  /** A binding, its dependents and the count of its tokens are as they were. */
  predicate SameSlot(w: World, w': World, k: Key) {
    && (k in w'.bindings <==> k in w.bindings) && (k in w.bindings ==> w'.bindings[k] == w.bindings[k])
    && Dependents(w', k) == Dependents(w, k) && Minted(w', k) == Minted(w, k)
  }

  predicate SameSlots(w: World, w': World) {
    w'.bindings == w.bindings && w'.dependents == w.dependents && w'.minted == w.minted
  }

  lemma OtherPassKeepsBinding(w: World, c: Configuration, j: Key, e: BR.BindingEnv, k: Key)
    requires Inv(ANYTHING, w) && BR.Plausible(w, c, j, e) && j != k
    ensures SameSlot(w, BR.ReconcileBinding(w, c, j, e).world, k)
  {
    assert SlotOk(ANYTHING, w, j);
    BS.ReconcileKept(ANYTHING, w, c, j, e);
  }

  lemma TokenPassKeepsBindings(w: World, c: Configuration, t: Key, e: TR.TokenEnv)
    requires TokensOk(w)
    ensures SameSlots(w, TR.ReconcileToken(w, c, t, e).world)
  {
    TS.ReconcileTouches(w, c, t, e);
  }

  lemma UploadPassKeepsBindings(w: World, t: Key, e: TU.UploadEnv)
    requires TokensOk(w) && e.newName != "" && Key(t.ns, e.newName) !in w.tokens
    ensures SameSlots(w, TU.ReconcileUpload(w, t, e).world)
  {
    UploadGrows(w, t, e);
  }

  lemma WriteElsewhereKeepsSlot(w: World, j: Key, b: Binding, k: Key)
    requires j != k
    ensures SameSlot(w, w.(bindings := w.bindings[j := b]), k) && SameSlot(w, w.(bindings := w.bindings - {j}), k)
    ensures SameSlot(w, w.(bindings := w.bindings[j := b], minted := w.minted[j := 0]), k)
  {
  }

  lemma OtherActionKeepsBinding(w: World, a: Action, k: Key)
    requires Legal(w, a) && !Concerns(Outside(a), k)
    ensures SameSlot(w, Act(w, a), k)
  {
    match a
    case CreateBinding(j, b) => WriteElsewhereKeepsSlot(w, j, b, k);
    case EditBinding(j, b) => WriteElsewhereKeepsSlot(w, j, UpdatedBinding(w, j, b), k);
    case DeleteBinding(j) => WriteElsewhereKeepsSlot(w, j, w.bindings[j].(deleting := true), k);
    case _ => assert SameSlots(w, Act(w, a));
  }

  lemma OthersKeepBinding(w: World, c: Configuration, s: Step, k: Key)
    requires Inv(ANYTHING, w) && Allowed(w, c, s) && !Concerns(s, k)
    ensures SameSlot(w, Next(w, c, s), k)
  {
    match s
    case TokenPass(t, e) => TokenPassKeepsBindings(w, c, t, e);
    case BindingPass(j, e) => OtherPassKeepsBinding(w, c, j, e, k);
    case UploadPass(t, e) => UploadPassKeepsBindings(w, t, e);
    case Outside(a) => OtherActionKeepsBinding(w, a, k);
  }

  // ----- what follows for every run -----

  /** The assumptions of the mode hold for the binding's own reconciles. */
  predicate OwnMeets(m: Mode, s: Step, k: Key) {
    s.BindingPass? && s.binding == k ==> BS.EnvOk(m, s.be)
  }

  lemma ActionKeepsSlot(m: Mode, w: World, a: Action, k: Key)
    requires TokensOk(w) && SlotOk(m, w, k) && Legal(w, a) && Concerns(Outside(a), k)
    ensures SlotOk(m, Act(w, a), k)
  {
    if a.EditBinding? {
      BS.UpdateBindingKept(m, w, k, a.b);
    } else if a.DeleteBinding? && w.bindings[k].finalizers == {} {
      BS.BindingRemovedKept(m, w, k);
    } else if a.DeleteBinding? {
      BS.BindingWriteKept(m, w, k, w.bindings[k].(deleting := true));
    }
  }

  /** Dependents and count of a binding depend on its own reconciles only. */
  lemma StepKeepsSlot(m: Mode, w: World, c: Configuration, s: Step, k: Key)
    requires Inv(ANYTHING, w) && SlotOk(m, w, k) && !m.links && Allowed(w, c, s) && OwnMeets(m, s, k)
    ensures SlotOk(m, Next(w, c, s), k)
  {
    if !Concerns(s, k) {
      OthersKeepBinding(w, c, s, k);
    } else if s.Outside? {
      ActionKeepsSlot(m, w, s.action, k);
    } else {
      BS.ReconcileKept(m, w, c, k, s.be);
    }
  }

  lemma {:induction false} RunKeepsSlot(m: Mode, c: Configuration, steps: seq<Step>, k: Key)
    requires !m.links && forall i :: 0 <= i < |steps| ==> OwnMeets(m, steps[i], k)
    ensures SlotOk(m, Run(c, steps), k)
  {
    if steps != [] {
      var before, s := steps[..|steps| - 1], steps[|steps| - 1];
      assert OwnMeets(m, s, k);
      RunKeepsSlot(m, c, before, k);
      RunKeepsInv(ANYTHING, c, before);
      if Allowed(Run(c, before), c, s) {
        StepKeepsSlot(m, Run(c, before), c, s, k);
      }
    }
  }

  /** A sound link stays sound through every step but a reconcile of its binding with a link fault. */
  lemma LinkStaysSound(w: World, c: Configuration, s: Step, k: Key)
    requires Inv(ANYTHING, w) && Allowed(w, c, s) && k in w.bindings && LinkOk(w, k) && k in Next(w, c, s).bindings
    requires s.BindingPass? && s.binding == k ==> !BS.LinkFault(s.be)
    ensures LinkOk(Next(w, c, s), k)
  {
    assert SlotOk(ANYTHING, w, k);
    if s.BindingPass? && s.binding == k {
      BS.ReconcileKept(FAULTLESS, w, c, k, s.be);
    } else {
      OtherStepKeepsLink(w, c, s, k);
      if w.bindings[k].link != "" {
        LinkedTokenIsKept(w, c, s, k);
      }
    }
  }

  predicate SameLink(b: Binding, b': Binding) {
    b'.link == b.link && b'.status.linked == b.status.linked
  }

  lemma EditKeepsLink(w: World, k: Key, b: Binding)
    requires k in w.bindings && b.link == w.bindings[k].link
    ensures var w' := UpdateBinding(w, k, b); k in w'.bindings ==> SameLink(w.bindings[k], w'.bindings[k])
  {
  }

  lemma DeletionKeepsLink(w: World, k: Key)
    requires k in w.bindings
    ensures var w' := Cluster.DeleteBinding(w, k); k in w'.bindings ==> SameLink(w.bindings[k], w'.bindings[k])
  {
  }

  lemma ActionKeepsLink(w: World, a: Action, k: Key)
    requires Legal(w, a) && k in w.bindings && k in Act(w, a).bindings
    ensures SameLink(w.bindings[k], Act(w, a).bindings[k])
  {
    if !Concerns(Outside(a), k) {
      OtherActionKeepsBinding(w, a, k);
    } else if a.EditBinding? {
      EditKeepsLink(w, k, a.b);
    } else {
      DeletionKeepsLink(w, k);
    }
  }

  lemma OtherStepKeepsLink(w: World, c: Configuration, s: Step, k: Key)
    requires Inv(ANYTHING, w) && Allowed(w, c, s) && k in w.bindings && k in Next(w, c, s).bindings
    requires !(s.BindingPass? && s.binding == k)
    ensures SameLink(w.bindings[k], Next(w, c, s).bindings[k])
  {
    if s.Outside? {
      ActionKeepsLink(w, s.action, k);
    } else {
      OthersKeepBinding(w, c, s, k);
    }
  }

  lemma LinkedTokenIsKept(w: World, c: Configuration, s: Step, k: Key)
    requires Inv(ANYTHING, w) && Allowed(w, c, s) && k in w.bindings && Key(k.ns, w.bindings[k].link) in w.tokens
    ensures Key(k.ns, w.bindings[k].link) in Next(w, c, s).tokens
  {
    if s.TokenPass? {
      TS.ReconcileTouches(w, c, s.token, s.te);
      assert HasLinkedBindings(w, Key(k.ns, w.bindings[k].link));
    } else {
      OtherStepsKeepTokens(w, c, s);
    }
  }

  /** A reconcile of the binding with the faults that take its link apart. */
  predicate FaultyPass(s: Step, k: Key) {
    s.BindingPass? && s.binding == k && BS.LinkFault(s.be)
  }

  /**
   Main result: as long as no reconcile of a binding meets the faults that take its link apart,
   whatever else fails for it and for others, its link label equals the linked token in its status
   and names a token that exists.
   */
  lemma {:induction false} LinksAreSound(c: Configuration, steps: seq<Step>, k: Key)
    requires forall i :: 0 <= i < |steps| ==> !FaultyPass(steps[i], k)
    ensures var w := Run(c, steps);
            k in w.bindings ==> LinkOk(w, k)
  {
    if steps != [] {
      var before, s := steps[..|steps| - 1], steps[|steps| - 1];
      assert !FaultyPass(s, k);
      LinksAreSound(c, before, k);
      RunKeepsInv(ANYTHING, c, before);
      var w := Run(c, before);
      if Allowed(w, c, s) && k in Next(w, c, s).bindings {
        if k in w.bindings {
          LinkStaysSound(w, c, s, k);
        } else {
          NewBindingIsUnlinked(w, c, s, k);
        }
      }
    }
  }

  lemma ActionCreatesUnlinked(w: World, a: Action, k: Key)
    requires Legal(w, a) && k !in w.bindings && k in Act(w, a).bindings
    ensures LinkOk(Act(w, a), k)
  {
    if !Concerns(Outside(a), k) {
      OtherActionKeepsBinding(w, a, k);
    } else {
      assert a.CreateBinding?;
    }
  }

  lemma NewBindingIsUnlinked(w: World, c: Configuration, s: Step, k: Key)
    requires Inv(ANYTHING, w) && Allowed(w, c, s) && k !in w.bindings && k in Next(w, c, s).bindings
    ensures LinkOk(Next(w, c, s), k)
  {
    if s.Outside? {
      ActionCreatesUnlinked(w, s.action, k);
    } else if !Concerns(s, k) {
      OthersKeepBinding(w, c, s, k);
    } else {
      AbsentBindingStaysAbsent(w, c, k, s.be);
    }
  }

  lemma AbsentBindingStaysAbsent(w: World, c: Configuration, k: Key, e: BR.BindingEnv)
    requires BR.Plausible(w, c, k, e) && k !in w.bindings
    ensures BR.ReconcileBinding(w, c, k, e).world == w
  {
  }

  /** Main result: a link that was sound is lost only in a reconcile of its binding with those faults. */
  lemma LinkIsLostOnlyByFaults(c: Configuration, steps: seq<Step>, s: Step, k: Key)
    requires var w := Run(c, steps);
             && Allowed(w, c, s) && k in w.bindings && LinkOk(w, k)
             && k in Next(w, c, s).bindings && !LinkOk(Next(w, c, s), k)
    ensures FaultyPass(s, k)
  {
    RunKeepsInv(ANYTHING, c, steps);
    if !FaultyPass(s, k) {
      LinkStaysSound(Run(c, steps), c, s, k);
    }
  }

  lemma ActionsKeepTokens(w: World, a: Action)
    requires Legal(w, a) && TokensOk(w)
    ensures w.tokens.Keys <= Act(w, a).tokens.Keys
  {
    if a.DeleteToken? {
      assert LinkedBindings in w.tokens[a.token].finalizers;
    }
  }

  lemma OtherStepsKeepTokens(w: World, c: Configuration, s: Step)
    requires Inv(ANYTHING, w) && Allowed(w, c, s) && !s.TokenPass?
    ensures w.tokens.Keys <= Next(w, c, s).tokens.Keys
  {
    match s
    case BindingPass(k, e) =>
      assert SlotOk(ANYTHING, w, k);
      BS.ReconcileKept(ANYTHING, w, c, k, e);
    case UploadPass(k, e) => UploadGrows(w, k, e);
    case Outside(a) => ActionsKeepTokens(w, a);
  }

  /**
   Main result: whatever fails, no step of any run removes a token that a link label names, and a
   token that goes was being deleted and went in a pass over its finalizers that found no linked
   binding and deleted its data.
   */
  lemma LinkedTokenStays(c: Configuration, steps: seq<Step>, s: Step, token: Key)
    requires var w := Run(c, steps); Allowed(w, c, s) && token in w.tokens && token !in Next(w, c, s).tokens
    ensures var w, w' := Run(c, steps), Next(Run(c, steps), c, s);
            && !HasLinkedBindings(w, token) && token !in w'.storage
            && s.TokenPass? && s.token == token && w.tokens[token].deleting
            && s.te.listOk && s.te.storageDeleteOk && s.te.finalizersOk
  {
    var w := Run(c, steps);
    RunKeepsInv(ANYTHING, c, steps);
    if s.TokenPass? {
      TS.ReconcileTouches(w, c, s.token, s.te);
      TS.TokenLeaves(w, c, s.token, s.te);
    } else {
      OtherStepsKeepTokens(w, c, s);
    }
  }

  /** Main result: whatever fails, there is token data only for tokens that exist. */
  lemma NoOrphanedData(c: Configuration, steps: seq<Step>)
    ensures Run(c, steps).storage.Keys <= Run(c, steps).tokens.Keys
  {
    RunKeepsInv(ANYTHING, c, steps);
  }

  /**
   Main result: every persisted token status is consistent. As any call may fail, a status that a
   reconcile writes half way is the last one of the reconcile that fails right after.
   */
  lemma StatusesAreConsistent(c: Configuration, steps: seq<Step>, k: Key)
    requires k in Run(c, steps).tokens
    ensures var s := Run(c, steps).tokens[k].status;
            && (s.phase == Error || s.phase == Invalid <==> s.reason != NoTokenReason)
            && (s.phase == Ready ==> s.oauthUrl == "")
  {
    RunKeepsInv(ANYTHING, c, steps);
  }

  /**
   Main result: while reverting and cleaning up succeed in its own reconciles, a live binding has
   dependents exactly when its status refers to a synced object.
   */
  lemma DependentsMatchStatus(c: Configuration, steps: seq<Step>, k: Key)
    requires forall i :: 0 <= i < |steps| ==> OwnMeets(REVERTIBLE, steps[i], k)
    ensures var w := Run(c, steps);
            && (k in w.bindings && !w.bindings[k].deleting ==>
                  (Dependents(w, k) != {} <==> w.bindings[k].status.synced != ""))
            && (k in w.bindings && Dependents(w, k) != {} ==> w.bindings[k].status.synced != "")
  {
    RunKeepsSlot(REVERTIBLE, c, steps, k);
  }

  /** Main result: whatever fails, no dependents outlive their binding or the finalizer that guards them. */
  lemma DependentsAreGuarded(c: Configuration, steps: seq<Step>, k: Key)
    requires Dependents(Run(c, steps), k) != {}
    ensures k in Run(c, steps).bindings && Guarded(Run(c, steps).bindings[k])
  {
    RunKeepsInv(ANYTHING, c, steps);
    assert SlotOk(ANYTHING, Run(c, steps), k);
  }

  /**
   Main result: while the tokens created for it can be rolled back, a binding never has more than
   one token that was created for it, and none as long as it is not linked.
   */
  lemma BindingNeverAccumulatesTokens(c: Configuration, steps: seq<Step>, k: Key)
    requires forall i :: 0 <= i < |steps| ==> OwnMeets(ROLLED_BACK, steps[i], k)
    requires k in Run(c, steps).bindings
    ensures Minted(Run(c, steps), k) <= if Run(c, steps).bindings[k].status.linked == "" then 0 else 1
  {
    RunKeepsSlot(ROLLED_BACK, c, steps, k);
  }
}
