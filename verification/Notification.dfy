// No lost wake-up: writers in several processes, data-update objects, the events about them, the
// mapping of events to requests, the work queues and the reconciles all interleave freely. The two
// halves of a notifying write are separate steps.
module Notification {
  import opened Core
  import opened Cluster
  import opened DataUpdates

  // ----- one controller -----

  /** An event about the data-update object k, with the logical time of what that announces. */
  datatype Event = Event(k: Key, update: DataUpdate, at: nat)

  /** The events on their way to a controller, its work queue, and when reconciles last started. */
  datatype Lane = Lane(events: set<Event>, queue: set<Key>, started: map<Key, nat>)

  const IDLE := Lane({}, {}, map[])

  function Receive(l: Lane, ev: Event): Lane {
    l.(events := l.events + {ev})
  }

  /** An event is turned into requests; `again` says that it will be delivered once more. */
  function Map(l: Lane, ev: Event, again: bool, requests: set<Key>): Lane {
    l.(events := if again then l.events else l.events - {ev}, queue := l.queue + requests)
  }

  function Enqueue(l: Lane, k: Key): Lane {
    l.(queue := l.queue + {k})
  }

  function Take(l: Lane, k: Key): Lane {
    l.(queue := l.queue - {k})
  }

  function Start(l: Lane, k: Key, now: nat): Lane {
    l.(queue := l.queue - {k}, started := l.started[k := now])
  }

  /** The token that an event is about, if it is about one. */
  function TokenRequests(ev: Event): seq<Key> {
    RequestForDataUpdateOwner(UpdateObject(ev.k.ns, ev.update), TOKEN_KIND)
  }

  predicate StartedAfter(l: Lane, k: Key, at: nat) {
    k in l.started && l.started[k] > at
  }

  /** A reconcile of k is queued, or has started since. */
  predicate Served(l: Lane, k: Key, at: nat) {
    k in l.queue || StartedAfter(l, k, at)
  }

  predicate EventPending(l: Lane, token: Key, at: nat) {
    exists ev :: ev in l.events && TokenRequests(ev) == [token] && ev.at == at
  }

  // ----- the whole -----

  /** A write to the data of a token, and the logical time at which it happened. */
  datatype Write = Write(token: Key, at: nat)

  /** The token data, the writes that have not been announced yet, and when a token was last written. */
  datatype TokenData = TokenData(data: map<Key, Data>, inFlight: map<nat, Write>, lastWrite: map<Key, nat>)

  /** History: the announced writes, and those of which an event was mapped for bindings. */
  datatype Record = Record(notified: set<Write>, mapped: set<Write>)

  /**
   `links` is the linked token in the status of each binding, `announces` the time of what a data
   update announces, `seen` the data that the last reconcile of a token could see.
   */
  datatype State = State(
    store: TokenData, updates: map<Key, DataUpdate>, announces: map<Key, nat>, links: map<Key, string>,
    tokens: Lane, bindings: Lane, dataUpdates: Lane, seen: map<Key, Option<Data>>, record: Record, now: nat)

  const START :=
    State(TokenData(map[], map[], map[]), map[], map[], map[], IDLE, IDLE, IDLE, map[], Record({}, {}), 0)

  datatype Step =
    | WriteData(id: nat, token: Key, op: Op)                // first half of a notifying write
    | FailToWrite
    | Notify(id: nat, name: string)                         // second half
    | FailToNotify(id: nat)
    | WriteSilently(token: Key, op: Op)                     // a write through a storage that does not notify
    | PostUpdate(k: Key, update: DataUpdate)                // somebody else creates a data update
    | MapForToken(ev: Event, again: bool)
    | MapForBindings(ev: Event, again: bool, listOk: bool)
    | MapForUpdate(ev: Event, again: bool)
    | StartToken(k: Key)
    | StartBinding(k: Key)
    | ReconcileUpdate(k: Key, getOk: bool, deleteOk: bool)
    | ReleaseUpdate(k: Key)                                 // the last finalizer of one being deleted goes
    | Reannounce(k: Key)                                    // an edit, or a periodic repetition
    | EnqueueToken(k: Key)                                  // other reasons to reconcile
    | EnqueueBinding(k: Key)
    | SetLink(k: Key, linked: string)
    | RemoveBinding(k: Key)

  predicate Enabled(s: State, step: Step) {
    match step
    case WriteData(id, _, _) => id !in s.store.inFlight
    case Notify(id, name) => id in s.store.inFlight && Key(s.store.inFlight[id].token.ns, name) !in s.updates
    case FailToNotify(id) => id in s.store.inFlight
    case PostUpdate(k, _) => k !in s.updates
    case MapForToken(ev, _) => ev in s.tokens.events
    case MapForBindings(ev, _, _) => ev in s.bindings.events
    case MapForUpdate(ev, _) => ev in s.dataUpdates.events
    case StartToken(k) => k in s.tokens.queue
    case StartBinding(k) => k in s.bindings.queue
    case ReconcileUpdate(k, _, _) => k in s.dataUpdates.queue
    case ReleaseUpdate(k) => k in s.updates && s.updates[k].deleting
    case Reannounce(k) => k in s.updates
    case _ => true
  }

  function DataOf(store: TokenData, token: Key): Option<Data> {
    if token in store.data then Some(store.data[token]) else None
  }

  /** The bindings of the event's namespace whose status links to the token that it is about. */
  function LinkedTo(links: map<Key, string>, ev: Event): set<Key> {
    set b | b in links && TokenRequests(ev) == [Key(b.ns, links[b])]
  }

  function AfterWrite(s: TokenData, token: Key, op: Op, now: nat): TokenData {
    s.(data := Written(s.data, token, op), lastWrite := s.lastWrite[token := now])
  }

  /** Every change of a data-update object is announced to all three controllers. */
  function Emit(s: State, ev: Event): State {
    s.(tokens := Receive(s.tokens, ev), bindings := Receive(s.bindings, ev), dataUpdates := Receive(s.dataUpdates, ev))
  }

  function Post(s: State, k: Key, update: DataUpdate, at: nat): State {
    Emit(s.(updates := s.updates[k := update], announces := s.announces[k := at]), Event(k, update, at))
  }

  function AnnouncedAt(s: State, k: Key): nat {
    if k in s.announces then s.announces[k] else 0
  }

  /** The event about a data update as it is. */
  function EventOf(s: State, k: Key): Event
    requires k in s.updates
  {
    Event(k, s.updates[k], AnnouncedAt(s, k))
  }

  /** The event that consuming a data update gives rise to, if it changes it. */
  function Announcement(s: State, k: Key, getOk: bool, deleteOk: bool): Event
    requires k in s.updates
  {
    var updates := Consume(s.updates, k, getOk, deleteOk).updates;
    EventOf(s, k).(update := if k in updates then updates[k] else s.updates[k])
  }

  /** What the data-update reconciler does to an object is announced like any other change. */
  function AfterReconcileUpdate(s: State, k: Key, getOk: bool, deleteOk: bool): State {
    var consumed := Consume(s.updates, k, getOk, deleteOk);
    var lane := if consumed.done then Take(s.dataUpdates, k) else s.dataUpdates;
    var s1 := s.(updates := consumed.updates, dataUpdates := lane);
    if k in s.updates && consumed.updates != s.updates then Emit(s1, Announcement(s, k, getOk, deleteOk)) else s1
  }

  function MappedForBindings(r: Record, ev: Event): Record {
    r.(mapped := r.mapped + (set k | k in TokenRequests(ev) :: Write(k, ev.at)))
  }

  function Effect(s: State, step: Step): State
    requires Enabled(s, step)
  {
    match step
    case WriteData(id, token, op) =>
      s.(store := AfterWrite(s.store, token, op, s.now).(inFlight := s.store.inFlight[id := Write(token, s.now)]))
    case FailToWrite => s
    case Notify(id, name) =>
      var w := s.store.inFlight[id];
      Post(s.(store := s.store.(inFlight := s.store.inFlight - {id}),
              record := s.record.(notified := s.record.notified + {w})),
           Key(w.token.ns, name), UpdateFor(w.token), w.at)
    case FailToNotify(id) => s.(store := s.store.(inFlight := s.store.inFlight - {id}))
    case WriteSilently(token, op) => s.(store := AfterWrite(s.store, token, op, s.now))
    case PostUpdate(k, update) => Post(s, k, update, s.now)
    case MapForToken(ev, again) => s.(tokens := Map(s.tokens, ev, again, set k | k in TokenRequests(ev)))
    case MapForBindings(ev, again, listOk) =>
      s.(bindings := Map(s.bindings, ev, again, if listOk then LinkedTo(s.links, ev) else {}),
         record := MappedForBindings(s.record, ev))
    case MapForUpdate(ev, again) => s.(dataUpdates := Map(s.dataUpdates, ev, again, {ev.k}))
    case StartToken(k) => s.(tokens := Start(s.tokens, k, s.now), seen := s.seen[k := DataOf(s.store, k)])
    case StartBinding(k) => s.(bindings := Start(s.bindings, k, s.now))
    case ReconcileUpdate(k, getOk, deleteOk) => AfterReconcileUpdate(s, k, getOk, deleteOk)
    case ReleaseUpdate(k) => Emit(s.(updates := s.updates - {k}), EventOf(s, k))
    case Reannounce(k) => Emit(s, EventOf(s, k))
    case EnqueueToken(k) => s.(tokens := Enqueue(s.tokens, k))
    case EnqueueBinding(k) => s.(bindings := Enqueue(s.bindings, k))
    case SetLink(k, linked) => s.(links := s.links[k := linked])
    case RemoveBinding(k) => s.(links := s.links - {k})
  }

  /** Every step takes time. */
  function Next(s: State, step: Step): State
    requires Enabled(s, step)
  {
    Effect(s, step).(now := s.now + 1)
  }

  function Run(steps: seq<Step>): State {
    if steps == [] then START
    else
      var s := Run(steps[..|steps| - 1]);
      if Enabled(s, steps[|steps| - 1]) then Next(s, steps[|steps| - 1]) else s
  }

  // ----- the invariant -----

  /** A reconcile of the token is on its way, or has started since the write. */
  predicate Woken(tokens: Lane, w: Write) {
    EventPending(tokens, w.token, w.at) || Served(tokens, w.token, w.at)
  }

  /** The event of a write is still to be mapped for bindings, or has been. */
  predicate Announced(bindings: Lane, mapped: set<Write>, w: Write) {
    w in mapped || EventPending(bindings, w.token, w.at)
  }

  /** A reconcile that started after the last write to its token saw what the storage holds now. */
  predicate UpToDate(store: TokenData, tokens: Lane, seen: map<Key, Option<Data>>, t: Key) {
    t in store.lastWrite && StartedAfter(tokens, t, store.lastWrite[t]) ==> t in seen && seen[t] == DataOf(store, t)
  }

  ghost predicate InPast(l: Lane, now: nat) {
    && (forall ev :: ev in l.events ==> ev.at < now)
    && (forall k :: k in l.started ==> l.started[k] < now)
  }

  ghost predicate Timely(s: State) {
    && (forall id :: id in s.store.inFlight ==> s.store.inFlight[id].at < s.now)
    && (forall w :: w in s.record.notified ==> w.at < s.now)
    && (forall k :: k in s.announces ==> s.announces[k] < s.now)
    && InPast(s.tokens, s.now) && InPast(s.bindings, s.now)
  }

  ghost predicate Inv(s: State) {
    && Timely(s)
    && (forall w :: w in s.record.notified ==> Woken(s.tokens, w) && Announced(s.bindings, s.record.mapped, w))
    && (forall t :: UpToDate(s.store, s.tokens, s.seen, t))
  }

  // ----- one controller keeps what is pending -----

  lemma ReceiveKeeps(l: Lane, ev: Event, token: Key, at: nat)
    requires EventPending(l, token, at)
    ensures EventPending(Receive(l, ev), token, at)
  {
    var pending :| pending in l.events && TokenRequests(pending) == [token] && pending.at == at;
    assert pending in Receive(l, ev).events;
  }

  /** An event that is mapped either stays pending or has been the one that was wanted. */
  lemma MapKeeps(l: Lane, ev: Event, again: bool, requests: set<Key>, token: Key, at: nat)
    requires EventPending(l, token, at)
    ensures EventPending(Map(l, ev, again, requests), token, at) || (TokenRequests(ev) == [token] && ev.at == at)
  {
    var pending :| pending in l.events && TokenRequests(pending) == [token] && pending.at == at;
    assert pending == ev || pending in Map(l, ev, again, requests).events;
  }

  lemma ReconcileUpdateKeeps(s: State, k: Key, getOk: bool, deleteOk: bool, token: Key, at: nat)
    ensures var s' := AfterReconcileUpdate(s, k, getOk, deleteOk);
            && (EventPending(s.tokens, token, at) ==> EventPending(s'.tokens, token, at))
            && (EventPending(s.bindings, token, at) ==> EventPending(s'.bindings, token, at))
  {
    if k in s.updates {
      var ev := Announcement(s, k, getOk, deleteOk);
      if EventPending(s.tokens, token, at) {
        ReceiveKeeps(s.tokens, ev, token, at);
      }
      if EventPending(s.bindings, token, at) {
        ReceiveKeeps(s.bindings, ev, token, at);
      }
    }
  }

  /** What a step does to the tokens' controller. */
  lemma TokenLane(s: State, step: Step, w: Write)
    requires Enabled(s, step) && w.at < s.now && Woken(s.tokens, w)
    ensures Woken(Next(s, step).tokens, w)
  {
    if EventPending(s.tokens, w.token, w.at) {
      match step
      case Notify(id, name) =>
        var w1 := s.store.inFlight[id];
        ReceiveKeeps(s.tokens, Event(Key(w1.token.ns, name), UpdateFor(w1.token), w1.at), w.token, w.at);
      case PostUpdate(k, update) => ReceiveKeeps(s.tokens, Event(k, update, s.now), w.token, w.at);
      case MapForToken(ev, again) =>
        MapKeeps(s.tokens, ev, again, (set k | k in TokenRequests(ev)), w.token, w.at);
      case ReconcileUpdate(k, getOk, deleteOk) => ReconcileUpdateKeeps(s, k, getOk, deleteOk, w.token, w.at);
      case ReleaseUpdate(k) => ReceiveKeeps(s.tokens, EventOf(s, k), w.token, w.at);
      case Reannounce(k) => ReceiveKeeps(s.tokens, EventOf(s, k), w.token, w.at);
      case _ =>
    }
  }

  lemma BindingLane(s: State, step: Step, w: Write)
    requires Enabled(s, step) && Announced(s.bindings, s.record.mapped, w)
    ensures Announced(Next(s, step).bindings, Next(s, step).record.mapped, w)
  {
    if w !in s.record.mapped {
      match step
      case Notify(id, name) =>
        var w1 := s.store.inFlight[id];
        ReceiveKeeps(s.bindings, Event(Key(w1.token.ns, name), UpdateFor(w1.token), w1.at), w.token, w.at);
      case PostUpdate(k, update) => ReceiveKeeps(s.bindings, Event(k, update, s.now), w.token, w.at);
      case MapForBindings(ev, again, listOk) =>
        MapKeeps(s.bindings, ev, again, if listOk then LinkedTo(s.links, ev) else {}, w.token, w.at);
      case ReconcileUpdate(k, getOk, deleteOk) => ReconcileUpdateKeeps(s, k, getOk, deleteOk, w.token, w.at);
      case ReleaseUpdate(k) => ReceiveKeeps(s.bindings, EventOf(s, k), w.token, w.at);
      case Reannounce(k) => ReceiveKeeps(s.bindings, EventOf(s, k), w.token, w.at);
      case _ =>
    }
  }

  /** The notification of a write puts an event about its token on the way to each controller. */
  lemma NotifyWakes(s: State, id: nat, name: string)
    requires Enabled(s, Notify(id, name))
    ensures var w, s' := s.store.inFlight[id], Next(s, Notify(id, name));
            Woken(s'.tokens, w) && Announced(s'.bindings, s'.record.mapped, w)
  {
    var w := s.store.inFlight[id];
    var ev := Event(Key(w.token.ns, name), UpdateFor(w.token), w.at);
    UpdateReachesItsOwner(UpdateObject(w.token.ns, UpdateFor(w.token)), w.token);
    assert TokenRequests(ev) == [w.token];
    assert ev in Receive(s.tokens, ev).events && ev in Receive(s.bindings, ev).events;
  }

  lemma UpToDateStep(s: State, step: Step, t: Key)
    requires Enabled(s, step) && Timely(s) && UpToDate(s.store, s.tokens, s.seen, t)
    ensures var s' := Next(s, step); UpToDate(s'.store, s'.tokens, s'.seen, t)
  {
    match step
    case WriteData(_, _, _) =>
    case WriteSilently(_, _) =>
    case StartToken(_) =>
    case _ =>
  }

  lemma RecordTimely(s: State, step: Step)
    requires Enabled(s, step) && Timely(s)
    ensures var s' := Next(s, step);
            && (forall id :: id in s'.store.inFlight ==> s'.store.inFlight[id].at < s'.now)
            && (forall w :: w in s'.record.notified ==> w.at < s'.now)
            && (forall k :: k in s'.announces ==> s'.announces[k] < s'.now)
  {
    match step
    case WriteData(_, _, _) =>
    case Notify(_, _) =>
    case PostUpdate(_, _) =>
    case MapForBindings(_, _, _) =>
    case ReconcileUpdate(_, _, _) =>
    case _ =>
  }

  lemma LanesTimely(s: State, step: Step)
    requires Enabled(s, step) && Timely(s)
    ensures InPast(Next(s, step).tokens, s.now + 1) && InPast(Next(s, step).bindings, s.now + 1)
  {
    match step
    case Notify(_, _) =>
    case PostUpdate(_, _) =>
    case MapForToken(_, _) =>
    case MapForBindings(_, _, _) =>
    case ReconcileUpdate(_, _, _) =>
    case _ =>
  }

  lemma TimelyStep(s: State, step: Step)
    requires Enabled(s, step) && Timely(s)
    ensures Timely(Next(s, step))
  {
    RecordTimely(s, step);
    LanesTimely(s, step);
  }

  lemma StepKeepsInv(s: State, step: Step)
    requires Inv(s) && Enabled(s, step)
    ensures Inv(Next(s, step))
  {
    var s' := Next(s, step);
    TimelyStep(s, step);
    forall w | w in s'.record.notified ensures Woken(s'.tokens, w) && Announced(s'.bindings, s'.record.mapped, w) {
      if w in s.record.notified {
        TokenLane(s, step, w);
        BindingLane(s, step, w);
      } else {
        NotifyWakes(s, step.id, step.name);
      }
    }
    forall t ensures UpToDate(s'.store, s'.tokens, s'.seen, t) {
      UpToDateStep(s, step, t);
    }
  }

  lemma {:induction false} RunKeepsInv(steps: seq<Step>)
    ensures Inv(Run(steps))
  {
    if steps != [] {
      RunKeepsInv(steps[..|steps| - 1]);
      var s := Run(steps[..|steps| - 1]);
      if Enabled(s, steps[|steps| - 1]) {
        StepKeepsInv(s, steps[|steps| - 1]);
      }
    }
  }

  // ----- what follows for every run -----

  /**
   Main result: in every interleaving, after a notifying write whose call succeeded, an event about
   the token is on its way, a reconcile of it is queued, or one has started since the write.
   */
  lemma NoLostWakeUp(steps: seq<Step>, w: Write)
    requires w in Run(steps).record.notified
    ensures EventPending(Run(steps).tokens, w.token, w.at) || Served(Run(steps).tokens, w.token, w.at)
  {
    RunKeepsInv(steps);
  }

  /** The events of such a write reach the mapping for bindings, too. */
  lemma EveryWriteIsMappedForBindings(steps: seq<Step>, w: Write)
    requires w in Run(steps).record.notified && !EventPending(Run(steps).bindings, w.token, w.at)
    ensures w in Run(steps).record.mapped
  {
    RunKeepsInv(steps);
  }

  // ----- the wake-ups of bindings -----

  /** The step maps an event of the write for bindings. */
  predicate MapsFor(step: Step, w: Write) {
    step.MapForBindings? && TokenRequests(step.ev) == [w.token] && step.ev.at == w.at
  }

  lemma MappedGrows(s: State, step: Step, w: Write)
    requires Enabled(s, step)
    ensures w in Next(s, step).record.mapped && w !in s.record.mapped ==> MapsFor(step, w)
  {
    if step.MapForBindings? {
      assert |TokenRequests(step.ev)| <= 1;
    }
  }

  /** What counts as mapped has been mapped, by a step of the run. */
  lemma {:induction false} MappedByStep(steps: seq<Step>, w: Write) returns (i: nat)
    requires w in Run(steps).record.mapped
    ensures i < |steps| && MapsFor(steps[i], w) && Enabled(Run(steps[..i]), steps[i])
  {
    i := |steps| - 1;
    var before := steps[..i];
    if w in Run(before).record.mapped {
      i := MappedByStep(before, w);
      assert before[..i] == steps[..i];
    } else {
      MappedGrows(Run(before), steps[i], w);
    }
  }

  /** Step j maps an event of the write, with the bindings listed, while b is linked to the token. */
  predicate WakesBinding(steps: seq<Step>, j: nat, w: Write, b: Key) {
    && j < |steps| && MapsFor(steps[j], w) && steps[j].listOk
    && Enabled(Run(steps[..j]), steps[j]) && b in LinkedTo(Run(steps[..j]).links, steps[j].ev)
  }

  lemma ServedIsKept(s: State, step: Step, b: Key, at: nat)
    requires Enabled(s, step) && at < s.now && Served(s.bindings, b, at)
    ensures Served(Next(s, step).bindings, b, at)
  {
    match step
    case MapForBindings(_, _, _) =>
    case StartBinding(_) =>
    case _ =>
  }

  lemma {:induction false} ServedStays(steps: seq<Step>, n: nat, b: Key, at: nat)
    requires n <= |steps| && at < Run(steps[..n]).now && Served(Run(steps[..n]).bindings, b, at)
    ensures at < Run(steps).now && Served(Run(steps).bindings, b, at)
  {
    if n == |steps| {
      assert steps[..n] == steps;
    } else {
      var before := steps[..|steps| - 1];
      assert before[..n] == steps[..n];
      ServedStays(before, n, b, at);
      if Enabled(Run(before), steps[|steps| - 1]) {
        ServedIsKept(Run(before), steps[|steps| - 1], b, at);
      }
    }
  }

  /**
   Main result: a binding that is linked to the written token when an event of the write is mapped
   with the bindings listed is queued for a reconcile, or has started one since the write, from then
   on for ever, whatever happens before and after and whichever other lists fail.
   */
  lemma NoLostWakeUpOfBindings(steps: seq<Step>, j: nat, w: Write, b: Key)
    requires WakesBinding(steps, j, w, b)
    ensures Served(Run(steps).bindings, b, w.at)
  {
    RunKeepsInv(steps[..j]);
    assert steps[..j + 1][..j] == steps[..j];
    assert Run(steps[..j + 1]) == Next(Run(steps[..j]), steps[j]);
    ServedStays(steps, j + 1, b, w.at);
  }

  /**
   Main result: in every interleaving, a notifying write whose call succeeded has an event for
   bindings still on its way, or one was mapped by a step of the run; and every binding that was
   linked to the token at such a step is queued for a reconcile, or has started one since the
   write, if the bindings could be listed at that step.
   */
  lemma WritesWakeLinkedBindings(steps: seq<Step>, w: Write) returns (i: nat)
    requires w in Run(steps).record.notified
    ensures !EventPending(Run(steps).bindings, w.token, w.at) ==>
              i < |steps| && MapsFor(steps[i], w) && Enabled(Run(steps[..i]), steps[i])
    ensures forall j: nat, b :: WakesBinding(steps, j, w, b) ==> Served(Run(steps).bindings, b, w.at)
  {
    i := 0;
    if !EventPending(Run(steps).bindings, w.token, w.at) {
      EveryWriteIsMappedForBindings(steps, w);
      i := MappedByStep(steps, w);
    }
    forall j: nat, b | WakesBinding(steps, j, w, b) ensures Served(Run(steps).bindings, b, w.at) {
      NoLostWakeUpOfBindings(steps, j, w, b);
    }
  }

  // ----- exactly when the wake-up of a binding is lost -----

  /** What one mapping does by itself. */
  lemma MappingServesExactlyWhenListed(s: State, mapping: Step, b: Key)
    requires mapping.MapForBindings? && Enabled(s, mapping)
    requires b in s.links && TokenRequests(mapping.ev) == [Key(b.ns, s.links[b])]
    ensures Served(Next(s, mapping).bindings, b, mapping.ev.at)
            <==> mapping.listOk || Served(s.bindings, b, mapping.ev.at)
  {
  }

  /** The n-th step of the run made the write. */
  predicate WrittenBy(steps: seq<Step>, n: nat, w: Write) {
    && n < |steps| && steps[n].WriteData? && steps[n].token == w.token
    && Enabled(Run(steps[..n]), steps[n]) && Run(steps[..n]).now == w.at
  }

  /** The step queues the binding for another reason than the write. */
  predicate QueuesOtherwise(s: State, step: Step, w: Write, b: Key) {
    || step == EnqueueBinding(b)
    || (step.MapForBindings? && step.listOk && !MapsFor(step, w) && b in LinkedTo(s.links, step.ev))
  }

  /** The binding is not queued when the write is made, and after it only because of the write. */
  ghost predicate OnlyQueuedBy(steps: seq<Step>, n: nat, w: Write, b: Key)
    requires n < |steps|
  {
    && b !in Run(steps[..n]).bindings.queue
    && forall j :: n < j < |steps| ==> !QueuesOtherwise(Run(steps[..j]), steps[j], w, b)
  }

  lemma ServedStep(s: State, step: Step, w: Write, b: Key)
    requires Enabled(s, step) && w.at < s.now && !QueuesOtherwise(s, step, w, b)
    ensures Served(Next(s, step).bindings, b, w.at)
            <==> Served(s.bindings, b, w.at) ||
                 (MapsFor(step, w) && step.listOk && b in LinkedTo(s.links, step.ev))
  {
    match step
    case MapForBindings(_, _, _) =>
    case StartBinding(_) =>
    case _ =>
  }

  /** The steps before the last wake the binding in the longer run as they do in the shorter one. */
  lemma WakesInPrefix(steps: seq<Step>, j: nat, w: Write, b: Key)
    requires j < |steps| - 1
    ensures WakesBinding(steps[..|steps| - 1], j, w, b) <==> WakesBinding(steps, j, w, b)
  {
    assert steps[..|steps| - 1][..j] == steps[..j];
  }

  lemma PrefixIsQueuedBy(steps: seq<Step>, n: nat, w: Write, b: Key)
    requires n < |steps| - 1 && WrittenBy(steps, n, w) && OnlyQueuedBy(steps, n, w, b)
    ensures WrittenBy(steps[..|steps| - 1], n, w) && OnlyQueuedBy(steps[..|steps| - 1], n, w, b)
  {
    var before := steps[..|steps| - 1];
    assert before[..n] == steps[..n];
    forall j | n < j < |before| ensures !QueuesOtherwise(Run(before[..j]), before[j], w, b) {
      assert before[..j] == steps[..j];
    }
  }

  lemma LastStepServes(steps: seq<Step>, n: nat, w: Write, b: Key)
    requires n < |steps| - 1 && OnlyQueuedBy(steps, n, w, b) && w.at < Run(steps[..|steps| - 1]).now
    ensures w.at < Run(steps).now
    ensures Served(Run(steps).bindings, b, w.at)
            <==> Served(Run(steps[..|steps| - 1]).bindings, b, w.at) || WakesBinding(steps, |steps| - 1, w, b)
  {
    var before, last := steps[..|steps| - 1], steps[|steps| - 1];
    assert !QueuesOtherwise(Run(before), last, w, b);
    if Enabled(Run(before), last) {
      ServedStep(Run(before), last, w, b);
    }
  }

  /** As long as nothing else queues it, a binding is served if and only if some mapping of the write wakes it. */
  lemma {:induction false} ServedExactlyWhenListed(steps: seq<Step>, n: nat, w: Write, b: Key)
    requires WrittenBy(steps, n, w) && OnlyQueuedBy(steps, n, w, b)
    ensures w.at < Run(steps).now
    ensures Served(Run(steps).bindings, b, w.at) <==> exists j: nat :: n < j && WakesBinding(steps, j, w, b)
    decreases |steps|
  {
    var before := steps[..|steps| - 1];
    if n == |steps| - 1 {
      RunKeepsInv(before);
    } else {
      PrefixIsQueuedBy(steps, n, w, b);
      ServedExactlyWhenListed(before, n, w, b);
      LastStepServes(steps, n, w, b);
      forall j: nat | j < |before| ensures WakesBinding(before, j, w, b) <==> WakesBinding(steps, j, w, b) {
        WakesInPrefix(steps, j, w, b);
      }
    }
  }

  /** The data update is about the write. */
  predicate IsAbout(s: State, k: Key, w: Write)
    requires k in s.updates
  {
    TokenRequests(EventOf(s, k)) == [w.token] && AnnouncedAt(s, k) == w.at
  }

  /** No event of the write is on its way to the bindings, and none is still to come. */
  ghost predicate Settled(s: State, w: Write) {
    && w.at < s.now && !EventPending(s.bindings, w.token, w.at)
    && (forall id :: id in s.store.inFlight ==> s.store.inFlight[id] != w)
    && (forall k :: k in s.updates ==> !IsAbout(s, k, w))
  }

  lemma OtherEventKeepsSettled(l: Lane, ev: Event, w: Write)
    requires !EventPending(l, w.token, w.at) && !(TokenRequests(ev) == [w.token] && ev.at == w.at)
    ensures !EventPending(Receive(l, ev), w.token, w.at)
  {
  }

  lemma NoEventComes(s: State, step: Step, w: Write)
    requires Enabled(s, step) && Settled(s, w)
    ensures !EventPending(Next(s, step).bindings, w.token, w.at)
  {
    match step
    case Notify(id, name) =>
      var w1 := s.store.inFlight[id];
      UpdateReachesItsOwner(UpdateObject(w1.token.ns, UpdateFor(w1.token)), w1.token);
      OtherEventKeepsSettled(s.bindings, Event(Key(w1.token.ns, name), UpdateFor(w1.token), w1.at), w);
    case PostUpdate(k, update) => OtherEventKeepsSettled(s.bindings, Event(k, update, s.now), w);
    case ReconcileUpdate(k, getOk, deleteOk) =>
      if k in s.updates {
        OtherEventKeepsSettled(s.bindings, Announcement(s, k, getOk, deleteOk), w);
      }
    case ReleaseUpdate(k) => OtherEventKeepsSettled(s.bindings, EventOf(s, k), w);
    case Reannounce(k) => OtherEventKeepsSettled(s.bindings, EventOf(s, k), w);
    case _ =>
  }

  lemma PostIsAbout(s: State, k: Key, update: DataUpdate, at: nat, w: Write)
    requires TokenRequests(Event(k, update, at)) != [w.token] || at != w.at
    requires forall j :: j in s.updates ==> !IsAbout(s, j, w)
    ensures forall j :: j in Post(s, k, update, at).updates ==> !IsAbout(Post(s, k, update, at), j, w)
  {
  }

  lemma UpdatesAfterReconcile(s: State, k: Key, getOk: bool, deleteOk: bool)
    ensures var s' := AfterReconcileUpdate(s, k, getOk, deleteOk);
            s'.updates == Consume(s.updates, k, getOk, deleteOk).updates && s'.announces == s.announces
  {
  }

  lemma MarkedIsAbout(s: State, s': State, j: Key, w: Write)
    requires j in s.updates && j in s'.updates && s'.announces == s.announces
    requires s'.updates[j] == s.updates[j].(deleting := s'.updates[j].deleting)
    ensures IsAbout(s', j, w) <==> IsAbout(s, j, w)
  {
  }

  lemma ConsumedIsAbout(s: State, k: Key, getOk: bool, deleteOk: bool, w: Write)
    requires forall j :: j in s.updates ==> !IsAbout(s, j, w)
    ensures var s' := AfterReconcileUpdate(s, k, getOk, deleteOk);
            forall j :: j in s'.updates ==> !IsAbout(s', j, w)
  {
    var s' := AfterReconcileUpdate(s, k, getOk, deleteOk);
    ConsumeOnlyMarks(s.updates, k, getOk, deleteOk);
    UpdatesAfterReconcile(s, k, getOk, deleteOk);
    forall j | j in s'.updates ensures !IsAbout(s', j, w) {
      MarkedIsAbout(s, s', j, w);
    }
  }

  lemma NoUpdateComes(s: State, step: Step, w: Write)
    requires Enabled(s, step) && Settled(s, w)
    ensures forall k :: k in Next(s, step).updates ==> !IsAbout(Next(s, step), k, w)
  {
    match step
    case Notify(id, name) =>
      var w1 := s.store.inFlight[id];
      UpdateReachesItsOwner(UpdateObject(w1.token.ns, UpdateFor(w1.token)), w1.token);
      PostIsAbout(s, Key(w1.token.ns, name), UpdateFor(w1.token), w1.at, w);
    case PostUpdate(k, update) => PostIsAbout(s, k, update, s.now, w);
    case ReconcileUpdate(k, getOk, deleteOk) => ConsumedIsAbout(s, k, getOk, deleteOk, w);
    case _ => OtherStepIsAbout(s, step, w);
  }

  lemma OtherStepIsAbout(s: State, step: Step, w: Write)
    requires Enabled(s, step) && !step.Notify? && !step.PostUpdate? && !step.ReconcileUpdate?
    requires forall j :: j in s.updates ==> !IsAbout(s, j, w)
    ensures forall k :: k in Next(s, step).updates ==> !IsAbout(Next(s, step), k, w)
  {
    var s' := Next(s, step);
    assert s'.announces == s.announces;
    forall k | k in s'.updates ensures !IsAbout(s', k, w) {
      assert k in s.updates && s'.updates[k] == s.updates[k] && !IsAbout(s, k, w);
    }
  }

  lemma SettledIsKept(s: State, step: Step, w: Write)
    requires Enabled(s, step) && Settled(s, w)
    ensures Settled(Next(s, step), w)
  {
    NoEventComes(s, step, w);
    NoUpdateComes(s, step, w);
  }

  lemma {:induction false} SettledStays(steps: seq<Step>, n: nat, w: Write)
    requires n <= |steps| && Settled(Run(steps[..n]), w)
    ensures Settled(Run(steps), w)
  {
    if n == |steps| {
      assert steps[..n] == steps;
    } else {
      var before := steps[..|steps| - 1];
      assert before[..n] == steps[..n];
      SettledStays(before, n, w);
      if Enabled(Run(before), steps[|steps| - 1]) {
        SettledIsKept(Run(before), steps[|steps| - 1], w);
      }
    }
  }

  /** A settled write is not mapped again. */
  lemma SettledIsNotMapped(steps: seq<Step>, n: nat, j: nat, w: Write, b: Key)
    requires n <= j < |steps| && Settled(Run(steps[..n]), w)
    ensures !WakesBinding(steps, j, w, b)
  {
    assert steps[..j][..n] == steps[..n];
    SettledStays(steps[..j], n, w);
  }

  /**
   Main result, exactly when the wake-up of a binding is lost: once the write is settled (after m
   steps), a binding that nothing else queues is served by it, then and for ever, if and only if
   one of the mappings of the write so far found it linked and could list the bindings.
   */
  lemma WakeUpIsLostExactlyWhen(steps: seq<Step>, n: nat, m: nat, w: Write, b: Key)
    requires WrittenBy(steps, n, w) && OnlyQueuedBy(steps, n, w, b)
    requires m <= |steps| && Settled(Run(steps[..m]), w)
    ensures Served(Run(steps).bindings, b, w.at) <==> exists j: nat :: n < j < m && WakesBinding(steps, j, w, b)
  {
    ServedExactlyWhenListed(steps, n, w, b);
    forall j: nat | m <= j < |steps| ensures !WakesBinding(steps, j, w, b) {
      SettledIsNotMapped(steps, m, j, w, b);
    }
  }

  // ----- what a token's reconcile sees -----

  /**
   Main result: once the last write to a token has been announced and nothing about the token is on
   its way or queued, its last reconcile could see exactly the data that the storage holds.
   */
  lemma QuietTokensAreUpToDate(steps: seq<Step>, t: Key)
    requires var s := Run(steps);
             && t in s.store.lastWrite && Write(t, s.store.lastWrite[t]) in s.record.notified
             && t !in s.tokens.queue && forall ev :: ev in s.tokens.events ==> TokenRequests(ev) != [t]
    ensures t in Run(steps).seen && Run(steps).seen[t] == DataOf(Run(steps).store, t)
  {
    RunKeepsInv(steps);
    var s := Run(steps);
    assert UpToDate(s.store, s.tokens, s.seen, t);
    assert Woken(s.tokens, Write(t, s.store.lastWrite[t]));
  }
}
