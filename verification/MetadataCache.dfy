// The whole-token metadata cache (pkg/serviceprovider/cache.go). A provider fetch is a
// nondeterministic answer that may be an error, or no metadata at all.
module MetadataCache {
  import opened Core

  datatype Metadata = Metadata(
    username: string, userId: string, scopes: seq<string>, state: string, lastRefresh: int)

  datatype Policy = Never | Ttl(ttl: int)

  datatype FetchError = InvalidAccessToken | OtherError

  /** MetadataExpirationPolicy.IsExpired: the stored stamp is a whole second. */
  predicate IsExpired(policy: Policy, m: Metadata, now: int) {
    policy.Ttl? && now > m.lastRefresh * SECOND + policy.ttl
  }

  /** What one call of Ensure meets: when it looks, what it fetches, when it stamps, if it can write. */
  datatype Encounter = Encounter(
    checkAt: int, fetched: Result<Option<Metadata>, FetchError>, stampAt: int, persistOk: bool)

  datatype Decision =
    | Serve                             // the metadata is there and has not expired
    | FetchFailed(error: FetchError)
    | NothingThere                      // there was none and the provider has none
    | Write(metadata: Option<Metadata>) // the stamped answer goes to the cluster

  predicate Stale(policy: Policy, m: Option<Metadata>, now: int) {
    m.None? || IsExpired(policy, m.value, now)
  }

  function Stamp(m: Option<Metadata>, now: int): Option<Metadata> {
    match m
    case None => None
    case Some(data) => Some(data.(lastRefresh := Unix(now)))
  }

  function Decide(policy: Policy, m: Option<Metadata>, e: Encounter): Decision {
    if !Stale(policy, m, e.checkAt) then Serve
    else
      match e.fetched
      case Err(error) => FetchFailed(error)
      case Ok(data) => if m.Some? || data.Some? then Write(Stamp(data, e.stampAt)) else NothingThere
  }

  /** Metadata of one token: in the memory of a reconcile and in the cluster. */
  datatype Copies = Copies(memory: Option<Metadata>, cluster: Option<Metadata>)

  datatype Outcome = Outcome(copies: Copies, ok: bool)

  function AfterEnsure(policy: Policy, c: Copies, e: Encounter): Outcome {
    match Decide(policy, c.memory, e)
    case Serve => Outcome(c, true)
    case FetchFailed(_) => Outcome(c.(memory := None), false)
    case NothingThere => Outcome(c.(memory := None), true)
    case Write(m) => Outcome(Copies(m, if e.persistOk then m else c.cluster), e.persistOk)
  }

  /** The object that a reconcile works on, with its copy in the cluster. */
  class TokenMetadataCell {
    var memory: Option<Metadata>
    var cluster: Option<Metadata>

    constructor (stored: Option<Metadata>)
      ensures View() == Copies(stored, stored)
    {
      memory, cluster := stored, stored;
    }

    /** A copy that has moved on from what is stored. */
    constructor Of(memory: Option<Metadata>, stored: Option<Metadata>)
      ensures View() == Copies(memory, stored)
    {
      this.memory, cluster := memory, stored;
    }

    function View(): Copies
      reads this
    {
      Copies(memory, cluster)
    }
  }

  class Cache {
    const policy: Policy

    constructor (policy: Policy)
      ensures this.policy == policy
    {
      this.policy := policy;
    }

    method Persist(token: TokenMetadataCell, e: Encounter) returns (ok: bool)
      modifies token
      ensures token.memory == Stamp(old(token.memory), e.stampAt)
      ensures token.cluster == (if e.persistOk then token.memory else old(token.cluster))
      ensures ok == e.persistOk
    {
      if token.memory.Some? {
        token.memory := Some(token.memory.value.(lastRefresh := Unix(e.stampAt)));
      }
      ok := e.persistOk;
      if ok {
        token.cluster := token.memory;
      }
    }

    method Refresh(token: TokenMetadataCell, now: int)
      modifies token`memory
      ensures token.memory == (if Stale(policy, old(token.memory), now) then None else old(token.memory))
    {
      if token.memory.None? {
        return;
      }
      if IsExpired(policy, token.memory.value, now) {
        token.memory := None;
      }
    }

    method Ensure(token: TokenMetadataCell, e: Encounter) returns (ok: bool)
      modifies token
      ensures Outcome(token.View(), ok) == AfterEnsure(policy, old(token.View()), e)
    {
      var wasPresent := token.memory.Some?;
      Refresh(token, e.checkAt);
      ok := true;
      if token.memory.None? {
        if e.fetched.Err? {
          return false;
        }
        token.memory := e.fetched.value;
        if wasPresent || token.memory.Some? {
          ok := Persist(token, e);
        }
      }
    }
  }

  // ----- runs -----

  /** The copies together with the real instants at which they were stamped. */
  datatype History = History(copies: Copies, memoryAt: int, clusterAt: int, clock: int)

  datatype Event =
    | Ensure(e: Encounter)
    | Load                    // a reconcile starts by reading the object
    | ClearInMemory           // the token reconciler found no token data
    | ClearInCluster          // some other status write removed the metadata

  predicate Timely(clock: int, ev: Event) {
    ev.Ensure? ==> clock <= ev.e.checkAt <= ev.e.stampAt
  }

  function Next(policy: Policy, h: History, ev: Event): History {
    match ev
    case Load => h.(copies := Copies(h.copies.cluster, h.copies.cluster), memoryAt := h.clusterAt)
    case ClearInMemory => h.(copies := h.copies.(memory := None))
    case ClearInCluster => h.(copies := h.copies.(cluster := None))
    case Ensure(e) =>
      var writes := Decide(policy, h.copies.memory, e).Write?;
      History(AfterEnsure(policy, h.copies, e).copies,
              if writes then e.stampAt else h.memoryAt,
              if writes && e.persistOk then e.stampAt else h.clusterAt,
              e.stampAt)
  }

  /** Every stored stamp is the truncation of the instant at which it was really made. */
  ghost predicate Stamped(h: History) {
    && (h.copies.memory.Some? ==> h.copies.memory.value.lastRefresh == Unix(h.memoryAt))
    && (h.copies.cluster.Some? ==> h.copies.cluster.value.lastRefresh == Unix(h.clusterAt))
    && h.memoryAt <= h.clock && h.clusterAt <= h.clock
  }

  function Run(policy: Policy, h: History, evs: seq<Event>): History {
    if evs == [] then h else Next(policy, Run(policy, h, evs[..|evs| - 1]), evs[|evs| - 1])
  }

  /** The clock never runs backwards along the run. */
  predicate TimelyRun(policy: Policy, h: History, evs: seq<Event>) {
    evs == [] ||
    (TimelyRun(policy, h, evs[..|evs| - 1]) && Timely(Run(policy, h, evs[..|evs| - 1]).clock, evs[|evs| - 1]))
  }

  const FRESH_START := History(Copies(None, None), 0, 0, 0)

  lemma {:induction false} RunKeepsStamps(policy: Policy, evs: seq<Event>)
    requires TimelyRun(policy, FRESH_START, evs)
    ensures Stamped(Run(policy, FRESH_START, evs))
  {
    if evs != [] {
      RunKeepsStamps(policy, evs[..|evs| - 1]);
    }
  }

  /**
   Main result, for a successful Ensure after any run: what it serves was really stamped at most
   ttl before it was served; a fetch that replaces metadata happens more than ttl minus one second
   after that metadata was stamped; and memory and cluster agree if they agreed before.
   */
  lemma EnsureMeetsTtl(ttl: nat, evs: seq<Event>, e: Encounter)
    requires TimelyRun(Ttl(ttl), FRESH_START, evs + [Ensure(e)])
    requires AfterEnsure(Ttl(ttl), Run(Ttl(ttl), FRESH_START, evs).copies, e).ok
    ensures var h := Run(Ttl(ttl), FRESH_START, evs);
            var h' := Run(Ttl(ttl), FRESH_START, evs + [Ensure(e)]);
            var served := Decide(Ttl(ttl), h.copies.memory, e).Serve?;
            && (h'.copies.memory.Some? ==> (if served then e.checkAt else e.stampAt) - h'.memoryAt <= ttl)
            && (h.copies.memory.Some? && !served ==> e.checkAt - h.memoryAt > ttl - SECOND)
            && (h.copies.memory == h.copies.cluster ==> h'.copies.memory == h'.copies.cluster)
            && (served ==> h'.copies == h.copies)
  {
    var all := evs + [Ensure(e)];
    assert all[..|all| - 1] == evs;
    RunKeepsStamps(Ttl(ttl), evs);
    var h := Run(Ttl(ttl), FRESH_START, evs);
    UnixTruncates(h.memoryAt);
  }

  // ----- what is served -----

  /** What an answer of the provider looks like once it is stamped. */
  predicate IsAnswer(served: Option<Metadata>, answer: Option<Metadata>, stampAt: int) {
    match answer
    case None => served == None
    case Some(data) => served == Some(data.(lastRefresh := stampAt / SECOND))
  }

  /**
   Main result: metadata that is there and was stamped at most ttl ago is served as it is. Otherwise
   a fetch that fails leaves nothing in memory, and a fetch that succeeds leaves exactly its answer,
   stamped; that goes to the cluster too if it can be written, except that nothing found where
   nothing was is not written.
   */
  lemma EnsureServesTheAnswer(policy: Policy, c: Copies, e: Encounter)
    ensures var out := AfterEnsure(policy, c, e);
            var m := c.memory;
            var expired := m.Some? && policy.Ttl? && e.checkAt > m.value.lastRefresh * SECOND + policy.ttl;
            if m.Some? && !expired then out == Outcome(c, true)
            else if e.fetched.Err? then out == Outcome(Copies(None, c.cluster), false)
            else
              && IsAnswer(out.copies.memory, e.fetched.value, e.stampAt)
              && (if m.None? && e.fetched.value.None? then out.copies.cluster == c.cluster && out.ok
                  else out.ok == e.persistOk
                       && out.copies.cluster == if e.persistOk then out.copies.memory else c.cluster)
  {
  }

  /** What a fetch that is stamped at an instant answers. */
  type Oracle = int -> Option<Metadata>

  predicate AnswersLike(ev: Event, oracle: Oracle) {
    ev.Ensure? && ev.e.fetched.Ok? ==> ev.e.fetched.value == oracle(ev.e.stampAt)
  }

  /** Metadata is, with its stamp, what the fetch at the instant answered. */
  predicate AnsweredAt(m: Option<Metadata>, at: int, oracle: Oracle) {
    m.Some? ==> IsAnswer(m, oracle(at), at)
  }

  lemma {:induction false} RunServesAnswers(policy: Policy, evs: seq<Event>, oracle: Oracle)
    requires forall i :: 0 <= i < |evs| ==> AnswersLike(evs[i], oracle)
    ensures var h := Run(policy, FRESH_START, evs);
            AnsweredAt(h.copies.memory, h.memoryAt, oracle) && AnsweredAt(h.copies.cluster, h.clusterAt, oracle)
  {
    if evs != [] {
      RunServesAnswers(policy, evs[..|evs| - 1], oracle);
      assert AnswersLike(evs[|evs| - 1], oracle);
    }
  }

  /** The run that ends with an Ensure ends with what that Ensure leaves, stamped in time. */
  lemma EndsWithEnsure(ttl: nat, evs: seq<Event>, e: Encounter)
    requires TimelyRun(Ttl(ttl), FRESH_START, evs + [Ensure(e)])
    requires AfterEnsure(Ttl(ttl), Run(Ttl(ttl), FRESH_START, evs).copies, e).ok
    ensures var h' := Run(Ttl(ttl), FRESH_START, evs + [Ensure(e)]);
            && h'.copies == AfterEnsure(Ttl(ttl), Run(Ttl(ttl), FRESH_START, evs).copies, e).copies
            && (h'.copies.memory.Some? ==> e.checkAt - ttl <= h'.memoryAt <= e.stampAt)
  {
    var all := evs + [Ensure(e)];
    assert all[..|all| - 1] == evs;
    EnsureMeetsTtl(ttl, evs, e);
    RunKeepsStamps(Ttl(ttl), all);
    assert Run(Ttl(ttl), FRESH_START, all).clock == e.stampAt;
  }

  lemma ServedWasAnswered(h: History, earliest: int, latest: int, oracle: Oracle)
    requires AnsweredAt(h.copies.memory, h.memoryAt, oracle)
    requires h.copies.memory.Some? ==> earliest <= h.memoryAt <= latest
    ensures h.copies.memory.Some? ==>
              exists at :: earliest <= at <= latest && oracle(at).Some? && IsAnswer(h.copies.memory, oracle(at), at)
  {
    if h.copies.memory.Some? {
      assert IsAnswer(h.copies.memory, oracle(h.memoryAt), h.memoryAt);
    }
  }

  lemma AllAnswer(evs: seq<Event>, e: Encounter, oracle: Oracle)
    requires AnswersLike(Ensure(e), oracle) && forall i :: 0 <= i < |evs| ==> AnswersLike(evs[i], oracle)
    ensures var all := evs + [Ensure(e)]; forall i :: 0 <= i < |all| ==> AnswersLike(all[i], oracle)
  {
  }

  /**
   Main result: metadata that a successful Ensure serves after any run is, apart from its stamp,
   what the provider answered at an instant at most ttl before it was served.
   */
  lemma CacheRefinesFetching(ttl: nat, evs: seq<Event>, e: Encounter, oracle: Oracle)
    requires TimelyRun(Ttl(ttl), FRESH_START, evs + [Ensure(e)])
    requires forall i :: 0 <= i < |evs| ==> AnswersLike(evs[i], oracle)
    requires AnswersLike(Ensure(e), oracle)
    requires AfterEnsure(Ttl(ttl), Run(Ttl(ttl), FRESH_START, evs).copies, e).ok
    ensures var served := AfterEnsure(Ttl(ttl), Run(Ttl(ttl), FRESH_START, evs).copies, e).copies.memory;
            served.Some? ==>
              exists at :: e.checkAt - ttl <= at <= e.stampAt && oracle(at).Some? && IsAnswer(served, oracle(at), at)
  {
    AllAnswer(evs, e, oracle);
    RunServesAnswers(Ttl(ttl), evs + [Ensure(e)], oracle);
    EndsWithEnsure(ttl, evs, e);
    ServedWasAnswered(Run(Ttl(ttl), FRESH_START, evs + [Ensure(e)]), e.checkAt - ttl, e.stampAt, oracle);
  }
}
