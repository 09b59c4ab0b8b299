// The per-repository cache of the Quay provider (pkg/serviceprovider/quay/metadataprovider.go).
// Records of organizations and of repositories live in two maps inside the token's metadata.
module QuayCache {
  import opened Core
  import QuayRepositoryId

  datatype EntityRecord = EntityRecord(lastRefresh: int, scopes: seq<string>)

  datatype TokenState = TokenState(repositories: map<string, EntityRecord>, organizations: map<string, EntityRecord>)

  const EMPTY_STATE := TokenState(map[], map[])

  /** The serialized state: JSON is an injective encoding, and the bytes may be missing or broken. */
  datatype Raw = NoBytes | Encoded(state: TokenState) | Garbage

  /** The state inside the token metadata; there is none when the token has no metadata. */
  datatype Copies = Copies(memory: Option<Raw>, cluster: Option<Raw>)

  datatype LoginOutcome = LoginFailed | LoginRejected | LoggedIn

  datatype FetchError = BadState | StorageError | BadUrl | LoginError | FetchFailed | PersistError

  /** What one call of FetchRepo meets. A fetch may answer that there is no record. */
  datatype Encounter = Encounter(
    repoUrl: string,
    tokenData: Result<bool, ()>,
    orgCheck: int, orgLogin: LoginOutcome, orgFetch: Result<Option<seq<string>>, ()>, orgStamp: int,
    repoCheck: int, repoLogin: LoginOutcome, repoFetch: Result<Option<seq<string>>, ()>, repoStamp: int,
    persistOk: bool)

  datatype RepositoryMetadata = RepositoryMetadata(repository: EntityRecord, organization: EntityRecord)

  predicate Fresh(cache: map<string, EntityRecord>, key: string, now: int, ttl: int) {
    key in cache && now <= cache[key].lastRefresh * SECOND + ttl
  }

  function NewRecord(fetched: Option<seq<string>>, stamp: int): EntityRecord {
    EntityRecord(Unix(stamp), if fetched.Some? then fetched.value else [])
  }

  /** The record for a key: the cached one while it is fresh, else a fetched one. */
  function Lookup(
    cache: map<string, EntityRecord>, key: string, ttl: int,
    check: int, login: LoginOutcome, fetch: Result<Option<seq<string>>, ()>, stamp: int)
    : Result<EntityRecord, FetchError>
  {
    if Fresh(cache, key, check, ttl) then Ok(cache[key])
    else if login == LoginFailed then Err(LoginError)
    else if fetch.Err? then Err(FetchFailed)
    else Ok(NewRecord(fetch.value, stamp))
  }

  datatype Outcome = Outcome(copies: Copies, result: Result<Option<RepositoryMetadata>, FetchError>)

  function Decode(raw: Raw): TokenState {
    if raw.Encoded? then raw.state else EMPTY_STATE
  }

  /** The login that the repository step sees: one that succeeded before is remembered. */
  function RepoLogin(e: Encounter, orgFetched: bool): LoginOutcome {
    if orgFetched && e.orgLogin == LoggedIn then LoggedIn else e.repoLogin
  }

  /** FetchRepo: nothing is written unless both records are there and one of them is new. */
  function FetchRepo(c: Copies, ttl: int, e: Encounter): Outcome {
    if c.memory.None? then Outcome(c, Ok(None))
    else if c.memory.value == Garbage then Outcome(c, Err(BadState))
    else if e.tokenData.Err? then Outcome(c, Err(StorageError))
    else if !e.tokenData.value then Outcome(c, Ok(None))
    else
      var id := QuayRepositoryId.Parse(e.repoUrl);
      if id.org == "" || id.repo == "" then Outcome(c, Err(BadUrl))
      else
        var st := Decode(c.memory.value);
        var repoKey := QuayRepositoryId.RepositoryKey(id.org, id.repo);
        var orgFetched := !Fresh(st.organizations, id.org, e.orgCheck, ttl);
        match Lookup(st.organizations, id.org, ttl, e.orgCheck, e.orgLogin, e.orgFetch, e.orgStamp)
        case Err(error) => Outcome(c, Err(error))
        case Ok(org) =>
          var repoFetched := !Fresh(st.repositories, repoKey, e.repoCheck, ttl);
          match Lookup(st.repositories, repoKey, ttl, e.repoCheck, RepoLogin(e, orgFetched), e.repoFetch, e.repoStamp)
          case Err(error) => Outcome(c, Err(error))
          case Ok(repo) =>
            var found := Ok(Some(RepositoryMetadata(repo, org)));
            if !orgFetched && !repoFetched then Outcome(c, found)
            else
              var raw := Encoded(TokenState(st.repositories[repoKey := repo], st.organizations[id.org := org]));
              if e.persistOk then Outcome(Copies(Some(raw), Some(raw)), found)
              else Outcome(c.(memory := Some(raw)), Err(PersistError))
  }

  /** Neither record needs to be fetched. */
  predicate BothFresh(c: Copies, ttl: int, e: Encounter) {
    c.memory.Some? &&
    var id := QuayRepositoryId.Parse(e.repoUrl);
    && Fresh(Decode(c.memory.value).organizations, id.org, e.orgCheck, ttl)
    && Fresh(Decode(c.memory.value).repositories, QuayRepositoryId.RepositoryKey(id.org, id.repo), e.repoCheck, ttl)
  }

  // ----- the provider, which works on its maps in place -----

  class EntityCache {
    var entries: map<string, EntityRecord>

    constructor (entries: map<string, EntityRecord>)
      ensures this.entries == entries
    {
      this.entries := entries;
    }
  }

  /** The token's state in memory and in the cluster, and how often docker login was tried. */
  class TokenStateCell {
    var memory: Option<Raw>
    var cluster: Option<Raw>
    var logins: nat

    constructor (stored: Option<Raw>)
      ensures View() == Copies(stored, stored) && logins == 0
    {
      memory, cluster, logins := stored, stored, 0;
    }

    function View(): Copies
      reads this`memory, this`cluster
    {
      Copies(memory, cluster)
    }
  }

  class MetadataProvider {
    const ttl: int

    constructor (ttl: int)
      ensures this.ttl == ttl
    {
      this.ttl := ttl;
    }

    /** The lazy one-time login: a login that was rejected is not remembered. */
    method LoginTokenInfo(token: TokenStateCell, loggedIn: bool, attempt: LoginOutcome)
      returns (ok: bool, loggedIn': bool)
      modifies token`logins
      ensures token.logins == old(token.logins) + (if loggedIn then 0 else 1)
      ensures ok == (loggedIn || attempt != LoginFailed)
      ensures loggedIn' == (loggedIn || attempt == LoggedIn)
    {
      if loggedIn {
        return true, true;
      }
      token.logins := token.logins + 1;
      return attempt != LoginFailed, attempt == LoggedIn;
    }

    method GetEntityRecord(
      token: TokenStateCell, cache: EntityCache, key: string, loggedIn: bool,
      check: int, attempt: LoginOutcome, fetch: Result<Option<seq<string>>, ()>, stamp: int)
      returns (result: Result<EntityRecord, FetchError>, changed: bool, loggedIn': bool)
      modifies cache, token`logins
      ensures result == Lookup(old(cache.entries), key, ttl, check,
                               if loggedIn then LoggedIn else attempt, fetch, stamp)
      ensures changed == (result.Ok? && !Fresh(old(cache.entries), key, check, ttl))
      ensures changed ==> fetch.Ok? && result.value.lastRefresh == Unix(stamp)
                          && HasScopesOf(result.value.scopes, fetch.value)
      ensures result.Ok? && !changed ==> key in old(cache.entries) && result.value == old(cache.entries)[key]
      ensures cache.entries == (if changed then old(cache.entries)[key := result.value] else old(cache.entries))
      ensures loggedIn' == (loggedIn || (!Fresh(old(cache.entries), key, check, ttl) && attempt == LoggedIn))
      ensures token.logins == old(token.logins)
                              + (if loggedIn || Fresh(old(cache.entries), key, check, ttl) then 0 else 1)
    {
      changed, loggedIn' := false, loggedIn;
      if key !in cache.entries || check > cache.entries[key].lastRefresh * SECOND + ttl {
        var ok;
        ok, loggedIn' := LoginTokenInfo(token, loggedIn, attempt);
        if !ok {
          return Err(LoginError), false, loggedIn';
        }
        if fetch.Err? {
          return Err(FetchFailed), false, loggedIn';
        }
        var rec := EntityRecord(Unix(stamp), if fetch.value.Some? then fetch.value.value else []);
        cache.entries := cache.entries[key := rec];
        changed := true;
      }
      result := Ok(cache.entries[key]);
    }

    method PersistTokenState(token: TokenStateCell, st: TokenState, persistOk: bool)
      modifies token`memory, token`cluster
      ensures token.memory == Some(Encoded(st))
      ensures token.cluster == if persistOk then Some(Encoded(st)) else old(token.cluster)
    {
      token.memory := Some(Encoded(st));
      if persistOk {
        token.cluster := token.memory;
      }
    }

    method DoFetchRepo(token: TokenStateCell, e: Encounter)
      returns (result: Result<Option<RepositoryMetadata>, FetchError>)
      modifies token
      ensures Outcome(token.View(), result) == FetchRepo(old(token.View()), ttl, e)
      ensures BothFresh(old(token.View()), ttl, e) ==> token.logins == old(token.logins)
      ensures token.logins <= old(token.logins) + (if e.orgLogin == LoggedIn then 1 else 2)
    {
      if token.memory.None? {
        return Ok(None);
      }
      if token.memory.value == Garbage {
        return Err(BadState);
      }
      var st := Decode(token.memory.value);
      if e.tokenData.Err? {
        return Err(StorageError);
      }
      if !e.tokenData.value {
        return Ok(None);
      }
      var id := QuayRepositoryId.Parse(e.repoUrl);
      if id.org == "" || id.repo == "" {
        return Err(BadUrl);
      }
      var organizations := new EntityCache(st.organizations);
      var repositories := new EntityCache(st.repositories);
      var org, orgChanged, loggedIn := GetEntityRecord(
        token, organizations, id.org, false, e.orgCheck, e.orgLogin, e.orgFetch, e.orgStamp);
      if org.Err? {
        return Err(org.error);
      }
      var repoKey := QuayRepositoryId.RepositoryKey(id.org, id.repo);
      var repo, repoChanged, _ := GetEntityRecord(
        token, repositories, repoKey, loggedIn,
        e.repoCheck, e.repoLogin, e.repoFetch, e.repoStamp);
      if repo.Err? {
        return Err(repo.error);
      }
      assert organizations.entries == st.organizations[id.org := org.value];
      assert repositories.entries == st.repositories[repoKey := repo.value];
      if orgChanged || repoChanged {
        PersistTokenState(token, TokenState(repositories.entries, organizations.entries), e.persistOk);
        if !e.persistOk {
          return Err(PersistError);
        }
      }
      result := Ok(Some(RepositoryMetadata(repo.value, org.value)));
    }
  }

  // ----- fetch every time, up to the ttl -----

  datatype Kind = Organization | Repository

  /** What a fetch of an entity that is stamped at an instant answers. */
  type Oracle = (Kind, string, int) -> Option<seq<string>>

  /** The fetches of this call, where they succeed, answer like the oracle. */
  ghost predicate AnswersLike(e: Encounter, oracle: Oracle) {
    var id := QuayRepositoryId.Parse(e.repoUrl);
    && (e.orgFetch.Ok? ==> e.orgFetch.value == oracle(Organization, id.org, e.orgStamp))
    && (e.repoFetch.Ok? ==>
          e.repoFetch.value == oracle(Repository, QuayRepositoryId.RepositoryKey(id.org, id.repo), e.repoStamp))
  }

  /** The scopes of what a fetch answered; an answer without a record stands for none. */
  predicate HasScopesOf(scopes: seq<string>, answer: Option<seq<string>>) {
    match answer
    case None => scopes == []
    case Some(fetched) => scopes == fetched
  }

  ghost predicate FetchedAt(rec: EntityRecord, kind: Kind, key: string, stamp: int, oracle: Oracle) {
    rec.lastRefresh == Unix(stamp) && HasScopesOf(rec.scopes, oracle(kind, key, stamp))
  }

  /** The record is what a fetch of exactly this entity answered at most ttl before `now`. */
  ghost predicate FetchedWithin(rec: EntityRecord, kind: Kind, key: string, now: int, ttl: int, oracle: Oracle) {
    exists stamp :: now - ttl <= stamp <= now && FetchedAt(rec, kind, key, stamp, oracle)
  }

  ghost predicate SoundMap(cache: map<string, EntityRecord>, kind: Kind, clock: int, oracle: Oracle) {
    forall key :: key in cache ==> exists stamp :: stamp <= clock && FetchedAt(cache[key], kind, key, stamp, oracle)
  }

  ghost predicate Sound(raw: Option<Raw>, clock: int, oracle: Oracle) {
    raw.Some? ==>
      && SoundMap(Decode(raw.value).organizations, Organization, clock, oracle)
      && SoundMap(Decode(raw.value).repositories, Repository, clock, oracle)
  }

  datatype Event =
    | Fetch(e: Encounter)
    | Load         // a reconcile reads the token
    | Reset        // the whole-token cache starts over with an empty state
    | Forget       // the metadata is removed

  datatype History = History(copies: Copies, clock: int)

  function Next(ttl: int, h: History, ev: Event): History {
    match ev
    case Fetch(e) => History(FetchRepo(h.copies, ttl, e).copies, e.repoStamp)
    case Load => h.(copies := Copies(h.copies.cluster, h.copies.cluster))
    case Reset => h.(copies := Copies(Some(Encoded(EMPTY_STATE)), Some(Encoded(EMPTY_STATE))))
    case Forget => h.(copies := Copies(None, None))
  }

  ghost predicate Timely(clock: int, ev: Event, oracle: Oracle) {
    ev.Fetch? ==>
      clock <= ev.e.orgCheck <= ev.e.orgStamp <= ev.e.repoCheck <= ev.e.repoStamp && AnswersLike(ev.e, oracle)
  }

  function Run(ttl: int, evs: seq<Event>): History {
    if evs == [] then History(Copies(None, None), 0) else Next(ttl, Run(ttl, evs[..|evs| - 1]), evs[|evs| - 1])
  }

  ghost predicate TimelyRun(ttl: int, evs: seq<Event>, oracle: Oracle) {
    evs == [] ||
    (TimelyRun(ttl, evs[..|evs| - 1], oracle)
     && Timely(Run(ttl, evs[..|evs| - 1]).clock, evs[|evs| - 1], oracle))
  }

  /** A lookup in a sound map returns a recent fetch result and may be added to the map. */
  lemma LookupIsRecent(
    cache: map<string, EntityRecord>, kind: Kind, key: string, ttl: nat, clock: int,
    check: int, login: LoginOutcome, fetch: Result<Option<seq<string>>, ()>, stamp: int, oracle: Oracle)
    requires SoundMap(cache, kind, clock, oracle) && clock <= check <= stamp
    requires fetch.Ok? ==> fetch.value == oracle(kind, key, stamp)
    requires Lookup(cache, key, ttl, check, login, fetch, stamp).Ok?
    ensures var rec := Lookup(cache, key, ttl, check, login, fetch, stamp).value;
            && FetchedWithin(rec, kind, key, if Fresh(cache, key, check, ttl) then check else stamp, ttl, oracle)
            && SoundMap(cache[key := rec], kind, stamp, oracle)
  {
    var rec := Lookup(cache, key, ttl, check, login, fetch, stamp).value;
    var cache' := cache[key := rec];
    if Fresh(cache, key, check, ttl) {
      var s :| s <= clock && FetchedAt(cache[key], kind, key, s, oracle);
      UnixTruncates(s);
      assert check - ttl <= s <= check && FetchedAt(rec, kind, key, s, oracle);
    } else {
      assert FetchedAt(rec, kind, key, stamp, oracle);
    }
    forall k | k in cache' ensures exists s :: s <= stamp && FetchedAt(cache'[k], kind, k, s, oracle) {
      if k in cache && cache'[k] == cache[k] {
        var s :| s <= clock && FetchedAt(cache[k], kind, k, s, oracle);
        assert s <= stamp;
      }
    }
  }

  lemma SoundLater(raw: Option<Raw>, clock: int, later: int, oracle: Oracle)
    requires Sound(raw, clock, oracle) && clock <= later
    ensures Sound(raw, later, oracle)
  {
    if raw.Some? {
      var st := Decode(raw.value);
      forall k | k in st.organizations
        ensures exists s :: s <= later && FetchedAt(st.organizations[k], Organization, k, s, oracle)
      {
        var s :| s <= clock && FetchedAt(st.organizations[k], Organization, k, s, oracle);
        assert s <= later;
      }
      forall k | k in st.repositories
        ensures exists s :: s <= later && FetchedAt(st.repositories[k], Repository, k, s, oracle)
      {
        var s :| s <= clock && FetchedAt(st.repositories[k], Repository, k, s, oracle);
        assert s <= later;
      }
    }
  }

  /** One call: the returned records are recent fetch results, and soundness is kept. */
  lemma FetchRepoIsSound(c: Copies, clock: int, ttl: nat, e: Encounter, oracle: Oracle)
    requires Sound(c.memory, clock, oracle) && Sound(c.cluster, clock, oracle)
    requires Timely(clock, Fetch(e), oracle)
    ensures var out := FetchRepo(c, ttl, e);
            && Sound(out.copies.memory, e.repoStamp, oracle) && Sound(out.copies.cluster, e.repoStamp, oracle)
            && (out.result.Ok? && out.result.value.Some? ==>
                  var id := QuayRepositoryId.Parse(e.repoUrl);
                  var key := QuayRepositoryId.RepositoryKey(id.org, id.repo);
                  var st := Decode(c.memory.value);
                  var got := out.result.value.value;
                  && FetchedWithin(got.organization, Organization, id.org,
                       if Fresh(st.organizations, id.org, e.orgCheck, ttl) then e.orgCheck else e.orgStamp, ttl, oracle)
                  && FetchedWithin(got.repository, Repository, key,
                       if Fresh(st.repositories, key, e.repoCheck, ttl) then e.repoCheck else e.repoStamp, ttl, oracle))
  {
    SoundLater(c.memory, clock, e.repoStamp, oracle);
    SoundLater(c.cluster, clock, e.repoStamp, oracle);
    if c.memory.Some? {
      var id := QuayRepositoryId.Parse(e.repoUrl);
      var key := QuayRepositoryId.RepositoryKey(id.org, id.repo);
      var st := Decode(c.memory.value);
      var orgFetched := !Fresh(st.organizations, id.org, e.orgCheck, ttl);
      if Lookup(st.organizations, id.org, ttl, e.orgCheck, e.orgLogin, e.orgFetch, e.orgStamp).Ok? {
        LookupIsRecent(st.organizations, Organization, id.org, ttl, clock,
                       e.orgCheck, e.orgLogin, e.orgFetch, e.orgStamp, oracle);
        var org := Lookup(st.organizations, id.org, ttl, e.orgCheck, e.orgLogin, e.orgFetch, e.orgStamp).value;
        var login := RepoLogin(e, orgFetched);
        if Lookup(st.repositories, key, ttl, e.repoCheck, login, e.repoFetch, e.repoStamp).Ok? {
          LookupIsRecent(st.repositories, Repository, key, ttl, clock,
                         e.repoCheck, login, e.repoFetch, e.repoStamp, oracle);
          var repo := Lookup(st.repositories, key, ttl, e.repoCheck, login, e.repoFetch, e.repoStamp).value;
          var found := TokenState(map[], st.organizations[id.org := org]);
          SoundLater(Some(Encoded(found)), e.orgStamp, e.repoStamp, oracle);
        }
      }
    }
  }

  lemma {:induction false} RunIsSound(ttl: nat, evs: seq<Event>, oracle: Oracle)
    requires TimelyRun(ttl, evs, oracle)
    ensures var h := Run(ttl, evs);
            Sound(h.copies.memory, h.clock, oracle) && Sound(h.copies.cluster, h.clock, oracle)
  {
    if evs != [] {
      var h := Run(ttl, evs[..|evs| - 1]);
      RunIsSound(ttl, evs[..|evs| - 1], oracle);
      if evs[|evs| - 1].Fetch? {
        FetchRepoIsSound(h.copies, h.clock, ttl, evs[|evs| - 1].e, oracle);
      }
    }
  }

  /**
   Main result: after any run, both returned records are what fetching exactly that organization
   and that repository answered at most ttl before the moment they were looked up.
   */
  lemma CacheRefinesFetching(ttl: nat, evs: seq<Event>, e: Encounter, oracle: Oracle)
    requires TimelyRun(ttl, evs + [Fetch(e)], oracle)
    ensures var out := FetchRepo(Run(ttl, evs).copies, ttl, e);
            out.result.Ok? && out.result.value.Some? ==>
              var id := QuayRepositoryId.Parse(e.repoUrl);
              var got := out.result.value.value;
              && (exists at :: e.orgCheck <= at <= e.orgStamp
                               && FetchedWithin(got.organization, Organization, id.org, at, ttl, oracle))
              && (exists at :: e.repoCheck <= at <= e.repoStamp
                               && FetchedWithin(got.repository, Repository,
                                                QuayRepositoryId.RepositoryKey(id.org, id.repo), at, ttl, oracle))
  {
    var all := evs + [Fetch(e)];
    assert all[..|all| - 1] == evs;
    RunIsSound(ttl, evs, oracle);
    FetchRepoIsSound(Run(ttl, evs).copies, Run(ttl, evs).clock, ttl, e, oracle);
  }

  /** A cached record that was stamped at most ttl ago need not be fetched. */
  predicate NeedsFetch(cache: map<string, EntityRecord>, key: string, now: int, ttl: int) {
    key !in cache || now > cache[key].lastRefresh * SECOND + ttl
  }

  /** The record that belongs into the result: the cached one, or one made of what was fetched. */
  predicate IsRecordFor(
    rec: EntityRecord, cache: map<string, EntityRecord>, key: string, ttl: int, check: int,
    fetch: Result<Option<seq<string>>, ()>, stamp: int)
  {
    if NeedsFetch(cache, key, check, ttl) then
      fetch.Ok? && rec.lastRefresh == Unix(stamp) && HasScopesOf(rec.scopes, fetch.value)
    else rec == cache[key]
  }

  /** A record that has to be fetched can be: the login does not fail, and neither does the fetch. */
  predicate CanFetch(needed: bool, loggedIn: bool, login: LoginOutcome, fetch: Result<Option<seq<string>>, ()>) {
    needed ==> (loggedIn || login != LoginFailed) && fetch.Ok?
  }

  /**
   Main result: what FetchRepo answers and keeps. It answers with records exactly when state, token data and
   URL are right, what has to be fetched can be, where a login that succeeded for the organization serves the
   repository too, and what was fetched can be written. The records are the cached ones where they are fresh
   and else what was fetched; both are then in memory and in the cluster, and nothing is written when
   nothing was fetched.
   */
  lemma FetchRepoAnswers(c: Copies, ttl: int, e: Encounter, id: QuayRepositoryId.RepositoryId, key: string)
    requires id == QuayRepositoryId.Parse(e.repoUrl) && key == QuayRepositoryId.RepositoryKey(id.org, id.repo)
    ensures var out := FetchRepo(c, ttl, e);
            if c.memory.None? then out == Outcome(c, Ok(None))
            else
              var st := Decode(c.memory.value);
              var orgNeeded := NeedsFetch(st.organizations, id.org, e.orgCheck, ttl);
              var repoNeeded := NeedsFetch(st.repositories, key, e.repoCheck, ttl);
              && (out.result == Ok(None) <==> c.memory.value != Garbage && e.tokenData == Ok(false))
              && (out.result.Ok? && out.result.value.Some? <==>
                    && c.memory.value != Garbage && e.tokenData == Ok(true) && id.org != "" && id.repo != ""
                    && CanFetch(orgNeeded, false, e.orgLogin, e.orgFetch)
                    && CanFetch(repoNeeded, orgNeeded && e.orgLogin == LoggedIn, e.repoLogin, e.repoFetch)
                    && (orgNeeded || repoNeeded ==> e.persistOk))
              && (out.result.Ok? && out.result.value.Some? ==>
                    var got := out.result.value.value;
                    && IsRecordFor(got.organization, st.organizations, id.org, ttl, e.orgCheck, e.orgFetch, e.orgStamp)
                    && IsRecordFor(got.repository, st.repositories, key, ttl, e.repoCheck, e.repoFetch, e.repoStamp)
                    && (if orgNeeded || repoNeeded then
                          && out.copies.cluster == out.copies.memory
                          && out.copies.memory == Some(Encoded(TokenState(
                               st.repositories[key := got.repository], st.organizations[id.org := got.organization])))
                        else out.copies == c))
  {
  }

  /** What FetchRepo may do to the copies: touch one entry in each map, together. */
  lemma FetchRepoWrites(c: Copies, ttl: int, e: Encounter)
    ensures var out := FetchRepo(c, ttl, e);
            && (out.result.Err? ==> out.copies.cluster == c.cluster)
            && (out.copies.cluster == c.cluster || out.copies.cluster == out.copies.memory)
            && (out.copies.memory == c.memory ||
                (c.memory.Some? && out.copies.memory.Some? &&
                 var id := QuayRepositoryId.Parse(e.repoUrl);
                 var before, after := Decode(c.memory.value), Decode(out.copies.memory.value);
                 && after.organizations - {id.org} == before.organizations - {id.org}
                 && var key := QuayRepositoryId.RepositoryKey(id.org, id.repo);
                    after.repositories - {key} == before.repositories - {key}))
  {
  }

  /** Main result: repositories other than the requested one keep their record, and so do organizations. */
  lemma OtherEntriesUntouched(c: Copies, ttl: int, e: Encounter, other: string)
    requires c.memory.Some? && FetchRepo(c, ttl, e).copies.memory.Some?
    ensures var id, otherId := QuayRepositoryId.Parse(e.repoUrl), QuayRepositoryId.Parse(other);
            var key, otherKey := QuayRepositoryId.RepositoryKey(id.org, id.repo),
                                 QuayRepositoryId.RepositoryKey(otherId.org, otherId.repo);
            var before, after := Decode(c.memory.value), Decode(FetchRepo(c, ttl, e).copies.memory.value);
            && (otherId.org != id.org || otherId.repo != id.repo ==>
                  SameEntry(before.repositories, after.repositories, otherKey))
            && (otherId.org != id.org ==> SameEntry(before.organizations, after.organizations, otherId.org))
  {
    var id, otherId := QuayRepositoryId.Parse(e.repoUrl), QuayRepositoryId.Parse(other);
    var key, otherKey := QuayRepositoryId.RepositoryKey(id.org, id.repo),
                         QuayRepositoryId.RepositoryKey(otherId.org, otherId.repo);
    var before, after := Decode(c.memory.value), Decode(FetchRepo(c, ttl, e).copies.memory.value);
    FetchRepoWrites(c, ttl, e);
    if key == otherKey {
      QuayRepositoryId.RepositoryKeysDistinct(e.repoUrl, other);
    } else {
      UntouchedEntry(before.repositories, after.repositories, key, otherKey);
    }
    UntouchedEntry(before.organizations, after.organizations, id.org, otherId.org);
  }

  predicate SameEntry(a: map<string, EntityRecord>, b: map<string, EntityRecord>, key: string) {
    if key in a then key in b && b[key] == a[key] else key !in b
  }

  lemma UntouchedEntry(a: map<string, EntityRecord>, b: map<string, EntityRecord>, key: string, other: string)
    requires a == b || b - {key} == a - {key}
    ensures key != other ==> SameEntry(a, b, other)
  {
    if key != other && a != b {
      assert other in a <==> other in a - {key};
      assert other in b <==> other in b - {key};
      assert other in a ==> (a - {key})[other] == a[other] && (b - {key})[other] == b[other];
    }
  }
}
