// The Quay repository-ID parser (pkg/serviceprovider/quay/utils.go) and the keys under which
// the Quay cache files its records.
module QuayRepositoryId {
  import opened Strings

  const QUAY_HOST := "quay.io"
  const REPOSITORY := "repository"

  datatype RepositoryId = RepositoryId(org: string, repo: string, version: string)

  const UNPARSED := RepositoryId("", "", "")

  function StripScheme(id: string): string {
    var i := IndexOf(id, "://");
    if i > 0 then id[i + 3..] else id
  }

  /** What the slash-separated parts of an ID stand for. */
  function FromParts(parts: seq<string>): RepositoryId {
    if |parts| < 3 then UNPARSED
    else
      var isUiUrl := |parts| == 4 && parts[1] == REPOSITORY;
      if !isUiUrl && |parts| == 4 then UNPARSED
      else if parts[0] != QUAY_HOST then UNPARSED
      else
        var org := if isUiUrl then parts[2] else parts[1];
        var img := if isUiUrl then parts[3] else parts[2];
        var imgParts := Split(img, ':');
        RepositoryId(org, imgParts[0], if |imgParts| == 2 then imgParts[1] else "")
  }

  /** splitToOrganizationAndRepositoryAndVersion. */
  function Parse(id: string): RepositoryId {
    FromParts(Split(StripScheme(id), '/'))
  }

  /** A name that can stand for an organization, a repository or a version. */
  predicate Plain(s: string) {
    '/' !in s && ':' !in s
  }

  predicate Printable(id: RepositoryId) {
    && id.org != "" && Plain(id.org)
    && id.repo != "" && Plain(id.repo)
    && Plain(id.version)
  }

  /** The image part of an ID: the repository and, when there is one, the version. */
  function Image(id: RepositoryId): string {
    if id.version == "" then id.repo else id.repo + [':'] + id.version
  }

  /** The slash-separated parts of an ID: a docker reference or a path of the Quay UI. */
  function PathParts(id: RepositoryId, ui: bool): seq<string> {
    if ui then [QUAY_HOST, REPOSITORY, id.org, Image(id)] else [QUAY_HOST, id.org, Image(id)]
  }

  function Print(id: RepositoryId, ui: bool, scheme: string): string {
    var path := Join(PathParts(id, ui), '/');
    if scheme == "" then path else scheme + "://" + path
  }

  /** A colon that is directly followed by a slash. */
  predicate ColonSlashAt(s: string, i: int) {
    0 <= i < |s| - 1 && s[i] == ':' && s[i + 1] == '/'
  }

  lemma SchemeMark(s: string)
    ensures forall i :: OccursAt(s, "://", i) ==> ColonSlashAt(s, i)
  {
    forall i | OccursAt(s, "://", i) ensures ColonSlashAt(s, i) {
      assert s[i..i + 3][0] == ':' && s[i..i + 3][1] == '/';
    }
  }

  lemma NoSchemeToStrip(body: string)
    requires forall i :: !ColonSlashAt(body, i)
    ensures StripScheme(body) == body
  {
    SchemeMark(body);
  }

  lemma SchemeIsStripped(scheme: string, body: string)
    requires scheme != "" && ':' !in scheme
    ensures StripScheme(scheme + "://" + body) == body
  {
    var s := scheme + "://" + body;
    assert s[|scheme|..|scheme| + 3] == "://";
    assert OccursAt(s, "://", |scheme|);
    SchemeMark(s);
    forall i | 0 <= i < |scheme| ensures !ColonSlashAt(s, i) {
      assert s[i] == scheme[i] && scheme[i] in scheme;
    }
  }

  /** The image part splits into the repository and the version, and is one path part. */
  lemma SplitImage(id: RepositoryId)
    requires Printable(id)
    ensures '/' !in Image(id)
    ensures Split(Image(id), ':') == [id.repo] + (if id.version == "" then [] else [id.version])
  {
    if id.version == "" {
      SplitWithoutSeparator(id.repo, ':');
    } else {
      SplitAtFirst(id.repo, id.version, ':');
      SplitWithoutSeparator(id.version, ':');
    }
  }

  /** Joined with slashes, parts without a slash, of which only the last has colons, never form "://". */
  lemma {:induction false} JoinedPathHasNoScheme(parts: seq<string>)
    requires |parts| >= 1
    requires forall i :: 0 <= i < |parts| ==> '/' !in parts[i]
    requires forall i :: 0 <= i < |parts| - 1 ==> ':' !in parts[i]
    ensures forall i :: !ColonSlashAt(Join(parts, '/'), i)
  {
    var head := parts[0];
    forall i | 0 <= i < |head| ensures head[i] in head {}
    if |parts| > 1 {
      JoinedPathHasNoScheme(parts[1..]);
      var rest := Join(parts[1..], '/');
      var s := Join(parts, '/');
      assert s == head + ['/'] + rest;
      forall i ensures !ColonSlashAt(s, i) {
        if i > |head| {
          assert !ColonSlashAt(rest, i - |head| - 1);
          assert 0 <= i < |s| ==> s[i] == rest[i - |head| - 1];
        }
      }
    }
  }

  lemma PartsAreRead(id: RepositoryId, ui: bool)
    requires Printable(id)
    ensures FromParts(PathParts(id, ui)) == id
  {
    SplitImage(id);
  }

  lemma PartsArePlain(id: RepositoryId, ui: bool)
    requires Printable(id)
    ensures var parts := PathParts(id, ui);
            && (forall i :: 0 <= i < |parts| ==> '/' !in parts[i])
            && (forall i :: 0 <= i < |parts| - 1 ==> ':' !in parts[i])
  {
    SplitImage(id);
  }

  lemma PrintIsStripped(id: RepositoryId, ui: bool, scheme: string)
    requires Printable(id) && ':' !in scheme
    ensures StripScheme(Print(id, ui, scheme)) == Join(PathParts(id, ui), '/')
  {
    if scheme == "" {
      PartsArePlain(id, ui);
      JoinedPathHasNoScheme(PathParts(id, ui));
      NoSchemeToStrip(Join(PathParts(id, ui), '/'));
    } else {
      SchemeIsStripped(scheme, Join(PathParts(id, ui), '/'));
    }
  }

  /**
   Main result: the parser undoes the printer for every organization, repository and optional
   version without '/' or ':', in docker form and in UI form, without a scheme and with any.
   */
  lemma ParseUndoesPrint(id: RepositoryId, ui: bool, scheme: string)
    requires Printable(id)
    requires ':' !in scheme
    ensures Parse(Print(id, ui, scheme)) == id
  {
    PrintIsStripped(id, ui, scheme);
    PartsArePlain(id, ui);
    SplitUndoesJoin(PathParts(id, ui), '/');
    PartsAreRead(id, ui);
  }

  /** Whatever is parsed, the organization and the repository never contain a slash. */
  lemma ParsedNamesHaveNoSlash(id: string)
    ensures '/' !in Parse(id).org && '/' !in Parse(id).repo && ':' !in Parse(id).repo
  {
    var parts := Split(StripScheme(id), '/');
    SplitPartsFree(StripScheme(id), '/');
    forall i | 0 <= i < |parts| ensures '/' !in parts[i] && '/' !in Split(parts[i], ':')[0] {
      assert parts[i] in parts;
      SplitHeadIsPart(parts[i], ':');
    }
    forall p: string ensures ':' !in Split(p, ':')[0] {
      SplitPartsFree(p, ':');
      assert Split(p, ':')[0] in Split(p, ':');
    }
  }

  lemma {:induction false} SplitHeadIsPart(s: string, c: char)
    ensures Split(s, c)[0] <= s
    ensures forall x :: x in Split(s, c)[0] ==> x in s
  {
    if s != "" {
      SplitHeadIsPart(s[1..], c);
    }
  }

  lemma {:induction false} SplitHeadIsFollowed(s: string, c: char)
    requires |Split(s, c)| >= 2
    ensures Split(s, c)[0] + [c] <= s
  {
    if s[0] != c {
      SplitHeadIsFollowed(s[1..], c);
    }
  }

  /** The rest of an ID after "://", or all of it. */
  predicate FollowsScheme(id: string, i: int) {
    0 <= i <= |id| && (i == 0 || (i > 3 && id[i - 3..i] == "://"))
  }

  /** Nothing is parsed that does not lead to quay.io. */
  lemma OnlyQuayIsParsed(id: string)
    requires Parse(id) != UNPARSED
    ensures exists i :: FollowsScheme(id, i) && "quay.io/" <= id[i..]
  {
    var rest := StripScheme(id);
    SplitHeadIsFollowed(rest, '/');
    assert QUAY_HOST + ['/'] == "quay.io/";
    var i := IndexOf(id, "://");
    if i > 0 {
      assert FollowsScheme(id, i + 3) && rest == id[i + 3..];
    } else {
      assert FollowsScheme(id, 0) && rest == id[0..];
    }
  }

  /** The key of a repository's record in the Quay cache. */
  function RepositoryKey(org: string, repo: string): string {
    org + "/" + repo
  }

  /** Two repositories share a cache key only when they are the same repository. */
  lemma RepositoryKeysDistinct(id1: string, id2: string)
    requires var a, b := Parse(id1), Parse(id2);
             RepositoryKey(a.org, a.repo) == RepositoryKey(b.org, b.repo)
    ensures Parse(id1).org == Parse(id2).org && Parse(id1).repo == Parse(id2).repo
  {
    var a, b := Parse(id1), Parse(id2);
    ParsedNamesHaveNoSlash(id1);
    ParsedNamesHaveNoSlash(id2);
    SplitAtFirst(a.org, a.repo, '/');
    SplitWithoutSeparator(a.repo, '/');
    SplitAtFirst(b.org, b.repo, '/');
    SplitWithoutSeparator(b.repo, '/');
    var parts := Split(RepositoryKey(a.org, a.repo), '/');
    assert parts == [a.org, a.repo];
    assert parts == [b.org, b.repo];
    assert parts[0] == a.org && parts[1] == a.repo;
  }
}
