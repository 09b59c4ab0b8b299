// The scope filters of the three providers: does a token that possesses some scopes satisfy a
// matchable object that requires others? The required scopes arrive in whatever order
// GetAllScopes returns them.
module ScopeFilters {
  import opened Core
  import opened Permissions
  import GithubScope
  import GitlabScope
  import QuayScope
  import Strings

  predicate HasScope(implies: (string, string) -> bool, possessed: seq<string>, scope: string) {
    exists s :: s in possessed && implies(s, scope)
  }

  predicate Within(a: seq<string>, b: seq<string>) {
    forall s :: s in a ==> s in b
  }

  function Without(required: seq<string>, scope: string): (rest: seq<string>)
    ensures forall s :: s in rest <==> s in required && s != scope
  {
    if required == [] then []
    else (if required[0] == scope then [] else [required[0]]) + Without(required[1..], scope)
  }

  // ----- GitLab: pkg/serviceprovider/gitlab/tokenfilter.go -----

  predicate GitlabCovers(metadata: Option<seq<string>>, required: seq<string>) {
    metadata.Some? && forall s :: s in required ==> HasScope(GitlabScope.Implies, metadata.value, s)
  }

  method GitlabMatches(metadata: Option<seq<string>>, perms: Permissions) returns (ok: bool)
    ensures forall required :: Enumerates(required, ScopeSet(GitlabScope.Translate, perms))
                               ==> ok == GitlabCovers(metadata, required)
  {
    if metadata.None? {
      return false;
    }
    var required := GetAllScopes(GitlabScope.Translate, perms);
    ok := GitlabCovers(metadata, required);
  }

  /** Monotone in what the token has, antitone in what is required, whatever the two orders. */
  lemma GitlabMonotone(has: seq<string>, has': seq<string>, required: seq<string>, required': seq<string>)
    requires Within(has, has') && Within(required', required)
    requires GitlabCovers(Some(has), required)
    ensures GitlabCovers(Some(has'), required')
  {
    forall s | s in required' ensures HasScope(GitlabScope.Implies, has', s) {
      assert HasScope(GitlabScope.Implies, has, s);
    }
  }

  /** A required scope that another required scope implies may be dropped. */
  lemma GitlabDropImplied(metadata: Option<seq<string>>, required: seq<string>, strong: string, weak: string)
    requires strong in required && strong != weak && GitlabScope.Implies(strong, weak)
    ensures GitlabCovers(metadata, required) <==> GitlabCovers(metadata, Without(required, weak))
  {
    if metadata.Some? && GitlabCovers(metadata, Without(required, weak)) {
      assert HasScope(GitlabScope.Implies, metadata.value, strong);
      var s :| s in metadata.value && GitlabScope.Implies(s, strong);
      GitlabScope.PartialOrder(s, strong, weak);
    }
  }

  /** A token that was granted everything the OAuth flow asked for matches. */
  lemma GitlabGrantedMatches(perms: Permissions, granted: seq<string>, required: seq<string>)
    requires Enumerates(required, ScopeSet(GitlabScope.Translate, perms))
    requires forall s :: s in ScopeSet(GitlabScope.Translate, perms) ==> s in granted
    ensures GitlabCovers(Some(granted), required)
  {
    forall s | s in required ensures HasScope(GitlabScope.Implies, granted, s) {
      assert s in granted && GitlabScope.Implies(s, s);
    }
  }

  // ----- Quay: pkg/serviceprovider/quay/tokenfilter.go -----

  /** The scopes a token has on the repository and on its organization. */
  datatype QuayRecords = QuayRecords(repository: seq<string>, organization: seq<string>)

  function TestedRecord(rec: QuayRecords, scope: string): seq<string> {
    if scope == QuayScope.ORG_ADMIN then rec.organization else rec.repository
  }

  /** `fetched` is the outcome of FetchRepo; it is absent when the token data is gone. */
  predicate QuayCovers(hasMetadata: bool, fetched: Option<QuayRecords>, required: seq<string>) {
    && hasMetadata
    && match fetched
       case None => |required| == 0
       case Some(rec) => forall s :: s in required ==> QuayScope.IsIncluded(s, TestedRecord(rec, s))
  }

  method QuayMatches(hasMetadata: bool, fetched: Option<QuayRecords>, perms: Permissions) returns (ok: bool)
    ensures forall required :: Enumerates(required, ScopeSet(QuayScope.Translate, perms))
                               ==> ok == QuayCovers(hasMetadata, fetched, required)
  {
    if !hasMetadata {
      return false;
    }
    var required := GetAllScopes(QuayScope.Translate, perms);
    ok := QuayCovers(hasMetadata, fetched, required);
    forall other | Enumerates(other, ScopeSet(QuayScope.Translate, perms))
      ensures ok == QuayCovers(hasMetadata, fetched, other)
    {
      SameEmptiness(required, other);
    }
  }

  lemma SameEmptiness(a: seq<string>, b: seq<string>)
    requires forall s :: s in a <==> s in b
    ensures |a| == 0 <==> |b| == 0
  {
    assert |a| > 0 ==> a[0] in a;
    assert |b| > 0 ==> b[0] in b;
  }

  lemma QuayMonotone(rec: QuayRecords, rec': QuayRecords, required: seq<string>, required': seq<string>)
    requires Within(rec.repository, rec'.repository) && Within(rec.organization, rec'.organization)
    requires Within(required', required)
    requires QuayCovers(true, Some(rec), required)
    ensures QuayCovers(true, Some(rec'), required')
  {
    forall s | s in required' ensures QuayScope.IsIncluded(s, TestedRecord(rec', s)) {
      assert QuayScope.IsIncluded(s, TestedRecord(rec, s));
    }
  }

  lemma QuayDropImplied(rec: QuayRecords, required: seq<string>, strong: string, weak: string)
    requires strong in required && strong != weak && QuayScope.Implies(strong, weak)
    ensures QuayCovers(true, Some(rec), required) <==> QuayCovers(true, Some(rec), Without(required, weak))
  {
    if QuayCovers(true, Some(rec), Without(required, weak)) {
      QuayScope.OrgAdminStandsAlone(strong);
      QuayScope.OrgAdminStandsAlone(weak);
      assert QuayScope.IsIncluded(strong, TestedRecord(rec, strong));
      var s :| s in rec.repository && QuayScope.Implies(s, strong);
      QuayScope.PartialOrder(s, strong, weak);
    }
  }

  /** A token with everything OAuthScopesFor requests on both records matches. */
  lemma QuayGrantedMatches(perms: Permissions, rec: QuayRecords, required: seq<string>)
    requires Enumerates(required, ScopeSet(QuayScope.Translate, perms))
    requires forall s :: s in QuayScope.ALWAYS_REQUESTED || s in perms.additionalScopes
                         ==> s in rec.repository && s in rec.organization
    ensures QuayCovers(true, Some(rec), required)
  {
    forall s | s in required ensures QuayScope.IsIncluded(s, TestedRecord(rec, s)) {
      if s in perms.additionalScopes {
        assert QuayScope.Implies(s, s);
      } else {
        var p :| p in perms.required && s in QuayScope.Translate(p);
        QuayScope.TranslationIsRequested(p, s);
        assert QuayScope.REPO_ADMIN in QuayScope.ALWAYS_REQUESTED;
      }
    }
  }

  // ----- GitHub: pkg/serviceprovider/github/tokenfilter.go -----

  const VIEWER_PERMISSIONS: set<string> := {"ADMIN", "MAINTAIN", "WRITE", "TRIAGE", "READ"}

  /** ViewerPermission.Enables: the scope does not matter yet. */
  predicate Enables(viewerPermission: string, scope: string) {
    viewerPermission in VIEWER_PERMISSIONS
  }

  /** translateToScopes. */
  function TranslateToGithub(p: Permission): seq<string> {
    match p.area
    case Repository | RepositoryMetadata => ["repo"]
    case Webhooks => if p.kind.IsWrite() then ["write:repo_hook"] else ["read:repo_hook"]
    case User => if p.kind.IsWrite() then ["user"] else ["read:user"]
    case _ => []
  }

  /** For every area, the permission to write asks for at least what the permission to read does. */
  lemma GithubWritingCoversReading(area: PermissionArea, write: PermissionType, s: string)
    requires write.IsWrite() && s in TranslateToGithub(Permission(Read, area))
    ensures exists s' :: s' in TranslateToGithub(Permission(write, area)) && GithubScope.Implies(s', s)
  {
    var scopes := TranslateToGithub(Permission(write, area));
    if area == Webhooks {
      GithubScope.WriteImpliesRead("repo_hook", scopes[0], s);
    }
    assert scopes[0] in scopes && GithubScope.Implies(scopes[0], s);
  }

  /** A token with the scope alone has the permission. */
  predicate GithubGrants(scope: string, p: Permission) {
    forall s :: s in TranslateToGithub(p) ==> GithubScope.Implies(scope, s)
  }

  const REPO_HOOK := "repo_hook"

  /** Cut at the colon, and told apart by their first characters. */
  lemma GithubShapes(s: string)
    ensures s == "repo" || s == "user" ==> GithubScope.ShapeOf(s) == GithubScope.Bare
    ensures s == "read:user" ==> GithubScope.ShapeOf(s) == GithubScope.Scoped("read", "user")
    ensures s == "read:repo_hook" ==> GithubScope.ShapeOf(s) == GithubScope.Scoped("read", REPO_HOOK)
    ensures s == "write:repo_hook" ==> GithubScope.ShapeOf(s) == GithubScope.Scoped("write", REPO_HOOK)
  {
    GithubScope.NamedShapes(s);
    if s == "read:repo_hook" {
      GithubScope.NamedShape("read", REPO_HOOK, s);
    } else if s == "write:repo_hook" {
      GithubScope.NamedShape("write", REPO_HOOK, s);
    }
  }

  lemma GithubLetters(s: string)
    requires s in {"repo", "write:repo_hook", "read:repo_hook", "user", "read:user"}
    ensures Strings.HasPrefix(s, "repo") <==> s == "repo"
    ensures s != "public_repo" && s != "user:email" && s != "user:follow"
  {
    assert |"write:repo_hook"| == 15 && |"read:repo_hook"| == 14 && |"read:user"| == 9;
    assert "repo"[2] == 'p' && s != "repo" && |s| > 2 ==> s[2] != 'p';
  }

  /** What the scopes of a token mean for the scopes that permissions translate to. */
  lemma WhatGithubScopesImply(has: string, s: string)
    requires has in {"repo", "write:repo_hook", "read:repo_hook", "user", "read:user"}
    requires s in {"repo", "write:repo_hook", "read:repo_hook", "user", "read:user"}
    ensures GithubScope.Implies(has, s)
            <==> has == s || (has == "write:repo_hook" && s == "read:repo_hook") || (has == "user" && s == "read:user")
  {
    GithubScope.ImpliesMeaning(has, s);
    GithubShapes(has);
    GithubShapes(s);
    GithubLetters(s);
  }

  /** Which permissions each scope grants. */
  lemma WhatGithubGrants(has: string, p: Permission)
    requires has in {"repo", "write:repo_hook", "read:repo_hook", "user", "read:user"}
    requires p.area.Repository? || p.area.RepositoryMetadata? || p.area.Webhooks? || p.area.User?
    ensures GithubGrants(has, p)
            <==> match p.area
                 case Webhooks => has == "write:repo_hook" || (has == "read:repo_hook" && !p.kind.IsWrite())
                 case User => has == "user" || (has == "read:user" && !p.kind.IsWrite())
                 case _ => has == "repo"
  {
    var scopes := TranslateToGithub(p);
    assert scopes[0] in scopes && scopes == [scopes[0]];
    WhatGithubScopesImply(has, scopes[0]);
  }

  /** permsMatch, for the required scopes in some order. */
  predicate PermsMatch(required: seq<string>, viewerPermission: string, possessed: seq<string>) {
    forall s :: s in required ==> HasScope(GithubScope.Implies, possessed, s) && Enables(viewerPermission, s)
  }

  /** The token's metadata: its scopes and the repositories it can access. */
  datatype GithubMetadata = GithubMetadata(scopes: seq<string>, accessible: map<string, string>)

  predicate GithubCovers(metadata: Option<GithubMetadata>, repoUrl: string, required: seq<string>) {
    && metadata.Some?
    && repoUrl in metadata.value.accessible
    && PermsMatch(required, metadata.value.accessible[repoUrl], metadata.value.scopes)
  }

  /** tokenFilter.Matches: visits the accessible repositories in an arbitrary order. */
  method GithubMatches(metadata: Option<GithubMetadata>, repoUrl: string, perms: Permissions) returns (ok: bool)
    ensures forall required :: Enumerates(required, ScopeSet(TranslateToGithub, perms))
                               ==> ok == GithubCovers(metadata, repoUrl, required)
  {
    if metadata.None? {
      return false;
    }
    var accessible := metadata.value.accessible;
    var urls := accessible.Keys;
    while urls != {}
      invariant urls <= accessible.Keys
      invariant repoUrl in accessible.Keys - urls ==>
                  forall required :: Enumerates(required, ScopeSet(TranslateToGithub, perms))
                                     ==> !GithubCovers(metadata, repoUrl, required)
      decreases urls
    {
      var url :| url in urls;
      urls := urls - {url};
      if url == repoUrl {
        var required := GetAllScopes(TranslateToGithub, perms);
        if PermsMatch(required, accessible[url], metadata.value.scopes) {
          return true;
        }
      }
    }
    ok := false;
  }

  lemma GithubMonotone(vp: string, has: seq<string>, has': seq<string>, required: seq<string>, required': seq<string>)
    requires Within(has, has') && Within(required', required)
    requires PermsMatch(required, vp, has)
    ensures PermsMatch(required', vp, has')
  {
    forall s | s in required' ensures HasScope(GithubScope.Implies, has', s) {
      assert HasScope(GithubScope.Implies, has, s);
    }
  }

  /**
   Because `Implies` is not transitive around read:user, dropping an implied scope is sound in
   every other case ...
   */
  lemma GithubDropImplied(vp: string, has: seq<string>, required: seq<string>, strong: string, weak: string)
    requires strong in required && strong != weak && GithubScope.Implies(strong, weak)
    requires strong != GithubScope.READ_USER
    ensures PermsMatch(required, vp, has) <==> PermsMatch(Without(required, weak), vp, has)
  {
    if PermsMatch(Without(required, weak), vp, has) {
      assert HasScope(GithubScope.Implies, has, strong);
      var s :| s in has && GithubScope.Implies(s, strong);
      GithubScope.TransitiveExactly(s, strong, weak);
    }
  }

  /** ... and in that case it is not: read:user covers user:email, but a token with "user" lacks it. */
  lemma GithubDropFails(weak: string)
    requires GithubScope.Implies(GithubScope.READ_USER, weak) && weak != GithubScope.READ_USER
    ensures var required, has := [GithubScope.READ_USER, weak], [GithubScope.USER];
            && !PermsMatch(required, "READ", has)
            && PermsMatch(Without(required, weak), "READ", has)
  {
    var has := [GithubScope.USER];
    var strong := GithubScope.READ_USER;
    GithubScope.NamedShapes(strong);
    GithubScope.ImpliesMeaning(strong, weak);
    assert weak == GithubScope.USER_EMAIL || weak == GithubScope.USER_FOLLOW;
    assert has[0] in has && GithubScope.Implies(has[0], strong);
    GithubScope.AroundReadUser(has[0], strong, weak);
    assert !HasScope(GithubScope.Implies, has, weak);
    assert weak in [strong, weak];
  }

  /** Dropping the weaker of two required scopes changes no answer. */
  ghost predicate DropIsSound(strong: string, weak: string) {
    forall vp, has, required | strong in required ::
      PermsMatch(required, vp, has) <==> PermsMatch(Without(required, weak), vp, has)
  }

  /** Main result: an implied scope may be dropped if and only if the implying one is not read:user. */
  lemma GithubDropExactly(strong: string, weak: string)
    requires strong != weak && GithubScope.Implies(strong, weak)
    ensures DropIsSound(strong, weak) <==> strong != GithubScope.READ_USER
  {
    if strong == GithubScope.READ_USER {
      GithubDropFails(weak);
      var required, has := [strong, weak], [GithubScope.USER];
      assert strong in required;
    } else {
      forall vp, has, required | strong in required
        ensures PermsMatch(required, vp, has) <==> PermsMatch(Without(required, weak), vp, has)
      {
        GithubDropImplied(vp, has, required, strong, weak);
      }
    }
  }
}
