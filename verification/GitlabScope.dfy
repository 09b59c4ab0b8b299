// GitLab OAuth scopes (pkg/serviceprovider/gitlab).
module GitlabScope {
  import opened Permissions

  type Scope = string

  const API: Scope := "api"
  const READ_API: Scope := "read_api"
  const READ_USER: Scope := "read_user"
  const READ_REPOSITORY: Scope := "read_repository"
  const WRITE_REPOSITORY: Scope := "write_repository"
  const READ_REGISTRY: Scope := "read_registry"
  const WRITE_REGISTRY: Scope := "write_registry"

  /** Scope.Implies. */
  predicate Implies(s: Scope, other: Scope) {
    if s == other then true
    else if s == API then
      || other == READ_API || other == READ_USER || other == READ_REPOSITORY
      || other == WRITE_REPOSITORY || other == READ_REGISTRY || other == WRITE_REGISTRY
    else if s == READ_API then other == READ_USER || other == READ_REPOSITORY || other == READ_REGISTRY
    else if s == WRITE_REPOSITORY then other == READ_REPOSITORY
    else if s == WRITE_REGISTRY then other == READ_REGISTRY
    else false
  }

  /** The seven scopes that the rules name have seven different lengths. */
  lemma Distinct()
    ensures |API| == 3 && |READ_API| == 8 && |READ_USER| == 9 && |READ_REPOSITORY| == 15
    ensures |WRITE_REPOSITORY| == 16 && |READ_REGISTRY| == 13 && |WRITE_REGISTRY| == 14
  {
  }

  /** `Implies` is a partial order over all strings. */
  lemma PartialOrder(a: Scope, b: Scope, c: Scope)
    ensures Implies(a, a)
    ensures Implies(a, b) && Implies(b, a) ==> a == b
    ensures Implies(a, b) && Implies(b, c) ==> Implies(a, c)
  {
    Distinct();
  }

  /** translateToGitlabScopes. */
  function Translate(p: Permission): seq<string> {
    match p.area
    case Repository | RepositoryMetadata => if p.kind.IsWrite() then [WRITE_REPOSITORY] else [READ_REPOSITORY]
    case Registry => if p.kind.IsWrite() then [WRITE_REGISTRY] else [READ_REGISTRY]
    case User => [READ_USER]
    case _ => []
  }

  /** For every area, the permission to write asks for at least what the permission to read does. */
  lemma WritingCoversReading(area: PermissionArea, write: PermissionType, s: Scope)
    requires write.IsWrite() && s in Translate(Permission(Read, area))
    ensures exists s' :: s' in Translate(Permission(write, area)) && Implies(s', s)
  {
    var s' := Translate(Permission(write, area))[0];
    assert s' in Translate(Permission(write, area)) && Implies(s', s);
  }

  /** A token with the scope alone has the permission. */
  predicate Grants(scope: Scope, p: Permission) {
    forall s :: s in Translate(p) ==> Implies(scope, s)
  }

  /** Which permissions each scope grants. */
  lemma WhatGrants(p: Permission)
    requires p.area.Repository? || p.area.RepositoryMetadata? || p.area.Registry? || p.area.User?
    ensures Grants("api", p)
    ensures Grants("read_api", p) <==> p.area == User || !p.kind.IsWrite()
    ensures Grants("write_repository", p) <==> p.area == Repository || p.area == RepositoryMetadata
    ensures Grants("read_repository", p)
            <==> (p.area == Repository || p.area == RepositoryMetadata) && !p.kind.IsWrite()
    ensures Grants("write_registry", p) <==> p.area == Registry
    ensures Grants("read_registry", p) <==> p.area == Registry && !p.kind.IsWrite()
    ensures Grants("read_user", p) <==> p.area == User
  {
    Distinct();
    assert Translate(p)[0] in Translate(p);
  }

  /** gitlabOAuthCapability.OAuthScopesFor. */
  method OAuthScopesFor(perms: Permissions) returns (scopes: seq<string>)
    ensures forall s :: s in scopes <==> s in ScopeSet(Translate, perms) + {READ_USER, READ_API}
  {
    scopes := GetAllScopes(Translate, perms);
    if READ_USER !in scopes {
      scopes := scopes + [READ_USER];
    }
    if READ_API !in scopes {
      scopes := scopes + [READ_API];
    }
  }
}
