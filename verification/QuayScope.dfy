// Quay scopes (pkg/serviceprovider/quay). Push and pull are not Quay scopes; they stand for
// what a robot account may do.
module QuayScope {
  import opened Permissions

  type Scope = string

  const REPO_READ: Scope := "repo:read"
  const REPO_WRITE: Scope := "repo:write"
  const REPO_ADMIN: Scope := "repo:admin"
  const REPO_CREATE: Scope := "repo:create"
  const USER_READ: Scope := "user:read"
  const USER_ADMIN: Scope := "user:admin"
  const ORG_ADMIN: Scope := "org:admin"
  const PUSH: Scope := "push"
  const PULL: Scope := "pull"

  /** Scope.Implies. */
  predicate Implies(s: Scope, other: Scope) {
    if s == other then true
    else if s == REPO_READ then other == PULL
    else if s == REPO_WRITE then other == REPO_READ || other == PUSH || other == PULL
    else if s == REPO_ADMIN then
      other == REPO_READ || other == REPO_WRITE || other == REPO_CREATE || other == PUSH || other == PULL
    else if s == USER_ADMIN then other == USER_READ
    else false
  }

  /** Scope.IsIncluded. */
  predicate IsIncluded(s: Scope, scopes: seq<Scope>) {
    exists sc :: sc in scopes && Implies(sc, s)
  }

  /** Characters that tell apart the scopes that occur on both sides of the rules. */
  lemma Distinct()
    ensures |REPO_READ| == 9 && |REPO_WRITE| == |REPO_ADMIN| == 10 && |REPO_CREATE| == 11
    ensures REPO_WRITE[5] == 'w' && REPO_ADMIN[5] == 'a'
    ensures |USER_READ| == 9 && |USER_ADMIN| == 10 && USER_READ[0] == 'u' && USER_ADMIN[0] == 'u'
    ensures REPO_READ[0] == 'r' && REPO_WRITE[0] == 'r' && REPO_ADMIN[0] == 'r' && REPO_CREATE[0] == 'r'
    ensures ORG_ADMIN[0] == 'o' && |PUSH| == |PULL| == 4 && PUSH[2] == 's' && PULL[2] == 'l'
  {
  }

  /** `Implies` is a partial order over all strings. */
  lemma PartialOrder(a: Scope, b: Scope, c: Scope)
    ensures Implies(a, a)
    ensures Implies(a, b) && Implies(b, a) ==> a == b
    ensures Implies(a, b) && Implies(b, c) ==> Implies(a, c)
  {
    Distinct();
  }

  /** Organization administration neither implies nor is implied by any other scope. */
  lemma OrgAdminStandsAlone(s: Scope)
    ensures Implies(s, ORG_ADMIN) || Implies(ORG_ADMIN, s) ==> s == ORG_ADMIN
  {
    Distinct();
  }

  /** translateToQuayScopes. */
  function Translate(p: Permission): seq<string> {
    match (p.area, p.kind)
    case (RegistryMetadata, Read) => [REPO_READ]
    case (RegistryMetadata, Write) => [REPO_WRITE]
    case (RegistryMetadata, ReadWrite) => [REPO_READ, REPO_WRITE]
    case (Registry, Read) => [PULL]
    case (Registry, Write) => [PUSH]
    case (Registry, ReadWrite) => [PULL, PUSH]
    case _ => []
  }

  /**
   The permission to write asks for at least what the permission to read does, with one exception:
   pushing to the registry does not imply pulling from it.
   */
  lemma WritingCoversReading(area: PermissionArea, write: PermissionType, s: Scope)
    requires write.IsWrite() && s in Translate(Permission(Read, area))
    ensures (exists s' :: s' in Translate(Permission(write, area)) && Implies(s', s))
            <==> !(area == Registry && write == Write)
  {
    Distinct();
    var scopes := Translate(Permission(write, area));
    if area == Registry && write == Write {
      assert scopes == [PUSH] && s == PULL;
    } else {
      assert s == scopes[0] || Implies(scopes[0], s);
      assert scopes[0] in scopes;
    }
  }

  /** A token with the scope alone has the permission. */
  predicate Grants(scope: Scope, p: Permission) {
    forall s :: s in Translate(p) ==> Implies(scope, s)
  }

  /** Which permissions each scope grants: reading, writing, only pulling and only pushing. */
  lemma WhatGrants(p: Permission)
    requires (p.area == Registry || p.area == RegistryMetadata) && (p.kind == Read || p.kind.IsWrite())
    ensures Grants("repo:read", p) <==> p.kind == Read
    ensures Grants("repo:write", p) && Grants("repo:admin", p)
    ensures Grants("pull", p) <==> p == Permission(Read, Registry)
    ensures Grants("push", p) <==> p == Permission(Write, Registry)
    ensures !Grants("repo:create", p) && !Grants("user:admin", p) && !Grants("user:read", p) && !Grants("org:admin", p)
  {
    Distinct();
    var scopes := Translate(p);
    assert scopes[0] in scopes && scopes[|scopes| - 1] in scopes;
  }

  const ALWAYS_REQUESTED: set<string> := {REPO_READ, REPO_WRITE, REPO_CREATE, REPO_ADMIN}

  /** quayOAuthCapability.OAuthScopesFor: the requested permissions are disregarded on purpose. */
  method OAuthScopesFor(perms: Permissions) returns (scopes: seq<string>)
    ensures forall s :: s in scopes <==> s in ALWAYS_REQUESTED || s in perms.additionalScopes
  {
    var requested := ALWAYS_REQUESTED;
    for i := 0 to |perms.additionalScopes|
      invariant forall s :: s in requested <==> s in ALWAYS_REQUESTED || s in perms.additionalScopes[..i]
    {
      requested := requested + {perms.additionalScopes[i]};
    }
    assert perms.additionalScopes[..|perms.additionalScopes|] == perms.additionalScopes;
    scopes := [];
    ghost var all := requested;
    while requested != {}
      invariant forall s :: s in all <==> s in scopes || s in requested
      decreases requested
    {
      var s :| s in requested;
      requested := requested - {s};
      scopes := scopes + [s];
    }
  }

  /** Every scope that a permission translates to is implied by one that is always requested. */
  lemma TranslationIsRequested(p: Permission, s: Scope)
    requires s in Translate(p)
    ensures Implies(REPO_ADMIN, s) && s != ORG_ADMIN
  {
    Distinct();
  }
}
