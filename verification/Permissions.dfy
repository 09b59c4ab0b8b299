// Permissions as the API types express them (api/v1beta1/spiaccesstoken_types.go). Types and
// areas are strings in the API; every string other than the named ones is `Other`.
module Permissions {
  datatype PermissionType = Read | Write | ReadWrite | OtherType(raw: string) {
    predicate IsWrite() {
      Write? || ReadWrite?
    }
  }

  datatype PermissionArea =
    | Repository | RepositoryMetadata | Webhooks | User | Registry | RegistryMetadata
    | OtherArea(raw: string)

  datatype Permission = Permission(kind: PermissionType, area: PermissionArea)

  datatype Permissions = Permissions(required: seq<Permission>, additionalScopes: seq<string>)

  /** The scopes that `perms` stands for, given a provider's translation of one permission. */
  function ScopeSet(convert: Permission -> seq<string>, perms: Permissions): set<string> {
    (set s | s in perms.additionalScopes) + (set p, s | p in perms.required && s in convert(p) :: s)
  }

  /** An enumeration of a set of scopes, in any order. */
  ghost predicate Enumerates(all: seq<string>, scopes: set<string>) {
    && (forall s :: s in all <==> s in scopes)
    && (forall i, j :: 0 <= i < j < |all| ==> all[i] != all[j])
  }

  /** GetAllScopes: collects the scopes into a set and returns its elements in an arbitrary order. */
  method GetAllScopes(convert: Permission -> seq<string>, perms: Permissions) returns (all: seq<string>)
    ensures Enumerates(all, ScopeSet(convert, perms))
  {
    var scopes: set<string> := {};
    for i := 0 to |perms.additionalScopes|
      invariant scopes == set s | s in perms.additionalScopes[..i]
    {
      scopes := scopes + {perms.additionalScopes[i]};
    }
    for i := 0 to |perms.required|
      invariant scopes == ScopeSet(convert, perms.(required := perms.required[..i]))
    {
      var converted := convert(perms.required[i]);
      ghost var before := scopes;
      for j := 0 to |converted|
        invariant scopes == before + set s | s in converted[..j]
      {
        scopes := scopes + {converted[j]};
      }
      assert converted[..|converted|] == converted;
      assert perms.required[..i + 1] == perms.required[..i] + [perms.required[i]];
    }
    assert perms.required[..|perms.required|] == perms.required;
    all := [];
    var rest := scopes;
    while rest != {}
      invariant forall s :: s in scopes <==> s in all || s in rest
      invariant forall s :: s in all ==> s !in rest
      invariant forall i, j :: 0 <= i < j < |all| ==> all[i] != all[j]
      decreases rest
    {
      var s :| s in rest;
      rest := rest - {s};
      all := all + [s];
    }
  }
}
