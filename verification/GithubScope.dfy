// GitHub OAuth scopes (pkg/serviceprovider/github/state.go): `Implies` over arbitrary strings.
module GithubScope {
  import opened Strings

  type Scope = string

  const REPO: Scope := "repo"
  const PUBLIC_REPO: Scope := "public_repo"
  const USER: Scope := "user"
  const READ_USER: Scope := "read:user"
  const USER_EMAIL: Scope := "user:email"
  const USER_FOLLOW: Scope := "user:follow"
  const ADMIN := "admin"
  const WRITE := "write"
  const READ := "read"

  /** Scope.Implies, branch by branch. */
  predicate Implies(s: Scope, other: Scope) {
    if s == other then true
    else if s == READ_USER then other == USER_EMAIL || other == USER_FOLLOW
    else if s == REPO then other == PUBLIC_REPO || HasPrefix(other, REPO)
    else if s == USER then other == READ_USER
    else
      var i := IndexOf(s, ":");
      if i < 0 then false
      else
        var j := IndexOf(other, ":");
        if j < 0 then false
        else if s[i + 1..] != other[j + 1..] then false
        else if s[..i] == ADMIN then true
        else if s[..i] == WRITE then other[..j] == READ
        else false
  }

  /** A scope cut at its first colon; scopes without a colon have no family. */
  datatype Shape = Bare | Scoped(prefix: string, suffix: string)

  function ShapeOf(s: Scope): Shape {
    var i := IndexOf(s, ":");
    if i < 0 then Bare else Scoped(s[..i], s[i + 1..])
  }

  /** The admin/write/read ladder within one family of scopes. */
  predicate Outranks(s: Shape, other: Shape) {
    && s.Scoped? && other.Scoped? && s.suffix == other.suffix
    && (s.prefix == ADMIN || (s.prefix == WRITE && other.prefix == READ))
  }

  /** The shape determines the scope. */
  lemma ShapeInjective(a: Scope, b: Scope)
    requires ShapeOf(a) == ShapeOf(b) && ShapeOf(a).Scoped?
    ensures a == b
  {
    var i, j := IndexOf(a, ":"), IndexOf(b, ":");
    assert a[i..i + 1] == ":" && b[j..j + 1] == ":";
    assert a == a[..i] + a[i..i + 1] + a[i + 1..];
    assert b == b[..j] + b[j..j + 1] + b[j + 1..];
  }

  /** The shape of prefix:suffix, for a prefix without a colon. */
  lemma ShapeOfScoped(prefix: string, suffix: string)
    requires ':' !in prefix
    ensures ShapeOf(prefix + ":" + suffix) == Scoped(prefix, suffix)
  {
    var s := prefix + ":" + suffix;
    OccurrencesOf(s, ':');
    assert s[|prefix|] == ':' && OccursAt(s, ":", |prefix|);
    forall i | 0 <= i < |prefix| ensures !OccursAt(s, ":", i) {
      assert s[i] == prefix[i] && prefix[i] in prefix;
    }
    assert IndexOf(s, ":") == |prefix|;
  }

  lemma ShapeOfBare(s: string)
    requires ':' !in s
    ensures ShapeOf(s) == Bare
  {
    OccurrencesOf(s, ':');
    forall i | 0 <= i < |s| ensures !OccursAt(s, ":", i) {
      assert s[i] in s;
    }
  }

  /** The scopes the code names, cut at their colon. */
  lemma NamedShapes(s: Scope)
    ensures s == REPO || s == PUBLIC_REPO || s == USER ==> ShapeOf(s) == Bare
    ensures s == READ_USER ==> ShapeOf(s) == Scoped(READ, USER)
    ensures s == USER_EMAIL || s == USER_FOLLOW ==> ShapeOf(s).Scoped? && ShapeOf(s).prefix == USER
  {
    if s == REPO || s == PUBLIC_REPO || s == USER {
      ShapeOfBare(s);
    } else if s == READ_USER {
      NamedShape(READ, USER, s);
    } else if s == USER_EMAIL {
      NamedShape(USER, "email", s);
    } else if s == USER_FOLLOW {
      NamedShape(USER, "follow", s);
    }
  }

  lemma NamedShape(prefix: string, suffix: string, s: Scope)
    requires ':' !in prefix
    requires s == prefix + ":" + suffix
    ensures ShapeOf(s) == Scoped(prefix, suffix)
  {
    ShapeOfScoped(prefix, suffix);
  }

  /** No scope that starts with "repo" is on the admin or the write rung. */
  lemma RepoPrefixHasNoRank(s: Scope)
    requires HasPrefix(s, REPO)
    ensures ShapeOf(s).Scoped? ==> ShapeOf(s).prefix != ADMIN && ShapeOf(s).prefix != WRITE
  {
    var i := IndexOf(s, ":");
    if i > 0 {
      assert s[..i][0] == s[0] == REPO[0];
    }
  }

  /**
   `Implies` without string surgery: three named rules, and otherwise the ladder. This is the
   reading of the GitHub documentation that the code's comments give.
   */
  predicate ImpliesByRules(s: Scope, other: Scope) {
    || s == other
    || (s == READ_USER && (other == USER_EMAIL || other == USER_FOLLOW))
    || (s == REPO && (other == PUBLIC_REPO || HasPrefix(other, REPO)))
    || (s == USER && other == READ_USER)
    || Outranks(ShapeOf(s), ShapeOf(other))
  }

  lemma ImpliesMeaning(s: Scope, other: Scope)
    ensures Implies(s, other) <==> ImpliesByRules(s, other)
  {
    NamedShapes(s);
  }

  lemma WriteImpliesRead(suffix: string, write: Scope, read: Scope)
    requires write == WRITE + ":" + suffix && read == READ + ":" + suffix
    ensures Implies(write, read)
  {
    ShapeOfScoped(WRITE, suffix);
    ShapeOfScoped(READ, suffix);
    ImpliesMeaning(write, read);
  }

  lemma Reflexive(s: Scope)
    ensures Implies(s, s)
  {
  }

  /** Where each rule leads: "repo" and "read:user" lead to scopes that imply only themselves. */
  lemma DeadEnds(b: Scope, c: Scope)
    requires Implies(b, c)
    requires b == PUBLIC_REPO || b == USER_EMAIL || b == USER_FOLLOW || (HasPrefix(b, REPO) && b != REPO)
    ensures b == c
  {
    NamedShapes(b);
    ImpliesMeaning(b, c);
    RepoPrefixIsNotUser(b);
    if HasPrefix(b, REPO) {
      RepoPrefixHasNoRank(b);
    }
  }

  lemma RepoPrefixIsNotUser(b: Scope)
    ensures HasPrefix(b, REPO) ==> b != READ_USER && b != USER && b != USER_EMAIL && b != USER_FOLLOW
  {
    assert HasPrefix(b, REPO) ==> b[0] == REPO[0] && b[2] == REPO[2];
    assert REPO[0] == 'r' && REPO[2] == 'p' && READ_USER[2] == 'a';
    assert USER[0] == USER_EMAIL[0] == USER_FOLLOW[0] == 'u';
  }

  lemma Antisymmetric(a: Scope, b: Scope)
    requires Implies(a, b) && Implies(b, a)
    ensures a == b
  {
    NamedShapes(a);
    NamedShapes(b);
    ImpliesMeaning(a, b);
    ImpliesMeaning(b, a);
    if Outranks(ShapeOf(a), ShapeOf(b)) && Outranks(ShapeOf(b), ShapeOf(a)) {
      ShapeInjective(a, b);
    } else if a == REPO || a == READ_USER {
      if a != b {
        DeadEnds(b, a);
      }
    } else if b == REPO || b == READ_USER {
      DeadEnds(a, b);
    }
  }

  /** The scopes that outrank read:user. */
  predicate AboveReadUser(a: Scope) {
    a == USER || ShapeOf(a) == Scoped(ADMIN, USER) || ShapeOf(a) == Scoped(WRITE, USER)
  }

  /** Those are "user", "admin:user" and "write:user". */
  lemma AboveReadUserByName(a: Scope)
    ensures AboveReadUser(a) <==> a == USER || a == "admin:user" || a == "write:user"
  {
    ShapeOfScoped(ADMIN, USER);
    ShapeOfScoped(WRITE, USER);
    var admin, write := ADMIN + ":" + USER, WRITE + ":" + USER;
    assert admin == "admin:user" && write == "write:user";
    if ShapeOf(a) == Scoped(ADMIN, USER) {
      ShapeInjective(a, admin);
    } else if ShapeOf(a) == Scoped(WRITE, USER) {
      ShapeInjective(a, write);
    }
  }

  predicate TransitivityException(a: Scope, b: Scope, c: Scope) {
    && b == READ_USER
    && (a == USER || a == "admin:user" || a == "write:user")
    && (c == USER_EMAIL || c == USER_FOLLOW)
  }

  /** Only the scopes above it imply read:user besides itself, and they imply none of its followers. */
  lemma AroundReadUser(a: Scope, b: Scope, c: Scope)
    requires Implies(a, b) && b == READ_USER && a != b
    requires c == USER_EMAIL || c == USER_FOLLOW
    ensures AboveReadUser(a) && !Implies(a, c)
  {
    NamedShapes(a);
    NamedShapes(b);
    NamedShapes(c);
    ImpliesMeaning(a, b);
    ImpliesMeaning(a, c);
    RepoPrefixIsNotUser(b);
    RepoPrefixIsNotUser(c);
  }

  /**
   Main result: over all strings, `Implies` composes except in exactly one family, where the
   middle scope is read:user, which the left one outranks and which implies more than it does.
   */
  lemma TransitiveExactly(a: Scope, b: Scope, c: Scope)
    requires Implies(a, b) && Implies(b, c)
    ensures Implies(a, c) <==> !TransitivityException(a, b, c)
  {
    AboveReadUserByName(a);
    if a != b && b != c {
      ImpliesMeaning(a, b);
      ImpliesMeaning(b, c);
      ImpliesMeaning(a, c);
      NamedShapes(a);
      NamedShapes(b);
      NamedShapes(c);
      if b == READ_USER && (c == USER_EMAIL || c == USER_FOLLOW) {
        AroundReadUser(a, b, c);
      } else if a == REPO || a == READ_USER {
        DeadEnds(b, c);
      }
    }
  }

  /** The exception at work: user implies read:user, which implies user:email, which user does not. */
  lemma UserEmailIsNotPassedOn()
    ensures Implies(USER, READ_USER) && Implies(READ_USER, USER_EMAIL) && !Implies(USER, USER_EMAIL)
  {
    var a, b, c := USER, READ_USER, USER_EMAIL;
    NamedShapes(b);
    TransitiveExactly(a, b, c);
  }
}
