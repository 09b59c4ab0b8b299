// The shared state that the controllers act on: the objects in the API server, the token data
// outside of it, and what is synced for each binding. `World` is that state as a value; the class
// `ApiServer` holds it and changes it in place.
module Cluster {
  import opened Core
  import opened MetadataCache
  import Perms = Permissions

  // ----- SPIAccessToken -----

  datatype TokenPhase = NoTokenPhase | AwaitingTokenData | Ready | Invalid | Error

  datatype TokenReason =
    | NoTokenReason | UnknownServiceProvider | UnsupportedServiceProviderConfiguration
    | MetadataFailure | UnsupportedTokenPermissions

  datatype TokenStatus = TokenStatus(
    phase: TokenPhase, reason: TokenReason, oauthUrl: string, uploadUrl: string, metadata: Option<Metadata>)

  const NEW_TOKEN_STATUS := TokenStatus(NoTokenPhase, NoTokenReason, "", "", None)

  datatype TokenFinalizer = LinkedBindings | TokenStorage

  const TOKEN_FINALIZERS: set<TokenFinalizer> := {LinkedBindings, TokenStorage}

  /** Labels that are absent read as the empty string. */
  datatype Token = Token(
    deleting: bool, created: int, finalizers: set<TokenFinalizer>,
    providerLabel: string, hostLabel: string, refreshLabel: string,
    url: string, permissions: Perms.Permissions, status: TokenStatus)

  function NewToken(now: int, url: string, permissions: Perms.Permissions): Token {
    Token(false, now, {}, "", "", "", url, permissions, NEW_TOKEN_STATUS)
  }

  // ----- SPIAccessTokenBinding -----

  datatype BindingPhase = NoBindingPhase | AwaitingData | Injected | BindingError

  datatype BindingReason =
    | NoBindingReason | UnknownServiceProviderType | UnsupportedConfiguration | InvalidLifetime
    | TokenLookup | LinkedToken | UnsupportedPermissions | InconsistentSpec | ServiceAccountUpdate
    | TokenSync | SyncReason(raw: string)

  /** `synced` is the name in SyncedObjectRef, empty when there is none. */
  datatype BindingStatus = BindingStatus(
    phase: BindingPhase, reason: BindingReason, linked: string,
    oauthUrl: string, uploadUrl: string, synced: string, accounts: seq<string>)

  const NEW_BINDING_STATUS := BindingStatus(NoBindingPhase, NoBindingReason, "", "", "", "", [])

  /** LinkedSecrets is the deprecated name of LinkedObjects. */
  datatype BindingFinalizer = LinkedObjects | LinkedSecrets | Foreign(name: string)

  /** `link` is the label that names the linked token. */
  datatype Binding = Binding(
    deleting: bool, created: int, finalizers: set<BindingFinalizer>, link: string,
    repoUrl: string, permissions: Perms.Permissions, lifetime: string, status: BindingStatus)

  // ----- what the controllers are configured with and told by the outside -----

  /** `host` and `parseDuration` stand for url.Parse(...).Host and time.ParseDuration. */
  datatype Configuration = Configuration(
    tokenTtl: int, bindingTtl: int, grace: int, baseUrl: string,
    host: string -> Option<string>, parseDuration: string -> Option<int>)

  /** What Factory.FromRepoUrl comes up with. */
  datatype ProviderOutcome = Found(name: string, baseUrl: string) | InvalidConfiguration | Unknown

  /** What ServiceProvider.Validate says. */
  datatype Validation = Valid | InvalidScopes | ValidationFailed

  /** How a reconcile ends: done, returned an error, or asks to come back (RequeueAfter). */
  datatype Ending = Finished | Retry | NormalisedUrl | NormalisedAreas | RequeueAfter(delay: int)

  datatype Reconciled = Reconciled(world: World, ending: Ending)

  // ----- the world -----

  /** Token data, as the storage holds it. */
  datatype Data = Data(username: string, accessToken: string, refreshToken: string, expiry: nat)

  /** A secret with which a user uploads token data; `held` says that somebody put a finalizer on it. */
  datatype UploadSecret = UploadSecret(
    deleting: bool, held: bool, isToken: bool, tokenName: string, url: string, data: Data)

  /**
   `minted` is bookkeeping for the proofs and no part of the cluster: how many tokens were created
   for a binding and not rolled back.
   */
  datatype World = World(
    tokens: map<Key, Token>, bindings: map<Key, Binding>, storage: map<Key, Data>,
    dependents: map<Key, set<string>>, uploads: map<Key, UploadSecret>, events: set<Key>,
    minted: map<Key, nat>, now: int)

  const EMPTY_WORLD := World(map[], map[], map[], map[], map[], {}, map[], 0)

  /** The names of the objects that are synced for a binding. */
  function Dependents(w: World, k: Key): set<string> {
    if k in w.dependents then w.dependents[k] else {}
  }

  function Minted(w: World, k: Key): nat {
    if k in w.minted then w.minted[k] else 0
  }

  /** hasLinkedBindings: a binding in the token's namespace carries its name in the link label. */
  predicate HasLinkedBindings(w: World, token: Key) {
    exists k :: k in w.bindings && k.ns == token.ns && w.bindings[k].link == token.name
  }

  /** The server accepts no new finalizer on an object that is being deleted. */
  predicate AcceptsFinalizers(stored: Binding, sent: Binding) {
    stored.deleting ==> sent.finalizers <= stored.finalizers
  }

  // ----- what the API server does -----

  /** Update of a token: status is a subresource, so the stored one stays. */
  function UpdatedToken(w: World, k: Key, sent: Token): Token
    requires k in w.tokens
  {
    sent.(status := w.tokens[k].status)
  }

  /** An object being deleted is removed when its last finalizer goes. */
  function UpdateToken(w: World, k: Key, sent: Token): World
    requires k in w.tokens
  {
    if sent.deleting && sent.finalizers == {} then w.(tokens := w.tokens - {k})
    else w.(tokens := w.tokens[k := UpdatedToken(w, k, sent)])
  }

  /** Update of the status of a token: everything else stays as stored. */
  function UpdateTokenStatus(w: World, k: Key, status: TokenStatus): World
    requires k in w.tokens
  {
    w.(tokens := w.tokens[k := w.tokens[k].(status := status)])
  }

  function DeleteToken(w: World, k: Key): World
    requires k in w.tokens
  {
    if w.tokens[k].finalizers == {} then w.(tokens := w.tokens - {k})
    else w.(tokens := w.tokens[k := w.tokens[k].(deleting := true)])
  }

  function UpdatedBinding(w: World, k: Key, sent: Binding): Binding
    requires k in w.bindings
  {
    sent.(status := w.bindings[k].status)
  }

  function UpdateBinding(w: World, k: Key, sent: Binding): World
    requires k in w.bindings
  {
    if sent.deleting && sent.finalizers == {} then w.(bindings := w.bindings - {k})
    else w.(bindings := w.bindings[k := UpdatedBinding(w, k, sent)])
  }

  function UpdateBindingStatus(w: World, k: Key, status: BindingStatus): World
    requires k in w.bindings
  {
    w.(bindings := w.bindings[k := w.bindings[k].(status := status)])
  }

  function DeleteBinding(w: World, k: Key): World
    requires k in w.bindings
  {
    if w.bindings[k].finalizers == {} then w.(bindings := w.bindings - {k})
    else w.(bindings := w.bindings[k := w.bindings[k].(deleting := true)])
  }

  function SetDependents(w: World, k: Key, objects: set<string>): World {
    w.(dependents := w.dependents[k := objects])
  }

  /** The in-memory copy of a token that a reconcile works on and passes around by pointer. */
  class TokenObject {
    var it: Token

    constructor (t: Token)
      ensures it == t
    {
      it := t;
    }
  }

  class BindingObject {
    var it: Binding

    constructor (b: Binding)
      ensures it == b
    {
      it := b;
    }
  }

  /**
   The API server and the stores beside it. Every write takes the environment's verdict on whether
   it succeeds; a write that fails changes nothing.
   */
  class ApiServer {
    var tokens: map<Key, Token>
    var bindings: map<Key, Binding>
    var storage: map<Key, Data>
    var dependents: map<Key, set<string>>
    var uploads: map<Key, UploadSecret>
    var events: set<Key>
    ghost var minted: map<Key, nat>
    var now: int

    constructor ()
      ensures View() == EMPTY_WORLD
    {
      tokens, bindings, storage, dependents, uploads, events := map[], map[], map[], map[], map[], {};
      minted, now := map[], 0;
    }

    ghost function View(): World
      reads this
    {
      World(tokens, bindings, storage, dependents, uploads, events, minted, now)
    }

    method SendToken(k: Key, at: TokenObject, ok: bool) returns (done: bool)
      requires k in tokens
      modifies this, at
      ensures done == ok
      ensures View() == if ok then UpdateToken(old(View()), k, old(at.it)) else old(View())
      ensures at.it == if ok then UpdatedToken(old(View()), k, old(at.it)) else old(at.it)
    {
      if ok {
        at.it := at.it.(status := tokens[k].status);
        if at.it.deleting && at.it.finalizers == {} {
          tokens := tokens - {k};
        } else {
          tokens := tokens[k := at.it];
        }
      }
      done := ok;
    }

    method SendTokenStatus(k: Key, at: TokenObject, ok: bool) returns (done: bool)
      requires k in tokens
      modifies this, at
      ensures done == ok
      ensures View() == if ok then UpdateTokenStatus(old(View()), k, old(at.it).status) else old(View())
      ensures at.it == if ok then old(tokens[k]).(status := old(at.it).status) else old(at.it)
    {
      if ok {
        at.it := tokens[k].(status := at.it.status);
        tokens := tokens[k := at.it];
      }
      done := ok;
    }

    method RemoveToken(k: Key, ok: bool) returns (done: bool)
      requires k in tokens
      modifies this
      ensures done == ok
      ensures View() == if ok then DeleteToken(old(View()), k) else old(View())
    {
      if ok {
        if tokens[k].finalizers == {} {
          tokens := tokens - {k};
        } else {
          tokens := tokens[k := tokens[k].(deleting := true)];
        }
      }
      done := ok;
    }

    method SendBinding(k: Key, b: BindingObject, ok: bool) returns (done: bool)
      requires k in bindings
      modifies this, b
      ensures done == (ok && AcceptsFinalizers(old(bindings[k]), old(b.it)))
      ensures View() == if done then UpdateBinding(old(View()), k, old(b.it)) else old(View())
      ensures b.it == if done then UpdatedBinding(old(View()), k, old(b.it)) else old(b.it)
    {
      done := ok && (bindings[k].deleting ==> b.it.finalizers <= bindings[k].finalizers);
      if done {
        b.it := b.it.(status := bindings[k].status);
        if b.it.deleting && b.it.finalizers == {} {
          bindings := bindings - {k};
        } else {
          bindings := bindings[k := b.it];
        }
      }
    }

    method SendBindingStatus(k: Key, b: BindingObject, ok: bool) returns (done: bool)
      requires k in bindings
      modifies this, b
      ensures done == ok
      ensures View() == if ok then UpdateBindingStatus(old(View()), k, old(b.it).status) else old(View())
      ensures b.it == if ok then old(bindings[k]).(status := old(b.it).status) else old(b.it)
    {
      if ok {
        b.it := bindings[k].(status := b.it.status);
        bindings := bindings[k := b.it];
      }
      done := ok;
    }

    method RemoveBinding(k: Key, ok: bool) returns (done: bool)
      requires k in bindings
      modifies this
      ensures done == ok
      ensures View() == if ok then DeleteBinding(old(View()), k) else old(View())
    {
      if ok {
        if bindings[k].finalizers == {} {
          bindings := bindings - {k};
        } else {
          bindings := bindings[k := bindings[k].(deleting := true)];
        }
      }
      done := ok;
    }

    /** A label-selected list of bindings, limited to one, tells whether there is any. */
    method ListHasLinkedBindings(token: Key) returns (linked: bool)
      ensures linked == HasLinkedBindings(View(), token)
    {
      var rest := bindings.Keys;
      while rest != {}
        invariant rest <= bindings.Keys
        invariant forall k :: k in bindings.Keys - rest ==> !(k.ns == token.ns && bindings[k].link == token.name)
        decreases rest
      {
        var k :| k in rest;
        if k.ns == token.ns && bindings[k].link == token.name {
          return true;
        }
        rest := rest - {k};
      }
      linked := false;
    }
  }
}
