// The choice of a provider configuration, made once by the operator (FromRepoUrl) and once by
// the OAuth service (obtainOauthConfig), each from the user's secrets and the shared
// configuration. Listing secrets gives no particular order.
module ProviderConfig {
  import opened Core

  datatype Endpoint = Endpoint(authUrl: string, tokenUrl: string)

  datatype ProviderType = ProviderType(
    name: string, defaultEndpoint: Endpoint, defaultHost: string, defaultBaseUrl: string)

  const GITHUB := ProviderType("GitHub",
    Endpoint("https://github.com/login/oauth/authorize", "https://github.com/login/oauth/access_token"),
    "github.com", "https://github.com")
  const GITLAB := ProviderType("GitLab",
    Endpoint("https://gitlab.com/oauth/authorize", "https://gitlab.com/oauth/token"),
    "gitlab.com", "https://gitlab.com")
  const QUAY := ProviderType("Quay",
    Endpoint("https://quay.io/oauth/authorize", "https://quay.io/oauth/access_token"),
    "quay.io", "https://quay.io")
  const HOST_CREDENTIALS := ProviderType("HostCredentials", Endpoint("", ""), "", "")

  const SUPPORTED: seq<ProviderType> := [GITHUB, GITLAB, QUAY]

  /** A parsed URL, as far as the code looks at it. */
  datatype Url = Url(scheme: string, host: string, path: string)

  /** GetBaseUrl. */
  function BaseUrl(url: Url): string {
    if url.scheme == "" || url.host == "" then "" else url.scheme + "://" + url.host
  }

  /** What an oauth2.Config says about the provider; the redirect URL belongs to the service. */
  datatype OAuthData = OAuthData(clientId: string, clientSecret: string, endpoint: Endpoint)

  datatype Configuration = Configuration(spType: ProviderType, baseUrl: string, oauth: Option<OAuthData>)

  datatype Secret = Secret(spType: string, host: Option<string>, data: map<string, string>)

  /** The answer to listing the secrets of a namespace. */
  datatype Listing = Listed(secrets: seq<Secret>) | Forbidden | Unauthorized | Failed

  datatype Failure = ListError | MultipleSecrets | Rejected | NoOAuth | NoConfiguration | BadUrl

  const CLIENT_ID := "clientId"
  const CLIENT_SECRET := "clientSecret"
  const AUTH_URL := "authUrl"
  const TOKEN_URL := "tokenUrl"

  // ----- pkg/spi-shared/config/userconfig.go -----

  predicate ForHost(spType: ProviderType, host: string, s: Secret) {
    s.spType == spType.name && s.host == Some(host)
  }

  predicate ForDefaultHost(spType: ProviderType, host: string, s: Secret) {
    s.spType == spType.name && s.host == None && host == spType.defaultHost
  }

  function Filter(secrets: seq<Secret>, p: Secret -> bool): seq<Secret> {
    if secrets == [] then []
    else (if p(secrets[0]) then [secrets[0]] else []) + Filter(secrets[1..], p)
  }

  /** Exactly one labelled secret wins; with none, exactly one unlabelled secret wins. */
  function FindSecret(listing: Listing, spType: ProviderType, host: string): Result<Option<Secret>, Failure> {
    match listing
    case Forbidden | Unauthorized => Ok(None)
    case Failed => Err(ListError)
    case Listed(secrets) =>
      var withHost := Filter(secrets, s => ForHost(spType, host, s));
      var withoutHost := Filter(secrets, s => ForDefaultHost(spType, host, s));
      if |withHost| == 1 then Ok(Some(withHost[0]))
      else if |withHost| > 1 then Err(MultipleSecrets)
      else if |withoutHost| == 1 then Ok(Some(withoutHost[0]))
      else if |withoutHost| > 1 then Err(MultipleSecrets)
      else Ok(None)
  }

  lemma FilterAppend(a: seq<Secret>, s: Secret, p: Secret -> bool)
    ensures Filter(a + [s], p) == Filter(a, p) + (if p(s) then [s] else [])
  {
    if a != [] {
      assert (a + [s])[1..] == a[1..] + [s];
    }
  }

  /** findUserServiceProviderConfigSecret: one pass over the listed secrets, two candidate lists. */
  method FindUserServiceProviderConfigSecret(listing: Listing, spType: ProviderType, host: string)
    returns (found: Result<Option<Secret>, Failure>)
    ensures found == FindSecret(listing, spType, host)
  {
    match listing
    case Forbidden | Unauthorized => return Ok(None);
    case Failed => return Err(ListError);
    case Listed(secrets) =>
      var withHost: seq<Secret> := [];
      var withoutHost: seq<Secret> := [];
      for i := 0 to |secrets|
        invariant withHost == Filter(secrets[..i], s => ForHost(spType, host, s))
        invariant withoutHost == Filter(secrets[..i], s => ForDefaultHost(spType, host, s))
      {
        var secret := secrets[i];
        assert secrets[..i + 1] == secrets[..i] + [secret];
        FilterAppend(secrets[..i], secret, s => ForHost(spType, host, s));
        FilterAppend(secrets[..i], secret, s => ForDefaultHost(spType, host, s));
        if secret.spType == spType.name {
          if secret.host.Some? {
            if secret.host.value == host {
              withHost := withHost + [secret];
            }
          } else if host == spType.defaultHost {
            withoutHost := withoutHost + [secret];
          }
        }
      }
      assert secrets[..|secrets|] == secrets;
      if |withHost| == 1 {
        return Ok(Some(withHost[0]));
      } else if |withHost| > 1 {
        return Err(MultipleSecrets);
      }
      if |withoutHost| == 1 {
        return Ok(Some(withoutHost[0]));
      } else if |withoutHost| > 1 {
        return Err(MultipleSecrets);
      }
      return Ok(None);
  }

  lemma {:induction false} FilterAsMultiset(secrets: seq<Secret>, p: Secret -> bool, s: Secret)
    ensures multiset(Filter(secrets, p))[s] == if p(s) then multiset(secrets)[s] else 0
  {
    if secrets != [] {
      FilterAsMultiset(secrets[1..], p, s);
      assert secrets == [secrets[0]] + secrets[1..];
    }
  }

  lemma FilterKeepsMultiset(a: seq<Secret>, b: seq<Secret>, p: Secret -> bool)
    requires multiset(a) == multiset(b)
    ensures multiset(Filter(a, p)) == multiset(Filter(b, p))
  {
    forall s ensures multiset(Filter(a, p))[s] == multiset(Filter(b, p))[s] {
      FilterAsMultiset(a, p, s);
      FilterAsMultiset(b, p, s);
    }
  }

  lemma SameMultisetSameSingle(fa: seq<Secret>, fb: seq<Secret>)
    requires multiset(fa) == multiset(fb)
    ensures |fa| == |fb| && (|fa| == 1 ==> fa[0] == fb[0])
  {
    assert |multiset(fa)| == |fa| && |multiset(fb)| == |fb|;
    if |fa| == 1 {
      assert fa[0] in multiset(fb);
    }
  }

  lemma FilterIgnoresOrder(a: seq<Secret>, b: seq<Secret>, p: Secret -> bool)
    requires multiset(a) == multiset(b)
    ensures |Filter(a, p)| == |Filter(b, p)|
    ensures |Filter(a, p)| == 1 ==> Filter(a, p)[0] == Filter(b, p)[0]
  {
    FilterKeepsMultiset(a, b, p);
    SameMultisetSameSingle(Filter(a, p), Filter(b, p));
  }

  predicate SameSecrets(a: Listing, b: Listing) {
    a == b || (a.Listed? && b.Listed? && multiset(a.secrets) == multiset(b.secrets))
  }

  /** The order in which the API lists the secrets never matters. */
  lemma FindSecretIgnoresOrder(a: Listing, b: Listing, spType: ProviderType, host: string)
    requires SameSecrets(a, b)
    ensures FindSecret(a, spType, host) == FindSecret(b, spType, host)
  {
    if a.Listed? && b.Listed? {
      FilterIgnoresOrder(a.secrets, b.secrets, s => ForHost(spType, host, s));
      FilterIgnoresOrder(a.secrets, b.secrets, s => ForDefaultHost(spType, host, s));
    }
  }

  function Override(data: map<string, string>, key: string, default: string): string {
    if key in data && data[key] != "" then data[key] else default
  }

  /** OAuth data needs both client fields; the endpoint may be overridden. */
  function OAuthFromSecret(secret: Secret, spType: ProviderType): Option<OAuthData> {
    if CLIENT_ID in secret.data && CLIENT_SECRET in secret.data then
      Some(OAuthData(secret.data[CLIENT_ID], secret.data[CLIENT_SECRET],
                     Endpoint(Override(secret.data, AUTH_URL, spType.defaultEndpoint.authUrl),
                              Override(secret.data, TOKEN_URL, spType.defaultEndpoint.tokenUrl))))
    else None
  }

  /** oauth2.Config: handed around by pointer, so an assignment is seen by every holder. */
  class OAuthConfig {
    var clientId: string
    var clientSecret: string
    var endpoint: Endpoint
    var redirectUrl: string

    constructor (endpoint: Endpoint)
      ensures this.endpoint == endpoint && clientId == clientSecret == redirectUrl == ""
    {
      this.endpoint := endpoint;
      clientId, clientSecret, redirectUrl := "", "", "";
    }

    function Data(): OAuthData
      reads this`clientId, this`clientSecret, this`endpoint
    {
      OAuthData(clientId, clientSecret, endpoint)
    }
  }

  /** initializeOAuthConfigFromSecret: fills the config field by field, giving up half-way. */
  method InitializeOAuthConfigFromSecret(secret: Secret, spType: ProviderType) returns (cfg: OAuthConfig?)
    ensures cfg == null <==> OAuthFromSecret(secret, spType).None?
    ensures cfg != null ==> fresh(cfg) && Some(cfg.Data()) == OAuthFromSecret(secret, spType)
  {
    var oauth := new OAuthConfig(spType.defaultEndpoint);
    if CLIENT_ID in secret.data {
      oauth.clientId := secret.data[CLIENT_ID];
    } else {
      return null;
    }
    if CLIENT_SECRET in secret.data {
      oauth.clientSecret := secret.data[CLIENT_SECRET];
    } else {
      return null;
    }
    if AUTH_URL in secret.data && |secret.data[AUTH_URL]| > 0 {
      oauth.endpoint := oauth.endpoint.(authUrl := secret.data[AUTH_URL]);
    }
    if TOKEN_URL in secret.data && |secret.data[TOKEN_URL]| > 0 {
      oauth.endpoint := oauth.endpoint.(tokenUrl := secret.data[TOKEN_URL]);
    }
    return oauth;
  }

  // ----- pkg/spi-shared/config/serviceprovider.go -----

  function FromUserSecret(listing: Listing, spType: ProviderType, url: Url): Result<Option<Configuration>, Failure> {
    match FindSecret(listing, spType, url.host)
    case Err(e) => Err(e)
    case Ok(None) => Ok(None)
    case Ok(Some(s)) => Ok(Some(Configuration(spType, BaseUrl(url), OAuthFromSecret(s, spType))))
  }

  /** The first configured provider of the type at that base URL, else the type's default. */
  function FromGlobal(configured: seq<Configuration>, spType: ProviderType, baseUrl: string): Option<Configuration> {
    if configured == [] then
      if spType.defaultBaseUrl == baseUrl then Some(Configuration(spType, spType.defaultBaseUrl, None)) else None
    else if configured[0].spType.name == spType.name && configured[0].baseUrl == baseUrl then Some(configured[0])
    else FromGlobal(configured[1..], spType, baseUrl)
  }

  lemma FromGlobalHasBaseUrl(configured: seq<Configuration>, spType: ProviderType, baseUrl: string)
    ensures var c := FromGlobal(configured, spType, baseUrl); c.Some? ==> c.value.baseUrl == baseUrl
  {
  }

  // ----- pkg/serviceprovider/serviceprovider.go -----

  /** A constructed provider: its type and the configuration it was built from. */
  datatype Provider = Provider(spType: ProviderType, config: Configuration) {
    /** ServiceProvider.GetBaseUrl: Quay ignores the configured one. */
    function GetBaseUrl(): string {
      if spType == QUAY then QUAY.defaultBaseUrl else config.baseUrl
    }
  }

  /** The probes of the providers: GitLab's always fails, which counts as no match. */
  function Probe(spType: ProviderType, baseUrl: string): string {
    if spType != GITLAB && baseUrl == spType.defaultBaseUrl then baseUrl else ""
  }

  /** initializeServiceProvider; `accept` stands for struct validation and construction. */
  function Initialize(
    spType: ProviderType, config: Option<Configuration>, baseUrl: string, accept: Configuration -> bool)
    : Result<Option<Provider>, Failure>
  {
    match config
    case Some(c) => if accept(c) then Ok(Some(Provider(spType, c))) else Err(Rejected)
    case None =>
      var probed := Probe(spType, baseUrl);
      if probed == "" then Ok(None)
      else
        var c := Configuration(spType, probed, None);
        if accept(c) then Ok(Some(Provider(spType, c))) else Err(Rejected)
  }

  /** Factory.FromRepoUrl for a parsed URL: the first supported type that yields a provider. */
  function FromRepoUrl(
    listing: Listing, global: seq<Configuration>, url: Url, accept: Configuration -> bool, types: seq<ProviderType>)
    : Result<Provider, Failure>
  {
    if types == [] then
      var c := Configuration(HOST_CREDENTIALS, BaseUrl(url), None);
      if accept(c) then Ok(Provider(HOST_CREDENTIALS, c)) else Err(Rejected)
    else
      match FromUserSecret(listing, types[0], url)
      case Err(e) => Err(e)
      case Ok(user) =>
        var config := if user.Some? then user else FromGlobal(global, types[0], BaseUrl(url));
        match Initialize(types[0], config, BaseUrl(url), accept)
        case Err(e) => Err(e)
        case Ok(Some(p)) => Ok(p)
        case Ok(None) => FromRepoUrl(listing, global, url, accept, types[1..])
  }

  // ----- oauth/oauth_config.go -----

  /** What obtainOauthConfig finds for a provider type and its base URL. */
  function Obtain(
    listing: Listing, global: seq<Configuration>, spType: ProviderType, spUrl: string, parse: string -> Option<Url>)
    : Result<OAuthData, Failure>
  {
    match parse(spUrl)
    case None => Err(BadUrl)
    case Some(url) =>
      match FromUserSecret(listing, spType, url)
      case Err(e) => Err(e)
      case Ok(user) =>
        match if user.Some? then user else FromGlobal(global, spType, BaseUrl(url))
        case None => Err(NoConfiguration)
        case Some(c) => if c.oauth.Some? then Ok(c.oauth.value) else Err(NoOAuth)
  }

  /** Reparsing the base URL of a URL finds its scheme and host again. */
  predicate Reparses(parse: string -> Option<Url>, url: Url) {
    match parse(BaseUrl(url))
    case None => false
    case Some(u) => u.scheme == url.scheme && u.host == url.host
  }

  /** Where FromRepoUrl takes the OAuth data of the provider it picks from. */
  lemma {:induction false} WhereOAuthComesFrom(
    listing: Listing, global: seq<Configuration>, url: Url, accept: Configuration -> bool, types: seq<ProviderType>)
    requires FromRepoUrl(listing, global, url, accept, types).Ok?
    ensures var p := FromRepoUrl(listing, global, url, accept, types).value;
            p.config.oauth.Some? ==>
              && FromUserSecret(listing, p.spType, url).Ok?
              && var user := FromUserSecret(listing, p.spType, url).value;
              && Some(p.config) == (if user.Some? then user else FromGlobal(global, p.spType, BaseUrl(url)))
              && p.config.baseUrl == BaseUrl(url)
  {
    if types != [] {
      var user := FromUserSecret(listing, types[0], url).value;
      var config := if user.Some? then user else FromGlobal(global, types[0], BaseUrl(url));
      FromGlobalHasBaseUrl(global, types[0], BaseUrl(url));
      if Initialize(types[0], config, BaseUrl(url), accept) == Ok(None) {
        WhereOAuthComesFrom(listing, global, url, accept, types[1..]);
      }
    }
  }

  /** The base URL under which the OAuth service looks the provider up is the one it was found under. */
  predicate KeepsBaseUrl(p: Provider, url: Url) {
    p.GetBaseUrl() == BaseUrl(url)
  }

  /**
   Main result: when the operator picked a configuration with OAuth data, the OAuth service,
   given only the provider's type and base URL, finds the same client and endpoint: for every
   set of secrets, listed in whatever orders, and every shared configuration.
   */
  lemma OperatorAndServiceAgree(
    listing: Listing, listing': Listing, global: seq<Configuration>, url: Url,
    accept: Configuration -> bool, parse: string -> Option<Url>, types: seq<ProviderType>)
    requires url.scheme != "" && url.host != "" && Reparses(parse, url)
    requires SameSecrets(listing, listing')
    requires FromRepoUrl(listing, global, url, accept, types).Ok?
    ensures var p := FromRepoUrl(listing, global, url, accept, types).value;
            && (p.config.oauth.Some? && p.spType != QUAY ==> KeepsBaseUrl(p, url))
            && (p.config.oauth.Some? && KeepsBaseUrl(p, url) ==>
                  Obtain(listing', global, p.spType, p.GetBaseUrl(), parse) == Ok(p.config.oauth.value))
  {
    WhereOAuthComesFrom(listing, global, url, accept, types);
    var p := FromRepoUrl(listing, global, url, accept, types).value;
    FindSecretIgnoresOrder(listing, listing', p.spType, url.host);
  }

  lemma FindSingleSecret(secret: Secret, spType: ProviderType, host: string)
    requires secret.host.Some?
    ensures FindSecret(Listed([secret]), spType, host)
            == Ok(if ForHost(spType, host, secret) then Some(secret) else None)
  {
    var secrets := [secret];
    assert secrets[1..] == [];
    assert Filter(secrets, s => ForHost(spType, host, s)) == if ForHost(spType, host, secret) then secrets else [];
    assert Filter(secrets, s => ForDefaultHost(spType, host, s)) == [];
  }

  /** A type without a secret for the host, at another base URL, is passed over ... */
  lemma {:induction false} PassedOver(secret: Secret, url: Url, types: seq<ProviderType>)
    requires types != [] && secret.host.Some?
    requires secret.spType != types[0].name && BaseUrl(url) != types[0].defaultBaseUrl
    ensures FromRepoUrl(Listed([secret]), [], url, _ => true, types)
            == FromRepoUrl(Listed([secret]), [], url, _ => true, types[1..])
  {
    FindSingleSecret(secret, types[0], url.host);
  }

  /** ... and a type with one is picked. */
  lemma {:induction false} Picked(secret: Secret, url: Url, types: seq<ProviderType>)
    requires types != [] && ForHost(types[0], url.host, secret)
    ensures FromRepoUrl(Listed([secret]), [], url, _ => true, types)
            == Ok(Provider(types[0], Configuration(types[0], BaseUrl(url), OAuthFromSecret(secret, types[0]))))
  {
    FindSingleSecret(secret, types[0], url.host);
  }

  /** The OAuth service finds no OAuth data for a type whose only secret is for another host. */
  lemma {:induction false} SecretMissed(secret: Secret, url: Url, spType: ProviderType, parse: string -> Option<Url>)
    requires secret.host.Some? && secret.host != Some(url.host)
    requires Reparses(parse, url) && BaseUrl(url) == spType.defaultBaseUrl
    ensures Obtain(Listed([secret]), [], spType, spType.defaultBaseUrl, parse) == Err(NoOAuth)
  {
    FindSingleSecret(secret, spType, url.host);
  }

  /** For every other host, a secret for that host is enough for the two to disagree. */
  lemma QuayOnOtherHostsDisagrees(url: Url, parse: string -> Option<Url>) returns (secret: Secret)
    requires url.host != QUAY.defaultHost
    requires BaseUrl(url) != GITHUB.defaultBaseUrl && BaseUrl(url) != GITLAB.defaultBaseUrl
    requires Reparses(parse, QuayUrl())
    ensures var chosen := FromRepoUrl(Listed([secret]), [], url, _ => true, SUPPORTED);
            && chosen.Ok? && chosen.value.spType == QUAY && chosen.value.config.oauth.Some?
            && Obtain(Listed([secret]), [], chosen.value.spType, chosen.value.GetBaseUrl(), parse) == Err(NoOAuth)
  {
    secret := SecretTellsApart(url, parse, SUPPORTED);
  }

  lemma {:induction false} SecretTellsApart(url: Url, parse: string -> Option<Url>, types: seq<ProviderType>)
    returns (secret: Secret)
    requires types == SUPPORTED
    requires url.host != QUAY.defaultHost
    requires BaseUrl(url) != GITHUB.defaultBaseUrl && BaseUrl(url) != GITLAB.defaultBaseUrl
    requires Reparses(parse, QuayUrl())
    ensures var chosen := FromRepoUrl(Listed([secret]), [], url, _ => true, types);
            && chosen.Ok? && chosen.value.spType == QUAY && chosen.value.config.oauth.Some?
            && Obtain(Listed([secret]), [], chosen.value.spType, chosen.value.GetBaseUrl(), parse) == Err(NoOAuth)
  {
    secret := Secret(types[2].name, Some(url.host), map[CLIENT_ID := "id", CLIENT_SECRET := "secret"]);
    SupportedTypes(types);
    PassedOver(secret, url, types);
    PassedOver(secret, url, types[1..]);
    Picked(secret, url, types[1..][1..]);
    assert OAuthFromSecret(secret, types[2]).Some?;
    SecretMissed(secret, QuayUrl(), types[2], parse);
  }

  function QuayUrl(): (url: Url)
    ensures BaseUrl(url) == QUAY.defaultBaseUrl && url.host == QUAY.defaultHost
  {
    Url("https", QUAY.defaultHost, "")
  }

  lemma SupportedTypes(types: seq<ProviderType>)
    requires types == SUPPORTED
    ensures |types| == 3 && types[1..][0] == types[1] && types[1..][1..][0] == types[2]
    ensures types[2].name != types[0].name && types[2].name != types[1].name && types[2] == QUAY
    ensures types[0].defaultBaseUrl == GITHUB.defaultBaseUrl && types[1].defaultBaseUrl == GITLAB.defaultBaseUrl
  {
    assert |types[0].name| == |types[1].name| == 6 && |types[2].name| == 4;
  }

  // ----- exactly when the two agree -----

  /** Operator and service agree on one input: OAuth data that the operator picked is what the service finds. */
  predicate AgreesOn(
    listing: Listing, listing': Listing, global: seq<Configuration>, url: Url,
    accept: Configuration -> bool, parse: string -> Option<Url>, types: seq<ProviderType>)
  {
    var chosen := FromRepoUrl(listing, global, url, accept, types);
    chosen.Ok? && chosen.value.config.oauth.Some? ==>
      Obtain(listing', global, chosen.value.spType, chosen.value.GetBaseUrl(), parse)
      == Ok(chosen.value.config.oauth.value)
  }

  /** They agree on a URL whatever the secrets, their order, the shared configuration and the validation. */
  ghost predicate Agrees(url: Url, parse: string -> Option<Url>, types: seq<ProviderType>) {
    forall listing, listing', global, accept: Configuration -> bool | SameSecrets(listing, listing') ::
      AgreesOn(listing, listing', global, url, accept, parse, types)
  }

  lemma {:induction false} DefaultIsFound(configured: seq<Configuration>, spType: ProviderType)
    ensures FromGlobal(configured, spType, spType.defaultBaseUrl).Some?
  {
    if configured != [] {
      DefaultIsFound(configured[1..], spType);
    }
  }

  /** At the default base URL of a type, no later type is picked. */
  lemma {:induction false} DefaultTypeIsPicked(
    listing: Listing, global: seq<Configuration>, url: Url, accept: Configuration -> bool,
    types: seq<ProviderType>, i: nat)
    requires i < |types| && BaseUrl(url) == types[i].defaultBaseUrl
    requires FromRepoUrl(listing, global, url, accept, types).Ok?
    ensures FromRepoUrl(listing, global, url, accept, types).value.spType in types[..i + 1]
  {
    DefaultIsFound(global, types[0]);
    var user := FromUserSecret(listing, types[0], url).value;
    var config := if user.Some? then user else FromGlobal(global, types[0], BaseUrl(url));
    if Initialize(types[0], config, BaseUrl(url), accept) == Ok(None) {
      DefaultTypeIsPicked(listing, global, url, accept, types[1..], i - 1);
      assert types[1..][..i] == types[1..i + 1];
    } else {
      assert types[0] in types[..i + 1];
    }
  }

  /** What a shared Quay entry leads to, away from the three default base URLs: the operator picks it ... */
  lemma {:induction false} SharedEntryIsPicked(url: Url, oauth: OAuthData, types: seq<ProviderType>)
    requires types == SUPPORTED
    requires forall i :: 0 <= i < |types| ==> BaseUrl(url) != types[i].defaultBaseUrl
    ensures var entry := Configuration(types[2], BaseUrl(url), Some(oauth));
            FromRepoUrl(Listed([]), [entry], url, _ => true, types) == Ok(Provider(types[2], entry))
  {
    SupportedTypes(types);
    var entry := Configuration(types[2], BaseUrl(url), Some(oauth));
    SkippedByShared(entry, url, types);
    SkippedByShared(entry, url, types[1..]);
    NothingInNoSecrets(types[2], url);
  }

  lemma NothingInNoSecrets(spType: ProviderType, url: Url)
    ensures FromUserSecret(Listed([]), spType, url) == Ok(None)
  {
  }

  lemma SharedEntryAlone(entry: Configuration, spType: ProviderType, baseUrl: string)
    ensures FromGlobal([entry], spType, baseUrl)
            == if entry.spType.name == spType.name && entry.baseUrl == baseUrl then Some(entry)
               else if spType.defaultBaseUrl == baseUrl then Some(Configuration(spType, spType.defaultBaseUrl, None))
               else None
  {
    var configured := [entry];
    assert configured[1..] == [];
  }

  lemma {:induction false} SkippedByShared(entry: Configuration, url: Url, types: seq<ProviderType>)
    requires types != [] && entry.spType.name != types[0].name && BaseUrl(url) != types[0].defaultBaseUrl
    ensures FromRepoUrl(Listed([]), [entry], url, _ => true, types)
            == FromRepoUrl(Listed([]), [entry], url, _ => true, types[1..])
  {
    NothingInNoSecrets(types[0], url);
    SharedEntryAlone(entry, types[0], BaseUrl(url));
  }

  /** ... and the service, which looks under quay.io, does not find it. */
  lemma {:induction false} SharedEntryIsMissed(entry: Configuration, quay: Url, parse: string -> Option<Url>)
    requires Reparses(parse, quay) && BaseUrl(quay) == entry.spType.defaultBaseUrl
    requires entry.baseUrl != entry.spType.defaultBaseUrl
    ensures Obtain(Listed([]), [entry], entry.spType, BaseUrl(quay), parse) == Err(NoOAuth)
  {
    NothingInNoSecrets(entry.spType, parse(BaseUrl(quay)).value);
    SharedEntryAlone(entry, entry.spType, BaseUrl(quay));
  }

  lemma DisagreesElsewhere(url: Url, parse: string -> Option<Url>, types: seq<ProviderType>)
    requires types == SUPPORTED && Reparses(parse, QuayUrl())
    requires forall i :: 0 <= i < |types| ==> BaseUrl(url) != types[i].defaultBaseUrl
    ensures !Agrees(url, parse, types)
  {
    var oauth := OAuthData("id", "secret", types[2].defaultEndpoint);
    var entry := Configuration(types[2], BaseUrl(url), Some(oauth));
    SupportedTypes(types);
    SharedEntryIsPicked(url, oauth, types);
    SharedEntryIsMissed(entry, QuayUrl(), parse);
    assert SameSecrets(Listed([]), Listed([]));
    assert !AgreesOn(Listed([]), Listed([]), [entry], url, _ => true, parse, types);
  }

  lemma AgreesAtDefault(url: Url, parse: string -> Option<Url>, types: seq<ProviderType>, i: nat)
    requires types == SUPPORTED && i < |types| && BaseUrl(url) == types[i].defaultBaseUrl
    requires url.scheme != "" && url.host != "" && Reparses(parse, url)
    ensures Agrees(url, parse, types)
  {
    SupportedTypes(types);
    forall listing, listing', global, accept: Configuration -> bool | SameSecrets(listing, listing')
      ensures AgreesOn(listing, listing', global, url, accept, parse, types)
    {
      if FromRepoUrl(listing, global, url, accept, types).Ok? {
        DefaultTypeIsPicked(listing, global, url, accept, types, i);
        OperatorAndServiceAgree(listing, listing', global, url, accept, parse, types);
      }
    }
  }

  /**
   Main result: operator and OAuth service agree on a URL, for all secrets in all orders, all shared
   configurations and all validations, if and only if its scheme and host make the default base URL
   of GitHub, GitLab or Quay. (At the first two, Quay is never picked.)
   */
  lemma AgreeExactlyAtDefaults(url: Url, parse: string -> Option<Url>)
    requires url.scheme != "" && url.host != "" && Reparses(parse, url) && Reparses(parse, QuayUrl())
    ensures Agrees(url, parse, SUPPORTED)
            <==> BaseUrl(url) == GITHUB.defaultBaseUrl || BaseUrl(url) == GITLAB.defaultBaseUrl
                 || BaseUrl(url) == QUAY.defaultBaseUrl
  {
    AgreeExactly(url, parse, SUPPORTED);
  }

  lemma AgreeExactly(url: Url, parse: string -> Option<Url>, types: seq<ProviderType>)
    requires types == SUPPORTED
    requires url.scheme != "" && url.host != "" && Reparses(parse, url) && Reparses(parse, QuayUrl())
    ensures Agrees(url, parse, types) <==> exists i :: 0 <= i < |types| && BaseUrl(url) == types[i].defaultBaseUrl
    ensures |types| == 3 && types[0] == GITHUB && types[1] == GITLAB && types[2] == QUAY
  {
    SupportedTypes(types);
    if i :| 0 <= i < |types| && BaseUrl(url) == types[i].defaultBaseUrl {
      AgreesAtDefault(url, parse, types, i);
    } else {
      DisagreesElsewhere(url, parse, types);
    }
  }

  /** A concrete input: Quay without TLS, in a shared entry. */
  lemma InsecureQuayDisagrees(parse: string -> Option<Url>)
    requires Reparses(parse, Url("http", "quay.io", "/org/repo")) && Reparses(parse, QuayUrl())
    ensures !Agrees(Url("http", "quay.io", "/org/repo"), parse, SUPPORTED)
  {
    var url := Url("http", "quay.io", "/org/repo");
    assert BaseUrl(url)[4] == ':';
    assert GITHUB.defaultBaseUrl[4] == GITLAB.defaultBaseUrl[4] == QUAY.defaultBaseUrl[4] == 's';
    AgreeExactlyAtDefaults(url, parse);
  }

  /** The OAuth service: its shared configuration holds pointers to OAuth configs. */
  class OAuthService {
    const redirectUrl: string
    const spType: ProviderType
    const configured: seq<(ProviderType, string, OAuthConfig?)>

    constructor (redirectUrl: string, spType: ProviderType, configured: seq<(ProviderType, string, OAuthConfig?)>)
      ensures this.redirectUrl == redirectUrl && this.spType == spType && this.configured == configured
    {
      this.redirectUrl, this.spType, this.configured := redirectUrl, spType, configured;
    }

    function Shared(): set<object> {
      set i | 0 <= i < |configured| && configured[i].2 != null :: configured[i].2 as object
    }

    /** The shared configuration as values. */
    function Global(): (g: seq<Configuration>)
      reads Shared()
      ensures |g| == |configured|
    {
      seq(|configured|, i requires 0 <= i < |configured| reads Shared() =>
        Configuration(configured[i].0, configured[i].1,
                      if configured[i].2 == null then None
                      else assert configured[i].2 as object in Shared(); Some(configured[i].2.Data())))
    }

    method ObtainOauthConfig(listing: Listing, spUrl: string, parse: string -> Option<Url>)
      returns (cfg: OAuthConfig?, outcome: Result<OAuthData, Failure>)
      modifies Shared()
      ensures outcome == Obtain(listing, old(Global()), spType, spUrl, parse)
      ensures outcome.Ok? ==> cfg != null && cfg.Data() == outcome.value && cfg.redirectUrl == redirectUrl
      ensures Global() == old(Global())
    {
      cfg := null;
      var url := parse(spUrl);
      if url.None? {
        return null, Err(BadUrl);
      }
      var secret := FindUserServiceProviderConfigSecret(listing, spType, url.value.host);
      match secret
      case Err(e) => return null, Err(e);
      case Ok(Some(s)) =>
        cfg := InitializeOAuthConfigFromSecret(s, spType);
        if cfg == null {
          return null, Err(NoOAuth);
        }
        cfg.redirectUrl := redirectUrl;
        return cfg, Ok(cfg.Data());
      case Ok(None) =>
        var base := BaseUrl(url.value);
        var i := 0;
        assert Global()[0..] == Global();
        while i < |configured|
          invariant 0 <= i <= |configured|
          invariant Global() == old(Global())
          invariant FromGlobal(Global(), spType, base) == FromGlobal(Global()[i..], spType, base)
        {
          assert Global()[i..][0] == Global()[i];
          assert Global()[i..][1..] == Global()[i + 1..];
          if configured[i].0.name == spType.name && configured[i].1 == base {
            if configured[i].2 == null {
              return null, Err(NoOAuth);
            }
            cfg := configured[i].2;
            assert cfg as object in Shared();
            cfg.redirectUrl := redirectUrl;
            return cfg, Ok(cfg.Data());
          }
          i := i + 1;
        }
        if spType.defaultBaseUrl == base {
          return null, Err(NoOAuth);
        }
        return null, Err(NoConfiguration);
    }
  }
}
