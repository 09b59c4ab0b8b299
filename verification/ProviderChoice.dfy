// Which secret, which shared entry and which OAuth data the configuration of a provider comes
// from, told by what is listed and not by how it is searched.
module ProviderChoice {
  import opened Core
  import opened ProviderConfig

  // ----- secrets -----

  predicate NoneOf(secrets: seq<Secret>, p: Secret -> bool) {
    forall i :: 0 <= i < |secrets| ==> !p(secrets[i])
  }

  /** There is one place where p holds, and s is there. */
  predicate OnlyOne(secrets: seq<Secret>, p: Secret -> bool, s: Secret) {
    exists i :: 0 <= i < |secrets| && OnlyAt(secrets, p, i) && secrets[i] == s
  }

  predicate OnlyAt(secrets: seq<Secret>, p: Secret -> bool, i: nat)
    requires i < |secrets|
  {
    p(secrets[i]) && forall j :: 0 <= j < |secrets| && j != i ==> !p(secrets[j])
  }

  predicate Several(secrets: seq<Secret>, p: Secret -> bool) {
    exists i, j :: 0 <= i < j < |secrets| && p(secrets[i]) && p(secrets[j])
  }

  lemma OnlyLater(secrets: seq<Secret>, p: Secret -> bool, s: Secret)
    requires secrets != [] && !p(secrets[0]) && OnlyOne(secrets[1..], p, s)
    ensures OnlyOne(secrets, p, s)
  {
    var i :| 0 <= i < |secrets[1..]| && OnlyAt(secrets[1..], p, i) && secrets[1..][i] == s;
    forall j | 0 <= j < |secrets| && j != i + 1 ensures !p(secrets[j]) {
      assert j > 0 ==> secrets[j] == secrets[1..][j - 1];
    }
    assert OnlyAt(secrets, p, i + 1);
  }

  lemma SeveralLater(secrets: seq<Secret>, p: Secret -> bool)
    requires secrets != [] && Several(secrets[1..], p)
    ensures Several(secrets, p)
  {
    var i, j :| 0 <= i < j < |secrets[1..]| && p(secrets[1..][i]) && p(secrets[1..][j]);
    assert p(secrets[i + 1]) && p(secrets[j + 1]);
  }

  /** Filtering tells how often p holds, and where when it is once. */
  lemma {:induction false} FilterTells(secrets: seq<Secret>, p: Secret -> bool)
    ensures |Filter(secrets, p)| == 0 ==> NoneOf(secrets, p)
    ensures |Filter(secrets, p)| == 1 ==> OnlyOne(secrets, p, Filter(secrets, p)[0])
    ensures |Filter(secrets, p)| >= 2 ==> Several(secrets, p)
  {
    if secrets != [] {
      FilterTells(secrets[1..], p);
      var rest := Filter(secrets[1..], p);
      if !p(secrets[0]) {
        assert Filter(secrets, p) == rest;
        if |rest| == 1 {
          OnlyLater(secrets, p, rest[0]);
        }
      } else if |rest| == 0 {
        assert OnlyAt(secrets, p, 0);
      } else {
        FirstAndLater(secrets, p);
      }
      if Several(secrets[1..], p) {
        SeveralLater(secrets, p);
      }
    }
  }

  lemma FirstAndLater(secrets: seq<Secret>, p: Secret -> bool)
    requires secrets != [] && p(secrets[0]) && |Filter(secrets[1..], p)| > 0
    ensures Several(secrets, p)
  {
    FilterHolds(secrets[1..], p);
    var j :| 0 <= j < |secrets[1..]| && p(secrets[1..][j]);
    assert p(secrets[0]) && p(secrets[j + 1]);
  }

  lemma {:induction false} FilterHolds(secrets: seq<Secret>, p: Secret -> bool)
    requires |Filter(secrets, p)| > 0
    ensures exists j :: 0 <= j < |secrets| && p(secrets[j])
  {
    if !p(secrets[0]) {
      FilterHolds(secrets[1..], p);
      var j :| 0 <= j < |secrets[1..]| && p(secrets[1..][j]);
      assert p(secrets[j + 1]);
    }
  }

  /** The three do not go together. */
  lemma CountsExclude(secrets: seq<Secret>, p: Secret -> bool)
    ensures NoneOf(secrets, p) ==> !Several(secrets, p) && forall s :: !OnlyOne(secrets, p, s)
    ensures forall s, s' :: OnlyOne(secrets, p, s) && OnlyOne(secrets, p, s') ==> s == s'
    ensures forall s :: OnlyOne(secrets, p, s) ==> !Several(secrets, p)
  {
    forall s | OnlyOne(secrets, p, s) ensures !Several(secrets, p) && !NoneOf(secrets, p) {
      var i :| 0 <= i < |secrets| && OnlyAt(secrets, p, i) && secrets[i] == s;
    }
    forall s, s' | OnlyOne(secrets, p, s) && OnlyOne(secrets, p, s') ensures s == s' {
      var i :| 0 <= i < |secrets| && OnlyAt(secrets, p, i) && secrets[i] == s;
      var j :| 0 <= j < |secrets| && OnlyAt(secrets, p, j) && secrets[j] == s';
    }
  }

  /** The one secret for the host, or the one without a host for the default one when no secret is for the host. */
  predicate IsTheSecret(secrets: seq<Secret>, spType: ProviderType, host: string, s: Secret) {
    || OnlyOne(secrets, x => ForHost(spType, host, x), s)
    || (NoneOf(secrets, x => ForHost(spType, host, x)) && OnlyOne(secrets, x => ForDefaultHost(spType, host, x), s))
  }

  predicate HasNoSecret(secrets: seq<Secret>, spType: ProviderType, host: string) {
    NoneOf(secrets, x => ForHost(spType, host, x)) && NoneOf(secrets, x => ForDefaultHost(spType, host, x))
  }

  /** Of the kind that applies there are several. */
  predicate HasSeveralSecrets(secrets: seq<Secret>, spType: ProviderType, host: string) {
    || Several(secrets, x => ForHost(spType, host, x))
    || (NoneOf(secrets, x => ForHost(spType, host, x)) && Several(secrets, x => ForDefaultHost(spType, host, x)))
  }

  /**
   Main result: a secret is found exactly when it is the only one for the host, or none is for the
   host and it is the only one without a host for the provider's default host; several of the kind
   that applies are an error; otherwise there is none.
   */
  lemma FindSecretChooses(secrets: seq<Secret>, spType: ProviderType, host: string)
    ensures var found := FindSecret(Listed(secrets), spType, host);
            && (forall s :: found == Ok(Some(s)) <==> IsTheSecret(secrets, spType, host, s))
            && (found == Err(MultipleSecrets) <==> HasSeveralSecrets(secrets, spType, host))
            && (found == Ok(None) <==> HasNoSecret(secrets, spType, host))
  {
    FilterTells(secrets, x => ForHost(spType, host, x));
    FilterTells(secrets, x => ForDefaultHost(spType, host, x));
    CountsExclude(secrets, x => ForHost(spType, host, x));
    CountsExclude(secrets, x => ForDefaultHost(spType, host, x));
  }

  // ----- OAuth data -----

  /** What the two client fields and the two optional endpoint fields of a secret stand for. */
  predicate StandsFor(s: Secret, spType: ProviderType, data: OAuthData) {
    && "clientId" in s.data && data.clientId == s.data["clientId"]
    && "clientSecret" in s.data && data.clientSecret == s.data["clientSecret"]
    && Overrides(s, "authUrl", spType.defaultEndpoint.authUrl, data.endpoint.authUrl)
    && Overrides(s, "tokenUrl", spType.defaultEndpoint.tokenUrl, data.endpoint.tokenUrl)
  }

  predicate Overrides(s: Secret, key: string, default: string, value: string) {
    if key in s.data && s.data[key] != "" then value == s.data[key] else value == default
  }

  lemma SecretStandsFor(s: Secret, spType: ProviderType, data: OAuthData)
    ensures OAuthFromSecret(s, spType) == Some(data) <==> StandsFor(s, spType, data)
  {
  }

  // ----- shared entries -----

  predicate IsShared(entry: Configuration, spType: ProviderType, baseUrl: string) {
    entry.spType.name == spType.name && entry.baseUrl == baseUrl
  }

  /** The first entry of the type at the base URL. */
  predicate IsFirstShared(global: seq<Configuration>, spType: ProviderType, baseUrl: string, i: int) {
    && 0 <= i < |global| && IsShared(global[i], spType, baseUrl)
    && forall j :: 0 <= j < i ==> !IsShared(global[j], spType, baseUrl)
  }

  predicate HasNoShared(global: seq<Configuration>, spType: ProviderType, baseUrl: string) {
    forall j :: 0 <= j < |global| ==> !IsShared(global[j], spType, baseUrl)
  }

  lemma {:induction false} FirstSharedIsTaken(
    global: seq<Configuration>, spType: ProviderType, baseUrl: string, i: int)
    requires IsFirstShared(global, spType, baseUrl, i)
    ensures FromGlobal(global, spType, baseUrl) == Some(global[i])
  {
    if i > 0 {
      assert !IsShared(global[0], spType, baseUrl);
      assert forall j :: 0 <= j < i - 1 ==> global[1..][j] == global[j + 1];
      FirstSharedIsTaken(global[1..], spType, baseUrl, i - 1);
    }
  }

  lemma {:induction false} DefaultWithoutShared(global: seq<Configuration>, spType: ProviderType, baseUrl: string)
    requires HasNoShared(global, spType, baseUrl)
    ensures FromGlobal(global, spType, baseUrl)
            == if baseUrl == spType.defaultBaseUrl then Some(Configuration(spType, baseUrl, None)) else None
  {
    if global != [] {
      assert !IsShared(global[0], spType, baseUrl);
      assert forall j :: 0 <= j < |global[1..]| ==> global[1..][j] == global[j + 1];
      DefaultWithoutShared(global[1..], spType, baseUrl);
    }
  }

  lemma {:induction false} FirstSharedOrNone(global: seq<Configuration>, spType: ProviderType, baseUrl: string)
    ensures HasNoShared(global, spType, baseUrl) || exists i :: IsFirstShared(global, spType, baseUrl, i)
  {
    if i :| 0 <= i < |global| && IsShared(global[i], spType, baseUrl) {
      EarlierShared(global, spType, baseUrl, i);
    }
  }

  lemma {:induction false} EarlierShared(global: seq<Configuration>, spType: ProviderType, baseUrl: string, i: nat)
    requires i < |global| && IsShared(global[i], spType, baseUrl)
    ensures exists j :: IsFirstShared(global, spType, baseUrl, j)
  {
    if j: nat :| j < i && IsShared(global[j], spType, baseUrl) {
      EarlierShared(global, spType, baseUrl, j);
    } else {
      assert IsFirstShared(global, spType, baseUrl, i);
    }
  }

  // ----- what the OAuth service finds -----

  /** OAuth data from the user's secret, or without one from the first shared entry that is there. */
  ghost predicate IsConfigured(
    listing: Listing, global: seq<Configuration>, spType: ProviderType, url: Url, data: OAuthData)
  {
    && !listing.Failed?
    && var secrets := if listing.Listed? then listing.secrets else [];
       || (exists s :: IsTheSecret(secrets, spType, url.host, s) && StandsFor(s, spType, data))
       || (HasNoSecret(secrets, spType, url.host)
           && exists i :: IsFirstShared(global, spType, BaseUrl(url), i) && global[i].oauth == Some(data))
  }

  lemma FromSecretOrNone(listing: Listing, spType: ProviderType, url: Url)
    requires !listing.Failed?
    ensures var secrets := if listing.Listed? then listing.secrets else [];
            var user := FromUserSecret(listing, spType, url);
            && (forall s :: IsTheSecret(secrets, spType, url.host, s) ==>
                  user == Ok(Some(Configuration(spType, BaseUrl(url), OAuthFromSecret(s, spType)))))
            && (HasNoSecret(secrets, spType, url.host) <==> user == Ok(None))
            && (user.Ok? && user.value.Some? ==>
                  exists s :: IsTheSecret(secrets, spType, url.host, s)
                              && user.value.value.oauth == OAuthFromSecret(s, spType))
  {
    var secrets := if listing.Listed? then listing.secrets else [];
    FindSecretChooses(secrets, spType, url.host);
    if !listing.Listed? {
      assert HasNoSecret(secrets, spType, url.host);
      assert forall s :: !IsTheSecret(secrets, spType, url.host, s);
    } else {
      var found := FindSecret(listing, spType, url.host);
      if found.Ok? && found.value.Some? {
        assert IsTheSecret(secrets, spType, url.host, found.value.value);
      }
    }
  }

  /**
   Main result: the OAuth service finds OAuth data for a provider exactly when they are configured: in
   the user's secret for it, or, when the user has none, in the first shared entry for it.
   */
  lemma ServiceFindsWhatIsConfigured(
    listing: Listing, global: seq<Configuration>, spType: ProviderType, spUrl: string, parse: string -> Option<Url>,
    data: OAuthData)
    ensures Obtain(listing, global, spType, spUrl, parse) == Ok(data)
            <==> parse(spUrl).Some? && IsConfigured(listing, global, spType, parse(spUrl).value, data)
  {
    if parse(spUrl).Some? && !listing.Failed? {
      var url := parse(spUrl).value;
      FromSecretOrNone(listing, spType, url);
      FirstSharedOrNone(global, spType, BaseUrl(url));
      if i :| IsFirstShared(global, spType, BaseUrl(url), i) {
        FirstSharedIsTaken(global, spType, BaseUrl(url), i);
      } else {
        DefaultWithoutShared(global, spType, BaseUrl(url));
      }
      forall s ensures OAuthFromSecret(s, spType) == Some(data) <==> StandsFor(s, spType, data) {
        SecretStandsFor(s, spType, data);
      }
    }
  }

  // ----- what the operator picks -----

  predicate NotConfigured(secrets: seq<Secret>, global: seq<Configuration>, spType: ProviderType, url: Url) {
    && HasNoSecret(secrets, spType, url.host) && HasNoShared(global, spType, BaseUrl(url))
    && BaseUrl(url) != spType.defaultBaseUrl
  }

  /** From the user's secret, else from the first shared entry, else as the default of the type. */
  ghost predicate ConfiguredAs(
    secrets: seq<Secret>, global: seq<Configuration>, spType: ProviderType, url: Url, config: Configuration)
  {
    var base := BaseUrl(url);
    || (exists s :: IsTheSecret(secrets, spType, url.host, s)
                    && config == Configuration(spType, base, OAuthFromSecret(s, spType)))
    || (HasNoSecret(secrets, spType, url.host)
        && if HasNoShared(global, spType, base) then
             base == spType.defaultBaseUrl && config == Configuration(spType, base, None)
           else exists i :: IsFirstShared(global, spType, base, i) && config == global[i])
  }

  lemma ConfigurationOfType(
    secrets: seq<Secret>, global: seq<Configuration>, spType: ProviderType, url: Url, config: Configuration)
    requires ConfiguredAs(secrets, global, spType, url, config)
    ensures var user := FromUserSecret(Listed(secrets), spType, url);
            && user.Ok?
            && Some(config) == if user.value.Some? then user.value else FromGlobal(global, spType, BaseUrl(url))
  {
    FromSecretOrNone(Listed(secrets), spType, url);
    if HasNoSecret(secrets, spType, url.host) {
      if HasNoShared(global, spType, BaseUrl(url)) {
        DefaultWithoutShared(global, spType, BaseUrl(url));
      } else if i :| IsFirstShared(global, spType, BaseUrl(url), i) && config == global[i] {
        FirstSharedIsTaken(global, spType, BaseUrl(url), i);
      }
    }
  }

  /**
   Main result: the operator picks the first supported type that is configured for the URL, with that
   configuration, if it is accepted; and host credentials when no type is configured.
   */
  lemma {:induction false} FirstConfiguredTypeIsPicked(
    secrets: seq<Secret>, global: seq<Configuration>, url: Url, accept: Configuration -> bool,
    types: seq<ProviderType>, i: nat, config: Configuration)
    requires i <= |types| && forall j :: 0 <= j < i ==> NotConfigured(secrets, global, types[j], url)
    requires i < |types| ==> ConfiguredAs(secrets, global, types[i], url, config)
    requires i == |types| ==> config == Configuration(HOST_CREDENTIALS, BaseUrl(url), None)
    ensures FromRepoUrl(Listed(secrets), global, url, accept, types)
            == if !accept(config) then Err(Rejected)
               else Ok(Provider(if i < |types| then types[i] else HOST_CREDENTIALS, config))
  {
    if i > 0 {
      assert NotConfigured(secrets, global, types[0], url);
      FromSecretOrNone(Listed(secrets), types[0], url);
      DefaultWithoutShared(global, types[0], BaseUrl(url));
      assert forall j :: 0 <= j < |types| - 1 ==> types[1..][j] == types[j + 1];
      FirstConfiguredTypeIsPicked(secrets, global, url, accept, types[1..], i - 1, config);
    } else if types != [] {
      ConfigurationOfType(secrets, global, types[0], url, config);
    }
  }
}
