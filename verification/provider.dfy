/**
 * The provider's `Configure`: it settles the endpoint, the API key and the
 * account ID from the configuration or the environment, checks them, and
 * builds the client. Modelled as written (a URL that does not parse is
 * dereferenced and panics) and corrected (it stops with the error).
 */
module Provider {
  import opened Wrappers
  import opened Text
  import opened Framework
  import Client

  /** The provider block; the IDs are UUID-typed and known values are
      canonical UUID text. */
  datatype ProviderConfig = ProviderConfig(endpoint: Value<string>, apiKey: Value<string>,
                                           accountId: Value<string>, workspaceId: Value<string>)

  /** The parts of a parsed URL the provider reads. */
  datatype ParsedUrl = ParsedUrl(scheme: string, host: string)

  /** `url.Parse`, the library parser: `None` for an error. */
  type UrlParser = string -> Option<ParsedUrl>

  /** `helpers.IsCloudEndpoint` applied to a host; not part of this model. */
  type HostCheck = string -> bool

  /** `uuid.Parse` with both of its results: the UUID it returns, which after
      an error is whatever the library decoded so far, and whether the text
      parsed. The library is not part of this model. */
  type UuidDecoder = string -> (string, bool)

  const EnvApiUrl := "PREFECT_API_URL"
  const EnvApiKey := "PREFECT_API_KEY"
  const EnvAccountId := "PREFECT_CLOUD_ACCOUNT_ID"
  const CloudEndpoint := "https://api.prefect.cloud"
  const ApiSuffix := "/api"

  const UnknownEndpoint := "Unknown Prefect API Endpoint"
  const UnknownApiKey := "Unknown Prefect API Key"
  const UnknownAccountId := "Unknown Prefect Account ID"
  const UnknownWorkspaceId := "Unknown Prefect Workspace ID"
  const InvalidEndpoint := "Invalid Prefect API Endpoint"
  const InvalidEnvAccountId := "Invalid Prefect Account ID defined in PREFECT_CLOUD_ACCOUNT_ID "
  const MissingApiKey := "Missing Prefect API Key"
  const MissingAccountId := "Missing Prefect Account ID"
  const ClientFailed := "Unable to create Prefect API Client"

  /** A setting from the configuration when it is not null, else from the
      environment variable when it is set, else empty. */
  function ConfigOrEnv(v: Value<string>, env: map<string, string>, key: string): (r: string)
    ensures !v.Null? ==> r == StringOf(v)
    ensures v.Null? && key in env ==> r == env[key]
    ensures v.Null? && key !in env ==> r == ""
  {
    if !v.Null? then StringOf(v) else if key in env then env[key] else ""
  }

  /** The endpoint with `/api` appended unless already there. */
  function WithApiSuffix(endpoint: string): (r: string)
    ensures HasSuffix(r, ApiSuffix)
    ensures HasSuffix(endpoint, ApiSuffix) ==> r == endpoint
    ensures !HasSuffix(endpoint, ApiSuffix) ==> r == endpoint + ApiSuffix
  {
    if HasSuffix(endpoint, ApiSuffix) then endpoint else endpoint + ApiSuffix
  }

  /** The endpoint `Configure` settles on. */
  function ResolvedEndpoint(config: ProviderConfig, env: map<string, string>): string
  {
    var e := ConfigOrEnv(config.endpoint, env, EnvApiUrl);
    WithApiSuffix(if e == "" then CloudEndpoint else e)
  }

  /** The endpoint always ends in `/api`, never in `/`, and settling it again
      changes nothing; with neither the setting nor the variable it is the
      Cloud API. */
  lemma ResolvedEndpointProperties(config: ProviderConfig, env: map<string, string>)
    ensures var e := ResolvedEndpoint(config, env);
      HasSuffix(e, ApiSuffix) && !HasSuffix(e, "/") && WithApiSuffix(e) == e
    ensures config.endpoint.Null? && EnvApiUrl !in env ==> ResolvedEndpoint(config, env) == CloudEndpoint + ApiSuffix
    ensures config.endpoint.Known? && config.endpoint.value != "" && !HasSuffix(config.endpoint.value, ApiSuffix) ==>
      ResolvedEndpoint(config, env) == config.endpoint.value + ApiSuffix
  {
    var e := ResolvedEndpoint(config, env);
    assert e[|e| - 1] == 'i';
  }

  /** The account ID: the configured UUID, else whatever parsing the
      variable returns, with a warning when the parse failed; the nil UUID
      when neither is set. */
  function ResolvedAccount(config: ProviderConfig, env: map<string, string>, parseUuid: UuidDecoder): (r: (string, bool))
    ensures !config.accountId.Null? ==> r == (StringOf(config.accountId), false)
    ensures config.accountId.Null? && EnvAccountId in env ==> r.0 == parseUuid(env[EnvAccountId]).0
    ensures config.accountId.Null? && EnvAccountId !in env ==> r == (NilUuid, false)
    ensures r.1 <==> config.accountId.Null? && EnvAccountId in env && !parseUuid(env[EnvAccountId]).1
  {
    if !config.accountId.Null? then (StringOf(config.accountId), false)
    else if EnvAccountId in env then
      var (id, ok) := parseUuid(env[EnvAccountId]);
      (id, !ok)
    else (NilUuid, false)
  }

  /** `ValueUUID()` of an ID attribute: the nil UUID when null. */
  function UuidOf(v: Value<string>): string
  {
    if v.Known? then v.value else NilUuid
  }

  /** The errors for configuration values that are not known yet. */
  function UnknownErrors(config: ProviderConfig): seq<string>
  {
    (if config.endpoint.Unknown? then [UnknownEndpoint] else []) +
    (if config.apiKey.Unknown? then [UnknownApiKey] else []) +
    (if config.accountId.Unknown? then [UnknownAccountId] else []) +
    (if config.workspaceId.Unknown? then [UnknownWorkspaceId] else [])
  }

  /** The options `Configure` hands to `client.New`. */
  function ClientOptions(endpoint: string, host: string, apiKey: string, accountId: string, workspaceId: string): seq<Client.ClientOption>
  {
    [Client.WithEndpoint(endpoint, host), Client.WithApiKey(apiKey), Client.WithDefaults(accountId, workspaceId)]
  }

  /** What `Configure` leaves behind. */
  datatype ConfigureResult = ConfigureResult(errors: seq<string>, warnings: seq<string>, panicked: bool, client: Option<Client.Settings>)

  /** `url.Parse` as the client's endpoint option sees it. */
  function Parses(parseUrl: UrlParser): Client.UrlCheck
  {
    (s: string) => parseUrl(s).Some?
  }

  /** What `client.New` gives for the three options: the client's fields,
      or `None` when an option failed. */
  function NewClient(opts: seq<Client.ClientOption>, parses: Client.UrlCheck): Option<Client.Settings>
  {
    if |Client.ErrorsOf(opts, parses)| > 0 then None else Some(Client.AppliedAll(Client.Initial, opts, parses))
  }

  /** Three options fail exactly when one of them fails. */
  lemma ErrorsOfThree(a: Client.ClientOption, b: Client.ClientOption, c: Client.ClientOption, parses: Client.UrlCheck)
    ensures |Client.ErrorsOf([a, b, c], parses)| == 0 <==>
      Client.OptionErrorOf(a, parses).None? && Client.OptionErrorOf(b, parses).None? && Client.OptionErrorOf(c, parses).None?
  {
    var e := (o: Client.ClientOption) => var r := Client.OptionErrorOf(o, parses); if r.Some? then [r.value] else [];
    assert [a, b, c][..2] == [a, b];
    assert [a, b][..1] == [a];
    assert [a][..0] == [];
    assert Client.ErrorsOf([a], parses) == e(a);
    assert Client.ErrorsOf([a, b], parses) == e(a) + e(b);
    assert Client.ErrorsOf([a, b, c], parses) == e(a) + e(b) + e(c);
  }

  /** Three options apply one after the other. */
  lemma AppliedAllThree(s: Client.Settings, a: Client.ClientOption, b: Client.ClientOption, c: Client.ClientOption,
                        parses: Client.UrlCheck)
    ensures Client.AppliedAll(s, [a, b, c], parses) ==
      Client.Applied(Client.Applied(Client.Applied(s, a, parses), b, parses), c, parses)
  {
    var s1 := Client.Applied(s, a, parses);
    var s2 := Client.Applied(s1, b, parses);
    assert [a, b, c][1..] == [b, c];
    assert [b, c][1..] == [c];
    assert [c][1..] == [];
    assert Client.AppliedAll(s2, [c], parses) == Client.Applied(s2, c, parses);
    assert Client.AppliedAll(s1, [b, c], parses) == Client.AppliedAll(s2, [c], parses);
  }

  /** The three options fail only on an endpoint that does not parse or
      ends in a slash, or a workspace ID without an account ID; otherwise
      they set exactly those fields. */
  lemma ClientOptionsOutcome(endpoint: string, host: string, apiKey: string, accountId: string, workspaceId: string,
                             parses: Client.UrlCheck)
    ensures var client := NewClient(ClientOptions(endpoint, host, apiKey, accountId, workspaceId), parses);
      (client.None? <==> !parses(endpoint) || HasSuffix(endpoint, "/") || (accountId == NilUuid && workspaceId != NilUuid)) &&
      (client.Some? ==> client.value == Client.Settings(endpoint, host, apiKey, "", "", "", accountId, workspaceId))
  {
    var a, b, c := Client.WithEndpoint(endpoint, host), Client.WithApiKey(apiKey), Client.WithDefaults(accountId, workspaceId);
    ErrorsOfThree(a, b, c, parses);
    AppliedAllThree(Client.Initial, a, b, c, parses);
  }

  /** `client.New` on the options, as a value. */
  method NewClientWith(opts: seq<Client.ClientOption>, parses: Client.UrlCheck) returns (client: Option<Client.Settings>)
    ensures client == NewClient(opts, parses)
  {
    var c, errs := Client.New(opts, parses);
    if c == null {
      return None;
    }
    return Some(c.Fields());
  }

  /** `Configure` after the endpoint parsed as `url`. */
  function ConfiguredParsed(config: ProviderConfig, env: map<string, string>, endpoint: string, url: ParsedUrl,
                            isCloudHost: HostCheck, parseUuid: UuidDecoder, parses: Client.UrlCheck): ConfigureResult
  {
    var isCloud := isCloudHost(url.host);
    var apiKey := ConfigOrEnv(config.apiKey, env, EnvApiKey);
    var (accountId, invalidAccount) := ResolvedAccount(config, env, parseUuid);
    var warnings := (if invalidAccount then [InvalidEnvAccountId] else []) +
                    (if isCloud && accountId == NilUuid then [MissingAccountId] else []);
    if isCloud && apiKey == "" then ConfigureResult([MissingApiKey], warnings, false, None)
    else
      var client := NewClient(ClientOptions(endpoint, url.scheme + "://" + url.host, apiKey, accountId, UuidOf(config.workspaceId)), parses);
      ConfigureResult(if client.None? then [ClientFailed] else [], warnings, false, client)
  }

  /** `Configure`, from the known-values check on. `corrected` stops after
      an endpoint that does not parse instead of reading the nil URL. */
  function Configured(config: ProviderConfig, env: map<string, string>, parseUrl: UrlParser, isCloudHost: HostCheck,
                      parseUuid: UuidDecoder, corrected: bool): ConfigureResult
  {
    var unknown := UnknownErrors(config);
    if |unknown| > 0 then ConfigureResult(unknown, [], false, None)
    else
      var endpoint := ResolvedEndpoint(config, env);
      var parsed := parseUrl(endpoint);
      if parsed.None? then ConfigureResult([InvalidEndpoint], [], !corrected, None)
      else ConfiguredParsed(config, env, endpoint, parsed.value, isCloudHost, parseUuid, Parses(parseUrl))
  }

  /** The diagnostics and the client of a `Configure` call. */
  class ConfigureResponse {
    var errors: seq<string>
    var warnings: seq<string>
    var client: Option<Client.Settings>

    constructor ()
      ensures errors == [] && warnings == [] && client == None
    {
      errors := [];
      warnings := [];
      client := None;
    }

    /** Append the diagnostics of `r` and take its client, if any. */
    predicate Records(r: ConfigureResult, errors0: seq<string>, warnings0: seq<string>, client0: Option<Client.Settings>)
      reads this
    {
      errors == errors0 + r.errors && warnings == warnings0 + r.warnings &&
      client == (if r.client.Some? then r.client else client0)
    }
  }

  /** `Configure` as written. */
  method Configure(resp: ConfigureResponse, config: ProviderConfig, env: map<string, string>, parseUrl: UrlParser,
                   isCloudHost: HostCheck, parseUuid: UuidDecoder) returns (panicked: bool)
    modifies resp
    ensures var r := Configured(config, env, parseUrl, isCloudHost, parseUuid, false);
      panicked == r.panicked && resp.Records(r, old(resp.errors), old(resp.warnings), old(resp.client))
  {
    panicked := ConfigureWith(resp, config, env, parseUrl, isCloudHost, parseUuid, false);
  }

  /** `Configure` corrected: it returns with the endpoint error. */
  method ConfigureCorrected(resp: ConfigureResponse, config: ProviderConfig, env: map<string, string>, parseUrl: UrlParser,
                            isCloudHost: HostCheck, parseUuid: UuidDecoder) returns (panicked: bool)
    modifies resp
    ensures var r := Configured(config, env, parseUrl, isCloudHost, parseUuid, true);
      panicked == r.panicked && resp.Records(r, old(resp.errors), old(resp.warnings), old(resp.client))
  {
    panicked := ConfigureWith(resp, config, env, parseUrl, isCloudHost, parseUuid, true);
  }

  method ConfigureWith(resp: ConfigureResponse, config: ProviderConfig, env: map<string, string>, parseUrl: UrlParser,
                       isCloudHost: HostCheck, parseUuid: UuidDecoder, corrected: bool) returns (panicked: bool)
    modifies resp
    ensures var r := Configured(config, env, parseUrl, isCloudHost, parseUuid, corrected);
      panicked == r.panicked && resp.Records(r, old(resp.errors), old(resp.warnings), old(resp.client))
  {
    panicked := false;
    var unknown := UnknownErrors(config);
    if |unknown| > 0 {
      resp.errors := resp.errors + unknown;
      return;
    }
    var endpoint := "";
    if !config.endpoint.Null? {
      endpoint := StringOf(config.endpoint);
    } else if EnvApiUrl in env {
      endpoint := env[EnvApiUrl];
    }
    if endpoint == "" {
      endpoint := CloudEndpoint;
    }
    if !HasSuffix(endpoint, ApiSuffix) {
      endpoint := endpoint + ApiSuffix;
    }
    var parsed := parseUrl(endpoint);
    if parsed.None? {
      resp.errors := resp.errors + [InvalidEndpoint];
      if corrected {
        return;
      }
      // `endpointURL.Host` on the nil URL
      panicked := true;
      return;
    }
    ConfigureParsed(resp, config, env, endpoint, parsed.value, isCloudHost, parseUuid, Parses(parseUrl));
  }

  /** The API key from the setting or the environment. */
  method ResolveApiKey(config: ProviderConfig, env: map<string, string>) returns (apiKey: string)
    ensures apiKey == ConfigOrEnv(config.apiKey, env, EnvApiKey)
  {
    apiKey := "";
    if !config.apiKey.Null? {
      apiKey := StringOf(config.apiKey);
    } else if EnvApiKey in env {
      apiKey := env[EnvApiKey];
    }
  }

  /** The account ID from the setting or the environment, and whether the
      variable failed to parse. */
  method ResolveAccount(config: ProviderConfig, env: map<string, string>, parseUuid: UuidDecoder)
    returns (accountId: string, invalid: bool)
    ensures (accountId, invalid) == ResolvedAccount(config, env, parseUuid)
  {
    accountId, invalid := NilUuid, false;
    if !config.accountId.Null? {
      accountId := StringOf(config.accountId);
    } else if EnvAccountId in env {
      var parsed := parseUuid(env[EnvAccountId]);
      accountId := parsed.0;
      invalid := !parsed.1;
    }
  }

  /** The rest of `Configure`, once the endpoint parsed. */
  method ConfigureParsed(resp: ConfigureResponse, config: ProviderConfig, env: map<string, string>, endpoint: string,
                         url: ParsedUrl, isCloudHost: HostCheck, parseUuid: UuidDecoder, parses: Client.UrlCheck)
    modifies resp
    ensures resp.Records(ConfiguredParsed(config, env, endpoint, url, isCloudHost, parseUuid, parses),
                         old(resp.errors), old(resp.warnings), old(resp.client))
  {
    var isCloud := isCloudHost(url.host);
    var host := url.scheme + "://" + url.host;
    var apiKey := ResolveApiKey(config, env);
    var accountId, invalidAccount := ResolveAccount(config, env, parseUuid);
    var warnings: seq<string> := if invalidAccount then [InvalidEnvAccountId] else [];
    var failed := false;
    if isCloud {
      if apiKey == "" {
        resp.errors := resp.errors + [MissingApiKey];
        failed := true;
      }
      if accountId == NilUuid {
        warnings := warnings + [MissingAccountId];
      }
    }
    resp.warnings := resp.warnings + warnings;
    if failed {
      return;
    }
    var opts := ClientOptions(endpoint, host, apiKey, accountId, UuidOf(config.workspaceId));
    var client := NewClientWith(opts, parses);
    if client.None? {
      resp.errors := resp.errors + [ClientFailed];
      return;
    }
    resp.client := client;
  }

  /** As written, an endpoint that does not parse panics after its error is
      recorded, whatever else is configured. */
  lemma ConfigurePanicsOnUnparsableEndpoint(config: ProviderConfig, env: map<string, string>, parseUrl: UrlParser,
                                            isCloudHost: HostCheck, parseUuid: UuidDecoder)
    requires |UnknownErrors(config)| == 0 && parseUrl(ResolvedEndpoint(config, env)).None?
    ensures Configured(config, env, parseUrl, isCloudHost, parseUuid, false).panicked
  {
  }

  /** Corrected, `Configure` never panics, and a parse failure ends it with
      exactly the endpoint error. */
  lemma ConfigureCorrectedNeverPanics(config: ProviderConfig, env: map<string, string>, parseUrl: UrlParser,
                                      isCloudHost: HostCheck, parseUuid: UuidDecoder)
    ensures !Configured(config, env, parseUrl, isCloudHost, parseUuid, true).panicked
    ensures |UnknownErrors(config)| == 0 && parseUrl(ResolvedEndpoint(config, env)).None? ==>
      Configured(config, env, parseUrl, isCloudHost, parseUuid, true) == ConfigureResult([InvalidEndpoint], [], false, None)
  {
  }

  /** On Cloud an empty API key is an error and no client is built, while a
      missing account ID is only a warning; an account ID in the environment
      that does not parse is a warning too. */
  lemma CloudChecks(config: ProviderConfig, env: map<string, string>, parseUrl: UrlParser, isCloudHost: HostCheck,
                    parseUuid: UuidDecoder, corrected: bool)
    requires |UnknownErrors(config)| == 0
    requires parseUrl(ResolvedEndpoint(config, env)).Some?
    ensures var r := Configured(config, env, parseUrl, isCloudHost, parseUuid, corrected);
      var cloud := isCloudHost(parseUrl(ResolvedEndpoint(config, env)).value.host);
      (cloud && ConfigOrEnv(config.apiKey, env, EnvApiKey) == "" ==> r.errors == [MissingApiKey] && r.client.None?) &&
      (cloud && ResolvedAccount(config, env, parseUuid).0 == NilUuid ==> MissingAccountId in r.warnings) &&
      (ResolvedAccount(config, env, parseUuid).1 ==> InvalidEnvAccountId in r.warnings) &&
      !r.panicked && InvalidEnvAccountId !in r.errors && MissingAccountId !in r.errors
  {
  }

  /** An account ID variable that fails to parse after part of it was
      decoded keeps that partial UUID: there is the parse warning, on Cloud
      no missing-account warning, and a client gets the partial ID. */
  lemma PartialAccountIdKept(config: ProviderConfig, env: map<string, string>, parseUrl: UrlParser, isCloudHost: HostCheck,
                             parseUuid: UuidDecoder, corrected: bool)
    requires |UnknownErrors(config)| == 0 && parseUrl(ResolvedEndpoint(config, env)).Some?
    requires config.accountId.Null? && EnvAccountId in env
    requires !parseUuid(env[EnvAccountId]).1 && parseUuid(env[EnvAccountId]).0 != NilUuid
    ensures var r := Configured(config, env, parseUrl, isCloudHost, parseUuid, corrected);
      InvalidEnvAccountId in r.warnings && MissingAccountId !in r.warnings &&
      (r.client.Some? ==> r.client.value.defaultAccountId == parseUuid(env[EnvAccountId]).0)
  {
    ConfiguredClient(config, env, parseUrl, isCloudHost, parseUuid, corrected);
  }

  /** Once the endpoint parsed: a client exactly when no error, holding the
      settled API key and IDs; the client fails only on a workspace ID
      without an account ID. */
  lemma ParsedClient(config: ProviderConfig, env: map<string, string>, endpoint: string, url: ParsedUrl,
                     isCloudHost: HostCheck, parseUuid: UuidDecoder, parses: Client.UrlCheck)
    requires parses(endpoint) && !HasSuffix(endpoint, "/")
    ensures var r := ConfiguredParsed(config, env, endpoint, url, isCloudHost, parseUuid, parses);
      (r.client.Some? <==> |r.errors| == 0) &&
      (r.client.Some? ==> r.client.value.endpoint == endpoint &&
                          r.client.value.apiKey == ConfigOrEnv(config.apiKey, env, EnvApiKey) &&
                          r.client.value.defaultAccountId == ResolvedAccount(config, env, parseUuid).0 &&
                          r.client.value.defaultWorkspaceId == UuidOf(config.workspaceId)) &&
      (ClientFailed in r.errors ==> ResolvedAccount(config, env, parseUuid).0 == NilUuid && UuidOf(config.workspaceId) != NilUuid)
  {
    ClientOptionsOutcome(endpoint, url.scheme + "://" + url.host, ConfigOrEnv(config.apiKey, env, EnvApiKey),
                         ResolvedAccount(config, env, parseUuid).0, UuidOf(config.workspaceId), parses);
    assert ClientFailed != MissingApiKey;
  }

  /** The client is built exactly when no error was reported, and then it
      holds the settled endpoint, API key and IDs; `client.New` can fail only
      on a workspace ID given without an account ID, as the endpoint never
      ends in a slash and has already parsed. */
  lemma ConfiguredClient(config: ProviderConfig, env: map<string, string>, parseUrl: UrlParser, isCloudHost: HostCheck,
                         parseUuid: UuidDecoder, corrected: bool)
    ensures var r := Configured(config, env, parseUrl, isCloudHost, parseUuid, corrected);
      (r.client.Some? <==> |r.errors| == 0) &&
      (r.client.Some? ==> r.client.value.endpoint == ResolvedEndpoint(config, env) &&
                          r.client.value.apiKey == ConfigOrEnv(config.apiKey, env, EnvApiKey) &&
                          r.client.value.defaultAccountId == ResolvedAccount(config, env, parseUuid).0 &&
                          r.client.value.defaultWorkspaceId == UuidOf(config.workspaceId))
    ensures var r := Configured(config, env, parseUrl, isCloudHost, parseUuid, corrected);
      ClientFailed in r.errors ==> ResolvedAccount(config, env, parseUuid).0 == NilUuid && UuidOf(config.workspaceId) != NilUuid
  {
    var endpoint := ResolvedEndpoint(config, env);
    var unknown := UnknownErrors(config);
    if |unknown| > 0 {
      assert ClientFailed !in unknown;
    } else if parseUrl(endpoint).None? {
      assert ClientFailed != InvalidEndpoint;
    } else {
      ResolvedEndpointProperties(config, env);
      ParsedClient(config, env, endpoint, parseUrl(endpoint).value, isCloudHost, parseUuid, Parses(parseUrl));
    }
  }
}
