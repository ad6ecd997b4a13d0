/**
 * The HTTP client's construction and its retry policy: options that set the
 * client's fields one by one, errors gathered across all options, and the
 * decision whether a response is worth another attempt.
 */
module Client {
  import opened Wrappers
  import opened Text
  import opened Framework

  const StatusForbidden := 403
  const StatusNotFound := 404
  const StatusConflict := 409
  const MethodDelete := "DELETE"

  /** A response that arrived: its status code and its body. */
  datatype HttpResponse = HttpResponse(status: int, body: string)

  /** The error a retry decision returns: the transport error passed in, or
      one that carries the status code, the transport error and the body. */
  datatype RetryError = Passed(message: string) | StatusError(status: int, cause: Option<string>, body: string)

  /** `retryablehttp.ErrorPropagatedRetryPolicy`, the library's default for
      other status codes. A foreign function, so a parameter. */
  type FallbackPolicy = (HttpResponse, Option<string>) -> (bool, Option<RetryError>)

  function PassedError(err: Option<string>): Option<RetryError>
  {
    if err.Some? then Some(Passed(err.value)) else None
  }

  /** `checkRetryPolicy`. `httpMethod` is the HTTP method found in the request's
      context, if any; `resp` is `None` when no response arrived. */
  function CheckRetryPolicy(httpMethod: Option<string>, resp: Option<HttpResponse>, err: Option<string>, fallback: FallbackPolicy): (r: (bool, Option<RetryError>))
    ensures resp.None? ==> r.0 && (r.1.None? <==> err.None?)
    ensures resp.Some? && resp.value.status == StatusConflict ==> !r.0 && r.1.None?
    ensures resp.Some? && (resp.value.status == StatusForbidden || resp.value.status == StatusNotFound) ==>
      r.1 == Some(StatusError(resp.value.status, err, resp.value.body))
    ensures resp.Some? && resp.value.status == StatusForbidden ==> !r.0
    ensures resp.Some? && resp.value.status == StatusNotFound ==> (r.0 <==> httpMethod != Some(MethodDelete))
    ensures resp.Some? && resp.value.status !in {StatusConflict, StatusForbidden, StatusNotFound} ==>
      r == fallback(resp.value, err)
  {
    if resp.None? then (true, PassedError(err))
    else if resp.value.status == StatusConflict then (false, None)
    else if resp.value.status == StatusForbidden then (false, Some(StatusError(resp.value.status, err, resp.value.body)))
    else if resp.value.status == StatusNotFound then
      var retry := !(httpMethod.Some? && httpMethod.value == MethodDelete);
      (retry, Some(StatusError(resp.value.status, err, resp.value.body)))
    else fallback(resp.value, err)
  }

  /** The policy gives up on a request only for a conflict, a refusal, a
      missing object under DELETE, or when the library's policy says so; and
      it reports no error for a conflict, which it counts as success. */
  lemma RetryPolicyGivesUp(httpMethod: Option<string>, resp: Option<HttpResponse>, err: Option<string>, fallback: FallbackPolicy)
    ensures var r := CheckRetryPolicy(httpMethod, resp, err, fallback);
      !r.0 <==> (resp.Some? && (resp.value.status == StatusConflict || resp.value.status == StatusForbidden ||
        (resp.value.status == StatusNotFound && httpMethod == Some(MethodDelete)) ||
        (resp.value.status !in {StatusConflict, StatusForbidden, StatusNotFound} && !fallback(resp.value, err).0)))
    ensures var r := CheckRetryPolicy(httpMethod, resp, err, fallback);
      resp.Some? && resp.value.status in {StatusForbidden, StatusNotFound} ==> r.1.Some? && r.1.value.StatusError?
  {
  }

  /** What `With*` options may report. */
  datatype OptionError =
    | InvalidUrl(endpoint: string)
    | TrailingSlash(endpoint: string)
    | CsrfFailed(reason: string)
    | WorkspaceWithoutAccount(accountId: string, workspaceId: string)

  const CsrfTokenMissing := "CSRF token not found in response"

  /** A client option. The random client token of `WithCsrfEnabled` and the
      outcome of the token request it makes are carried as data. */
  datatype ClientOption =
    | WithEndpoint(endpoint: string, host: string)
    | WithApiKey(apiKey: string)
    | WithBasicAuthKey(basicAuthKey: string)
    | WithCsrfEnabled(enabled: bool, clientToken: string, fetched: Result<string>)
    | WithDefaults(accountId: string, workspaceId: string)

  /** `url.Parse` succeeds on the text. A foreign function. */
  type UrlCheck = string -> bool

  /** The client's configuration fields. */
  datatype Settings = Settings(
    endpoint: string, endpointHost: string, apiKey: string, basicAuthKey: string,
    csrfClientToken: string, csrfToken: string, defaultAccountId: string, defaultWorkspaceId: string)

  /** The fields of `&Client{hc: httpClient}`: all empty, and nil UUIDs. */
  const Initial := Settings("", "", "", "", "", "", NilUuid, NilUuid)

  /** The error an option reports; it depends on the option alone. */
  function OptionErrorOf(opt: ClientOption, parses: UrlCheck): (r: Option<OptionError>)
    ensures opt.WithApiKey? || opt.WithBasicAuthKey? ==> r.None?
    ensures opt.WithEndpoint? && HasSuffix(opt.endpoint, "/") ==> r.Some?
    ensures opt.WithDefaults? ==> (r.Some? <==> opt.accountId == NilUuid && opt.workspaceId != NilUuid)
    ensures opt.WithCsrfEnabled? && !opt.enabled ==> r.None?
  {
    match opt
    case WithEndpoint(endpoint, _) =>
      if !parses(endpoint) then Some(InvalidUrl(endpoint))
      else if HasSuffix(endpoint, "/") then Some(TrailingSlash(endpoint))
      else None
    case WithApiKey(_) => None
    case WithBasicAuthKey(_) => None
    case WithCsrfEnabled(enabled, _, fetched) =>
      if !enabled then None
      else if fetched.Err? then Some(CsrfFailed(fetched.message))
      else if fetched.value == "" then Some(CsrfFailed(CsrfTokenMissing))
      else None
    case WithDefaults(accountId, workspaceId) =>
      if accountId == NilUuid && workspaceId != NilUuid then Some(WorkspaceWithoutAccount(accountId, workspaceId))
      else None
  }

  /** The fields after an option ran, whether or not it reported an error. */
  function Applied(s: Settings, opt: ClientOption, parses: UrlCheck): (r: Settings)
    ensures OptionErrorOf(opt, parses).Some? && !opt.WithCsrfEnabled? ==> r == s
    ensures OptionErrorOf(opt, parses).Some? ==> r.(csrfClientToken := s.csrfClientToken) == s
  {
    match opt
    case WithEndpoint(endpoint, host) =>
      if !parses(endpoint) || HasSuffix(endpoint, "/") then s
      else s.(endpoint := endpoint, endpointHost := host)
    case WithApiKey(k) => s.(apiKey := k)
    case WithBasicAuthKey(k) => s.(basicAuthKey := k)
    case WithCsrfEnabled(enabled, clientToken, fetched) =>
      if !enabled then s
      else if fetched.Err? || fetched.value == "" then s.(csrfClientToken := clientToken)
      else s.(csrfClientToken := clientToken, csrfToken := fetched.value)
    case WithDefaults(accountId, workspaceId) =>
      if accountId == NilUuid && workspaceId != NilUuid then s
      else s.(defaultAccountId := accountId, defaultWorkspaceId := workspaceId)
  }

  /** The fields after all options, in order. */
  function AppliedAll(s: Settings, opts: seq<ClientOption>, parses: UrlCheck): Settings
    decreases |opts|
  {
    if |opts| == 0 then s else AppliedAll(Applied(s, opts[0], parses), opts[1..], parses)
  }

  /** The errors of all options, in order. */
  function ErrorsOf(opts: seq<ClientOption>, parses: UrlCheck): (r: seq<OptionError>)
    ensures |r| <= |opts|
  {
    if |opts| == 0 then []
    else
      var e := OptionErrorOf(opts[|opts| - 1], parses);
      ErrorsOf(opts[..|opts| - 1], parses) + (if e.Some? then [e.value] else [])
  }

  /** The client built by `New`. */
  class Client {
    var endpoint: string
    var endpointHost: string
    var apiKey: string
    var basicAuthKey: string
    var csrfClientToken: string
    var csrfToken: string
    var defaultAccountId: string
    var defaultWorkspaceId: string

    function Fields(): Settings
      reads this
    {
      Settings(endpoint, endpointHost, apiKey, basicAuthKey, csrfClientToken, csrfToken, defaultAccountId, defaultWorkspaceId)
    }

    constructor ()
      ensures Fields() == Initial
    {
      endpoint := "";
      endpointHost := "";
      apiKey := "";
      basicAuthKey := "";
      csrfClientToken := "";
      csrfToken := "";
      defaultAccountId := NilUuid;
      defaultWorkspaceId := NilUuid;
    }

    /** Run one option against this client. */
    method Apply(opt: ClientOption, parses: UrlCheck) returns (err: Option<OptionError>)
      modifies this
      ensures err == OptionErrorOf(opt, parses)
      ensures Fields() == Applied(old(Fields()), opt, parses)
    {
      match opt
      case WithEndpoint(e, host) =>
        if !parses(e) {
          return Some(InvalidUrl(e));
        }
        if HasSuffix(e, "/") {
          return Some(TrailingSlash(e));
        }
        endpoint := e;
        endpointHost := host;
        return None;
      case WithApiKey(k) =>
        apiKey := k;
        return None;
      case WithBasicAuthKey(k) =>
        basicAuthKey := k;
        return None;
      case WithCsrfEnabled(enabled, clientToken, fetched) =>
        if enabled {
          csrfClientToken := clientToken;
          if fetched.Err? {
            return Some(CsrfFailed(fetched.message));
          }
          if fetched.value == "" {
            return Some(CsrfFailed(CsrfTokenMissing));
          }
          csrfToken := fetched.value;
        }
        return None;
      case WithDefaults(accountId, workspaceId) =>
        if accountId == NilUuid && workspaceId != NilUuid {
          return Some(WorkspaceWithoutAccount(accountId, workspaceId));
        }
        defaultAccountId := accountId;
        defaultWorkspaceId := workspaceId;
        return None;
    }
  }

  /** `New`: every option runs, even after one failed; any failure gives no
      client and all the errors in order. */
  method New(opts: seq<ClientOption>, parses: UrlCheck) returns (client: Client?, errs: seq<OptionError>)
    ensures errs == ErrorsOf(opts, parses)
    ensures client == null <==> |errs| > 0
    ensures client != null ==> fresh(client) && client.Fields() == AppliedAll(Initial, opts, parses)
  {
    var c := new Client();
    errs := [];
    var i := 0;
    while i < |opts|
      invariant 0 <= i <= |opts|
      invariant errs == ErrorsOf(opts[..i], parses)
      invariant AppliedAll(c.Fields(), opts[i..], parses) == AppliedAll(Initial, opts, parses)
    {
      assert opts[..i + 1][..i] == opts[..i];
      assert opts[i..][1..] == opts[i + 1..];
      var err := c.Apply(opts[i], parses);
      if err.Some? {
        errs := errs + [err.value];
      }
      i := i + 1;
    }
    assert opts[..|opts|] == opts;
    if |errs| > 0 {
      return null, errs;
    }
    return c, errs;
  }

  /** `New` fails exactly when some option fails on its own. */
  lemma {:induction false} NewFailsIffSomeOptionFails(opts: seq<ClientOption>, parses: UrlCheck)
    ensures |ErrorsOf(opts, parses)| > 0 <==> exists i :: 0 <= i < |opts| && OptionErrorOf(opts[i], parses).Some?
  {
    if |opts| > 0 {
      var init := opts[..|opts| - 1];
      NewFailsIffSomeOptionFails(init, parses);
      if exists i :: 0 <= i < |init| && OptionErrorOf(init[i], parses).Some? {
        var i :| 0 <= i < |init| && OptionErrorOf(init[i], parses).Some?;
        assert opts[i] == init[i];
      }
      if exists i :: 0 <= i < |opts| && OptionErrorOf(opts[i], parses).Some? {
        var i :| 0 <= i < |opts| && OptionErrorOf(opts[i], parses).Some?;
        assert i < |init| ==> init[i] == opts[i];
      }
    }
  }

  /** An endpoint with a trailing slash makes `New` fail, whatever the other
      options are. */
  lemma TrailingSlashRejected(opts: seq<ClientOption>, parses: UrlCheck, i: nat)
    requires i < |opts| && opts[i].WithEndpoint? && HasSuffix(opts[i].endpoint, "/")
    ensures |ErrorsOf(opts, parses)| > 0
  {
    NewFailsIffSomeOptionFails(opts, parses);
  }

  /** Of several options setting the same field, the last one wins: two API
      keys in a row leave the second. */
  lemma LastApiKeyWins(s: Settings, a: string, b: string, parses: UrlCheck)
    ensures AppliedAll(s, [WithApiKey(a), WithApiKey(b)], parses) == s.(apiKey := b)
  {
    assert [WithApiKey(a), WithApiKey(b)][1..] == [WithApiKey(b)];
    assert [WithApiKey(b)][1..] == [];
    var once := Applied(s, WithApiKey(a), parses);
    assert AppliedAll(s, [WithApiKey(a), WithApiKey(b)], parses) == AppliedAll(once, [WithApiKey(b)], parses);
    assert AppliedAll(once, [WithApiKey(b)], parses) == AppliedAll(Applied(once, WithApiKey(b), parses), [], parses);
  }
}
