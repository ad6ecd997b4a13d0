/**
 * The request helpers of the HTTP client: URL builders for account- and
 * workspace-scoped routes, the Cloud endpoint check, the headers every
 * request carries, and the success-code check.
 */
module Requests {
  import opened Wrappers
  import opened Text
  import opened Framework

  /** The account-scoped URL of a route. */
  function AccountScopedUrl(endpoint: string, accountId: string, route: string): string
  {
    endpoint + "/accounts/" + accountId + "/" + route
  }

  /** The workspace-scoped URL of a route: scoped only when both IDs are set. */
  function WorkspaceScopedUrl(endpoint: string, accountId: string, workspaceId: string, route: string): string
  {
    if accountId != NilUuid && workspaceId != NilUuid then
      endpoint + "/accounts/" + accountId + "/workspaces/" + workspaceId + "/" + route
    else endpoint + "/" + route
  }

  /** `getAccountScopedURL`: the URL written piece by piece into a builder. */
  method GetAccountScopedUrl(endpoint: string, accountId: string, route: string) returns (url: string)
    ensures url == AccountScopedUrl(endpoint, accountId, route)
  {
    var builder := endpoint;
    builder := builder + "/accounts/";
    builder := builder + accountId;
    builder := builder + ['/'];
    builder := builder + route;
    url := builder;
  }

  /** `getWorkspaceScopedURL`. */
  method GetWorkspaceScopedUrl(endpoint: string, accountId: string, workspaceId: string, route: string) returns (url: string)
    ensures url == WorkspaceScopedUrl(endpoint, accountId, workspaceId, route)
  {
    var builder := endpoint;
    if accountId != NilUuid && workspaceId != NilUuid {
      builder := builder + "/accounts/";
      builder := builder + accountId;
      builder := builder + "/workspaces/";
      builder := builder + workspaceId;
    }
    builder := builder + ['/'];
    builder := builder + route;
    url := builder;
  }

  /** A scoped URL starts with the endpoint and ends with `/` and the route,
      so both can be read back from it. */
  lemma ScopedUrlsFrameRoute(endpoint: string, accountId: string, workspaceId: string, route: string)
    ensures var u := AccountScopedUrl(endpoint, accountId, route);
      HasPrefix(u, endpoint) && HasSuffix(u, "/" + route) && u[|u| - |route|..] == route
    ensures var u := WorkspaceScopedUrl(endpoint, accountId, workspaceId, route);
      HasPrefix(u, endpoint) && HasSuffix(u, "/" + route) && u[|u| - |route|..] == route
  {
    var u := AccountScopedUrl(endpoint, accountId, route);
    assert u == (endpoint + "/accounts/" + accountId) + ("/" + route);
    var w := WorkspaceScopedUrl(endpoint, accountId, workspaceId, route);
    if accountId != NilUuid && workspaceId != NilUuid {
      assert w == (endpoint + "/accounts/" + accountId + "/workspaces/" + workspaceId) + ("/" + route);
    } else {
      assert w == endpoint + ("/" + route);
    }
  }

  /** With both IDs set, a workspace route is the account route
      `workspaces/<id>/<route>`; with either unset, the route hangs off the
      endpoint directly. */
  lemma WorkspaceScopedIsAccountScoped(endpoint: string, accountId: string, workspaceId: string, route: string)
    ensures accountId != NilUuid && workspaceId != NilUuid ==>
      WorkspaceScopedUrl(endpoint, accountId, workspaceId, route) ==
        AccountScopedUrl(endpoint, accountId, "workspaces/" + workspaceId + "/" + route)
    ensures accountId == NilUuid || workspaceId == NilUuid ==>
      WorkspaceScopedUrl(endpoint, accountId, workspaceId, route) == endpoint + "/" + route
  {
  }

  const CloudEndpointError := "prefect Cloud endpoints require an account_id and workspace_id to be set on either the provider or the resource"

  /** `helpers.IsCloudEndpoint`, which is not part of this model. */
  type CloudCheck = string -> bool

  /** `validateCloudEndpoint`: a Cloud endpoint needs both IDs. */
  function ValidateCloudEndpoint(endpoint: string, accountId: string, workspaceId: string, isCloud: CloudCheck): (r: Option<string>)
    ensures r.Some? <==> isCloud(endpoint) && (accountId == NilUuid || workspaceId == NilUuid)
    ensures r.Some? ==> r.value == CloudEndpointError
  {
    if isCloud(endpoint) && (accountId == NilUuid || workspaceId == NilUuid) then Some(CloudEndpointError) else None
  }

  /** A Cloud endpoint passes exactly with the IDs that also give a
      workspace-scoped URL. */
  lemma CloudEndpointNeedsScopedUrl(endpoint: string, accountId: string, workspaceId: string, route: string, isCloud: CloudCheck)
    requires isCloud(endpoint)
    ensures ValidateCloudEndpoint(endpoint, accountId, workspaceId, isCloud).None? <==>
      WorkspaceScopedUrl(endpoint, accountId, workspaceId, route) ==
        AccountScopedUrl(endpoint, accountId, "workspaces/" + workspaceId + "/" + route)
  {
    if accountId == NilUuid || workspaceId == NilUuid {
      var w := WorkspaceScopedUrl(endpoint, accountId, workspaceId, route);
      var a := AccountScopedUrl(endpoint, accountId, "workspaces/" + workspaceId + "/" + route);
      assert |w| < |a|;
    }
  }

  /** `base64.StdEncoding.EncodeToString`, a library function. */
  type Encoder = string -> string

  const Authorization := "Authorization"
  const CsrfClientHeader := "Prefect-Csrf-Client"
  const CsrfTokenHeader := "Prefect-Csrf-Token"

  /** The Authorization header, if any: Basic wins over Bearer. */
  function AuthorizationValue(apiKey: string, basicAuthKey: string, encode: Encoder): Option<string>
  {
    if basicAuthKey != "" then Some("Basic " + encode(basicAuthKey))
    else if apiKey != "" then Some("Bearer " + apiKey)
    else None
  }

  /** The headers of a request under construction. */
  class Request {
    var header: map<string, string>

    constructor ()
      ensures header == map[]
    {
      header := map[];
    }

    /** `setAuthorizationHeader`: Bearer first, then Basic over it. */
    method SetAuthorizationHeader(apiKey: string, basicAuthKey: string, encode: Encoder)
      modifies this
      ensures var v := AuthorizationValue(apiKey, basicAuthKey, encode);
        header == if v.Some? then old(header)[Authorization := v.value] else old(header)
    {
      if apiKey != "" {
        header := header[Authorization := "Bearer " + apiKey];
      }
      if basicAuthKey != "" {
        header := header[Authorization := "Basic " + encode(basicAuthKey)];
      }
    }

    /** `setDefaultHeaders`: authorization, content type, accept, the CSRF
        headers when set, and the custom headers last, in whatever order the
        map yields them. */
    method SetDefaultHeaders(apiKey: string, basicAuthKey: string, csrfClientToken: string, csrfToken: string,
                             customHeaders: map<string, string>, encode: Encoder)
      modifies this
      ensures header == DefaultHeaders(old(header), apiKey, basicAuthKey, csrfClientToken, csrfToken, encode) + customHeaders
    {
      SetAuthorizationHeader(apiKey, basicAuthKey, encode);
      header := header["Content-Type" := "application/json"];
      header := header["Accept" := "application/json"];
      if csrfClientToken != "" {
        header := header[CsrfClientHeader := csrfClientToken];
      }
      if csrfToken != "" {
        header := header[CsrfTokenHeader := csrfToken];
      }
      ApplyCustomHeaders(customHeaders);
    }

    /** The custom-header loop: each entry is set over what is there. */
    method ApplyCustomHeaders(customHeaders: map<string, string>)
      modifies this
      ensures header == old(header) + customHeaders
    {
      var remaining := customHeaders.Keys;
      while remaining != {}
        invariant remaining <= customHeaders.Keys
        invariant header == old(header) + map k | k in customHeaders.Keys - remaining :: customHeaders[k]
        decreases |remaining|
      {
        var key :| key in remaining;
        header := header[key := customHeaders[key]];
        remaining := remaining - {key};
      }
      assert (map k | k in customHeaders.Keys :: customHeaders[k]) == customHeaders;
    }
  }

  /** The headers before the custom ones. */
  function DefaultHeaders(header: map<string, string>, apiKey: string, basicAuthKey: string, csrfClientToken: string,
                          csrfToken: string, encode: Encoder): map<string, string>
  {
    var auth := AuthorizationValue(apiKey, basicAuthKey, encode);
    var h := if auth.Some? then header[Authorization := auth.value] else header;
    var h := h["Content-Type" := "application/json"]["Accept" := "application/json"];
    var h := if csrfClientToken != "" then h[CsrfClientHeader := csrfClientToken] else h;
    if csrfToken != "" then h[CsrfTokenHeader := csrfToken] else h
  }

  /** A custom header overrides any default of the same name; CSRF headers
      are sent only when their tokens are set; with both keys set the
      request authenticates with Basic, and with neither it sends no
      Authorization header of its own. */
  lemma DefaultHeadersPrecedence(header: map<string, string>, apiKey: string, basicAuthKey: string, csrfClientToken: string,
                                 csrfToken: string, custom: map<string, string>, encode: Encoder)
    ensures var h := DefaultHeaders(header, apiKey, basicAuthKey, csrfClientToken, csrfToken, encode) + custom;
      (forall k :: k in custom ==> h[k] == custom[k]) &&
      h["Content-Type"] == (if "Content-Type" in custom then custom["Content-Type"] else "application/json") &&
      (CsrfClientHeader !in header && CsrfClientHeader !in custom ==> (CsrfClientHeader in h <==> csrfClientToken != "")) &&
      (CsrfTokenHeader !in header && CsrfTokenHeader !in custom ==> (CsrfTokenHeader in h <==> csrfToken != "")) &&
      (Authorization !in custom && basicAuthKey != "" ==> h[Authorization] == "Basic " + encode(basicAuthKey)) &&
      (Authorization !in custom && basicAuthKey == "" && apiKey != "" ==> h[Authorization] == "Bearer " + apiKey) &&
      (Authorization !in header && Authorization !in custom && basicAuthKey == "" && apiKey == "" ==> Authorization !in h)
  {
  }

  const StatusOk := 200
  const StatusCreated := 201
  const StatusNoContent := 204

  const SuccessCodesOk := [StatusOk]
  const SuccessCodesCreated := [StatusCreated]
  const SuccessCodesNoContent := [StatusNoContent]
  const SuccessCodesOkOrNoContent := [StatusOk, StatusNoContent]
  const SuccessCodesOkOrCreated := [StatusOk, StatusCreated]

  /** The status check of `request`: a status outside the success codes is
      an error carrying the status and the body. */
  datatype StatusFailure = StatusFailure(status: int, body: string)

  method CheckStatus(successCodes: seq<int>, status: int, body: string) returns (r: Option<StatusFailure>)
    ensures r.None? <==> status in successCodes
    ensures r.Some? ==> r.value == StatusFailure(status, body)
  {
    var i := 0;
    while i < |successCodes|
      invariant 0 <= i <= |successCodes|
      invariant status !in successCodes[..i]
    {
      if successCodes[i] == status {
        return None;
      }
      i := i + 1;
    }
    assert successCodes[..i] == successCodes;
    return Some(StatusFailure(status, body));
  }

  /** The combined success-code lists accept exactly the union of the
      single ones. */
  lemma SuccessCodeUnions(status: int)
    ensures status in SuccessCodesOkOrNoContent <==> status in SuccessCodesOk || status in SuccessCodesNoContent
    ensures status in SuccessCodesOkOrCreated <==> status in SuccessCodesOk || status in SuccessCodesCreated
  {
  }
}
