/**
 * The request layer of frontend/src/api/http.ts: the API base address, the stored token, how a
 * request's headers, address and body are chosen, how an error response is read, and what a
 * response turns into. `fetch` itself is left to the caller: a response is an input.
 */
module Http {
  import opened Wrappers
  import opened Strings
  import opened FrontendTypes

  predicate EndsWith(s: string, suffix: string) {
    |suffix| <= |s| && s[|s| - |suffix|..] == suffix
  }

  const DefaultBase: string := "http://localhost:8000/api/v1"

  /** `API_BASE_URL`: the configured address (or the default) with one trailing "/api/v1" or
      "/api/v1/" removed. */
  function ApiBase(configured: Option<string>): (r: string)
    ensures var b := OrElse(configured, DefaultBase);
      (EndsWith(b, "/api/v1/") ==> r == b[..|b| - 8]) &&
      (!EndsWith(b, "/api/v1/") && EndsWith(b, "/api/v1") ==> r == b[..|b| - 7]) &&
      (!EndsWith(b, "/api/v1/") && !EndsWith(b, "/api/v1") ==> r == b)
  {
    var b := OrElse(configured, DefaultBase);
    if EndsWith(b, "/api/v1/") then b[..|b| - 8]
    else if EndsWith(b, "/api/v1") then b[..|b| - 7]
    else b
  }

  /** Without configuration the base is the local server's root. */
  lemma DefaultApiBase()
    ensures ApiBase(None) == "http://localhost:8000"
  {
    assert EndsWith(DefaultBase, "/api/v1");
  }

  /** Only one suffix is removed. */
  lemma StripsOnce(root: string)
    ensures ApiBase(Some(root + "/api/v1/api/v1")) == root + "/api/v1"
  {
    var b := root + "/api/v1/api/v1";
    assert b[|b| - 7..] == "/api/v1";
    assert b[|b| - 8..][0] == b[|b| - 8] == '1';
    assert b[..|b| - 7] == root + "/api/v1";
  }

  /** `localStorage` under the key "auth_token". */
  class TokenStore {
    var token: Option<string>

    constructor(initial: Option<string>)
      ensures token == initial
    {
      token := initial;
    }

    method GetToken() returns (t: Option<string>)
      ensures t == token
    {
      t := token;
    }

    method SetToken(t: string)
      modifies this
      ensures token == Some(t)
    {
      token := Some(t);
    }

    method ClearToken()
      modifies this
      ensures token.None?
    {
      token := None;
    }
  }

  /** A request body: absent, another falsy value, form data, URL parameters, or a value whose
      `JSON.stringify` text is given. */
  datatype Body = NoBody | FalsyValue | FormData(fields: seq<(string, string)>) | UrlParams(query: string) | Value(json: string)

  /** What `fetch` is given as the body. */
  datatype SentBody = Unsent | SentForm(fields: seq<(string, string)>) | SentParams(query: string) | SentJson(text: string)

  predicate WantsJson(body: Body) {
    body.Value?
  }

  /** Form data and URL parameters pass through, another truthy value is sent as JSON, anything
      else sends no body. */
  function BodyToSend(body: Body): (r: SentBody)
    ensures body.FormData? ==> r == SentForm(body.fields)
    ensures body.UrlParams? ==> r == SentParams(body.query)
    ensures body.Value? ==> r == SentJson(body.json)
    ensures body.NoBody? || body.FalsyValue? ==> r == Unsent
  {
    match body
    case FormData(f) => SentForm(f)
    case UrlParams(q) => SentParams(q)
    case Value(j) => SentJson(j)
    case _ => Unsent
  }

  /** The endpoints served outside "/api/v1". */
  predicate IsAuthEndpoint(endpoint: string) {
    StartsWith(endpoint, "/auth") || StartsWith(endpoint, "/users/me")
  }

  function RequestUrl(base: string, endpoint: string): (r: string)
    ensures IsAuthEndpoint(endpoint) ==> r == base + endpoint
    ensures !IsAuthEndpoint(endpoint) ==> r == base + "/api/v1" + endpoint
  {
    if IsAuthEndpoint(endpoint) then base + endpoint else base + "/api/v1" + endpoint
  }

  /** A configured address ending in "/api/v1", with or without the slash, has its server root
      as base. */
  lemma ApiBaseOfPrefixed(root: string)
    ensures ApiBase(Some(root + "/api/v1")) == root
    ensures ApiBase(Some(root + "/api/v1/")) == root
  {
    var b := root + "/api/v1";
    assert b[|b| - 7..] == "/api/v1";
    assert !EndsWith(b, "/api/v1/") by {
      if 8 <= |b| {
        assert b[|b| - 8..][7] == b[|b| - 1] == '1';
      }
    }
    assert b[..|b| - 7] == root;
    var b' := root + "/api/v1/";
    assert b'[|b'| - 8..] == "/api/v1/";
    assert b'[..|b'| - 8] == root;
  }

  /** The base drops the "/api/v1" a configured address ends with, and every request that is not
      an authentication request puts it back: the prefix is neither doubled nor lost, and
      authentication requests go to the server root. */
  lemma ApiPrefixRestored(root: string, slash: bool, endpoint: string)
    ensures var base := ApiBase(Some(root + (if slash then "/api/v1/" else "/api/v1")));
      RequestUrl(base, endpoint) == if IsAuthEndpoint(endpoint) then root + endpoint else root + "/api/v1" + endpoint
  {
    ApiBaseOfPrefixed(root);
  }

  /** Without configuration, requests outside authentication go to the default address. */
  lemma DefaultRequestUrl(endpoint: string)
    ensures !IsAuthEndpoint(endpoint) ==> RequestUrl(ApiBase(None), endpoint) == DefaultBase + endpoint
    ensures IsAuthEndpoint(endpoint) ==> RequestUrl(ApiBase(None), endpoint) == "http://localhost:8000" + endpoint
  {
    DefaultApiBase();
  }

  datatype Plan = Plan(url: string, headers: map<string, string>, body: SentBody)

  /** The headers `http` builds: the caller's, then a JSON content type for a JSON body, then the
      bearer token unless authentication is skipped. */
  function Headers(custom: map<string, string>, body: Body, skipAuth: bool, token: Option<string>): map<string, string> {
    var h1 := if WantsJson(body) then custom["Content-Type" := "application/json"] else custom;
    if !skipAuth && Filled(token) then h1["Authorization" := "Bearer " + token.value] else h1
  }

  /** The request `http(endpoint, options)` hands to `fetch`, with the headers built step by step. */
  method PlanRequest(base: string, endpoint: string, body: Body, skipAuth: bool, custom: map<string, string>, store: TokenStore)
    returns (plan: Plan)
    ensures plan == Plan(RequestUrl(base, endpoint), Headers(custom, body, skipAuth, store.token), BodyToSend(body))
  {
    var headers := custom;
    if WantsJson(body) {
      headers := headers["Content-Type" := "application/json"];
    }
    if !skipAuth {
      var token := store.GetToken();
      if Filled(token) {
        headers := headers["Authorization" := "Bearer " + token.value];
      }
    }
    var url := if IsAuthEndpoint(endpoint) then base + endpoint else base + "/api/v1" + endpoint;
    plan := Plan(url, headers, BodyToSend(body));
  }

  /** The content type is set to JSON exactly for a JSON body; the authorization header is the
      bearer token exactly when authentication is not skipped and a token is stored; every other
      header is the caller's. */
  lemma HeadersMeaning(custom: map<string, string>, body: Body, skipAuth: bool, token: Option<string>)
    ensures var h := Headers(custom, body, skipAuth, token);
      WantsJson(body) ==> "Content-Type" in h && h["Content-Type"] == "application/json"
    ensures var h := Headers(custom, body, skipAuth, token);
      !WantsJson(body) ==> ("Content-Type" in h <==> "Content-Type" in custom) &&
                           ("Content-Type" in custom ==> h["Content-Type"] == custom["Content-Type"])
    ensures var h := Headers(custom, body, skipAuth, token);
      !skipAuth && Filled(token) ==> "Authorization" in h && h["Authorization"] == "Bearer " + token.value
    ensures var h := Headers(custom, body, skipAuth, token);
      !(!skipAuth && Filled(token)) ==> ("Authorization" in h <==> "Authorization" in custom) &&
                                        ("Authorization" in custom ==> h["Authorization"] == custom["Authorization"])
    ensures var h := Headers(custom, body, skipAuth, token);
      forall k :: k in custom && k != "Content-Type" && k != "Authorization" ==> k in h && h[k] == custom[k]
    ensures var h := Headers(custom, body, skipAuth, token);
      forall k :: k in h ==> k in custom || k == "Content-Type" || k == "Authorization"
  {
  }

  /** The body of an error response as far as it was parsed. */
  datatype ErrorBody = ErrorBody(detail: Option<string>, message: Option<string>, errors: Option<map<string, seq<string>>>)

  datatype ApiError = ApiError(status: int, message: string, details: Option<map<string, seq<string>>>)

  /** `parseErrorResponse`: `detail`, else `message`, else the status text; a body that is not
      JSON (None) gives the status text alone. */
  function ParseErrorResponse(status: int, statusText: string, parsed: Option<ErrorBody>): (r: ApiError)
    ensures r.status == status
    ensures parsed.None? ==> r == ApiError(status, statusText, None)
    ensures parsed.Some? && Filled(parsed.value.detail) ==> r.message == parsed.value.detail.value
    ensures parsed.Some? && !Filled(parsed.value.detail) && Filled(parsed.value.message) ==> r.message == parsed.value.message.value
    ensures parsed.Some? && !Filled(parsed.value.detail) && !Filled(parsed.value.message) ==> r.message == statusText
    ensures parsed.Some? ==> r.details == parsed.value.errors
  {
    match parsed
    case None => ApiError(status, statusText, None)
    case Some(data) => ApiError(status, OrElse(data.detail, OrElse(data.message, statusText)), data.errors)
  }

  /** A response as `fetch` returned it. */
  datatype Response = Response(status: int, ok: bool, statusText: string, errorBody: Option<ErrorBody>, json: string)

  datatype Outcome = Thrown(status: int, message: string, details: Option<map<string, seq<string>>>) | NoContent | Json(text: string)

  predicate OnAuthPage(pathname: string) {
    StartsWith(pathname, "/login") || StartsWith(pathname, "/register")
  }

  /** What `http` makes of a response: every failed response throws its parsed error; a 401 also
      clears the token and, away from the login and register pages, moves to "/login"; a 204
      gives no value; otherwise the JSON body. */
  method Finish(response: Response, pathname: string, store: TokenStore) returns (outcome: Outcome, redirect: Option<string>)
    modifies store
    ensures !response.ok ==>
      var e := ParseErrorResponse(response.status, response.statusText, response.errorBody);
      outcome == Thrown(e.status, e.message, e.details)
    ensures !response.ok && response.status == 401 ==> store.token.None?
    ensures !(!response.ok && response.status == 401) ==> store.token == old(store.token)
    ensures redirect.Some? <==> !response.ok && response.status == 401 && !OnAuthPage(pathname)
    ensures redirect.Some? ==> redirect.value == "/login"
    ensures response.ok && response.status == 204 ==> outcome == NoContent
    ensures response.ok && response.status != 204 ==> outcome == Json(response.json)
  {
    redirect := None;
    if !response.ok {
      var e := ParseErrorResponse(response.status, response.statusText, response.errorBody);
      if response.status == 401 {
        store.ClearToken();
        if !OnAuthPage(pathname) {
          redirect := Some("/login");
        }
      }
      outcome := Thrown(e.status, e.message, e.details);
      return;
    }
    if response.status == 204 {
      outcome := NoContent;
      return;
    }
    outcome := Json(response.json);
  }
}
