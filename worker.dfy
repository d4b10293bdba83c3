/**
 * The Worker's router and its OAuth 2.0 authorization-code steps
 * (section 4.1 of RFC 6749): `/auth` redirects to the authorization
 * endpoint, `/callback` reads the `code` or `error` parameters and asks
 * for the token exchange. The vendor client is outside the model: the
 * configuration it is built with is an output, its exchange result an
 * input, and the exchange request is reported (`None` when none is made).
 */
module Worker {
  import opened Wrappers

  /** The scopes the authorization step requests. */
  const Scopes: seq<string> := ["openid", "profile", "w_member_social"]

  /** The Worker's bindings; an unset binding is `None`. */
  datatype Env = Env(clientId: Option<string>, clientSecret: Option<string>, redirectUrl: Option<string>)

  /** A request: its origin, its path and its query (the first value of each name). */
  datatype Request = Request(origin: string, path: string, query: map<string, string>)

  /** The configuration the vendor's authorization client is built with. */
  datatype ClientConfig = ClientConfig(clientId: Option<string>, clientSecret: Option<string>, redirectUrl: Option<string>)

  /** What the token endpoint answered; absent fields are `None`. */
  datatype TokenData = TokenData(accessToken: Option<string>, expiresIn: Option<int>, errorDescription: Option<string>)

  /** The outcome of the code exchange: the token data, or the message of the error it threw. */
  datatype Exchange = Exchanged(data: TokenData) | ExchangeThrew(message: string)

  /** A code exchange the callback asks for. */
  datatype ExchangeRequest = ExchangeRequest(client: ClientConfig, code: string)

  /**
   * The pages the Worker answers with; the HTML around them is presentation.
   * `TokenPage` is the success page as written, which shows no token data;
   * `TokenDataPage` is the success page that shows it.
   */
  datatype Page =
    | HomePage
    | AuthorizationRedirect(client: ClientConfig, scopes: seq<string>)
    | TokenPage
    | TokenDataPage(data: TokenData)
    | ErrorPage(error: string, description: Option<string>)
    | NotFoundText

  datatype Response = Response(status: int, page: Page)

  /** A response together with the code exchange made while producing it, if any. */
  datatype Outcome = Outcome(response: Response, exchanged: Option<ExchangeRequest>)

  /** The redirect URI of the authorization step: `REDIRECT_URL`, or this origin's `/callback`. */
  function RedirectUri(request: Request, env: Env): (uri: Option<string>)
    ensures Truthy(uri)
    ensures Truthy(env.redirectUrl) ==> uri == env.redirectUrl
    ensures !Truthy(env.redirectUrl) ==> uri == Some(request.origin + "/callback")
  {
    if Truthy(env.redirectUrl) then env.redirectUrl else Some(request.origin + "/callback")
  }

  /** `handleAuth`: a 302 redirect to the authorization endpoint for exactly the three scopes. */
  function HandleAuth(request: Request, env: Env): (r: Response)
    ensures r.status == 302 && r.page.AuthorizationRedirect?
    ensures r.page.scopes == ["openid", "profile", "w_member_social"]
    ensures r.page.client.clientId == env.clientId && r.page.client.clientSecret == env.clientSecret
    ensures Truthy(r.page.client.redirectUrl)
    ensures Truthy(env.redirectUrl) ==> r.page.client.redirectUrl == env.redirectUrl
  {
    Response(302, AuthorizationRedirect(ClientConfig(env.clientId, env.clientSecret, RedirectUri(request, env)), Scopes))
  }

  /** `exchangeCodeForToken` as written: the client takes `REDIRECT_URL` alone, with no fallback. */
  function ExchangeClientAsWritten(env: Env): (c: ClientConfig)
    ensures c.clientId == env.clientId && c.clientSecret == env.clientSecret
    ensures c.redirectUrl == env.redirectUrl
  {
    ClientConfig(env.clientId, env.clientSecret, env.redirectUrl)
  }

  /** The exchange client with the fallback the authorization step uses. */
  function ExchangeClient(request: Request, env: Env): (c: ClientConfig)
    ensures c.clientId == env.clientId && c.clientSecret == env.clientSecret
    ensures c.redirectUrl == RedirectUri(request, env)
  {
    ClientConfig(env.clientId, env.clientSecret, RedirectUri(request, env))
  }

  /** `tokenResponse` as written: a 200 success page that shows none of the token data. */
  function TokenResponseAsWritten(data: TokenData): (r: Response)
    ensures r.status == 200 && r.page.TokenPage?
  {
    Response(200, TokenPage)
  }

  /** The success page as written is the same for every token: the token cannot be read off it. */
  lemma TokenPageOmitsToken(d1: TokenData, d2: TokenData)
    ensures TokenResponseAsWritten(d1) == TokenResponseAsWritten(d2)
  {
  }

  /** The success page that shows the token data it is given. */
  function TokenResponse(data: TokenData): (r: Response)
    ensures r.status == 200 && r.page.TokenDataPage? && r.page.data == data
  {
    Response(200, TokenDataPage(data))
  }

  /** Corrected: distinct token data give distinct success pages, so the token reaches the user. */
  lemma TokenResponseShowsToken(d1: TokenData, d2: TokenData)
    requires d1 != d2
    ensures TokenResponse(d1) != TokenResponse(d2)
  {
  }

  /** `errorResponse`: always status 400; the description is shown only when it is not empty. */
  function ErrorResponse(error: string, description: Option<string>): (r: Response)
    ensures r.status == 400 && r.page.ErrorPage? && r.page.error == error
    ensures r.page.description.Some? <==> Truthy(description)
    ensures r.page.description.Some? ==> r.page.description == description
  {
    Response(400, ErrorPage(error, if Truthy(description) then description else None))
  }

  /**
   * The steps of the callback, for a given exchange client and success
   * page: an `error` parameter wins over `code`; a missing code ends the
   * step; otherwise the code is exchanged and the answer depends on what
   * the token endpoint returned. `showToken` picks the success page that
   * shows the token data over the one as written.
   */
  function Callback(query: map<string, string>, client: ClientConfig, exchange: Exchange, showToken: bool): (r: Outcome)
    ensures var error := Get(query, "error");
            Truthy(error) ==> r == Outcome(ErrorResponse("OAuth error: " + error.value, Get(query, "error_description")), None)
    ensures !Truthy(Get(query, "error")) && !Truthy(Get(query, "code")) ==>
              r == Outcome(ErrorResponse("Missing authorization code", None), None)
    ensures r.exchanged.Some? <==> !Truthy(Get(query, "error")) && Truthy(Get(query, "code"))
    ensures r.exchanged.Some? ==> r.exchanged.value == ExchangeRequest(client, query["code"])
    ensures r.exchanged.Some? && exchange.ExchangeThrew? ==>
              r.response == ErrorResponse("Failed to exchange code for token", Some(exchange.message))
    ensures r.exchanged.Some? && exchange.Exchanged? && !Truthy(exchange.data.accessToken) ==>
              r.response == ErrorResponse("Failed to obtain access token", exchange.data.errorDescription)
    ensures r.exchanged.Some? && exchange.Exchanged? && Truthy(exchange.data.accessToken) ==>
              r.response == if showToken then TokenResponse(exchange.data) else TokenResponseAsWritten(exchange.data)
  {
    var code := Get(query, "code");
    var error := Get(query, "error");
    if Truthy(error) then
      Outcome(ErrorResponse("OAuth error: " + error.value, Get(query, "error_description")), None)
    else if !Truthy(code) then
      Outcome(ErrorResponse("Missing authorization code", None), None)
    else
      var sent := Some(ExchangeRequest(client, code.value));
      match exchange
      case ExchangeThrew(message) =>
        Outcome(ErrorResponse("Failed to exchange code for token", Some(message)), sent)
      case Exchanged(data) =>
        if !Truthy(data.accessToken) then
          Outcome(ErrorResponse("Failed to obtain access token", data.errorDescription), sent)
        else
          Outcome(if showToken then TokenResponse(data) else TokenResponseAsWritten(data), sent)
  }

  /**
   * `handleCallback` as written: the code is exchanged with the client of
   * `exchangeCodeForToken` (no redirect fallback), and success answers the
   * page that shows no token data.
   */
  function HandleCallback(request: Request, env: Env, exchange: Exchange): (r: Outcome)
    ensures r == Callback(request.query, ExchangeClientAsWritten(env), exchange, false)
    ensures r.exchanged.Some? ==> r.exchanged.value.client.redirectUrl == env.redirectUrl
    ensures r.response.page.TokenPage? ==>
              r.exchanged.Some? && exchange.Exchanged? && Truthy(exchange.data.accessToken)
  {
    Callback(request.query, ExchangeClientAsWritten(env), exchange, false)
  }

  /**
   * `handleCallback` as evidently intended: the exchange names the redirect
   * URI of the authorization step, and success shows the token data.
   */
  function HandleCallbackCorrected(request: Request, env: Env, exchange: Exchange): (r: Outcome)
    ensures r == Callback(request.query, ExchangeClient(request, env), exchange, true)
    ensures r.response.page.TokenDataPage? ==>
              r.exchanged.Some? && exchange.Exchanged? && Truthy(exchange.data.accessToken)
              && r.response.page.data == exchange.data
  {
    Callback(request.query, ExchangeClient(request, env), exchange, true)
  }

  /** The callback's answer to an OAuth error does not depend on any exchange: none is made. */
  lemma OAuthErrorIgnoresExchange(request: Request, env: Env, x1: Exchange, x2: Exchange)
    requires Truthy(Get(request.query, "error"))
    ensures HandleCallback(request, env, x1) == HandleCallback(request, env, x2)
    ensures HandleCallback(request, env, x1).response.status == 400
  {
  }

  /** The `fetch` entry point: dispatch on the path, `404 Not Found` for any other path. */
  function Fetch(request: Request, env: Env, exchange: Exchange): (r: Outcome)
    ensures r.exchanged.Some? ==> request.path == "/callback"
    ensures request.path == "/" ==> r == Outcome(Response(200, HomePage), None)
    ensures request.path == "/auth" ==> r == Outcome(HandleAuth(request, env), None)
    ensures request.path == "/callback" ==> r == HandleCallback(request, env, exchange)
    ensures request.path != "/" && request.path != "/auth" && request.path != "/callback" ==>
              r == Outcome(Response(404, NotFoundText), None)
  {
    match request.path
    case "/" => Outcome(Response(200, HomePage), None)
    case "/auth" => Outcome(HandleAuth(request, env), None)
    case "/callback" => HandleCallback(request, env, exchange)
    case _ => Outcome(Response(404, NotFoundText), None)
  }

  /**
   * Every answer of the Worker is a page, a redirect, an error page or the
   * 404 text, and the success page appears only for a code exchanged on
   * `/callback` for which the token endpoint returned an access token.
   */
  lemma FetchOutcomes(request: Request, env: Env, exchange: Exchange)
    ensures var r := Fetch(request, env, exchange);
            r.response.status in {200, 302, 400, 404}
    ensures var r := Fetch(request, env, exchange);
            r.response.page.TokenPage? ==>
              && request.path == "/callback" && r.exchanged.Some?
              && exchange.Exchanged? && Truthy(exchange.data.accessToken)
    ensures !Fetch(request, env, exchange).response.page.TokenDataPage?
  {
  }

  /**
   * As written, end to end: without `REDIRECT_URL`, the `/callback` request
   * that follows an `/auth` redirect from the same origin exchanges its
   * code naming a different redirect URI (none) than `/auth` sent, which
   * the token endpoint rejects.
   */
  lemma AsWrittenExchangeMismatch(auth: Request, callback: Request, env: Env, exchange: Exchange)
    requires auth.path == "/auth" && callback.path == "/callback" && auth.origin == callback.origin
    requires !Truthy(env.redirectUrl)
    requires !Truthy(Get(callback.query, "error")) && Truthy(Get(callback.query, "code"))
    ensures Fetch(auth, env, exchange).response.page.AuthorizationRedirect?
    ensures Fetch(callback, env, exchange).exchanged.Some?
    ensures Fetch(callback, env, exchange).exchanged.value.client.redirectUrl
            != Fetch(auth, env, exchange).response.page.client.redirectUrl
  {
  }

  /**
   * Corrected: for an `/auth` and a `/callback` request from the same
   * origin, the code exchange names exactly the client and redirect URI of
   * the authorization request, whatever the bindings.
   */
  lemma ExchangeMatchesAuthorization(auth: Request, callback: Request, env: Env, exchange: Exchange)
    requires auth.origin == callback.origin
    ensures var r := HandleCallbackCorrected(callback, env, exchange);
            r.exchanged.Some? ==> r.exchanged.value.client == HandleAuth(auth, env).page.client
  {
  }
}
