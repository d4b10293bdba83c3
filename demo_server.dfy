/**
 * The stand-alone demo server: one process-wide access-token slot, empty
 * until `/oauth` stores a token and emptied again by `/logout`; `/` sends
 * the user to the authorization endpoint while the slot is empty and shows
 * the profile otherwise. The vendor client's calls are inputs.
 */
module DemoServer {
  import opened Wrappers

  /** The scopes the authorization redirect requests. */
  const Scopes: seq<string> := ["openid", "profile", "w_member_social"]

  /** The three settings the server needs at start-up. */
  datatype Config = Config(clientId: string, clientSecret: string, redirectUrl: string)

  /** The start-up check: the server runs only when all three settings are set and not empty. */
  function LoadConfig(env: map<string, string>): (r: Option<Config>)
    ensures r.Some? <==>
              Truthy(Get(env, "CLIENT_ID")) && Truthy(Get(env, "CLIENT_SECRET")) && Truthy(Get(env, "OAUTH2_REDIRECT_URL"))
    ensures r.Some? ==>
              r.value == Config(env["CLIENT_ID"], env["CLIENT_SECRET"], env["OAUTH2_REDIRECT_URL"])
              && r.value.clientId != "" && r.value.clientSecret != "" && r.value.redirectUrl != ""
  {
    if !Truthy(Get(env, "CLIENT_ID")) || !Truthy(Get(env, "CLIENT_SECRET")) || !Truthy(Get(env, "OAUTH2_REDIRECT_URL"))
    then None
    else Some(Config(env["CLIENT_ID"], env["CLIENT_SECRET"], env["OAUTH2_REDIRECT_URL"]))
  }

  /** The authorization URL the vendor client generates is determined by these. */
  datatype AuthorizationRequest = AuthorizationRequest(clientId: string, redirectUrl: string, scopes: seq<string>)

  /** The token endpoint's answer; an absent field is `None`. */
  datatype TokenResponse = TokenResponse(accessToken: Option<string>, expiresIn: Option<int>)

  /** The outcome of the code exchange: the token response, or the message of the error it threw. */
  datatype Exchange = Exchanged(response: TokenResponse) | ExchangeThrew(message: string)

  /** The outcome of the profile fetch: the profile data, or the message of the error it threw. */
  datatype ProfileFetch = Profile(data: string) | ProfileThrew(message: string)

  /** What a route answers: a redirect, the authorization redirect, the profile page or a text. */
  datatype Reply =
    | Redirect(location: string)
    | AuthorizationRedirect(request: AuthorizationRequest)
    | ProfilePage(data: string)
    | Text(message: string)

  /** The text `/oauth` answers an OAuth error with: the description, or the error code when it has none. */
  function AuthorizationErrorText(query: map<string, string>): (text: string)
    requires Truthy(Get(query, "error"))
    ensures Truthy(Get(query, "error_description")) ==>
              text == "Authorization error: " + query["error_description"]
    ensures !Truthy(Get(query, "error_description")) ==>
              text == "Authorization error: " + query["error"]
  {
    var description := Get(query, "error_description");
    "Authorization error: " + (if Truthy(description) then description.value else query["error"])
  }

  /** The running server and its token slot; `""` is the empty slot. */
  class Server {
    const config: Config
    var accessToken: string

    /** Start-up: the slot begins empty. */
    constructor (config: Config)
      ensures this.config == config && accessToken == ""
    {
      this.config := config;
      accessToken := "";
    }

    /** The slot holds a token. */
    predicate Authenticated()
      reads this
    {
      accessToken != ""
    }

    /** The redirect `/` sends while the slot is empty. */
    function SignIn(): (reply: Reply)
      ensures reply.AuthorizationRedirect?
      ensures reply.request.scopes == ["openid", "profile", "w_member_social"]
      ensures reply.request.clientId == config.clientId && reply.request.redirectUrl == config.redirectUrl
    {
      AuthorizationRedirect(AuthorizationRequest(config.clientId, config.redirectUrl, Scopes))
    }

    /**
     * `GET /`: sign in while the slot is empty, else show the profile
     * fetched with the token; `fetchedWith` is the token the profile fetch
     * is made with, `None` when no fetch is made.
     */
    method Home(profile: ProfileFetch) returns (reply: Reply, fetchedWith: Option<string>)
      ensures fetchedWith.Some? <==> Authenticated()
      ensures fetchedWith.Some? ==> fetchedWith.value == accessToken
      ensures !Authenticated() ==> reply == SignIn()
      ensures Authenticated() && profile.Profile? ==> reply == ProfilePage(profile.data)
      ensures Authenticated() && profile.ProfileThrew? ==>
                reply == Text("Error fetching profile: " + profile.message + "<br><br>Check console for details.")
    {
      if accessToken == "" {
        reply, fetchedWith := SignIn(), None;
      } else {
        fetchedWith := Some(accessToken);
        match profile
        case Profile(data) =>
          reply := ProfilePage(data);
        case ProfileThrew(message) =>
          reply := Text("Error fetching profile: " + message + "<br><br>Check console for details.");
      }
    }

    /**
     * `GET /oauth`: the callback. Only a successful exchange changes the
     * slot; `exchanged` is the code handed to the exchange, if any.
     */
    method OAuth(query: map<string, string>, exchange: Exchange) returns (reply: Reply, exchanged: Option<string>)
      modifies this
      ensures Truthy(Get(query, "error")) ==>
                accessToken == old(accessToken) && exchanged == None && reply == Text(AuthorizationErrorText(query))
      ensures !Truthy(Get(query, "error")) && !Truthy(Get(query, "code")) ==>
                accessToken == old(accessToken) && exchanged == None && reply == Text("No authorization code received")
      ensures exchanged.Some? <==> !Truthy(Get(query, "error")) && Truthy(Get(query, "code"))
      ensures exchanged.Some? ==> exchanged.value == query["code"]
      ensures exchanged.Some? && exchange.Exchanged? ==>
                accessToken == exchange.response.accessToken.GetOr("") && reply == Redirect("/")
      ensures exchanged.Some? && exchange.ExchangeThrew? ==>
                accessToken == old(accessToken) && reply == Text("Error exchanging authorization code: " + exchange.message)
    {
      var code, error := Get(query, "code"), Get(query, "error");
      if Truthy(error) {
        return Text(AuthorizationErrorText(query)), None;
      }
      if !Truthy(code) {
        return Text("No authorization code received"), None;
      }
      exchanged := Some(code.value);
      match exchange
      case Exchanged(response) =>
        accessToken := response.accessToken.GetOr("");
        reply := Redirect("/");
      case ExchangeThrew(message) =>
        reply := Text("Error exchanging authorization code: " + message);
    }

    /** `GET /logout`: empties the slot whatever it held, so a second logout changes nothing. */
    method Logout() returns (reply: Reply)
      modifies this
      ensures accessToken == "" && !Authenticated()
      ensures reply == Redirect("/")
    {
      accessToken := "";
      reply := Redirect("/");
    }
  }

  /** Logging out and following the redirect to `/` always leads to the sign-in redirect, with no profile fetch. */
  method LogoutThenHome(server: Server, profile: ProfileFetch) returns (reply: Reply, fetchedWith: Option<string>)
    modifies server
    ensures !server.Authenticated()
    ensures reply == server.SignIn()
    ensures fetchedWith == None
  {
    var toHome := server.Logout();
    assert toHome == Redirect("/");
    reply, fetchedWith := server.Home(profile);
  }
}
