/**
 * The post handler of the Worker: the `session_id` cookie lookup, the
 * session gate, the post entity it sends to the posts endpoint and the
 * reply it builds from the endpoint's answer. The session store, the
 * profile fetch and the posts call are inputs; the handler's outgoing
 * post call is an output, `None` when no post is attempted.
 */
module PostHandler {
  import opened Wrappers
  import opened JsStrings

  // ---------------------------------------------------------------------
  // Cookie lookup (a simplified reading of the Cookie request header)
  // ---------------------------------------------------------------------

  /** Each piece trimmed, `pieces.map(c => c.trim())`. */
  function TrimAll(pieces: seq<string>): (trimmed: seq<string>)
    ensures |trimmed| == |pieces|
    ensures forall k :: 0 <= k < |pieces| ==> trimmed[k] == Trim(pieces[k])
  {
    if |pieces| == 0 then [] else [Trim(pieces[0])] + TrimAll(pieces[1..])
  }

  /** The `;`-separated pieces of a Cookie header, each trimmed. */
  function CookiePairs(header: string): (pairs: seq<string>)
    ensures |pairs| == |Split(header, ';')| >= 1
    ensures forall k :: 0 <= k < |pairs| ==> ';' !in pairs[k]
  {
    SplitPiecesLackSeparator(header, ';');
    TrimAllKeepsOut(Split(header, ';'), ';');
    TrimAll(Split(header, ';'))
  }

  /** Trimming never brings in a character the pieces lack. */
  lemma TrimAllKeepsOut(pieces: seq<string>, c: char)
    requires forall k :: 0 <= k < |pieces| ==> c !in pieces[k]
    ensures forall k :: 0 <= k < |pieces| ==> c !in TrimAll(pieces)[k]
  {
    forall k | 0 <= k < |pieces|
      ensures c !in TrimAll(pieces)[k]
    {
      TrimKeepsOut(pieces[k], c);
    }
  }

  /** The key of a pair: its text before the first `=`. */
  function CookieKey(pair: string): (key: string)
    ensures '=' !in key && key <= pair
  {
    SplitHead(pair, '=');
    Split(pair, '=')[0]
  }

  /** The value of a pair, `const [key, value] = pair.split('=')`: `None` (undefined) without an `=`. */
  function CookieValue(pair: string): (value: Option<string>)
    ensures value.Some? <==> '=' in pair
    ensures value.Some? ==> '=' !in value.value
  {
    var parts := Split(pair, '=');
    if |parts| >= 2 then
      SplitHead(pair[IndexOf(pair, '=') + 1..], '=');
      Some(parts[1])
    else
      IndexOfFirst(pair, '=');
      None
  }

  /** Index of the first pair whose key is exactly `name`, or `|pairs|` when none is. */
  function FirstMatch(pairs: seq<string>, name: string): (i: nat)
    ensures i <= |pairs|
    ensures forall j :: 0 <= j < i ==> CookieKey(pairs[j]) != name
    ensures i < |pairs| ==> CookieKey(pairs[i]) == name
  {
    if |pairs| == 0 then 0
    else if CookieKey(pairs[0]) == name then 0
    else 1 + FirstMatch(pairs[1..], name)
  }

  /**
   * What `getCookie` returns for a header (absent: `None`) and a cookie
   * name: `None` stands for both `null` and `undefined`.
   */
  function CookieLookup(header: Option<string>, name: string): (r: Option<string>)
    ensures !Truthy(header) ==> r == None
  {
    if !Truthy(header) then None
    else
      var pairs := CookiePairs(header.value);
      var i := FirstMatch(pairs, name);
      if i < |pairs| then CookieValue(pairs[i]) else None
  }

  /** `getCookie(request, name)`: scans the trimmed pairs and returns at the first key match. */
  method GetCookie(header: Option<string>, name: string) returns (value: Option<string>)
    ensures value == CookieLookup(header, name)
  {
    if header.None? || header.value == "" {
      return None;
    }
    var cookies := CookiePairs(header.value);
    var k := 0;
    while k < |cookies|
      invariant k <= |cookies|
      invariant forall j :: 0 <= j < k ==> CookieKey(cookies[j]) != name
    {
      var parts := Split(cookies[k], '=');
      if parts[0] == name {
        assert CookieLookup(header, name) == CookieValue(cookies[k]) by {
          assert FirstMatch(cookies, name) == k;
        }
        return if |parts| >= 2 then Some(parts[1]) else None;
      }
      k := k + 1;
    }
    assert FirstMatch(cookies, name) == |cookies|;
    return None;
  }

  /** The key is the text of the pair up to its first `=` (or all of it), and holds no `=`. */
  lemma CookieKeyBeforeFirstEquals(pair: string)
    ensures '=' !in CookieKey(pair)
    ensures CookieKey(pair) == pair[..|CookieKey(pair)|]
    ensures |CookieKey(pair)| == |pair| || pair[|CookieKey(pair)|] == '='
  {
    SplitHead(pair, '=');
  }

  /**
   * The value is `None` exactly when the pair has no `=`; otherwise it is
   * the text between the first `=` and the next `=` (or the end).
   */
  lemma CookieValueBetweenEquals(pair: string)
    ensures CookieValue(pair).None? <==> '=' !in pair
    ensures CookieValue(pair).Some? ==>
              var key, v := CookieKey(pair), CookieValue(pair).value;
              var end := |key| + 1 + |v|;
              '=' !in v && end <= |pair| && pair[..end] == key + "=" + v
              && (end == |pair| || pair[end] == '=')
  {
    var i := IndexOf(pair, '=');
    SplitHead(pair, '=');
    if i < |pair| {
      var rest := pair[i + 1..];
      assert Split(pair, '=') == [pair[..i]] + Split(rest, '=');
      SplitHead(rest, '=');
      var j := IndexOf(rest, '=');
      assert pair[..i + 1 + j] == pair[..i] + "=" + rest[..j];
    } else {
      assert Split(pair, '=') == [pair];
    }
  }

  /** A pair `k=v=rest` with no `=` in `k` or `v` has key `k` and value `v`. */
  lemma {:induction false} CookiePairParts(k: string, v: string, rest: string)
    requires '=' !in k && '=' !in v
    ensures CookieKey(k + "=" + v) == k && CookieValue(k + "=" + v) == Some(v)
    ensures CookieKey(k + "=" + v + "=" + rest) == k
    ensures CookieValue(k + "=" + v + "=" + rest) == Some(v)
  {
    var p := k + "=" + v;
    FirstSeparator(k, '=', v);
    assert p[..|k|] == k && p[|k| + 1..] == v;
    assert Split(v, '=') == [v] by { assert IndexOf(v, '=') == |v|; }
    assert Split(p, '=') == [k, v];
    var tail := v + "=" + rest;
    var q := k + "=" + v + "=" + rest;
    FirstSeparator(k, '=', tail);
    assert q == k + "=" + tail;
    assert q[..|k|] == k && q[|k| + 1..] == tail;
    FirstSeparator(v, '=', rest);
    assert tail[..|v|] == v;
    assert Split(tail, '=') == [v] + Split(rest, '=');
    assert Split(q, '=') == [k] + Split(tail, '=');
  }

  /** `getCookie` returns the value of the first pair whose key is exactly `name`. */
  lemma LookupFindsFirstMatch(header: string, name: string, i: nat)
    requires header != ""
    requires i < |CookiePairs(header)| && CookieKey(CookiePairs(header)[i]) == name
    requires forall j :: 0 <= j < i ==> CookieKey(CookiePairs(header)[j]) != name
    ensures CookieLookup(Some(header), name) == CookieValue(CookiePairs(header)[i])
  {
    var m := FirstMatch(CookiePairs(header), name);
    assert m == i;
  }

  /** When no pair has key `name`, `getCookie` returns null. */
  lemma LookupMissesWithoutKey(header: string, name: string)
    requires forall j :: 0 <= j < |CookiePairs(header)| ==> CookieKey(CookiePairs(header)[j]) != name
    ensures CookieLookup(Some(header), name) == None
  {
    var m := FirstMatch(CookiePairs(header), name);
  }

  /** A first match inside a prefix stays the first match after anything is appended. */
  lemma FirstMatchInPrefix(p: seq<string>, q: seq<string>, name: string)
    requires FirstMatch(p, name) < |p|
    ensures FirstMatch(p + q, name) == FirstMatch(p, name)
  {
    var i := FirstMatch(p, name);
    assert (p + q)[i] == p[i];
    assert forall j :: 0 <= j < i ==> (p + q)[j] == p[j];
    var m := FirstMatch(p + q, name);
  }

  /** Trimming pieces one by one commutes with concatenation. */
  lemma {:induction false} TrimAllAppend(a: seq<string>, b: seq<string>)
    ensures TrimAll(a + b) == TrimAll(a) + TrimAll(b)
  {
    if |a| > 0 {
      assert (a + b)[1..] == a[1..] + b;
      TrimAllAppend(a[1..], b);
    } else {
      assert a + b == b;
    }
  }

  /** The pairs of two headers joined by `;` are the pairs of each. */
  lemma CookiePairsAppend(h1: string, h2: string)
    ensures CookiePairs(h1 + ";" + h2) == CookiePairs(h1) + CookiePairs(h2)
  {
    assert h1 + ";" + h2 == h1 + [';'] + h2;
    SplitAppend(h1, ';', h2);
    TrimAllAppend(Split(h1, ';'), Split(h2, ';'));
  }

  /** A later pair with the same key never changes what `getCookie` returns. */
  lemma LaterPairsIgnored(h1: string, h2: string, name: string)
    requires h1 != ""
    requires FirstMatch(CookiePairs(h1), name) < |CookiePairs(h1)|
    ensures CookieLookup(Some(h1 + ";" + h2), name) == CookieLookup(Some(h1), name)
  {
    CookiePairsAppend(h1, h2);
    FirstMatchInPrefix(CookiePairs(h1), CookiePairs(h2), name);
  }

  /** Only whole pairs are trimmed: in `a =b` the key is `a ` (with the space), so `a` is not found. */
  lemma SpaceBeforeEqualsIsPartOfKey()
    ensures CookieLookup(Some("a =b"), "a") == None
  {
    var h := "a =b";
    assert h == "a " + "=" + "b";
    assert !IsWhitespace(h[0]) && !IsWhitespace(h[3]);
    assert Trim(h) == h;
    assert ';' !in h;
    assert IndexOf(h, ';') == |h|;
    assert CookiePairs(h) == [h];
    CookiePairParts("a ", "b", "");
    assert CookieKey(h) != "a";
    LookupMissesWithoutKey(h, "a");
  }

  // ---------------------------------------------------------------------
  // The post handler
  // ---------------------------------------------------------------------

  const SessionCookie := "session_id"
  const DefaultContent := "Hello LinkedIn! This is a test post created via Cloudflare Workers API."
  const PersonUrnPrefix := "urn:li:person:"
  const ViewUrlPrefix := "https://www.linkedin.com/feed/update/"

  /** A JSON value as the handler sees it; numbers are integers here. */
  datatype JsValue = Undefined | Null | Bool(b: bool) | Number(n: int) | Str(s: string) | Object

  /** JavaScript truthiness. */
  predicate IsTruthy(v: JsValue) {
    match v
    case Bool(b) => b
    case Number(n) => n != 0
    case Str(s) => s != ""
    case Object => true
    case _ => false
  }

  /**
   * An incoming request: its method, its Cookie header and its body parsed
   * as a JSON object (`None` when parsing fails or the value is not an object).
   */
  datatype Request = Request(httpMethod: string, cookie: Option<string>, body: Option<map<string, JsValue>>)

  /** A session record read from the key-value store. */
  datatype Session = Session(accessToken: Option<string>)

  /** The outcome of the profile fetch: a profile (with `sub` if present), a non-ok reply's text, or a thrown error. */
  datatype ProfileFetch = ProfileOk(sub: Option<string>) | ProfileNotOk(text: string) | ProfileThrew(message: string)

  /** A reply of the posts endpoint; header names are lower case. */
  datatype ApiResponse = ApiResponse(status: int, text: string, headers: map<string, string>)

  /** The outcome of the posts call. */
  datatype PostFetch = Responded(response: ApiResponse) | PostThrew(message: string)

  datatype Distribution = Distribution(
    feedDistribution: string,
    targetEntities: seq<string>,
    thirdPartyDistributionChannels: seq<string>)

  /** The post entity sent to the posts endpoint. */
  datatype Post = Post(
    author: string,
    lifecycleState: string,
    visibility: string,
    commentary: JsValue,
    distribution: Distribution)

  /** A call to the posts endpoint: the bearer token and the entity. */
  datatype PostCall = PostCall(accessToken: string, post: Post)

  /** The JSON bodies the handler replies with. */
  datatype Body =
    | ErrorBody(error: string)
    | FailureBody(error: string, status: int, details: string)
    | InternalErrorBody(message: string)
    | SuccessBody(postId: string, message: string, viewUrl: string)

  datatype Reply = Reply(status: int, body: Body)

  /** The key-value store key of a session. */
  function SessionKey(sessionId: string): string {
    "session:" + sessionId
  }

  /** The access token the session gate lets through: `None` for a missing cookie, session or token. */
  function SessionToken(cookie: Option<string>, store: map<string, Session>): (token: Option<string>)
    ensures token.Some? ==> token.value != ""
    ensures token.Some? ==> Truthy(CookieLookup(cookie, SessionCookie))
    ensures token.Some? ==>
              var session := Get(store, SessionKey(CookieLookup(cookie, SessionCookie).value));
              session.Some? && session.value.accessToken == token
    ensures Truthy(CookieLookup(cookie, SessionCookie)) ==>
              var session := Get(store, SessionKey(CookieLookup(cookie, SessionCookie).value));
              (token.None? <==> session.None? || !Truthy(session.value.accessToken))
  {
    var sid := CookieLookup(cookie, SessionCookie);
    if !Truthy(sid) then None
    else
      match Get(store, SessionKey(sid.value))
      case None => None
      case Some(session) => if Truthy(session.accessToken) then session.accessToken else None
  }

  /** The `content` field of the parsed body, `Undefined` when there is none. */
  function RequestedContent(request: Request): JsValue {
    if request.body.Some? && "content" in request.body.value then request.body.value["content"]
    else Undefined
  }

  /** The commentary of the post: the request's truthy `content` on a POST, the default text otherwise. */
  function PostContent(request: Request): (c: JsValue)
    ensures IsTruthy(c)
    ensures request.httpMethod == "POST" && IsTruthy(RequestedContent(request)) ==> c == RequestedContent(request)
    ensures !(request.httpMethod == "POST" && IsTruthy(RequestedContent(request))) ==> c == Str(DefaultContent)
  {
    if request.httpMethod == "POST" && IsTruthy(RequestedContent(request)) then RequestedContent(request)
    else Str(DefaultContent)
  }

  /** The person URN of a profile subject, as the template literal renders it (`undefined` when absent). */
  function PersonUrn(sub: Option<string>): (urn: string)
    ensures PersonUrnPrefix <= urn
    ensures sub.None? ==> urn == "urn:li:person:undefined"
  {
    PersonUrnPrefix + sub.GetOr("undefined")
  }

  /** Reads the subject back out of a person URN. */
  function UrnSubject(urn: string): Option<string> {
    if |PersonUrnPrefix| <= |urn| && urn[..|PersonUrnPrefix|] == PersonUrnPrefix
    then Some(urn[|PersonUrnPrefix|..])
    else None
  }

  /** The subject is recoverable from the URN, so distinct subjects give distinct authors. */
  lemma UrnRoundTrip(sub: string)
    ensures UrnSubject(PersonUrn(Some(sub))) == Some(sub)
  {
  }

  /** The post entity built for a profile subject and a commentary. */
  function NewPost(sub: Option<string>, content: JsValue): (p: Post)
    ensures UrnSubject(p.author) == Some(sub.GetOr("undefined"))
    ensures p.commentary == content
    ensures p.lifecycleState == "PUBLISHED" && p.visibility == "PUBLIC"
    ensures p.distribution.feedDistribution == "MAIN_FEED"
    ensures p.distribution.targetEntities == [] && p.distribution.thirdPartyDistributionChannels == []
  {
    UrnRoundTrip(sub.GetOr("undefined"));
    Post(
      author := PersonUrn(sub),
      lifecycleState := "PUBLISHED",
      visibility := "PUBLIC",
      commentary := content,
      distribution := Distribution("MAIN_FEED", [], []))
  }

  /** `response.ok`: a status in the 2xx range. */
  predicate IsOk(status: int)
    ensures IsOk(status) <==> status / 100 == 2
  {
    200 <= status <= 299
  }

  /** The message of the error the profile fetch throws. */
  function ProfileFailure(profile: ProfileFetch): (message: string)
    requires !profile.ProfileOk?
    ensures profile.ProfileThrew? ==> message == profile.message
    ensures profile.ProfileNotOk? ==> "Profile fetch failed: " <= message && message[22..] == profile.text
  {
    match profile
    case ProfileNotOk(text) => "Profile fetch failed: " + text
    case ProfileThrew(message) => message
  }

  /** The text after the last `/` of `s` (all of `s` when it has none). */
  function LastSegment(s: string): (seg: string)
    ensures '/' !in seg
    ensures |seg| <= |s| && seg == s[|s| - |seg|..]
    ensures |seg| == |s| || s[|s| - |seg| - 1] == '/'
  {
    var parts := Split(s, '/');
    SplitLast(s, '/');
    parts[|parts| - 1]
  }

  /** The id header: `x-restli-id`, else `location`, whichever is first truthy. */
  function PostIdHeader(headers: map<string, string>): (h: Option<string>)
    ensures h.Some? ==> h.value != ""
    ensures Truthy(Get(headers, "x-restli-id")) ==> h == Get(headers, "x-restli-id")
    ensures !Truthy(Get(headers, "x-restli-id")) && Truthy(Get(headers, "location")) ==> h == Get(headers, "location")
    ensures h.None? <==> !Truthy(Get(headers, "x-restli-id")) && !Truthy(Get(headers, "location"))
  {
    if Truthy(Get(headers, "x-restli-id")) then Get(headers, "x-restli-id")
    else if Truthy(Get(headers, "location")) then Get(headers, "location")
    else None
  }

  /** The post id: the last `/`-segment of the id header, or `unknown`. */
  function PostId(headers: map<string, string>): (id: string)
    ensures PostIdHeader(headers).None? ==> id == "unknown"
    ensures PostIdHeader(headers).Some? ==>
              var h := PostIdHeader(headers).value;
              '/' !in id && |id| <= |h| && h[|h| - |id|..] == id
              && (|id| == |h| || h[|h| - |id| - 1] == '/')
  {
    match PostIdHeader(headers)
    case None => "unknown"
    case Some(h) => LastSegment(h)
  }

  /** The public URL of a post. */
  function ViewUrl(postId: string): (url: string)
    ensures ViewUrlPrefix <= url && |ViewUrlPrefix| < |url| && url[|url| - 1] == '/'
    ensures url[|ViewUrlPrefix|..|url| - 1] == postId
  {
    ViewUrlPrefix + postId + "/"
  }

  /** The view URL embeds the post id: it is the last segment before the closing `/`. */
  lemma ViewUrlEmbedsPostId(postId: string)
    requires '/' !in postId
    ensures var u := ViewUrl(postId); LastSegment(u[..|u| - 1]) == postId
  {
    var u := ViewUrl(postId);
    var s := u[..|u| - 1];
    assert s == ViewUrlPrefix + postId;
    assert s[|s| - |postId|..] == postId;
    assert s[|s| - |postId| - 1] == '/';
  }

  /** The reply built from what the post request to the API came back with. */
  method PostReply(upstream: PostFetch) returns (reply: Reply)
    ensures upstream.PostThrew? ==> reply == Reply(500, InternalErrorBody(upstream.message))
    ensures upstream.Responded? && !IsOk(upstream.response.status) ==>
              var status := upstream.response.status;
              && reply.status == status
              && reply.body.FailureBody? && reply.body.status == status
              && reply.body.details == upstream.response.text
              && (status == 403 ==> reply.body.error == "Forbidden: Check if w_member_social scope is granted")
              && (status == 422 ==> reply.body.error == "Invalid post data")
              && (status == 401 ==> reply.body.error == "Unauthorized: Token may be expired")
              && (status != 401 && status != 403 && status != 422 ==> reply.body.error == "Failed to create post")
    ensures upstream.Responded? && IsOk(upstream.response.status) ==>
              var id := PostId(upstream.response.headers);
              reply == Reply(200, SuccessBody(id, "Post created successfully", ViewUrl(id)))
  {
    match upstream
    case PostThrew(message) =>
      reply := Reply(500, InternalErrorBody(message));
    case Responded(response) =>
      if !IsOk(response.status) {
        var errorMessage := "Failed to create post";
        if response.status == 403 {
          errorMessage := "Forbidden: Check if w_member_social scope is granted";
        } else if response.status == 422 {
          errorMessage := "Invalid post data";
        } else if response.status == 401 {
          errorMessage := "Unauthorized: Token may be expired";
        }
        reply := Reply(response.status, FailureBody(errorMessage, response.status, response.text));
      } else {
        var postId := PostId(response.headers);
        reply := Reply(200, SuccessBody(postId, "Post created successfully", ViewUrl(postId)));
      }
  }

  /**
   * `handlePost`: the session gate, the post content, the profile and post
   * calls and the reply. `profileToken` is the access token the profile
   * fetch is made with and `sent` the post call made, each `None` when that
   * call is not made.
   */
  method HandlePost(request: Request, store: map<string, Session>, profile: ProfileFetch, upstream: PostFetch)
    returns (reply: Reply, profileToken: Option<string>, sent: Option<PostCall>)
    ensures profileToken == SessionToken(request.cookie, store)
    ensures !Truthy(CookieLookup(request.cookie, SessionCookie)) ==>
              reply == Reply(401, ErrorBody("Not authenticated")) && sent == None
    ensures Truthy(CookieLookup(request.cookie, SessionCookie)) && SessionToken(request.cookie, store).None? ==>
              reply == Reply(401, ErrorBody("Invalid session")) && sent == None
    ensures SessionToken(request.cookie, store).Some? && !profile.ProfileOk? ==>
              reply == Reply(500, InternalErrorBody(ProfileFailure(profile))) && sent == None
    ensures sent.Some? <==> SessionToken(request.cookie, store).Some? && profile.ProfileOk?
    ensures sent.Some? ==>
              sent.value == PostCall(SessionToken(request.cookie, store).value, NewPost(profile.sub, PostContent(request)))
    ensures sent.Some? && upstream.PostThrew? ==> reply == Reply(500, InternalErrorBody(upstream.message))
    ensures sent.Some? && upstream.Responded? && !IsOk(upstream.response.status) ==>
              var status := upstream.response.status;
              && reply.status == status
              && reply.body.FailureBody? && reply.body.status == status
              && reply.body.details == upstream.response.text
              && (status == 403 ==> reply.body.error == "Forbidden: Check if w_member_social scope is granted")
              && (status == 422 ==> reply.body.error == "Invalid post data")
              && (status == 401 ==> reply.body.error == "Unauthorized: Token may be expired")
              && (status != 401 && status != 403 && status != 422 ==> reply.body.error == "Failed to create post")
    ensures sent.Some? && upstream.Responded? && IsOk(upstream.response.status) ==>
              var id := PostId(upstream.response.headers);
              reply == Reply(200, SuccessBody(id, "Post created successfully", ViewUrl(id)))
  {
    sent, profileToken := None, None;
    var sessionId := GetCookie(request.cookie, SessionCookie);
    if sessionId.None? || sessionId.value == "" {
      return Reply(401, ErrorBody("Not authenticated")), None, None;
    }
    var session := Get(store, SessionKey(sessionId.value));
    if session.None? || session.value.accessToken.None? || session.value.accessToken.value == "" {
      return Reply(401, ErrorBody("Invalid session")), None, None;
    }
    var token := session.value.accessToken.value;
    profileToken := Some(token);

    var postContent := Str(DefaultContent);
    if request.httpMethod == "POST" {
      if request.body.Some? && "content" in request.body.value {
        var content := request.body.value["content"];
        if IsTruthy(content) {
          postContent := content;
        }
      }
    }

    if !profile.ProfileOk? {
      return Reply(500, InternalErrorBody(ProfileFailure(profile))), profileToken, None;
    }
    var postData := NewPost(profile.sub, postContent);
    sent := Some(PostCall(token, postData));

    reply := PostReply(upstream);
  }
}
