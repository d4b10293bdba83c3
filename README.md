# LinkedIn OAuth 2.0 proxy — a Dafny model

This project models the decision logic of a small LinkedIn OAuth 2.0
authorization-code client, written in JavaScript. The client has three parts:

- A Cloudflare Worker (`src/index.js`) with four routes:
  - `/` shows a landing page.
  - `/auth` redirects to LinkedIn's authorization endpoint.
  - `/callback` reads `code` or `error` and exchanges the code for an access token. It answers a success page or an error page; as written, the success page does not show the token (see "## Findings").
  - Any other path answers `404 Not Found`.

  Its post handler (`src/handlers/post.js`) works in four steps:
  1. It reads a `session_id` cookie and looks the session up in a key-value store.
  2. It fetches the member's profile.
  3. It sends a post to the posts endpoint.
  4. It maps the endpoint's answer to a JSON reply.
- A stand-alone Express demo (`linkedin-oauth.js`) with one process-wide access-token slot:
  - `/oauth` fills the slot.
  - `/logout` empties it.
  - `/` redirects to sign-in while the slot is empty and shows the profile otherwise.
- A set-up script (`setup-secrets.js`). It parses a `.env` file line by line and refuses to continue unless `CLIENT_ID` and `CLIENT_SECRET` are both set.

The model has one Dafny module per source file. The JavaScript built-ins they rely on sit in shared modules:

- `Wrappers` turns `null` and `undefined` into `None` and gives string truthiness.
- `JsStrings` models `split` with a one-character separator, `join`, and `trim` with the ECMAScript white-space set.

The code exchange, the profile fetches and the post call are each modelled in two ways. What the code sends becomes an output: the code exchanged, the access token a profile is fetched with, or the post call. `None` means the call is not made. The answer the code receives becomes an input: an answer, or the message of an error thrown. The Worker's key-value store is different: it is modelled as a map the handler reads, and the key it reads is the `session:` key of the cookie value.

The code is imperative in three places, and the model keeps that form there:

- `getCookie`'s loop becomes `PostHandler.GetCookie`.
- The `forEach` over the `.env` lines becomes `SetupSecrets.ParseLines`.
- The demo's mutable token slot becomes `DemoServer.Server`.

`GetCookie` and `ParseLines` are proved against the specification functions `CookieLookup` and `LastValue`. The `Server` methods state the new value of the slot and the reply in their `ensures`. `Authenticated` is only the predicate that the slot is not empty.

## Model

| member | source | states |
|---|---|---|
| `JsStrings.IndexFromFirst` | src/handlers/post.js:138 | no separator lies between the starting position and the position the scan stops at |
| `JsStrings.IndexFrom` | src/handlers/post.js:138 | the scan from a position stops at that position or later, at the separator or at the end |
| `JsStrings.IndexOf` | src/handlers/post.js:138 | the position of the first separator found, or the length; a position short of the end holds the separator |
| `JsStrings.IndexOfFirst` | src/handlers/post.js:138 | the position found is the first occurrence; it equals the length exactly when the character does not occur |
| `JsStrings.Split` | src/handlers/post.js:136 | `split` always yields at least one piece |
| `JsStrings.Join` | setup-secrets.js:23 | the joined text starts with the first piece, followed by the separator when there is more than one piece |
| `JsStrings.JoinSplit` | setup-secrets.js:21-23 | joining the pieces of a split with the same separator gives back the original text |
| `JsStrings.SplitJoin` | setup-secrets.js:21-23 | splitting a join of separator-free pieces gives back exactly those pieces |
| `JsStrings.FirstSeparator` | src/handlers/post.js:138 | in `a + sep + b`, with no separator in `a`, the first separator sits right after `a` |
| `JsStrings.IndexOfInPrefix` | src/handlers/post.js:138 | appending text never moves a separator that is already the first one |
| `JsStrings.SplitAtFirst` | src/handlers/post.js:136 | a split is the piece before the first separator followed by the split of the text after it |
| `JsStrings.SplitAround` | src/handlers/post.js:136 | the same, for the first separator at a given position and the given text around it |
| `JsStrings.SplitAppendWhole` | src/handlers/post.js:136 | splitting `a + sep + b`, with `a` separator-free, gives `a` and then the pieces of `b` |
| `JsStrings.SplitAppendStep` | src/handlers/post.js:136 | with a separator inside `a`, the split of `a + sep + b` starts with `a`'s first piece and goes on with the split of the rest |
| `JsStrings.FirstSeparatorInPrefix` | src/handlers/post.js:136 | where the first separator of `a + sep + b` lies when `a` has one, and the text on each side of it |
| `JsStrings.SplitAppend` | src/handlers/post.js:136 | splitting `a + sep + b` gives the pieces of `a` followed by the pieces of `b` |
| `JsStrings.SplitHead` | src/handlers/post.js:138 | the first piece is the text before the first separator and holds none |
| `JsStrings.SplitPiecesLackSeparator` | src/handlers/post.js:136 | no piece of a split holds the separator |
| `JsStrings.SplitTail` | setup-secrets.js:21-23 | when there is a separator, the remaining pieces rejoined are exactly the text after the first one |
| `JsStrings.SplitLast` | src/handlers/post.js:91 | the last piece (`pop()`) is the text after the last separator, or all of it when there is none |
| `JsStrings.JoinLast` | src/handlers/post.js:91 | in a join, a separator-free last piece is the text after the last separator |
| `JsStrings.TrimStart` | setup-secrets.js:19 | drops only leading white space, and leaves no leading white space |
| `JsStrings.TrimEnd` | setup-secrets.js:19 | drops only trailing white space, and leaves no trailing white space |
| `JsStrings.Trim` | setup-secrets.js:19 | the result is empty or starts and ends with a character that is not white space |
| `JsStrings.TrimStartIsSuffix` | setup-secrets.js:19 | what `trimStart` keeps is a suffix of its input |
| `JsStrings.TrimEndIsPrefix` | setup-secrets.js:19 | what `trimEnd` keeps is a prefix of its input |
| `JsStrings.TrimUntouched` | setup-secrets.js:19 | text whose ends are not white space is its own trim |
| `JsStrings.TrimIdempotent` | setup-secrets.js:19 | trimming twice is trimming once |
| `JsStrings.TrimKeepsOut` | src/handlers/post.js:136 | trimming never brings in a character the text lacks |
| `PostHandler.TrimAll` | src/handlers/post.js:136 | one piece per cookie piece, each piece trimmed |
| `PostHandler.TrimAllKeepsOut` | src/handlers/post.js:136 | trimming each piece brings in no character the pieces lack |
| `PostHandler.CookiePairs` | src/handlers/post.js:136 | one trimmed pair per `;`-separated piece, at least one, and no pair holds `;` |
| `PostHandler.CookieKey` | src/handlers/post.js:138 | the key is a prefix of the pair and holds no `=` |
| `PostHandler.CookieValue` | src/handlers/post.js:138 | the value is defined exactly when the pair holds `=`, and then holds no `=` |
| `PostHandler.FirstMatch` | src/handlers/post.js:137-140 | the index of the first pair whose key is exactly the name; no earlier pair has that key |
| `PostHandler.CookieLookup` | src/handlers/post.js:132-134 | a missing or empty Cookie header gives `null` |
| `PostHandler.GetCookie` | src/handlers/post.js:132-142 | the scan over the trimmed pairs returns the value of the first pair whose key matches, or `null` |
| `PostHandler.CookieKeyBeforeFirstEquals` | src/handlers/post.js:138 | a pair's key is its text up to the first `=` and holds no `=` |
| `PostHandler.CookieValueBetweenEquals` | src/handlers/post.js:138 | the value is `undefined` exactly when the pair has no `=`; otherwise it is the text between the first `=` and the next one (so `a=b=c` yields `b`) |
| `PostHandler.CookiePairParts` | src/handlers/post.js:138 | `k=v` and `k=v=rest` have key `k` and value `v` |
| `PostHandler.LookupFindsFirstMatch` | src/handlers/post.js:137-139 | the lookup returns the value of the first pair whose key is the name |
| `PostHandler.LookupMissesWithoutKey` | src/handlers/post.js:141 | without a pair for the name the lookup returns `null` |
| `PostHandler.FirstMatchInPrefix` | src/handlers/post.js:137-139 | pairs after a first match never change it |
| `PostHandler.TrimAllAppend` | src/handlers/post.js:136 | trimming piece by piece distributes over concatenation |
| `PostHandler.CookiePairsAppend` | src/handlers/post.js:136 | the pairs of `h1;h2` are the pairs of `h1` followed by the pairs of `h2` |
| `PostHandler.LaterPairsIgnored` | src/handlers/post.js:137-139 | a later cookie with the same name never changes what `getCookie` returns |
| `PostHandler.SpaceBeforeEqualsIsPartOfKey` | src/handlers/post.js:136-139 | only whole pairs are trimmed: in `a =b` the key is `a ` and cookie `a` is not found |
| `PostHandler.SessionToken` | src/handlers/post.js:4-21 | the gate lets a token through only for a truthy cookie whose session exists and holds a non-empty token, and the token is that session's |
| `PostHandler.PostContent` | src/handlers/post.js:23-35 | the commentary is the body's truthy `content` on a POST, else the default text; it is always truthy |
| `PostHandler.PersonUrn` | src/handlers/post.js:40 | the URN starts with `urn:li:person:`; a missing subject gives `urn:li:person:undefined` |
| `PostHandler.UrnRoundTrip` | src/handlers/post.js:40 | the profile subject can be read back from the person URN |
| `PostHandler.NewPost` | src/handlers/post.js:40-53 | the post's author encodes the subject (`undefined` when absent); it is published publicly to the main feed with the given commentary |
| `PostHandler.LastSegment` | src/handlers/post.js:91 | the id is the slash-free text after the last `/` of the header |
| `PostHandler.PostIdHeader` | src/handlers/post.js:90 | `x-restli-id` when truthy, else `location` when truthy, else none |
| `PostHandler.PostId` | src/handlers/post.js:89-91 | `unknown` without a header; otherwise the slash-free tail of the header after its last `/` |
| `PostHandler.ProfileFailure` | src/handlers/post.js:123-126 | a thrown profile fetch keeps its message; a non-ok answer gives `Profile fetch failed: ` followed by the answer's text |
| `PostHandler.IsOk` | src/handlers/post.js:66 | `response.ok` holds exactly for the `2xx` statuses |
| `PostHandler.ViewUrl` | src/handlers/post.js:97 | the view URL is the feed-update prefix, the post id and a closing `/` |
| `PostHandler.ViewUrlEmbedsPostId` | src/handlers/post.js:97 | the view URL's last path segment is the post id |
| `PostHandler.PostReply` | src/handlers/post.js:66-111 | a thrown post call gives 500 with its message; a non-2xx answer keeps its status and text and gets the message for 401, 403, 422 or any other status; a 2xx answer gives the id and the view URL |
| `PostHandler.HandlePost` | src/handlers/post.js:2-112 | 401 "Not authenticated" without a session cookie; 401 "Invalid session" without a stored token; the profile is fetched exactly when there is a stored token, with that token; a post is sent exactly when there is a token and a profile, with that token, author and content; otherwise it replies as `PostReply` does |
| `SetupSecrets.ParseLine` | setup-secrets.js:19-24 | an entry comes only from a trimmed line holding `=`; its key is non-empty, holds no `=` and does not start a comment |
| `SetupSecrets.ParseLineEntry` | setup-secrets.js:19-24 | an entry comes only from a trimmed `key=value` line whose key is non-empty, holds no `=` and is not a comment |
| `SetupSecrets.ParseLineOfEntry` | setup-secrets.js:19-24 | every such line gives exactly that entry, and the value may hold `=` |
| `SetupSecrets.SkippedLines` | setup-secrets.js:19-22 | blank lines, comments, lines without `=` and lines starting with `=` add nothing |
| `SetupSecrets.EmptyValueStored` | setup-secrets.js:21-23 | `KEY=` stores the empty string |
| `SetupSecrets.LastValue` | setup-secrets.js:18-26 | a key's value, when it has one, is the entry of some line for that key |
| `SetupSecrets.LastLineWins` | setup-secrets.js:18-26 | a key's entry survives when no later line has that key |
| `SetupSecrets.UndefinedKeyAbsent` | setup-secrets.js:18-26 | a key that no line defines is absent |
| `SetupSecrets.LastValueSnoc` | setup-secrets.js:18-26 | one more line decides its key's value and leaves the others |
| `SetupSecrets.SkippedLineInvisible` | setup-secrets.js:18-26 | removing a line that adds no entry changes no value |
| `SetupSecrets.LastValueStep` | setup-secrets.js:18-26 | the value of a key after line `i` in terms of the value before it |
| `SetupSecrets.AddLineTracksLastValue` | setup-secrets.js:18-26 | adding line `i` keeps the dictionary equal to the last values so far |
| `SetupSecrets.AddLine` | setup-secrets.js:18-25 | the callback overwrites the line's key with its value, or changes nothing |
| `SetupSecrets.ParseLines` | setup-secrets.js:18-26 | after the loop every key holds the value of the last line that defines it |
| `SetupSecrets.ParseEnv` | setup-secrets.js:14-26 | the dictionary read from the file text, one line per `\n` |
| `SetupSecrets.CheckRequired` | setup-secrets.js:29-32 | the check passes exactly when both credentials are present and non-empty, and hands those on |
| `SetupSecrets.Setup` | setup-secrets.js:8-32 | a missing file is refused; otherwise it goes ahead exactly when the last definitions of both credentials are non-empty |
| `Worker.RedirectUri` | src/index.js:207 | `REDIRECT_URL` when it is set and not empty, else this origin's `/callback` |
| `Worker.HandleAuth` | src/index.js:205-220 | a 302 to the authorization endpoint for exactly `openid`, `profile` and `w_member_social`, with the configured client and a non-empty redirect URI |
| `Worker.ExchangeClientAsWritten` | src/index.js:251-260 | the exchange client as written: the configured client and `REDIRECT_URL` alone, with no fallback |
| `Worker.AsWrittenExchangeMismatch` | src/index.js:251-253 | without `REDIRECT_URL`, a `/callback` that follows an `/auth` from the same origin exchanges its code under a redirect URI different from the one `/auth` sent |
| `Worker.ExchangeClient` | src/index.js:251-260 | the exchange client with the authorization step's fallback |
| `Worker.ExchangeMatchesAuthorization` | src/index.js:251-264 | for an `/auth` and a `/callback` from the same origin, the corrected exchange names the client and redirect URI of the authorization step, for every binding |
| `Worker.TokenResponseAsWritten` | src/index.js:267-358 | the success page as written: status 200 and a page that carries no token data |
| `Worker.TokenPageOmitsToken` | src/index.js:267-358 | the success page as written is the same for every token, so the token cannot be read off it |
| `Worker.TokenResponse` | src/index.js:243-244 | the corrected success page: status 200, showing exactly the token data it was given |
| `Worker.TokenResponseShowsToken` | src/index.js:243-244 | distinct token data give distinct corrected success pages |
| `Worker.ErrorResponse` | src/index.js:361-411 | always status 400; the description is shown exactly when it is not empty |
| `Worker.Callback` | src/index.js:222-249 | an `error` parameter wins; a missing code ends the step; the code is exchanged exactly when there is no error and a code; a thrown exchange or a missing token gives an error page; otherwise the success page |
| `Worker.HandleCallback` | src/index.js:222-264 | the callback as written: the code is exchanged under `REDIRECT_URL` alone, and success answers the page without token data |
| `Worker.HandleCallbackCorrected` | src/index.js:222-264 | the callback as intended: the exchange uses the authorization step's redirect URI, and success shows the token data |
| `Worker.OAuthErrorIgnoresExchange` | src/index.js:227-229 | for an OAuth error the answer is a 400 that does not depend on any exchange |
| `Worker.Fetch` | src/index.js:4-26 | dispatches on the path, answers 404 for any other path, and only `/callback` exchanges a code |
| `Worker.FetchOutcomes` | src/index.js:4-26 | every answer has status 200, 302, 400 or 404; the success page appears only after a `/callback` exchange that returned an access token, and the Worker as written never answers a page with token data |
| `DemoServer.LoadConfig` | linkedin-oauth.js:9-13 | the server starts exactly when `CLIENT_ID`, `CLIENT_SECRET` and `OAUTH2_REDIRECT_URL` are all set and non-empty |
| `DemoServer.AuthorizationErrorText` | linkedin-oauth.js:138-141 | the error description when it is not empty, else the error code |
| `DemoServer.Server.constructor` | linkedin-oauth.js:26 | the token slot starts empty |
| `DemoServer.Server.SignIn` | linkedin-oauth.js:84 | the sign-in redirect asks for the three scopes with the configured client and redirect URL |
| `DemoServer.Server.Home` | linkedin-oauth.js:81-132 | with an empty slot it sends the sign-in redirect and fetches nothing; otherwise it fetches the profile with the slot's token and shows it, or the fetch error text |
| `DemoServer.Server.OAuth` | linkedin-oauth.js:135-164 | errors and a missing code leave the slot alone and exchange nothing; a code is exchanged exactly when there is one and no error; only a successful exchange writes the slot, then redirects to `/` |
| `DemoServer.Server.Logout` | linkedin-oauth.js:167-170 | empties the slot and redirects to `/` |
| `DemoServer.LogoutThenHome` | linkedin-oauth.js:167-170 | after logging out, `/` always leads to the sign-in redirect, with no profile fetch |

## Left out

- The HTML of the home, success and error pages is left out. The model keeps what each page is built from (the client and scopes of a redirect, an error and its description), and not its markup or styling. The success page as written is built from nothing: it never renders the token data it is passed.
- The vendor SDK is left out: the authorization URL it generates and how it performs the exchange. The model keeps the client configuration and scopes it is given, and the code it is asked to exchange.
- The key-value store, `fetch`, `fs`, `execSync`, the console and the process exit are left out. The model takes their results as inputs, or returns the message the script exits with.
- `linkedin-post.js` and the demo's `/test-token` route are not part of this model. They are diagnostic scripts outside the OAuth flow.
- `Worker.Fetch`: the `catch` that answers 500 (src/index.js:18-24) is not modelled. The route handlers are returned without `await`, so a rejection never reaches that `catch`, and `handleHome` does not throw.
- `DemoServer.Server.Home`: with an empty slot, `/` calls `res.redirect` and then `res.send`. The model keeps the redirect, which is what the client receives. The second send then throws `ERR_HTTP_HEADERS_SENT` inside the async handler. Under Express 4 that rejection is unhandled, and Node 15 or later then ends the process. Under Express 5 it reaches the error handler. The model assumes the server keeps running, with the slot unchanged.
- `DemoServer.Server.OAuth`: an exchange whose response has no `access_token` stores `undefined` in the source and `""` in the model. The slot is only ever read through its truthiness, so both behave the same.
- URL parsing is left out. A request is modelled as its origin, its path and the first value of each query name. Express query values that are arrays or objects are not modelled.
- Header names are case-insensitive in the source and lower case in the model.
- JSON values in a request body are modelled as integers, strings, booleans, `null` and objects. Floating point and `NaN` are not modelled. A body that fails to parse, or that is not an object, is `None`. When the body is not an object, `body.content` is undefined or throws inside the `try`, so the source falls back to the default text in that case too.
- Keys such as `__proto__` or `constructor` have special meaning on a JavaScript object. The model treats every key of the `.env` dictionary the same.
- Concurrency is left out: two requests racing on the demo's shared slot, and the asynchronous scheduling of the Worker's handlers.

## Findings

`Worker.Fetch` and `Worker.HandleCallback` follow the code as written. `Worker.HandleCallbackCorrected` is the callback with both corrections below.

| source | as written | input that shows it | evidently intended | confidence | as-written member | corrected member |
|---|---|---|---|---|---|---|
| src/index.js:267-358 | `tokenResponse(tokenData)` never renders `tokenData`: the page has no element with id `tokenData`, so the token never reaches the user, and `copyToken` finds no element. The comment "Return token to user" (src/index.js:243), the heading "Your Access Token:" (src/index.js:313) and `copyToken` reading the `tokenData` element (src/index.js:327) all expect it there | any successful exchange: two different access tokens give the very same page | the success page shows the token data, in the element `copyToken` reads | not executed | `Worker.TokenResponseAsWritten`, `Worker.TokenPageOmitsToken` | `Worker.TokenResponse`, `Worker.TokenResponseShowsToken`, `Worker.HandleCallbackCorrected` |
| src/index.js:251-253 | the code exchange builds its client from `env.REDIRECT_URL` alone. The comment above it and `handleAuth` (src/index.js:206-207) both fall back to `<origin>/callback` | a Worker with no `REDIRECT_URL` binding, called at `https://host`: `/auth` sends redirect URI `https://host/callback`, then `/callback` exchanges the code with no redirect URI | the exchange names the same redirect URI as the authorization request, which section 4.1.3 of RFC 6749 requires | not executed | `Worker.ExchangeClientAsWritten`, `Worker.AsWrittenExchangeMismatch` | `Worker.ExchangeClient`, `Worker.ExchangeMatchesAuthorization`, `Worker.HandleCallbackCorrected` |
