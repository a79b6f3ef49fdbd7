# Dwolla Node SDK: token lifecycle and request pipeline, in Dafny

This project models the core of the Dwolla v2 Node SDK. It covers the
client-credentials and authorization-code OAuth exchanges, the token caches
that decide when a new access token is needed, and the pipeline every API
call goes through:

- resolving a path or HAL resource to a URL;
- attaching the bearer, HAL `Accept` and user-agent headers;
- parsing the reply as JSON or text, optionally mapping it onto a model class;
- turning statuses from 400 up into errors.

The repository carries three generations of this code, and each is modelled
on its own because they differ in observable ways:

- the current TypeScript: `src/Token.ts`, `src/TokenManager.ts`, `src/Auth.ts`;
- an intermediate TypeScript copy: `src/token.ts`, `src/token-manager.ts`;
- the legacy JavaScript: `src/dwolla/*.js` and `src/util/*.js`.

The small utilities are modelled too: null-key filtering, enum coercion,
camelCase-to-snake_case keys, date-of-birth formatting, HAL link lookup and
type-tag membership.

Layout:

- `text.dfy`, `js.dfy`, `http.dfy`: the shared vocabulary.
  - `text.dfy` holds strings, `indexOf` and number printing.
  - `js.dfy` holds JavaScript values, truthiness, `||`, plain objects as
    ordered key lists, `Object.assign` and property reads.
  - `http.dfy` holds requests, replies and the failures a call can end in.
- `url.dfy`: path resolution, shared by all three generations.
- `tokens.dfy`, `token_ts.dfy`, `token_intermediate.dfy`, `token_legacy.dfy`:
  the three `Token` classes.
- `auth_ts.dfy`, `auth_legacy.dfy`: the two `Auth` implementations.
- `token_manager_ts.dfy`, `token_manager_legacy.dfy`, `client_legacy.dfy`:
  the token caches and the legacy client's validation.
- The remaining files hold one utility each.

Foreign code is a parameter: `fetch` (a `Request -> Option<RawResponse>`),
`JSON.parse` and the class-transformer projection (each a partial function
returning `Option`), and the form-urlencoder. So are the wall clock (a `now`
in Unix seconds), the user-agent string and `NODE_ENV === "test"` (a
boolean). A promise is a value `Ref(id)`, and what it settles to is an
input. The caches are modelled as explicit state-transition functions.

Four behaviours of the code are easy to misread, and the model states them
as written:

- A cached token whose `expiresIn` is `null` counts as fresh and is reused
  (`src/TokenManager.ts:37`).
- When `JSON.parse` throws and a mapping target is given, the unmapped body
  is `undefined`, not the raw text (`src/Token.ts:153`, `src/Token.ts:187-195`).
- `getEnvironment` indexes the presets by its argument, so a custom
  environment object reads `undefined` (`src/environment.ts:23`).
- The legacy `TokenManager.js` shares one in-flight refresh between callers:
  `updateToken` sets `expiresIn` to `null`, which reads as fresh until the
  refresh settles (`src/dwolla/TokenManager.js:15-18`, `src/dwolla/TokenManager.js:32`).

## Model

| member | source | states |
|---|---|---|
| Url.ResolvePath | src/dwolla/Token.js:30-43 | a resource resolves to its self href verbatim; every string path resolves to a URL that begins with the API root |
| Url.ResolversAgree | src/Token.ts:112-120 | the `indexOf(...) === 0` rules of the current code and the `startsWith` rules of the other two resolve every path to the same URL |
| Url.ResolveUnderApiRoot | src/Token.ts:114-115 | a string already under the API root is used unchanged |
| Url.ResolveLeadingSlash | src/Token.ts:116-117 | a string starting with "/" is appended to the API root with no extra separator |
| Url.ResolveOtherHost | src/Token.ts:118-119 | a URL on another host has its scheme and host removed and is rebased onto the API root with one "/" |
| Url.StripSchemeHostRebases | src/token.ts:113 | the prefix regular expression removes exactly the scheme, the host and the slash after it |
| Url.ResolveRelative | src/dwolla/Token.js:38-43 | a bare relative path is joined to the API root with one "/" |
| Url.QuerySeparable | src/Token.ts:126 | for a URL without "?", the request URL has a "?" iff the encoded query is non-empty, and the first "?" splits it back into the URL and the query |
| Tokens.FromResponseRoundTrip | src/Token.ts:68-74 | a token rebuilt with fromResponse from its own state (src/Token.ts:105-107) is the same token |
| Tokens.FromResponseReadsOnlyTokenFields | src/token.ts:67-73 | responses that agree on the three token fields give the same token, whatever else they carry |
| TokenTs.GetHeaders | src/Token.ts:94-103 | Authorization, Accept and User-Agent come first in the header object |
| TokenTs.HeadersCallerWins | src/Token.ts:97-102 | a caller header wins every name it sets; otherwise Authorization is "Bearer " plus the access token, Accept the HAL type, User-Agent the agent string |
| TokenTs.QueryEntries | src/Token.ts:122 | the encoded query holds only defined values; a falsy or absent query encodes nothing; an object query keeps exactly its defined entries |
| TokenTs.GetUrl | src/Token.ts:109-127 | a string path's URL starts with the API root; a resource's URL starts with its href |
| TokenTs.GetUrlShape | src/Token.ts:122-126 | the URL is the resolved path when the encoded query is empty, and the path, "?" and the query otherwise |
| TokenTs.OnlyResourcesLeaveApiHost | src/Token.ts:112-119 | a request URL outside the API root can only come from a resource object |
| TokenTs.PostCarriesNoQuery | src/Token.ts:205 | a POST goes to the resolved path with no query string |
| TokenTs.PostRequest | src/Token.ts:199-212 | a post sends POST to a URL under the API root (or the resource's href); a form is sent as its stream, any other body as JSON with Content-Type application/json whatever the caller's headers say |
| TokenTs.PostFormHeadersWin | src/Token.ts:206-209 | a form's own headers override the caller's and the token's |
| TokenTs.ParseResponse | src/Token.ts:147-197 | status and headers carry over; the body is the JSON without a target, the projection when it succeeds, and the raw text when parsing or the projection fails; an unmapped reply exists iff a target is given and holds the pre-projection JSON (undefined when parsing failed) |
| TokenTs.ErrorReportsServerReply | src/Token.ts:53-56 | a verb fails on the reply iff its status is 400 or more, with a ResponseError reporting the server's status and headers |
| TokenTs.ErrorKeepsUnmappedJson | src/Token.ts:216-219 | with a target, an error reply carries the server's JSON unfiltered, whatever the projection did |
| TokenTs.ErrorDropsTextWithTarget | src/Token.ts:187-195 | with a target, an error reply that is not JSON carries an undefined body |
| TokenTs.TextBodyVerbatim | src/Token.ts:177-179 | without a target, a reply that is not JSON keeps its text as the body |
| TokenTs.ProjectionFailureFallsBackToText | src/Token.ts:158-179 | when the projection throws, the body is the raw text while the unmapped reply keeps the JSON |
| TokenTs.FollowGetsLocation | src/Token.ts:59-66 | a non-empty Location is fetched with GET, the default headers, no body and, under the API root, verbatim |
| TokenTs.FollowResolvesAgainstApiRoot | src/Token.ts:59-66 | a followed Location is fetched by get as a path, so the request URL begins with the API root whatever host the Location names |
| TokenTs.FollowNeedsLocation | src/Token.ts:63-64 | a missing or empty Location fails with "Cannot follow URL, Location header is missing" |
| TokenTs.PostFollowInTestMode | src/Token.ts:228-231 | in test mode postFollow is the mapped POST itself |
| TokenTs.PostFollowOutsideTests | src/Token.ts:232 | otherwise a successful unmapped POST is followed with the mapping, and a failed one is returned as is |
| TokenIntermediate.RequestUrl | src/token.ts:103-121 | the URL fails with a TypeError exactly when the query is undefined or null; otherwise a string path's URL starts with the API root |
| TokenIntermediate.RequestUrlAgreesWithDefaulted | src/token.ts:116-120 | whenever a URL is built, it is the URL the current code builds |
| TokenIntermediate.QuerylessCallsReject | src/token.ts:45-51 | get and delete without a query fail with a TypeError before sending |
| TokenIntermediate.PostAlwaysRejects | src/token.ts:140-141 | every post fails with a TypeError before sending |
| TokenIntermediate.PostDefaultedSends | src/token.ts:140-156 | with the query defaulted to an empty object, a post reaches the server at the resolved path and returns the settled reply |
| TokenIntermediate.GetMatchesCurrentWhenQueryGiven | src/token.ts:90-101 | given a query, get behaves as the current code's unmapped get, except that an error is thrown as a plain Error carrying the same reply |
| TokenIntermediate.ParseResponse | src/token.ts:123-138 | the body is the JSON of the text, or the text verbatim when it is not JSON; status and headers carry over |
| TokenIntermediate.Settle | src/token.ts:59-65 | below 400 the parsed reply is returned unchanged; from 400 up a plain Error, not a ResponseError, carries exactly the parsed reply |
| TokenIntermediate.ReadsReplyAsCurrent | src/token.ts:123-138 | without a target, the current client (src/Token.ts:147-197) parses a reply to the same value, succeeds on the same statuses, and fails carrying the same reply |
| TokenIntermediate.ErrorKeepsText | src/token.ts:152-154 | an error reply that is not JSON carries its text as the body |
| TokenLegacy.New | src/dwolla/Token.js:10-17 | the token holds the options' access_token, refresh_token, expires_in, scope and account_id; absent options are a TypeError |
| TokenLegacy.GetHeaders | src/dwolla/Token.js:19-28 | the legacy headers are exactly the TypeScript token's headers for the same access token |
| TokenLegacy.QueryEntries | src/dwolla/Token.js:44 | an absent query is empty; an object query keeps exactly its defined entries |
| TokenLegacy.GetUrl | src/dwolla/Token.js:30-49 | a string path's URL starts with the API root; a resource's URL starts with its href |
| TokenLegacy.GetUrlMatchesCurrent | src/dwolla/Token.js:30-49 | the legacy URL equals the current code's URL for every path and query |
| TokenLegacy.AbsentQueryAddsNothing | src/dwolla/Token.js:44-48 | an absent query adds no "?", so a post requests the resolved path itself |
| TokenLegacy.HandleResponse | src/dwolla/Token.js:59-77 | below 400 success, from 400 up an error whose message is the raw text; status and headers carry over; the body is the parsed JSON, or the text when it is not JSON |
| TokenLegacy.ReadsReplyAsIntermediate | src/dwolla/Token.js:59-77 | the legacy and the intermediate client (src/token.ts:123-138) succeed on the same replies with the same value, and their errors carry the same reply |
| TokenLegacy.ErrorMessageIsRawText | src/dwolla/Token.js:51-57 | an error carries the raw text as message and the parsed reply's status, headers and body |
| TokenLegacy.JsonPostContentType | src/dwolla/Token.js:85-96 | a JSON post always sends lower-case content-type application/json, and a caller's differently-cased Content-Type survives beside it |
| AuthTs.RequestBodyFields | src/Auth.ts:29-34 | a caller parameter wins over its default; otherwise client_id is the id or, when it is falsy, the key, and the grant is client_credentials |
| AuthTs.MapperNames | src/Auth.ts:39-43 | access_token, expires_in and token_type map to their camelCase names and every other key to "undefined" |
| AuthTs.MapResponse | src/Auth.ts:51-55 | an undefined or null body is a TypeError; an object body is remapped key by key |
| AuthTs.MapEntriesLookup | src/Auth.ts:53 | a mapped name holds the value of the last wire key mapped onto it |
| AuthTs.MappedField | src/Auth.ts:53 | each of the three token fields reaches its camelCase name unchanged |
| AuthTs.MappedReplyHasNoError | src/Auth.ts:53 | the remapped reply never has an error key |
| AuthTs.AuthErrorUnreachable | src/Auth.ts:45-47 | requestToken as written never fails with an AuthError |
| AuthTs.StatusNotConsulted | src/Auth.ts:39 | the reply's status does not influence the outcome |
| AuthTs.TokenCopiesWireFields | src/Auth.ts:48 | a JSON object reply yields the token its access_token, expires_in and token_type describe |
| AuthTs.WireErrorReported | src/Auth.ts:45-47 | with the wire body checked, a truthy error is reported as an AuthError carrying it |
| AuthTs.CheckingWireAgreesOtherwise | src/Auth.ts:22-49 | without a wire error the checked exchange is the written one |
| AuthLegacy.ErrorFrom | src/dwolla/Auth.js:12-18 | the error carries the reply's error, error_description and error_uri |
| AuthLegacy.HandleTokenResponse | src/dwolla/Auth.js:20-25 | an undefined or null reply is a TypeError; a truthy error rejects with the OAuth fields; otherwise a legacy token is built from the reply |
| AuthLegacy.PerformOnGrant | src/dwolla/Auth.js:27-34 | without a hook the token is returned; with one, the same token once the hook resolves, and a failure otherwise |
| AuthLegacy.RequestBodyFields | src/dwolla/Auth.js:43-51 | client_id and client_secret are sent unless a grant parameter overrides them; every grant parameter is sent as given |
| AuthLegacy.RefreshSendsRefreshToken | src/dwolla/Auth.js:58-63 | a refresh posts grant_type refresh_token with the token's refresh_token |
| AuthLegacy.ErrorReplyRejects | src/dwolla/Auth.js:36-55 | a reply carrying an error rejects with its OAuth fields and the hook never runs |
| AuthLegacy.SuccessfulReplyBuildsToken | src/dwolla/Auth.js:20-34 | a successful reply yields the token its snake_case fields describe once the hook, if any, resolves |
| AuthLegacy.NewAuthFlow | src/dwolla/Auth.js:79-90 | undefined options act as an empty object; the URL is the auth URL, "?" and the encoded defined query fields |
| AuthLegacy.AuthorizeQueryEntries | src/dwolla/Auth.js:65-77 | the query always asks for a code and carries exactly the fields that are set |
| AuthLegacy.Authorize | src/dwolla/Auth.js:106-109 | a null options object fails while being snake_cased; all other options give a flow |
| AuthLegacy.CamelCaseOptionsAccepted | src/dwolla/Auth.js:106-108 | an option under a camelCase key whose snake form is redirect_uri, such as redirectUri, reaches the flow as its redirect URI |
| AuthLegacy.Callback | src/dwolla/Auth.js:92-102 | a state mismatch fails with "Invalid state parameter." first; a truthy error throws the params themselves |
| AuthLegacy.CallbackExchangesCode | src/dwolla/Auth.js:97-101 | a matching callback requests authorization_code with the callback's code and the stored redirect URI |
| TokenManagerTs.UpdateToken | src/TokenManager.ts:42-51 | a refresh always requests; success stores the new token, its lifetime and the time the refresh settled; failure leaves the state untouched |
| TokenManagerTs.GetToken | src/TokenManager.ts:27-32 | a token is requested iff there is no instance or it is not fresh; otherwise the cached instance is returned and nothing changes |
| TokenManagerTs.Construct | src/TokenManager.ts:20-25 | in test mode, or when the warm-up fails, the initial state is kept; outside test mode a successful warm-up stores its token, lifetime and settle time |
| TokenManagerTs.ServedWhileFresh | src/TokenManager.ts:34-40 | a refreshed token is served without a request while more than a minute of its lifetime remains |
| TokenManagerTs.RefreshedWhenStale | src/token-manager.ts:33-46 | from one minute before expiry on, a new token is requested |
| TokenManagerTs.ShortLivedTokenNeverReused | src/TokenManager.ts:18 | a token living a minute or less is never reused |
| TokenManagerTs.NullLifetimeNeverRefreshes | src/TokenManager.ts:34-40 | a cached token with a null lifetime is reused forever |
| TokenManagerTs.StalenessIsMonotone | src/token-manager.ts:40-46 | once stale, a state stays stale as time passes, so calls made during a refresh each request their own token |
| TokenManagerTs.FreshCacheAnswersAll | src/TokenManager.ts:27-32 | any number of calls made while the cache is fresh issue no request and leave the cache alone |
| TokenManagerTs.OneRequestPerWindow | src/token-manager.ts:33-57 | from an empty cache, consecutive calls, each made after the previous one settled and all within the new token's window, cost exactly one request |
| TokenManagerTs.ManagerTestCases | tests/TokenManager.test.ts:22-63 | an empty cache fetches, an hour-long seeded token is reused, a 30-second seeded token is replaced |
| TokenManagerLegacy.Init | src/dwolla/TokenManager.js:10-13 | instance, expiresIn and updatedAt default to null and are overridden field by field by the initial state |
| TokenManagerLegacy.GetToken | src/dwolla/TokenManager.js:38-43 | a refresh starts iff the instance is null or not fresh; otherwise the cached promise is returned and nothing changes |
| TokenManagerLegacy.UpdateToken | src/dwolla/TokenManager.js:15-18 | a refresh caches the promise it returns and makes the cache read as fresh at every time, so later callers share it |
| TokenManagerLegacy.Settle | src/dwolla/TokenManager.js:19-26 | success keeps the cached promise; after a failure every later call starts a new refresh |
| TokenManagerLegacy.SingleFlight | src/dwolla/TokenManager.js:30-43 | during a refresh every caller, at any time, gets the same promise and no further request is made |
| TokenManagerLegacy.FailureRetries | src/dwolla/TokenManager.js:23-42 | after a failed refresh the next call starts a new one with a new promise |
| TokenManagerLegacy.SuccessServesUntilLeeway | src/dwolla/TokenManager.js:30-35 | a refreshed token is reused exactly while more than 60 seconds remain |
| TokenManagerLegacy.MissingLifetimeAlwaysRefreshes | src/dwolla/TokenManager.js:19-35 | a token without expires_in is never reused |
| TokenManagerLegacy.EmptyCacheRequests | test/dwolla/TokenManager.test.js:22-29 | an empty cache requests a token |
| TokenManagerLegacy.HourLeftIsReused | test/dwolla/TokenManager.test.js:31-42 | a seeded promise with an hour left is returned without a request |
| TokenManagerLegacy.HalfMinuteLeftIsReplaced | test/dwolla/TokenManager.test.js:44-55 | a seeded promise with 30 seconds left is replaced by a new request |
| ClientLegacy.Validate | src/dwolla/Client.js:21-42 | options that are not an object fail "First argument must be an object."; null fails reading id |
| ClientLegacy.ValidateAccepts | src/dwolla/Client.js:24-42 | options are accepted iff id or key and secret are strings, the environment (production by default) is known and onGrant is absent or a function; id is the id or else the key, and the URLs are the environment's |
| ClientLegacy.KeyCheckedFirst | src/dwolla/Client.js:29-32 | a missing key is reported before any other problem |
| ClientLegacy.DefaultsToProduction | src/dwolla/Client.js:6-13 | without an environment option the client uses the production API and token URLs |
| ClientLegacy.FreshToken | src/dwolla/Client.js:66-76 | a fresh cache returns its promise unchanged; a stale one starts a refresh; either way the caller gets the promise the cache then holds, and the cache reads as fresh at that time |
| ClientLegacy.Settle | src/dwolla/Client.js:59-62 | the cached promise is never replaced; a failure during a refresh leaves the cache fresh at every later time |
| ClientLegacy.FailedRefreshSticks | src/dwolla/Client.js:56-76 | after a failed first refresh the same rejected promise is handed out at every later time with no new request |
| ClientLegacy.FailedRefreshPoisonsCalls | src/dwolla/Client.js:78-83 | after a failed first refresh every API call fails with that error and sends nothing |
| ClientLegacy.SuccessServedUntilExpiry | src/dwolla/Client.js:66-69 | a refreshed token is reused exactly until its lifetime has passed, with no margin |
| Environments.GetEnvironment | src/environment.ts:11-24 | no selector or "production" gives the production URLs, "sandbox" the sandbox URLs, any other name or an environment object undefined |
| Environments.PresetTokenUrls | src/environment.ts:11-20 | in both presets the token URL is the API root plus "/token" |
| Environments.CustomEnvironmentDropped | src/environment.ts:22-24 | a custom environment object resolves to undefined |
| Environments.ResolveEnvironment | tests/environment.test.ts:4-16 | a custom environment object is used as given; every other selector resolves as before |
| RejectEmptyKeys.KeepDefined | src/utils/rejectEmptyKeys.ts:1-7 | exactly the entries with a value other than null or undefined are kept, unchanged, with unique keys preserved |
| RejectEmptyKeys.KeepDefinedAppend | src/utils/rejectEmptyKeys.ts:4-6 | filtering distributes over concatenation, so entry order is kept |
| RejectEmptyKeys.KeepDefinedIdempotent | src/utils/rejectEmptyKeys.ts:4-6 | filtering twice is filtering once |
| RejectEmptyKeys.KeepDefinedLookup | src/utils/rejectEmptyKeys.ts:2-7 | a key survives iff its value is defined, and then with the same value |
| RejectEmptyKeys.RejectEmptyKeys | src/utils/rejectEmptyKeys.ts:2-3 | undefined and null inputs are a TypeError; objects keep their defined entries |
| RejectEmptyKeys.RejectEmptyKeysLegacy | src/util/rejectEmptyKeys.js:1-13 | the result is exactly the defined own entries in order: inherited keys are never copied, and undefined or null input gives an empty object |
| StringToEnum.StringToEnum | src/utils/stringToEnum.ts:1-6 | a member of the enum's values is returned unchanged; anything else gives undefined |
| StringToEnum.DefinedResultIsMember | src/utils/stringToEnum.ts:2-5 | a defined result is always one of the enum's values |
| StringToEnum.StringToEnumIdempotent | src/utils/stringToEnum.ts:2-5 | coercing twice is coercing once |
| SnakifyKeys.ToSnakeCase | src/util/snakifyKeys.js:1-2 | the result has no A-Z and is longer by the number of upper-case letters |
| SnakifyKeys.SnakeOfLowerIsIdentity | src/util/snakifyKeys.js:1-2 | a string without A-Z is unchanged |
| SnakifyKeys.SnakeChangesIffUpper | src/util/snakifyKeys.js:10 | a key is renamed iff it holds an upper-case letter |
| SnakifyKeys.SnakeOfAppend | src/util/snakifyKeys.js:1-2 | snake-casing works letter by letter, so it distributes over concatenation |
| SnakifyKeys.SnakeIdempotent | src/util/snakifyKeys.js:1-2 | snake-casing twice is snake-casing once |
| SnakifyKeys.SnakifyKeys | src/util/snakifyKeys.js:4-17 | null is a TypeError; values whose typeof is not "object" are untouched |
| SnakifyKeys.RenameKeysLookup | src/util/snakifyKeys.js:6-15 | after renaming, a name holds the value of the last key renamed onto it; a renamed key is gone; every other key keeps its entry |
| SnakifyKeys.SnakifiedKeysAreLower | src/util/snakifyKeys.js:6-15 | no key with an upper-case letter survives |
| SnakifyKeys.CamelWinsCollision | src/util/snakifyKeys.js:9-14 | a camelCase key overwrites the existing snake_case key it collides with |
| SnakifyKeys.UntouchedKeyKeepsValue | src/util/snakifyKeys.js:10-14 | a snake_case key that nothing is renamed onto keeps its value |
| DateOfBirth.ZeroPadded | src/models/shared/DateOfBirth.ts:27-29 | single-digit naturals gain one leading "0", everything else prints as is, and the result has at least two characters |
| DateOfBirth.PaddingNeverShortens | src/models/shared/DateOfBirth.ts:27-29 | padding keeps the number's digits as a suffix |
| DateOfBirth.PaddedPartsHaveTwoChars | src/models/shared/DateOfBirth.ts:4-5 | months and days up to 99 are exactly two characters |
| DateOfBirth.ToJsonRoundTrip | src/models/shared/DateOfBirth.ts:23-25 | for naturals, splitting the JSON form on "-" gives three digit strings that parse back to year, month and day |
| BaseHal.HrefIffLink | src/models/base-hal.ts:9-15 | getHref is defined exactly when hasLink holds |
| IsOneOfTypes.IsOneOfTypes | src/util/isOneOfTypes.js:1-13 | true iff the value's typeof tag is one of the listed tags |
| IsOneOfTypes.EmptyListMatchesNothing | src/util/isOneOfTypes.js:2-3 | an empty list matches nothing |
| IsOneOfTypes.OrderIndependent | src/util/isOneOfTypes.js:3-12 | the order of the tags does not matter |
| IsOneOfTypes.AppendKeepsMatch | src/util/isOneOfTypes.js:3-12 | adding tags never turns a match into a mismatch |
| Http.HeaderGetCaseInsensitive | src/Token.ts:63 | header names differing only in the case of ASCII letters read the same header |

## Left out

- Network I/O: `fetch`, `Headers` and `response.text()` are replaced by an
  exchange given as input (status, lower-cased header map, body text). A
  network failure is a single `Transport` failure.
- Foreign libraries are uninterpreted parameters: `JSON.parse`, the
  class-transformer projection, `form-urlencoded`, and the legacy `toJson`
  (modelled as parsing the body text). Properties about them are stated
  relative to their outputs. Where an empty query matters, the lemmas
  assume the encoder turns `{}` into the empty string.
- Form-data bodies, `toFormData` and `isFormData`: a form body is an opaque
  stream with the headers it reports.
- Promises and concurrency: each cache is a sequence of transitions. A
  pending promise is a value, and what it settles to is an input.
  Synchronous throws and promise rejections are both an `Err`.
- The constructor's background warm-up is modelled as the state after it
  settles. Its console logging is not modelled.
- Numbers are integers: there are no fractions, no `NaN` and no floating-point
  rounding.
- String concatenation by `+` is not modelled: a string lifetime added to
  a time is treated as not fresh, like `NaN`. Boolean operands of `+` are
  treated the same way.
- Properties inherited from `Object.prototype` are not modelled. This
  affects names such as `toString` used as an environment name or a wire
  key in the Auth mapper.
- A function's source text, as `String(fn)` would give it, is not modelled.
- Strict equality on object values is compared structurally here, not by
  identity. This matters only for a callback `state` that is an object.
- Built-in properties of primitives, such as a string's `length`, are not
  modelled.
- The authorize URL is taken from the options as they are after
  snake-casing. The in-place mutation of the caller's object itself is not
  modelled.
- `Client.ts`, `client.ts`, `src/api/*`, the model classes other than
  `DateOfBirth` and `HalResource`, and the type guards are not part of this
  model. The clients and `src/api/*` forward to the token and its manager;
  the model classes and type guards describe payload shapes.
- Only some error messages are modelled. A failure records its class, the
  data it carries and, for these errors, the message:
  - the legacy client's validation messages ("First argument must be an
    object.", "key is required.", "secret is required.", "Invalid
    environment.", "Invalid onGrant.", `src/dwolla/Client.js:21-42`);
  - the legacy callback's "Invalid state parameter."
    (`src/dwolla/Auth.js:92-95`);
  - the current `follow`'s "Cannot follow URL, Location header is missing"
    (`src/Token.ts:64`);
  - the legacy `handleResponse` error's message, which is the raw text
    (`src/dwolla/Token.js:73`).

  The messages left out are these:
  - a `ResponseError`'s message is `JSON.stringify` of the body
    (`src/errors/ResponseError.ts:12`);
  - the intermediate client's plain `Error` takes the body as its message
    (`src/token.ts:60`);
  - the legacy OAuth error's message is `JSON.stringify` of the whole reply
    (`src/dwolla/Auth.js:13`).
  The error classes' prototype chains are not modelled either: a failure
  variant stands for one class.
- Js.Put: keys are kept in insertion order. JavaScript lists integer-like
  keys ("0", "42") first, in numeric order, so key-order statements assume
  no key is an array index. This affects `TokenTs.GetHeaders`: a caller
  header named like "0" would be listed before `Authorization`.
- The legacy client's `post` and `delete` are not modelled as functions of
  their own. They wait on the same token promise as `get`, which
  `ClientLegacy.ClientGet` models.
- `ClientLegacy.Validate`: environment names are compared as strings, so a
  name inherited from `Object.prototype` (for example "toString") is
  rejected here. The code would accept it and read undefined URLs. Arrays
  are modelled as plain objects, whose key string is "[object Object]". The
  code turns an array key into its elements joined by ",", so it accepts
  `environment: ["production"]`, which the model rejects.
- Url.ResolvePath: a nullish path, or a resource without `_links.self`, is
  not representable. The code reads a property of `undefined` there and
  throws a TypeError (`src/Token.ts:112-114`, `src/dwolla/Token.js:32-34`).
- `TokenManagerLegacy.IsTokenFresh`: string and boolean lifetimes count as
  not fresh, rather than being concatenated or coerced.

## Findings

| source | as written | input that shows it | evidently intended | confidence | as-written member | corrected member |
|---|---|---|---|---|---|---|
| src/token.ts:116 | `rejectEmptyKeys(suppliedQuery)` calls `Object.entries` on an absent query and throws a TypeError | any `post`, or `get(path)` without a query | default the query to `{}` as `src/Token.ts:122` does | not executed | TokenIntermediate.PostAlwaysRejects | TokenIntermediate.PostDefaultedSends |
| src/Auth.ts:53 | the mapper has no `error` entry, so a wire `error` is written to the key "undefined" and the `jsonResponse.error` test never fires | a token reply `{"error": "invalid_client"}` yields a Token with undefined fields | reject with `AuthError` when the server reports an OAuth error | not executed | AuthTs.AuthErrorUnreachable | AuthTs.WireErrorReported |
| src/environment.ts:22-24 | an environment object is used as a property key and reads undefined | `{apiUrl: "https://mydomain.com", tokenUrl: "https://mydomain.com/token"}`, as in `tests/environment.test.ts:4-16` | pass a custom environment through unchanged | not executed | Environments.CustomEnvironmentDropped | Environments.ResolveEnvironment |
| src/dwolla/Client.js:59-69 | a failed refresh leaves `expiresIn` null, which reads as "refresh in progress" forever | the token endpoint failing once at construction | drop the cached promise on failure so the next call retries, as `src/dwolla/TokenManager.js:23-26` does | not executed | ClientLegacy.FailedRefreshSticks | TokenManagerLegacy.FailureRetries |
