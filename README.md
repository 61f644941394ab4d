# Configurine client: token cache, request target and outcome, in Dafny

This project models the client of the Configurine configuration service
(`node-configurine-client`). A `Client` is built from a host, a client id
and a shared key. Its one operation, `getConfigByName(name, options, callback)`,
makes sure it holds a usable access token, then asks the service for the
configuration entries called `name`, optionally narrowed by application and
environment associations, and calls back with exactly one of an error or
the array of entries.

The behaviour is known from the unit tests in
`test/unit/configurineClient.tests.js`. The library file they load,
`lib/configurineClient.js`, is not part of this model. The model therefore
states what those tests fix, in these terms:

- `Query` (query.dfy): the request target. The parameters are `isActive=true`,
  then `names=<name>`, then one `associations=application|<name>|<version>`
  per application in order, then one `associations=environment|<env>` per
  environment in order. `|` is written as `%7C`. A decoder is the partner
  of the encoder: it reads `%7C` back as `|` and splits on `&`, `=` and `|`.
  The round-trip lemmas show that the encoding is invertible on plain input:
  the target decodes back to the name and every filter in order. They say
  nothing about how the real server parses a target.
- `Tokens` (token.dfy): the `access_token` wire form
  `owner:issuedAt:expiresAt:signature`. The expiry is read from the third
  field. A cached token is usable while the clock is strictly before that
  expiry.
- `Http` (http.dfy): JSON values, response bodies (JSON or plain text),
  responses and the two requests. The transport is a function from a
  request to its reply, or to no reply.
- `Configurine` (client.dfy): the class `Client`, which holds a `token`
  (at most one cached token) and `sent` (the log of requests issued). Its
  method `GetConfigByName` is proved equal to the function `Call`. `Call`
  gives the requests one call sends, the token cached afterwards, and the
  outcome. The lemmas about `Call` state the caching and error rules.
- `Scenarios` (scenarios.dfy): each unit test as a lemma over a mocked
  transport that answers only the routes the test registers. The
  cached-token test is a method that runs two calls on one `Client` object.
- `Text` (text.dfy) and `Wrappers` (wrappers.dfy): splitting and joining on
  a separator, decimal numerals, `Option` and `Result`.

The clock is the parameter `now`, in milliseconds. A call's I/O is the
`transport` parameter. The callback `(err, result)` is `CallbackArgs` of
the call's `Result`.

## Model

| member | source | states |
|---|---|---|
| `Query.ItemsOf` | test/unit/configurineClient.tests.js:53-62 | the filters in wire order: application i sits at position i, environment j at position (number of applications + j), and there are no others |
| `Query.EncodeItemsAt` | test/unit/configurineClient.tests.js:53 | each filter becomes exactly one `associations` parameter carrying its composite value, in the same order |
| `Query.QueryParamsOrder` | test/unit/configurineClient.tests.js:53-62 | the parameters are `isActive=true`, `names=<name>`, then `application|<name>|<version>` per application in order, then `environment|<env>` per environment in order, and nothing else |
| `Query.NoFilterTarget` | test/unit/configurineClient.tests.js:37 | with no associations option, or with two empty lists, the target is exactly `/config?isActive=true&names=<escaped name>` |
| `Query.Escape` | test/unit/configurineClient.tests.js:53 | the escaped text holds no raw `\|`; `Query.UnescapeEscape` proves that unescaping undoes it, and `Query.EscapeAppend` that it works character by character |
| `Query.ConfigTarget` | test/unit/configurineClient.tests.js:37-62 | the target of a lookup holds no raw `\|`; its exact shape is `Query.TargetShape`, its decoding `Query.TargetRoundTrip`, and the two mocked routes `Query.ExampleTargets` |
| `Query.TargetShape` | test/unit/configurineClient.tests.js:53 | every target is the path, `isActive=true`, `names=<escaped name>`, then `&associations=<escaped value>` per filter in order |
| `Query.OneOfEachTarget` | test/unit/configurineClient.tests.js:53-62 | with one application and one environment free of `\|`, the target is the mocked route with `\|` written as `%7C` |
| `Query.ExampleTargets` | test/unit/configurineClient.tests.js:53 | the two routes the tests mock (lines 37 and 53) are exactly the targets built for `loglevel` without and with the `myapp`/`1.0.0`/`production` filters |
| `Query.UnescapeEscape` | test/unit/configurineClient.tests.js:53 | reading `%7C` back as `\|` undoes the escaping of any text without `%` |
| `Query.QueryRoundTrip` | test/unit/configurineClient.tests.js:53 | a rendered query whose keys and values hold no `&`, `=` or `%` parses back to the same parameters in the same order |
| `Query.AssociationRoundTrip` | test/unit/configurineClient.tests.js:56-60 | a composite value `application\|<name>\|<version>` or `environment\|<env>` reads back as the same filter when the parts hold no `\|` |
| `Query.DecodeEncodeItems` | test/unit/configurineClient.tests.js:53 | a run of `associations` parameters decodes back to the filters it was built from, in order |
| `Query.TargetRoundTrip` | test/unit/configurineClient.tests.js:53-62 | the target of any lookup with plain name and filters decodes to `isActive=true`, `names=<name>` and then exactly the filters, applications before environments |
| `Tokens.ParseToken` | test/unit/configurineClient.tests.js:28 | a string is a token if and only if it has exactly four `:`-separated fields and the third is a decimal numeral; the token keeps the whole string as its bearer value; `Tokens.ParseFormatToken` proves it inverts the wire form |
| `Tokens.CurrentToken` | test/unit/configurineClient.tests.js:74-100 | the token store hands out the cached token if and only if one is cached and the clock is strictly before its expiry |
| `Tokens.ParseFormatToken` | test/unit/configurineClient.tests.js:28 | a token `owner:issuedAt:expiresAt:signature` (no `:` inside the other fields) is read back with the expiry of its third field and its own text as bearer value |
| `Tokens.MockTokenUsable` | test/unit/configurineClient.tests.js:27-29 | the mocked token, whose expiry field is the clock's digits followed by `500000`, is well formed and still usable 200 ms later |
| `Configurine.TokenOutcome` | test/unit/configurineClient.tests.js:132-156 | a 200 reply whose `access_token` reads as a token gives exactly that token; a token reply that is not 200 fails with that status and body whatever the body's shape; every failure is an authentication error; a success always carries the token of a 200 reply |
| `Configurine.ConfigOutcome` | test/unit/configurineClient.tests.js:102-130 | a 200 array reply gives exactly its entries; a result is always a 200 array reply's entries, unchanged; a non-200 reply fails with its status and body whatever the body's shape |
| `Configurine.Call` | test/unit/configurineClient.tests.js:33-156 | one call sends one or two requests; the cache changes only when a token request is sent first, and it then holds a token; the call stops at the token request if and only if it ends with an authentication error. Its caching rules are `Configurine.AuthenticatesWithoutUsableToken`, `Configurine.ReusesUsableToken`, `Configurine.TokenFailureEndsCall`, `Configurine.LastRequestDecidesOutcome` and `Configurine.SecondCallReusesToken` |
| `Configurine.CallbackArgs` | test/unit/configurineClient.tests.js:39-42 | the callback receives exactly one of an error or a result, never both and never neither |
| `Configurine.AuthenticatesWithoutUsableToken` | test/unit/configurineClient.tests.js:35-44 | with no token cached or the cached one expired, the first request is the token request and there is exactly one; on success the second and last request is the config request with the new token, which is cached |
| `Configurine.ReusesUsableToken` | test/unit/configurineClient.tests.js:87-94 | with a usable cached token the call sends only the config request, with that token, and no token request |
| `Configurine.TokenFailureEndsCall` | test/unit/configurineClient.tests.js:132-156 | when the token endpoint gives no token, the call sends only the token request, ends with that authentication error, and leaves the cache unchanged |
| `Configurine.LastRequestDecidesOutcome` | test/unit/configurineClient.tests.js:102-130 | a call that reaches the config request sends it for the exact target with the cached token and ends with what its reply means; a call that stops at the token request ends with an authentication error |
| `Configurine.SecondCallReusesToken` | test/unit/configurineClient.tests.js:74-100 | after a first call on a new client acquires a token still usable at the second call, the second call (any name, any filters) sends only its config request, and the two calls send exactly one token request |
| `Configurine.Client.constructor` | test/unit/configurineClient.tests.js:35 | a new client has its options, no cached token and no requests sent |
| `Configurine.Client.GetConfigByName` | test/unit/configurineClient.tests.js:39-46 | the requests appended to the log, the new cached token and the outcome are exactly those of `Call` on the old cached token |
| `Scenarios.GrantedToken` | test/unit/configurineClient.tests.js:36 | the mocked token reply yields the mocked token, usable now and 200 ms later |
| `Scenarios.GetsConfigByName` | test/unit/configurineClient.tests.js:33-47 | a new client sends the token request, then the config request for exactly `/config?isActive=true&names=loglevel`, and returns the served array with no error |
| `Scenarios.GetsConfigByNameAndAssociations` | test/unit/configurineClient.tests.js:49-72 | the same with the filters: the config request is for exactly the route with `application%7Cmyapp%7C1.0.0` and `environment%7Cproduction` |
| `Scenarios.ConfigNotFound` | test/unit/configurineClient.tests.js:102-115 | a 404 JSON reply from the config endpoint gives the error with that status and body and no result |
| `Scenarios.ConfigUnexpectedError` | test/unit/configurineClient.tests.js:117-130 | a 500 text reply from the config endpoint gives the error with that status and body and no result |
| `Scenarios.TokenNotFound` | test/unit/configurineClient.tests.js:132-143 | a 404 JSON reply from the token endpoint gives an authentication error, no result, and only the token request is sent |
| `Scenarios.TokenUnexpectedError` | test/unit/configurineClient.tests.js:145-156 | a 404 text reply from the token endpoint takes the same path |
| `Scenarios.CachedTokenTraces` | test/unit/configurineClient.tests.js:74-100 | in the cached-token test the second call sends only the config request with the first call's token; both calls return the served array; one token request in all |
| `Scenarios.UsesCachedToken` | test/unit/configurineClient.tests.js:76-99 | two calls on one `Client` object, the second with only the config route mocked, both succeed and the client's log holds exactly one token request |

## Left out

- HTTP transport and the `nock` mocks: replaced by the `transport` parameter, which returns a reply or no reply. A mock's interceptor is used up once it has been matched. The model's mock is a function, so it cannot be used up. The cached-token test registers only a config route for the second call, and the model gives that call a transport that answers only that route.
- The body of `POST /token` and the name of the authorization header: the tests do not fix them. The model records the client id and shared key on the token request and the bearer string on the config request.
- JSON parsing, and deep equality of entries (`underscore`): entries are opaque `Json` values, returned as the reply carried them. JSON numbers are integers.
- The real clock and `setTimeout`: the clock is the parameter `now`. The second call of the cached-token test is made at `now + 200`.
- Callback asynchrony and concurrent calls on one client: each call is one sequential method.
- General percent-encoding: only `|` to `%7C` is evidenced. Every other character is left as it is, and the round-trip lemmas require names and values without `&`, `=` or `%`.
- `lib/configurineClient.js` is not part of this model. Three cases are not exercised by the tests, and the model fixes them as follows. A 200 token reply without a readable `access_token` fails with `MalformedToken`. A 200 config reply that is not an array fails with `MalformedConfig`. No reply at all fails with `AuthUnreachable` or `ConfigUnreachable`.
- How an error body becomes a message: the error keeps the status and the whole body, JSON or text, and the model does not take it apart.
- The test at lines 145-156 is named after an unexpected error, but its token reply is a 404 with a text body, not a 500. The model follows the code, and `Scenarios.TokenUnexpectedError` uses 404.
