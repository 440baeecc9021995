# kl_authentication, modelled in Dafny

This project models the request-authentication core of the Kairnial
authentication module for Django. It covers two parts and the small pieces
around them.

- **Credential resolution.** `KairnialTokenAuthentication.authenticate` turns
  an inbound request into a `(user, token)` pair or into `None`. The order is
  fixed: test-bypass mode first. Then the bearer token, which is the second
  whitespace-separated field of `Authorization`. Then the machine-to-machine
  user named by `X-App-User-Id`, which skips verification. Then `jwt.decode`,
  with the request's `client_id` as audience, and a user built from the claims.
  Every failure gives `None`, and the model records which of the five log
  messages it would print.
- **Token issuance.** `KairnialAuthentication` posts a password, API-key or
  refresh-token grant to `<KAIRNIAL_AUTH_SERVER>/api/oauth2/login`. A non-200
  answer raises `KairnialAuthServiceError` carrying that status. A 200 answer
  whose body is not JSON raises it with status 400. A JSON object body is
  returned as it is, after its `access_token`, `token_type` and `user` summary
  are copied into the object's fields.
- **Supporting pieces.** The middleware copies the token and `X-App-User-Id`
  onto the request. `handle_auth_ws_error` turns a service error into a 503
  reply. `graphql_login_required` runs the GraphQL login checks. The OpenAPI
  hook keeps only the endpoints whose path contains the client-id parameter.

Files, one module each:

- `wrappers.dfy`: `Option` and `Result`.
- `json.dfy`: JSON values, `dict.get` and Python truthiness.
- `text.dfy`: Python's `str.split()`, `strip()`, `" ".join`, single-character
  `replace`, `in` on strings and `str(int)`. Whitespace is the set that
  `str.isspace` accepts.
- `config.dfy`: the Django settings the core reads.
- `http.dfy`: the request headers, and a `Request` class whose `token`,
  `user_id` and `client_id` attributes are updated in place.
- `authentication.dfy`, `services.dfy`, `middlewares.dfy`, `decorators.dfy`
  and `openapi.dfy`: one per source file.

How external calls are represented:

- `jwt.decode` is a function parameter (`Decoder`). It maps the token and the
  audience either to the claims or to one of four error kinds: expired, bad
  issuer, bad audience, or any other.
- `requests.post` is a function parameter (`Server`). It maps the posted
  request to a response made of the status, the content and the result of
  `response.json()`.
- The `str(uuid.uuid4())` of test mode is a string parameter.
- A view, a GraphQL resolver and the next middleware handler are function
  parameters too.

Python exceptions that the code does not catch are explicit outcomes. Two
examples: the `AttributeError` of a JSON answer that is not an object, and the
`AttributeError` of a `user` member that is present but not an object. In the
second case `_extract_token` and `_extract_token_type` have already run, so
the model updates `token` and `token_type` but leaves `user` as it was.

Points about the code worth stating, each of which the model follows:

- The token is read from the `Authorization` header only; cookies are never
  consulted.
- A transport failure inside `requests.post` is not turned into a
  `KairnialAuthServiceError`; its exception propagates unhandled.
- `X-App-User-Id` is consulted only after `Authorization` has yielded a token.
  On its own the header gives `None`.
- The token is the second field of `Authorization`, and any later fields are
  ignored. The header does not have to be exactly a scheme-and-token pair.
- A grant returns the parsed response body as it is.

The `if token is None` branch at kl_authentication/authentication.py:84-86
can never run: the fields that `split()` returns are never `None`. The model
has no counterpart for it.

## Model

| member | source | states |
|---|---|---|
| `Text.Fields` | kl_authentication/authentication.py:83 | every field of `split()` is non-empty and contains no whitespace |
| `Text.FieldsOfJoin` | kl_authentication/services.py:60 | splitting `" ".join(words)` gives `words` back when every element is a word |
| `Text.StripPadded` | kl_authentication/authentication.py:58 | `strip()` removes exactly the surrounding whitespace: padding a string that has none, then stripping, returns it |
| `Authentication.BearerToken` | kl_authentication/authentication.py:82-89 | a token exists iff the header is present and has at least two fields; the token is then exactly the second field of `split()`, and a word |
| `Authentication.BearerTokenOfHeader` | kl_authentication/authentication.py:83 | for any leading whitespace, `<scheme>`, any non-empty run of whitespace (tabs included), `<token>`, then anything that starts with whitespace, the token is exactly `<token>`; later fields are ignored |
| `Authentication.SingleFieldHeaderRejected` | kl_authentication/authentication.py:83-89 | a one-field header (a bare token with no scheme) yields no token |
| `Authentication.BlankHeaderRejected` | kl_authentication/authentication.py:83-89 | an empty or whitespace-only header yields no token |
| `Authentication.M2MUser` | kl_authentication/authentication.py:30-43 | no machine user iff the header is absent or empty; otherwise the user is M2M/User/none@thinkproject.com with uuid equal to the header value |
| `Authentication.ClaimsUser` | kl_authentication/authentication.py:55-65 | a user exists iff the `email` claim is a string; uuid is `sub`, first name is empty, last name is `name` or `''` when falsy, and email is the stripped claim with no surrounding whitespace |
| `Authentication.DecodeFailure` | kl_authentication/authentication.py:97-108 | expired maps to TokenExpired alone; bad issuer or bad audience maps to IncorrectClaims; no decode error is classed as a header or attribute failure |
| `Authentication.TokenUser` | kl_authentication/authentication.py:93-108 | an unset `client_id` gives AttributeMissing; a decode error gives its classification; success iff decoding succeeded and the claims make a user, and the user is then exactly that one; decoded claims without a string `email` give AttributeMissing, as the `except AttributeError` branch does |
| `Authentication.Resolve` | kl_authentication/authentication.py:67-108 | test mode iff the bypass outcome, which is the fixed test user; no token iff MalformedHeader; machine path iff a token and a non-empty `X-App-User-Id`, returning the token unchanged; a verified user comes from the same token decoded against `client_id` |
| `Authentication.TestModeIgnoresRequest` | kl_authentication/authentication.py:73-81 | in test mode the outcome does not depend on headers, audience or decoder, and is Test/User/test@user.com with uuid `TEST_USER_ID` |
| `Authentication.MachinePathSkipsDecode` | kl_authentication/authentication.py:90-92 | with a token and a non-empty `X-App-User-Id`, the result is the same for every decoder and audience: the machine user with the token unchanged |
| `Authentication.EmptyAppUserIdFallsThrough` | kl_authentication/authentication.py:34-36 | an empty or absent `X-App-User-Id` sends resolution to token decoding |
| `Authentication.AppUserIdWithoutAuthorizationRejected` | kl_authentication/authentication.py:82-92 | `X-App-User-Id` without `Authorization` returns `None` |
| `Authentication.DecodeFailuresRejected` | kl_authentication/authentication.py:97-108 | every decode failure returns `None` and carries the failure its exception class selects |
| `Authentication.VerifiedBearerScenario` | kl_authentication/authentication.py:93-96 | `<scheme> <token>` with no machine header and a decodable token gives a verified user whose uuid is `sub` and whose email is the trimmed claim |
| `Authentication.MachineScenario` | kl_authentication/authentication.py:90-92 | `<scheme> <token>` plus `X-App-User-Id: <id>` gives exactly the machine user with uuid `<id>` and the token `<token>` |
| `Authentication.Authenticate` | kl_authentication/authentication.py:67-108 | returns the resolution's `(user, token)` or `None`; sets `request.user_id` to the user's uuid on the verified path only, and leaves it unchanged otherwise |
| `Services.ServiceError.Error` | kl_authentication/services.py:27-32 | the error payload has exactly the keys `service_status` and `service_message` |
| `Services.ErrorPayloadRoundTrip` | kl_authentication/services.py:23-36 | reading the `error` payload back gives the constructor's status and message |
| `Services.ScopeRoundTrip` | kl_authentication/services.py:60 | the scope string splits back into the configured scopes |
| `Services.PasswordRequest` | kl_authentication/services.py:58-70 | form-encoded post to `<server>/api/oauth2/login` with exactly client_id, scope, grant_type=password, password and username |
| `Services.SecretsRequest` | kl_authentication/services.py:97-115 | JSON post to the same URL with exactly grant_type=api_key, scope, client_id, api_key and api_secret |
| `Services.RefreshRequest` | kl_authentication/services.py:145-162 | JSON post to the same URL with exactly grant_type=refresh_token, scope, client_id, provider_uuid and refresh_token |
| `Services.GrantsShareEndpointAndScope` | kl_authentication/services.py:58-162 | the three grants share the URL and the scope string and differ in `grant_type` |
| `Services.FailureMessage` | kl_authentication/services.py:71-75 | the message starts with "Authentication failed with code " and goes on with the status, ": " and the content |
| `Services.FailureMessageIdentifiesStatus` | kl_authentication/services.py:73-74 | the failure message determines the HTTP status: two answers with equal messages had equal statuses, whatever their content |
| `Text.IntToStringInjective` | kl_authentication/services.py:73 | distinct integers render as distinct decimal strings inside the f-string |
| `Services.ExtractedUser` | kl_authentication/services.py:202-215 | with no `user` member every field is `None`; failure iff `user` is present but not an object; otherwise the four fields read from it |
| `Services.AfterResponse` | kl_authentication/services.py:71-87 | non-200 raises with that status and leaves the fields unchanged; 200 with a non-JSON body raises status 400 "Invalid response from server" and leaves them unchanged; success returns the parsed body unchanged and sets token, token_type and user from it |
| `Services.UnauthorizedScenario` | kl_authentication/services.py:71-75 | a 401 answer raises status 401 with a message starting "Authentication failed with code 401" |
| `Services.KairnialAuthentication.constructor` | kl_authentication/services.py:43-49 | stores the client id; token, token_type and user start as `None` |
| `Services.KairnialAuthentication.ExtractToken` | kl_authentication/services.py:193-200 | `token` becomes the body's `access_token` and is returned |
| `Services.KairnialAuthentication.ExtractTokenType` | kl_authentication/services.py:184-191 | `token_type` becomes the body's `token_type` and is returned |
| `Services.KairnialAuthentication.ExtractUser` | kl_authentication/services.py:202-215 | `user` becomes the extracted summary; on the `AttributeError` it keeps its value |
| `Services.KairnialAuthentication.HandleResponse` | kl_authentication/services.py:71-87 | the new fields and the outcome are those of `AfterResponse` on the old fields |
| `Services.KairnialAuthentication.PasswordAuthentication` | kl_authentication/services.py:51-87 | posts exactly `PasswordRequest`, and the new fields and the outcome follow `AfterResponse` on the answer |
| `Services.KairnialAuthentication.SecretsAuthentication` | kl_authentication/services.py:89-135 | posts exactly `SecretsRequest`, and the new fields and the outcome follow `AfterResponse` on the answer |
| `Services.KairnialAuthentication.RefreshAuthentication` | kl_authentication/services.py:137-182 | posts exactly `RefreshRequest`, and the new fields and the outcome follow `AfterResponse` on the answer |
| `Middlewares.UsernameFromPayload` | kl_authentication/middlewares.py:17-20 | a username exists iff `sub` is a string; it has the same length, no `'\|'`, agrees with `sub` wherever `sub` has no `'\|'`, and has `'.'` wherever `sub` has `'\|'` |
| `Middlewares.UsernameOfPlainSub` | kl_authentication/middlewares.py:18 | a `sub` without `'\|'` is its own username |
| `Middlewares.KairnialAuthMiddleware.constructor` | kl_authentication/middlewares.py:13-14 | stores the next handler |
| `Middlewares.KairnialAuthMiddleware.Call` | kl_authentication/middlewares.py:22-30 | with a token, `request.token` becomes it and then `request.user_id` becomes the header value or `None`; without one, neither attribute changes; the next handler's response on the annotated request is returned unchanged |
| `Middlewares.ProcessView` | kl_authentication/middlewares.py:32-36 | `request.client_id` is set iff the view kwargs hold a truthy `client_id`; otherwise it is unchanged |
| `Decorators.HandleAuthWsError` | kl_authentication/decorators.py:12-28 | a normal return passes through unchanged; a service error becomes a 503 reply with the JSON content type, whose body is the error's payload and reads back as that error; other exceptions propagate |
| `Decorators.GraphqlLoginRequired` | kl_authentication/decorators.py:30-54 | a missing context request is refused first, then a missing `client_id`, leaving the request unchanged; otherwise `request.client_id` is set before authentication; the resolver's result on the original arguments is returned iff authentication succeeded, else "You have to be logged in..." |
| `OpenApi.KeepWithMarker` | kl_authentication/openapi.py:28-32 | the output holds only input endpoints whose path contains the marker, and every such input endpoint |
| `OpenApi.PreprocessExcludeClientlessRoutes` | kl_authentication/openapi.py:22-32 | only endpoints whose path contains `{CLIENT_ID_VARIABLE}` are kept, and none of those is dropped |
| `OpenApi.KeepIsSubsequence` | kl_authentication/openapi.py:28-32 | the output is an order-preserving subsequence of the input |
| `OpenApi.KeepMultiplicity` | kl_authentication/openapi.py:28-32 | each qualifying endpoint occurs as often as in the input; each other endpoint never occurs |
| `OpenApi.KeepAppend` | kl_authentication/openapi.py:28-32 | filtering a concatenation is concatenating the filtered parts |
| `OpenApi.KeepIdempotent` | kl_authentication/openapi.py:28-32 | filtering twice equals filtering once |
| `OpenApi.PreprocessIdempotent` | kl_authentication/openapi.py:22-32 | the hook is idempotent and its output is a subsequence of its input |
| `OpenApi.PathWithClientIdKept` | kl_authentication/openapi.py:27-31 | an endpoint whose path contains `{CLIENT_ID_VARIABLE}` anywhere is kept |

## Left out

- RS256 signature verification and the expiry, audience and issuer checks inside `jwt.decode`. This is a foreign cryptographic library, so it is only an oracle that returns claims or an error kind.
- The network round trip of `requests.post`, and the exceptions it may raise. The code does not catch them, so no grant outcome stands for them.
- Cookie-based token extraction, and a status-0 error for transport failures. Neither exists in the code.
- Logging, `gettext` translation (taken as the identity) and `print`. The log message `authenticate` would write is kept as the `Failure` constructor.
- `uuid.uuid4()`. The test-mode token is a parameter.
- `get_user_model()` and Django's `authenticate(remote_user=...)` call at kl_authentication/middlewares.py:19. Users are plain records.
- The views, serializers and URL table, the `TokenScheme` schema extension, and setup.py. These are framework glue and build tooling.
- kl_authentication/__init__.py and kl_authentication/exceptions.py are not part of this model. `JSON_CONTENT_TYPE` is a setting, and `InsufficientPermission` is represented by its message.
- The class-level defaults `_message` and `_status` of `KairnialAuthServiceError`. The constructor always overwrites them.
- JSON floating-point numbers. JSON numbers are integers here.
- `Services.FailureMessage`: `response.content` is bytes, and the f-string renders its `repr`. The model takes `content` as that rendered text.
- `Services.AfterResponse`: it assumes the error `response.json()` raises on a non-JSON body is a `json.JSONDecodeError`, as the `except` clause expects.
- `Middlewares.KairnialAuthMiddleware.Call`: it does not state that `get_response` runs exactly once. The next handler is a pure function parameter, so the model states only that the response is that handler's result on the annotated request.
- `Decorators.GraphqlLoginRequired`: the resolver is a pure function of its arguments, so it does not observe the request attributes that the wrapper and `authenticate` set.
- `Decorators.HandleAuthWsError`: an exception other than the service error is represented only by its class name.
