# gopherauth OAuth 2.0 provider, modelled in Dafny

This project models the request-handling core of gopherauth, a Go OAuth 2.0 authorization
server (RFC 6749). It covers:

- the token endpoint and its two grant controllers, for the password grant and the
  authorization-code grant;
- the authorization endpoint, which renders a signed approval prompt;
- the approval endpoint, which checks that signature before redirecting back to the client;
- the login page, with its nonce cookie and CSRF token;
- the helpers these share: the scope parser, the HTTP Basic client-credential parser
  (section 2 of RFC 7617), the two middlewares, the empty-parameter check, the login redirect,
  and the JSON shapes of tokens and errors (sections 5.1 and 5.2 of RFC 6749).

Each handler is a pure function from an abstract request to a response. The request is a
record of method, URL, parsed query, form, headers and cookies (`Http.Request`). The response
is either a written status with header, cookies and body, or a runtime panic
(`Http.Response`).

The collaborators are records of functions (`Services`):
- the OAuth service: password flow, authorization-code flow, scope validation and code issuance;
- the user-authentication service: session check and login;
- the token generator.

The current time is an argument as well. Because collaborators are plain values, "the handler
does not call X" is stated as independence: replacing X by anything else gives the same
response.

The standard-library services stay uninterpreted (`Stdlib.Primitives`): base64, HMAC-SHA256,
`url.Values.Encode`, `url.ParseQuery`, `url.QueryEscape`/`QueryUnescape`, `url.Parse`,
`URL.String`, `strconv.ParseInt`/`FormatInt`, and Go's map iteration order.
`Stdlib.Lawful` lists the only facts the proofs assume about them:
- base64 decoding inverts encoding;
- `ParseInt` inverts `FormatInt` on int64;
- `ParseQuery` inverts `Encode`, up to dropped empty lists;
- `ParseQuery` of `a&b` merges the two halves;
- ranging over a map visits exactly its keys;
- the empty query holds no parameters.

One more fact, `Stdlib.ReadsEscapedPair`, is assumed only by the lemma about the login
redirect's query: `ParseQuery` reads `name=QueryEscape(x)` as `name` holding `x`, for a name
made of unreserved characters.

Successive HMAC writes are modelled explicitly. They are proved to equal one write of the
concatenation (`Stdlib.SumOfWrites`).

Modules follow the source tree:
- `Scope`: oauth2/scope.go
- `Util`: util/
- `OAuth2`: oauth2/response.go and parameters.go
- `Helpers`: oauth2/helpers/
- `ResponseTypes`: oauth2/response_type/
- `GrantTypes`: oauth2/grant_type/
- `TokenEndpoint`, `AuthEndpoint`, `ApprovalEndpoint` and `Signature`: oauth2/endpoint/
- `Login`: login/
- `Flows`: properties that span two endpoints.

## Model

| member | source | states |
|---|---|---|
| Strings.SplitN2 | util/http_request.go:14 | `strings.SplitN(s, sep, 2)`: one part exactly when the separator is absent, otherwise a separator-free head and a tail that rebuild the input around the first separator |
| Strings.SplitN2Of | util/http_request.go:22 | the split is unique: a separator-free head followed by the separator and any tail is split back into exactly that head and tail |
| Strings.Split | oauth2/scope.go:8 | `strings.Split` on one character: at least one piece, and no piece contains the separator |
| Strings.JoinSplit | oauth2/scope.go:8 | joining the pieces of a split with the separator gives back the original string |
| Strings.SplitJoin | oauth2/scope.go:8 | splitting a join of separator-free pieces gives back the pieces |
| Strings.SplitAppend | oauth2/scope.go:8 | splitting `a + sep + b` gives the pieces of `a` followed by those of `b` |
| Scope.NonEmpty | oauth2/scope.go:10-14 | the filter keeps only non-empty tokens, keeps only tokens of the input, and leaves an input without empty tokens unchanged |
| Scope.NonEmptyAppend | oauth2/scope.go:10-14 | the filter distributes over concatenation, so token order is preserved |
| Scope.ParseScope | oauth2/scope.go:7-16 | no returned scope is empty or contains a space, and the empty string gives no scopes |
| Scope.ParseJoined | oauth2/scope.go:7-16 | space-joined non-empty space-free tokens parse back to exactly those tokens: each result is a maximal space-free run |
| Scope.ParseIdempotent | oauth2/scope.go:7-16 | re-parsing the space-joined result gives the same result |
| Scope.ParseAppend | oauth2/scope.go:8-14 | the scopes of `a + " " + b` are those of `a` followed by those of `b`, in input order |
| Scope.ParseToken | oauth2/scope.go:8 | only the space separates: a token holding tabs or other characters stays whole |
| Stdlib.WriteAllIsConcat | oauth2/endpoint/approval.go:91-98 | successive writes into an HMAC append their chunks with nothing in between |
| Stdlib.SumOfWrites | oauth2/endpoint/approval.go:105-111 | the MAC of several writes is the MAC of their concatenation under the same key |
| OAuth2.ErrorCodesDistinct | oauth2/response.go:9-19 | the nine error codes, including `error_invalid_client` as written, are pairwise distinct |
| OAuth2.TokenJson | oauth2/response.go:26-30 | a marshalled token has exactly the keys `access_token`, `token_type` and `expires_in`, holding the token's fields; `expires_in` is never negative |
| OAuth2.ErrorJson | oauth2/response.go:44-48 | a marshalled error always has `error`, the code `Error()` returns; it has `error_description` iff the description is non-empty and `error_uri` iff there is a URI |
| OAuth2.WriteToken | oauth2/response.go:32-42 | the caller's status, Content-Type `application/json;charset=UTF-8` and the token's JSON |
| OAuth2.WriteError | oauth2/response.go:54-62 | the caller's status, Content-Type `application/json;charset=UTF-8` and the error's JSON |
| Util.ParseBasicAuth | util/http_request.go:12-27 | not-Basic iff the header does not start with `Basic` and one space; a base64 failure is an error; a success decodes to `id:secret` with a non-empty colon-free id and a non-empty secret |
| Util.ParseBasicAuthOf | util/http_request.go:22-26 | a payload decoding to `id:secret` with a non-empty colon-free id and a non-empty secret yields exactly that pair; the secret may contain colons |
| Util.ParseBasicAuthRejects | util/http_request.go:22-25 | decoded text without a colon, with an empty id, or with an empty secret is rejected as bad credentials |
| Util.BasicAuthRoundTrip | util/http_request.go:12-27 | `"Basic " + base64(id + ":" + secret)` parses back to (id, secret) |
| Util.NoCaching | util/http_middleware.go:9-15 | the wrapped response keeps its status, body and cookies, and gains `Cache-Control: no-store` and `Pragma: no-cache` unless it sets those itself |
| Util.NormalizeClientCredentials | util/http_middleware.go:17-33 | a form-parse failure answers 400 `invalid_request` without running the handler; a present Authorization header is left untouched; an absent one is synthesised as Basic from `client_id`/`client_secret`, and no other header changes |
| Util.NormalizedFormCredentials | util/http_middleware.go:26-31 | form credentials with a non-empty colon-free id and a non-empty secret are recovered by `GetBasicAuth` |
| Util.NormalizedNoCredentials | util/http_middleware.go:26-29 | with neither header nor form fields, the synthesised header decodes to `:` and is rejected |
| Util.LoginTarget | util/http_response.go:13-14 | only the query of the login URL changes, and it becomes exactly `return_to=` plus the escaped return URL; any earlier query is dropped |
| Util.LoginTargetCarriesReturnUrl | util/http_response.go:13-14 | the login page reading the redirect's query finds exactly `return_to` holding the URL to come back to |
| Util.RedirectToLogin | util/http_response.go:13-16 | a 302 Found whose Location is the login target and which sets no cookies; no body is modelled (the short HTML body `http.Redirect` writes for GET requests is left out) |
| Helpers.CheckParameters | oauth2/helpers/request.go:9-16 | the range loop completes iff every visited key's first value is non-empty; it stops at a visited key whose first value is empty, or panics on a visited key with no values |
| Helpers.NamedParameterDependsOnOrder | oauth2/helpers/request.go:9 | with two empty parameters, which one is named depends on the iteration order |
| Helpers.MakeMissingParameterError | oauth2/helpers/response.go:10-16 | code `invalid_request`, description `Required parameter is missing: <name>`, and a nil URI whatever URI is passed |
| Helpers.MissingParameterErrorKeys | oauth2/helpers/response.go:10-16 | the marshalled error has exactly the keys `error` and `error_description` |
| Helpers.ValidateParameters | oauth2/helpers/request.go:8-17 | nothing is written iff every key's first value is non-empty; a written response is one 400 `invalid_request` naming a key whose first value is empty; lists with at least one value never panic |
| Helpers.RenderError | oauth2/helpers/render.go:10-14 | status 400, and the error rendered as the page; the Content-Type added after the status is dropped |
| Helpers.NewMissingClientCredentialsError | oauth2/endpoint/token.go:46-51 | the credential error the token endpoint answers with 401: code `error_invalid_client`, a description, and no URI |
| ResponseTypes.ExtractParameters | oauth2/response_type/common.go:10-26 | exactly the five keys, one value each: the first query value, or "" when the name is absent |
| ResponseTypes.ExtractReadsOnlyTheFiveNames | oauth2/response_type/common.go:11-16 | two requests that agree on the five query values extract the same parameters, whatever the rest of the query and the form hold |
| ResponseTypes.CodeExecute | oauth2/response_type/code.go:26-46 | an unparseable `redirect_uri` is an error; the service's error is returned unchanged; otherwise only the query changes, to the encoded response or to the old query, `&`, and the encoded response |
| ResponseTypes.CodeExecuteBadUriSkipsService | oauth2/response_type/code.go:29-32 | with an unparseable `redirect_uri` the service is not consulted |
| ResponseTypes.CodeRedirectCarriesResponse | oauth2/response_type/code.go:39-45 | the redirect's parsed query yields the service's `code` and `state`, unless the registered URI already carried those names |
| GrantTypes.NewMissingParameterError | oauth2/grant_type/password.go:26-32 | code `invalid_request`, description `Missing required parameter: <param>`, and no URI |
| GrantTypes.InvalidClientErrorKeys | oauth2/grant_type/password.go:34-38 | the credential error marshals to the single key `error`, which holds `error_invalid_client` |
| GrantTypes.ServiceFailure | oauth2/grant_type/password.go:76-82 | a typed OAuth error is relayed verbatim with 400; any other failure becomes an empty `http.Error` with the handler's status |
| GrantTypes.PasswordServeHTTP | oauth2/grant_type/password.go:56-91 | checks the credentials, then the username, then the password, each with its own error; 200 exactly when all pass and the flow succeeds, with the token JSON and JSON Content-Type; a failed flow gives its OAuth error with 400 and any other error an empty 500 |
| GrantTypes.PasswordSkipsServiceUntilValid | oauth2/grant_type/password.go:57-75 | the password flow is not consulted until the credentials, the username and the password all pass |
| GrantTypes.PasswordFlowReceivesClient | oauth2/grant_type/password.go:75-90 | the flow receives the id and secret the client encoded, and the form's username and password; its answer decides the response |
| GrantTypes.CodeGrantParameters | oauth2/grant_type/authorization_code.go:33-38 | the checked parameters are exactly `code` and `redirect_uri`, one value each |
| GrantTypes.CodeGrantParametersChecked | oauth2/grant_type/authorization_code.go:36-43 | with both fields non-empty the parameter check writes nothing, whatever the iteration order |
| GrantTypes.AuthorizationCodeServeHTTP | oauth2/grant_type/authorization_code.go:25-55 | the response is always written; a credential failure gives 401 before any form field is read; with both fields present, the service's answer for the credentials, the raw code and the raw URI string decides: token with 200, typed error with 400, anything else 503 |
| GrantTypes.AuthorizationCodeMissingParameter | oauth2/grant_type/authorization_code.go:33-43 | an empty `code` or `redirect_uri` gives 400 `invalid_request` naming it; when both are empty either may be named |
| GrantTypes.AuthorizationCodeSkipsServiceUntilValid | oauth2/grant_type/authorization_code.go:40-45 | the service is not consulted while the credentials or either parameter is missing |
| TokenEndpoint.NewUnsupportedGrantTypeError | oauth2/endpoint/token.go:32-38 | code `unsupported_grant_type`, description `Unsupported grant type: <gt>`, and no URI |
| TokenEndpoint.Handle | oauth2/endpoint/token.go:40-74 | non-POST gives 405; credentials are checked before the grant type (401); an unknown or absent grant type gives 400; an empty extracted parameter gives the 400 `invalid_request` ValidateParameters writes; 200 exactly when the parameters are complete and Execute succeeds, with its token; a failed Execute gives its OAuth error with 400 and any other error an empty 503 |
| TokenEndpoint.RunGrantType | oauth2/endpoint/token.go:55-70 | the written 400 of an empty extracted parameter, else the token with 200, else the Execute failure relayed with 400 for an OAuth error and 503 otherwise; 200 exactly when validation and Execute both pass |
| TokenEndpoint.OnlySelectedGrantTypeRuns | oauth2/endpoint/token.go:53-55 | only the strategy registered under the posted `grant_type` influences the response |
| TokenEndpoint.ExecuteSkippedOnMissingParameter | oauth2/endpoint/token.go:56-61 | when an extracted parameter is empty, Execute is never called |
| TokenEndpoint.Serve | oauth2/endpoint/token.go:23-30 | every response carries the no-cache headers; a form-parse failure gives 400 `invalid_request`; otherwise the handler's status and body on the normalised request |
| TokenEndpoint.FormCredentialsAuthenticate | oauth2/endpoint/token.go:27-28 | credentials posted in the form authenticate the client as if sent in the header |
| Signature.ComputeKey | oauth2/endpoint/approval.go:105-111 | the key is the server key's HMAC of user id, expiration string and session id, concatenated with no separator |
| Signature.ComputeMAC | oauth2/endpoint/approval.go:91-99 | the signature is the key's HMAC of the encoded parameters, user id, expiration string and session id, concatenated |
| Signature.CheckMAC | oauth2/endpoint/approval.go:101-103 | accepts exactly the MAC of those fields |
| Signature.KeyFieldsAmbiguous | oauth2/endpoint/approval.go:105-111 | with no separators, any two user ids and expirations that concatenate to the same text get the same key |
| Signature.MacFieldsAmbiguous | oauth2/endpoint/approval.go:91-98 | likewise, such fields get the same MAC over the same parameters |
| Signature.KeyFieldsCollide | oauth2/endpoint/approval.go:105-111 | an instance: user id `1` with expiration `23` gets the same key as `12` with `3` |
| Signature.CheckAcceptsComputed | oauth2/endpoint/approval.go:101-103 | CheckMAC accepts ComputeMAC's own output |
| Signature.MacIgnoresAddOrder | oauth2/endpoint/approval.go:91-92 | the MAC does not depend on the order in which the parameters were added |
| AuthEndpoint.ResponseTypeError | oauth2/endpoint/auth.go:126-137 | `invalid_request` with `Required parameter is missing: response_type` for an absent type and `Invalid response_type: <v>` for an unknown one |
| AuthEndpoint.PromptSigningMatchesApproval | oauth2/endpoint/auth.go:114-116 | the prompt's key and signature are approval.go's ComputeKey and ComputeMAC for an empty user id and the decimal expiration time |
| AuthEndpoint.ResponseTypeSignedTwice | oauth2/endpoint/auth.go:81 | `response_type` is appended after extraction, so the signed parameters carry it twice |
| AuthEndpoint.AfterParameters | oauth2/endpoint/auth.go:83-125 | once the parameters are complete the response is always written; the only error page it renders is `invalid_scope` |
| AuthEndpoint.AfterParametersOutcomes | oauth2/endpoint/auth.go:83-127 | rung by rung: a scope-service error gives the 503 page; rejected scopes give the 400 `invalid_scope` page; a missing session cookie or an invalid session gives the login redirect back to the request; a session-service error gives the 503 page; a valid session gets the prompt signed two hours ahead |
| AuthEndpoint.Handle | oauth2/endpoint/auth.go:64-138 | non-GET gives 405; an absent or unknown `response_type` gives its error page; a panic happens exactly when the range loop reaches a parameter with no value before one whose first value is empty; an empty one gives an error naming it; otherwise the scope and session checks decide |
| AuthEndpoint.PromptShownIff | oauth2/endpoint/auth.go:100-125 | the prompt is shown exactly when the parameters are complete, the scopes valid and the session cookie valid; it signs the parameters with an expiration two hours ahead |
| AuthEndpoint.RedirectsGoToLogin | oauth2/endpoint/auth.go:100-113 | every 302 the endpoint issues is the login redirect back to the request URL |
| AuthEndpoint.ServicesAskedInOrder | oauth2/endpoint/auth.go:73-113 | no collaborator is asked while a parameter is missing, and the session service is not asked while the scope is rejected |
| AuthEndpoint.CodeRequestsDoNotPanic | oauth2/endpoint/auth.go:73-80 | with the code response type the handler never panics, and gives an `invalid_request` page exactly when one of the five query values is empty, including `state` |
| AuthEndpoint.CodeParametersChecked | oauth2/endpoint/auth.go:73-80 | on the code type's single-valued parameters the check never panics, and it stops exactly when one of the five query values is empty |
| AuthEndpoint.Serve | oauth2/endpoint/auth.go:44-62 | every response carries `Cache-Control: no-store` and `Pragma: no-cache` over the handler's status and body |
| ApprovalEndpoint.Complete | oauth2/endpoint/approval.go:80-82 | a successful Execute gives a 302 to its URL; a failed one gives 400 |
| ApprovalEndpoint.Handle | oauth2/endpoint/approval.go:44-89 | non-POST gives 405; an unknown `response_type` gives 400; no session cookie or an invalid session redirects to login; a session error gives 503; Execute's redirect follows only a valid expiration, signature encoding and MAC, and every other failure gives 400 |
| ApprovalEndpoint.ExecuteOnlyWhenAccepted | oauth2/endpoint/approval.go:72-88 | Execute is never reached unless the session is valid and the MAC verifies |
| ApprovalEndpoint.ExpiredApprovalRefused | oauth2/endpoint/approval.go:74-81 | an approval after its expiration gives 400; at the expiration instant itself a correct signature still leads to Execute |
| Login.ComputeMac | login/handle.go:115-119 | the server key's HMAC of the value |
| Login.MethodNotAllowed | login/handle.go:106-111 | any other method is answered with a 405 page |
| Login.Serve | login/handle.go:47-113 | every response first sets a fresh HttpOnly nonce cookie; GET renders a CSRF token that is the base64 HMAC of that nonce; POST fails the checks with 400, and redirects with a session cookie exactly when the checks pass and authentication succeeds; a credentials mismatch re-renders the login page with 200, the posted email, the incorrect-credentials message and no session cookie; any other authentication error gives the 503 page; other methods give 405 |
| Login.PostIgnoresGenerator | login/handle.go:48-75 | apart from the nonce cookie, a non-GET response does not depend on the freshly generated nonce: the CSRF check uses the incoming cookie |
| Login.InvalidPostSkipsAuthentication | login/handle.go:75-81 | a POST failing the checks never reaches AuthenticateUser |
| Login.IssuedCsrfAccepted | login/handle.go:56-81 | the CSRF token a GET issues passes the POST check when it returns with the nonce cookie issued alongside it |
| Flows.PromptAcceptedByApproval | oauth2/endpoint/auth.go:114-122 | an approval prompt posted back in time from the same session, with an empty user id, passes every approval check and reaches Execute |

## Behaviour worth knowing

- The login redirect puts the return URL in `return_to` (util/http_response.go:14), while the
  login handler reads `continue` (login/handle.go:64). The auth endpoint's own test helper
  expects `continue` (oauth2/endpoint/common_test.go:17).
- At the approval endpoint, a missing or invalid session redirects to login
  (oauth2/endpoint/approval.go:55-68).
- The approval endpoint accepts `now <= expiration`, so an approval posted at its expiration
  instant still passes (oauth2/endpoint/approval.go:76).
- A failed Execute at the approval endpoint is modelled as falling through to the closing 400;
  the `ApprovalEndpoint.Handle` line under "Left out" gives the reason.
- A scope-validation error at the auth endpoint renders the service-unavailable page
  (oauth2/endpoint/auth.go:83-89), while the auth endpoint's test expects 500
  (oauth2/endpoint/auth_test.go:193). Scope validation takes only the parsed scopes.
- The invalid-client code is `error_invalid_client` (oauth2/response.go:18).

## Left out

- Template rendering, the template factory and its mutex: a rendered page is the `View`
  record of the data handed to the template.
- The JSON text itself: the body is the object `json.Marshal` would produce. Marshal failures
  are left out: the `log.Fatalf` in password.go:84-87 and the double `WriteHeader` in
  response.go:56-60 cannot happen for these structs.
- `ResponseWriter` quirks. A header added after `WriteHeader` is dropped, as in `RenderError`,
  and is otherwise not modelled. Content sniffing when no Content-Type is set is not modelled.
- `http.Redirect`: only absolute locations are modelled. The rewriting of relative paths and the
  short HTML body written for GET requests are left out. `Http.Redirect` sets only `Location`.
- The internals of the standard-library services. They are uninterpreted, and `Lawful` lists
  the facts assumed about them.
- `hmac.Equal` is constant-time. The model keeps only its result, equality of the bytes.
- The clock. `now` is an argument. The int64 overflow of `now + 2h` in UnixNano is not modelled;
  the model uses unbounded integers.
- crypto/rand (service/token_generator.go): the generator is an argument.
- main.go, the mocks and the tests.
- The token response type (oauth2/response_type/token.go): a stub whose `Execute` returns an
  empty URL, with the wrong signature for the interface.
- Cookie attributes other than name, value and HttpOnly.
- Error messages of the standard library. A `url.Parse` failure is the placeholder
  `RedirectUriParseError`.
- decodeAuthHeader (oauth2/grant_type/password.go:40-54) is the same text as util.GetBasicAuth.
  It is modelled once, by `Util.ParseBasicAuth`, which the password controller uses.
- Services.Oauth2Service: collaborators (and a grant type's `Execute`) answer exactly one of
  a value or an error, never Go's `(nil, nil)`, and do not mutate their arguments. So the model
  leaves out two things: the nil-pointer panic of a `(nil, nil)` from `ValidateScope` at
  oauth2/endpoint/auth.go:90, and the JSON `null` written with 200 for a `(nil, nil)` from
  `PasswordFlow`, `AuthorizationCode` or `Execute`. It also leaves out a `Code` service that
  changes the parsed redirect URL handed to it (code.go:35). `AuthEndpoint.CodeRequestsDoNotPanic`
  and the 200-iff contracts of the token handlers rely on this.
- ResponseTypes.ResponseType: `extract` always returns a fresh, non-nil map, which is what
  the repository's strategies do (oauth2/response_type/common.go:18 builds `url.Values{}`).
  A nil `url.Values` would panic on `params.Add` at approval.go:53 and auth.go:81, and a map
  shared between calls would keep the added `response_type`. `ApprovalEndpoint.Handle`'s
  `ensures resp.Sent?` and `AuthEndpoint.Handle`'s "panics iff `CheckParameters` panics"
  rely on this.
- Helpers.NewMissingClientCredentialsError: its definition is not part of this model, since
  only its call sites exist. It is given code `error_invalid_client` and a fixed non-empty
  description.
- Util.RenderHttpError: util.RenderHTTPError and util.HTTPErrorServiceUnavaliable are not part
  of this model, since only their call sites exist. The page carries the error's status. The
  service-unavailable error is given the login handler's 503 wording.
- ResponseTypes.AuthorizationResponseValues: `AuthorizationResponse.Encode`, called at
  code.go:40, is not part of this model. It is taken to be `url.Values{code, state}.Encode()`.
- ApprovalEndpoint.Handle: approval.go:80 assigns the two results of `Execute` to one
  variable. It is modelled as using the URL on success and falling through to the closing 400
  on error.
- AuthEndpoint.PromptKey: auth.go:115-116 calls `ComputeKey`/`ComputeMAC` with an int64
  expiration and no user id, which does not match approval.go. It is modelled as the HMAC
  writes those calls name, with the expiration in decimal, and
  `AuthEndpoint.PromptSigningMatchesApproval` relates it to approval.go's functions.
- Helpers.ValidateParameters: its "nothing is written iff every first value is non-empty"
  assumes `Lawful`, under which ranging over the map visits every key.
- Helpers.ValidateParameters, AuthEndpoint.Handle: helpers/request.go:11 and auth.go:76 call
  `helpers.NewMissingParameterError(param, nil)`, which the helpers package does not define.
  Both are modelled with `helpers.MakeMissingParameterError` (helpers/response.go:10) and its
  wording `Required parameter is missing: <name>`, not the grant_type package's one-argument
  error worded `Missing required parameter: <name>`.
