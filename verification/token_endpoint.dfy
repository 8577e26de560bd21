/** oauth2/endpoint/token.go: the token endpoint (section 3.2 of RFC 6749), dispatching on
    `grant_type` to a registered GrantType behind the two middlewares. */
module TokenEndpoint {
  import opened Wrappers
  import opened NetUrl
  import opened Stdlib
  import opened Http
  import opened OAuth2
  import opened Services
  import opened Util
  import opened Helpers
  import opened GrantTypes

  /** The endpoint package's GrantType interface. */
  datatype GrantType = GrantType(
    extract: Request -> Values,
    execute: (ClientCredentials, Values) -> Result<AccessTokenResponse, Failure>)

  /** NewUnsupportedGrantTypeError */
  function NewUnsupportedGrantTypeError(gt: string): (e: ErrorResponse)
    ensures e.errorCode == ErrorUnsupportedGrantType && e.uri == None
    ensures e.description == "Unsupported grant type: " + gt
  {
    ErrorResponse(ErrorUnsupportedGrantType, "Unsupported grant type: " + gt, None)
  }

  /** The selected strategy's part of ServeHTTP: validate what it extracted, then execute it. */
  function RunGrantType(p: Primitives, handler: GrantType, credentials: ClientCredentials, r: Request): (resp: Response)
    ensures resp.Sent? ==> resp.header.Keys <= {"Content-Type", "X-Content-Type-Options"}
    ensures ValidateParameters(p, handler.extract(r)).Some? ==> resp == ValidateParameters(p, handler.extract(r)).value
    ensures ValidateParameters(p, handler.extract(r)).None? ==>
      var answer := handler.execute(credentials, handler.extract(r));
      && (answer.Ok? ==> resp == WriteToken(answer.value, StatusOK))
      && (answer.Err? ==> resp == ServiceFailure(answer.error, StatusServiceUnavailable))
    ensures resp.Sent? && resp.status == StatusOK <==>
      ValidateParameters(p, handler.extract(r)).None? && handler.execute(credentials, handler.extract(r)).Ok?
  {
    var params := handler.extract(r);
    match ValidateParameters(p, params)
    case Some(written) => written
    case None =>
      match handler.execute(credentials, params)
      case Err(f) => ServiceFailure(f, StatusServiceUnavailable)
      case Ok(token) => WriteToken(token, StatusOK)
  }

  /** tokenEndpointHandler.ServeHTTP, on the request the middlewares pass on. */
  function Handle(p: Primitives, handlers: map<string, GrantType>, r: Request): (resp: Response)
    ensures resp.Sent? ==> resp.header.Keys <= {"Content-Type", "X-Content-Type-Options"}
    ensures r.verb != "POST" ==> resp == Error("", StatusMethodNotAllowed)
    ensures r.verb == "POST" && GetBasicAuth(p, r).Err? ==>
      resp == WriteError(NewMissingClientCredentialsError(), StatusUnauthorized)
    ensures r.verb == "POST" && GetBasicAuth(p, r).Ok? && PostFormValue(r, ParameterGrantType) !in handlers ==>
      resp == WriteError(NewUnsupportedGrantTypeError(PostFormValue(r, ParameterGrantType)), StatusBadRequest)
    ensures resp.Sent? && resp.status == StatusOK <==>
      && r.verb == "POST" && GetBasicAuth(p, r).Ok? && PostFormValue(r, ParameterGrantType) in handlers
      && var handler := handlers[PostFormValue(r, ParameterGrantType)];
         ValidateParameters(p, handler.extract(r)).None?
         && handler.execute(GetBasicAuth(p, r).value, handler.extract(r)).Ok?
    ensures resp.Sent? && resp.status == StatusOK ==>
      var handler := handlers[PostFormValue(r, ParameterGrantType)];
      resp == WriteToken(handler.execute(GetBasicAuth(p, r).value, handler.extract(r)).value, StatusOK)
    ensures r.verb == "POST" && GetBasicAuth(p, r).Ok? && PostFormValue(r, ParameterGrantType) in handlers ==>
      var handler := handlers[PostFormValue(r, ParameterGrantType)];
      && (ValidateParameters(p, handler.extract(r)).Some? ==> resp == ValidateParameters(p, handler.extract(r)).value)
      && (ValidateParameters(p, handler.extract(r)).None? && handler.execute(GetBasicAuth(p, r).value, handler.extract(r)).Err? ==>
            resp == ServiceFailure(handler.execute(GetBasicAuth(p, r).value, handler.extract(r)).error, StatusServiceUnavailable))
  {
    if r.verb != "POST" then Error("", StatusMethodNotAllowed)
    else
      match GetBasicAuth(p, r)
      case Err(_) => WriteError(NewMissingClientCredentialsError(), StatusUnauthorized)
      case Ok(credentials) =>
        var grantType := PostFormValue(r, ParameterGrantType);
        if grantType in handlers then RunGrantType(p, handlers[grantType], credentials, r)
        else
          WriteError(NewUnsupportedGrantTypeError(grantType), StatusBadRequest)
  }

  /** Only the strategy registered for the posted grant type matters: the others may be
      anything. */
  lemma OnlySelectedGrantTypeRuns(p: Primitives, h1: map<string, GrantType>, h2: map<string, GrantType>, r: Request)
    requires PostFormValue(r, ParameterGrantType) in h1 <==> PostFormValue(r, ParameterGrantType) in h2
    requires PostFormValue(r, ParameterGrantType) in h1 ==>
      h1[PostFormValue(r, ParameterGrantType)] == h2[PostFormValue(r, ParameterGrantType)]
    ensures Handle(p, h1, r) == Handle(p, h2, r)
  {
  }

  /** Execute is not called when a parameter is empty: replacing it changes nothing. */
  lemma ExecuteSkippedOnMissingParameter(p: Primitives, handlers: map<string, GrantType>, r: Request,
                                         other: (ClientCredentials, Values) -> Result<AccessTokenResponse, Failure>)
    requires Lawful(p)
    requires PostFormValue(r, ParameterGrantType) in handlers
    requires
      var params := handlers[PostFormValue(r, ParameterGrantType)].extract(r);
      exists k :: k in params && (|params[k]| == 0 || params[k][0] == "")
    ensures
      var gt := PostFormValue(r, ParameterGrantType);
      Handle(p, handlers, r) == Handle(p, handlers[gt := handlers[gt].(execute := other)], r)
  {
    var gt := PostFormValue(r, ParameterGrantType);
    var params := handlers[gt].extract(r);
    assert ValidateParameters(p, params).Some?;
  }

  /** NewTokenEndpointHandler: NoCachingMiddleware around
      ClientCredentialsFromFormDataToHeaderMiddleware around the handler. */
  function Serve(p: Primitives, handlers: map<string, GrantType>, r: Request): (resp: Response)
    ensures resp.Sent? ==>
      && "Cache-Control" in resp.header && resp.header["Cache-Control"] == "no-store"
      && "Pragma" in resp.header && resp.header["Pragma"] == "no-cache"
    ensures !r.formOk ==> IsJsonError(resp, StatusBadRequest, ErrorInvalidRequest)
    ensures r.formOk ==>
      var inner := Handle(p, handlers, NormalizeClientCredentials(p, r).value);
      resp.Panicked? == inner.Panicked?
      && (inner.Sent? ==> resp.status == inner.status && resp.body == inner.body)
  {
    var inner := match NormalizeClientCredentials(p, r)
      case Err(written) => written
      case Ok(normalized) => Handle(p, handlers, normalized);
    NoCaching(inner)
  }

  /** A client that posts its id and secret in the form is authenticated as if it had sent
      them in an Authorization header. */
  lemma FormCredentialsAuthenticate(p: Primitives, handlers: map<string, GrantType>, r: Request)
    requires Lawful(p)
    requires r.formOk && r.verb == "POST" && HeaderValue(r, "Authorization") == ""
    requires PostFormValue(r, "client_id") != "" && ':' !in PostFormValue(r, "client_id")
    requires PostFormValue(r, "client_secret") != ""
    ensures
      var normalized := NormalizeClientCredentials(p, r).value;
      && GetBasicAuth(p, normalized) == Ok(ClientCredentials(PostFormValue(r, "client_id"), PostFormValue(r, "client_secret")))
      && Serve(p, handlers, r) == NoCaching(Handle(p, handlers, normalized))
  {
    NormalizedFormCredentials(p, r);
  }
}
