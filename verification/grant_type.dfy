/** oauth2/grant_type/password.go and authorization_code.go: the two token-endpoint handlers
    for the resource owner password grant (section 4.3 of RFC 6749) and the authorization code
    grant (section 4.1.3). */
module GrantTypes {
  import opened Wrappers
  import opened NetUrl
  import opened Stdlib
  import opened Http
  import opened OAuth2
  import opened Services
  import opened Util
  import opened Helpers

  /** grant_type.NewMissingParameterError: worded differently from the helpers' error. */
  function NewMissingParameterError(param: string): (e: ErrorResponse)
    ensures e.errorCode == ErrorInvalidRequest && e.uri == None
    ensures e.description == "Missing required parameter: " + param
  {
    ErrorResponse(ErrorInvalidRequest, "Missing required parameter: " + param, None)
  }

  /** grant_type.InvalidClientError */
  const InvalidClientError := ErrorResponse(ErrorInvalidClient, "", None)

  /** The 401 of a bad Authorization header carries the `error` key and nothing else. */
  lemma InvalidClientErrorKeys()
    ensures ErrorJson(InvalidClientError).Keys == {"error"}
    ensures ErrorJson(InvalidClientError)["error"] == JString(ErrorInvalidClient)
  {
  }

  /** How a token handler answers a failed collaborator: an OAuth error is relayed with 400,
      anything else becomes an empty http.Error with `otherStatus`. */
  function ServiceFailure(f: Failure, otherStatus: int): (r: Response)
    ensures f.OAuthFailure? ==> r == WriteError(f.response, StatusBadRequest)
    ensures !f.OAuthFailure? ==> r == Error("", otherStatus)
  {
    match f
    case OAuthFailure(e) => WriteError(e, StatusBadRequest)
    case _ => Error("", otherStatus)
  }

  /** PasswordController.ServeHTTP */
  function PasswordServeHTTP(p: Primitives, service: Oauth2Service, r: Request): (resp: Response)
    ensures resp.Sent?
    ensures ParseBasicAuth(p, HeaderValue(r, "Authorization")).Err? ==>
      resp == WriteError(InvalidClientError, StatusUnauthorized)
    ensures ParseBasicAuth(p, HeaderValue(r, "Authorization")).Ok? && PostFormValue(r, ParameterUsername) == "" ==>
      resp == WriteError(NewMissingParameterError(ParameterUsername), StatusBadRequest)
    ensures ParseBasicAuth(p, HeaderValue(r, "Authorization")).Ok? && PostFormValue(r, ParameterUsername) != ""
            && PostFormValue(r, ParameterPassword) == "" ==>
      resp == WriteError(NewMissingParameterError(ParameterPassword), StatusBadRequest)
    ensures resp.status == StatusOK <==>
      && ParseBasicAuth(p, HeaderValue(r, "Authorization")).Ok?
      && PostFormValue(r, ParameterUsername) != "" && PostFormValue(r, ParameterPassword) != ""
      && service.passwordFlow(ParseBasicAuth(p, HeaderValue(r, "Authorization")).value,
                              PostFormValue(r, ParameterUsername), PostFormValue(r, ParameterPassword)).Ok?
    ensures resp.status == StatusOK ==>
      resp == WriteToken(service.passwordFlow(ParseBasicAuth(p, HeaderValue(r, "Authorization")).value,
                                              PostFormValue(r, ParameterUsername),
                                              PostFormValue(r, ParameterPassword)).value, StatusOK)
    ensures ParseBasicAuth(p, HeaderValue(r, "Authorization")).Ok?
            && PostFormValue(r, ParameterUsername) != "" && PostFormValue(r, ParameterPassword) != "" ==>
      var answer := service.passwordFlow(ParseBasicAuth(p, HeaderValue(r, "Authorization")).value,
                                         PostFormValue(r, ParameterUsername), PostFormValue(r, ParameterPassword));
      answer.Err? ==> resp == ServiceFailure(answer.error, StatusInternalServerError)
  {
    match ParseBasicAuth(p, HeaderValue(r, "Authorization"))
    case Err(_) => WriteError(InvalidClientError, StatusUnauthorized)
    case Ok(credentials) =>
      var username := PostFormValue(r, ParameterUsername);
      if username == "" then WriteError(NewMissingParameterError(ParameterUsername), StatusBadRequest)
      else
        var password := PostFormValue(r, ParameterPassword);
        if password == "" then WriteError(NewMissingParameterError(ParameterPassword), StatusBadRequest)
        else
          match service.passwordFlow(credentials, username, password)
          case Err(f) => ServiceFailure(f, StatusInternalServerError)
          case Ok(token) =>
            Sent(StatusOK, map["Content-Type" := ContentTypeJson], [], Json(TokenJson(token)))
  }

  /** The password flow is consulted only once the credentials, the username and the password
      all passed: until then any other service gives the same answer. */
  lemma PasswordSkipsServiceUntilValid(p: Primitives, s1: Oauth2Service, s2: Oauth2Service, r: Request)
    requires
      || ParseBasicAuth(p, HeaderValue(r, "Authorization")).Err?
      || PostFormValue(r, ParameterUsername) == ""
      || PostFormValue(r, ParameterPassword) == ""
    ensures PasswordServeHTTP(p, s1, r) == PasswordServeHTTP(p, s2, r)
  {
  }

  /** The credentials the password flow receives are those a client encoded in the header. */
  lemma PasswordFlowReceivesClient(p: Primitives, service: Oauth2Service, r: Request, id: string, secret: string)
    requires Lawful(p)
    requires id != "" && ':' !in id && secret != ""
    requires HeaderValue(r, "Authorization") == "Basic " + p.b64Encode(id + ":" + secret)
    requires PostFormValue(r, ParameterUsername) != "" && PostFormValue(r, ParameterPassword) != ""
    ensures
      var answer := service.passwordFlow(ClientCredentials(id, secret),
                                         PostFormValue(r, ParameterUsername), PostFormValue(r, ParameterPassword));
      && (answer.Ok? ==> PasswordServeHTTP(p, service, r) == WriteToken(answer.value, StatusOK))
      && (answer.Err? ==> PasswordServeHTTP(p, service, r) == ServiceFailure(answer.error, StatusInternalServerError))
  {
    BasicAuthRoundTrip(p, id, secret);
  }

  /** The parameters the authorization-code controller validates. */
  function CodeGrantParameters(code: string, redirectUri: string): (params: Values)
    ensures params.Keys == {ParameterCode, ParameterRedirectUri}
    ensures SingleValued(params)
    ensures Get(params, ParameterCode) == code && Get(params, ParameterRedirectUri) == redirectUri
  {
    Add(Add(map[], ParameterCode, code), ParameterRedirectUri, redirectUri)
  }

  /** With both fields non-empty the parameter check passes, whatever the iteration order. */
  lemma CodeGrantParametersChecked(p: Primitives, code: string, redirectUri: string)
    ensures code != "" && redirectUri != "" ==> ValidateParameters(p, CodeGrantParameters(code, redirectUri)) == None
  {
    var params := CodeGrantParameters(code, redirectUri);
    if code != "" && redirectUri != "" {
      assert forall k :: k in params ==> |params[k]| > 0 && params[k][0] != "" by {
        forall k | k in params ensures |params[k]| > 0 && params[k][0] != "" {
          assert |params[k]| == 1 && params[k][0] == Get(params, k);
        }
      }
      assert CheckParameters(params, p.iterationOrder(params)).Complete?;
    }
  }

  /** AuthorizationCodeController.ServeHTTP */
  function AuthorizationCodeServeHTTP(p: Primitives, service: Oauth2Service, r: Request): (resp: Response)
    ensures resp.Sent?
    ensures GetBasicAuth(p, r).Err? ==> resp == WriteError(NewMissingClientCredentialsError(), StatusUnauthorized)
    ensures GetBasicAuth(p, r).Ok? && PostFormValue(r, ParameterCode) != "" && PostFormValue(r, ParameterRedirectUri) != "" ==>
      var answer := service.authorizationCode(GetBasicAuth(p, r).value,
                                              PostFormValue(r, ParameterCode), PostFormValue(r, ParameterRedirectUri));
      && (answer.Ok? ==> resp == WriteToken(answer.value, StatusOK))
      && (answer.Err? ==> resp == ServiceFailure(answer.error, StatusServiceUnavailable))
  {
    match GetBasicAuth(p, r)
    case Err(_) => WriteError(NewMissingClientCredentialsError(), StatusUnauthorized)
    case Ok(credentials) =>
      var code := PostFormValue(r, ParameterCode);
      var redirectUri := PostFormValue(r, ParameterRedirectUri);
      var params := CodeGrantParameters(code, redirectUri);
      CodeGrantParametersChecked(p, code, redirectUri);
      match ValidateParameters(p, params)
      case Some(written) => written
      case None =>
        match service.authorizationCode(credentials, code, redirectUri)
        case Err(f) => ServiceFailure(f, StatusServiceUnavailable)
        case Ok(token) => WriteToken(token, StatusOK)
  }

  /** An empty `code` or `redirect_uri` is answered with 400 naming it; when both are empty,
      either may be named. */
  lemma AuthorizationCodeMissingParameter(p: Primitives, service: Oauth2Service, r: Request)
    requires Lawful(p)
    requires GetBasicAuth(p, r).Ok?
    ensures
      var code := PostFormValue(r, ParameterCode);
      var redirectUri := PostFormValue(r, ParameterRedirectUri);
      var resp := AuthorizationCodeServeHTTP(p, service, r);
      && (code == "" && redirectUri != "" ==>
            resp == WriteError(MakeMissingParameterError(ParameterCode, None), StatusBadRequest))
      && (code != "" && redirectUri == "" ==>
            resp == WriteError(MakeMissingParameterError(ParameterRedirectUri, None), StatusBadRequest))
      && (code == "" && redirectUri == "" ==>
            || resp == WriteError(MakeMissingParameterError(ParameterCode, None), StatusBadRequest)
            || resp == WriteError(MakeMissingParameterError(ParameterRedirectUri, None), StatusBadRequest))
  {
    var params := CodeGrantParameters(PostFormValue(r, ParameterCode), PostFormValue(r, ParameterRedirectUri));
    assert ValidateParameters(p, params).Some? <==>
      PostFormValue(r, ParameterCode) == "" || PostFormValue(r, ParameterRedirectUri) == "";
  }

  /** The service is not consulted while the credentials or either parameter is missing. */
  lemma AuthorizationCodeSkipsServiceUntilValid(p: Primitives, s1: Oauth2Service, s2: Oauth2Service, r: Request)
    requires Lawful(p)
    requires
      || GetBasicAuth(p, r).Err?
      || PostFormValue(r, ParameterCode) == ""
      || PostFormValue(r, ParameterRedirectUri) == ""
    ensures AuthorizationCodeServeHTTP(p, s1, r) == AuthorizationCodeServeHTTP(p, s2, r)
  {
    if GetBasicAuth(p, r).Ok? {
      var params := CodeGrantParameters(PostFormValue(r, ParameterCode), PostFormValue(r, ParameterRedirectUri));
      assert ValidateParameters(p, params).Some?;
    }
  }
}
