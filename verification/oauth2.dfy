/** oauth2/response.go and oauth2/parameters.go: the wire shapes of the token endpoint (sections
    5.1 and 5.2 of RFC 6749), the error codes and the parameter names. */
module OAuth2 {
  import opened Wrappers
  import opened NetUrl
  import opened Http

  const ErrorInvalidRequest := "invalid_request"
  const ErrorUnauthorizedClient := "unauthorized_client"
  const ErrorAccessDenied := "access_denied"
  const ErrorUnsupportedResponseType := "unsupported_response_type"
  const ErrorInvalidScope := "invalid_scope"
  const ErrorServerError := "server_error"
  const ErrorTemporarilyUnavailable := "temporarily_unavailable"
  const ErrorUnsupportedGrantType := "unsupported_grant_type"
  /** Not the "invalid_client" of section 5.2 of RFC 6749: the source spells it this way. */
  const ErrorInvalidClient := "error_invalid_client"

  const ParameterResponseType := "response_type"
  const ParameterGrantType := "grant_type"
  const ParameterClientId := "client_id"
  const ParameterRedirectUri := "redirect_uri"
  const ParameterScope := "scope"
  const ParameterState := "state"
  const ParameterCode := "code"
  const ParameterUsername := "username"
  const ParameterPassword := "password"

  const ResponseTypeCode := "code"
  const ResponseTypeToken := "token"
  const GrantTypePassword := "password"
  const GrantTypeAuthorizationCode := "authorization_code"

  const ContentTypeJson := "application/json;charset=UTF-8"

  /** Go's `uint` on a 64-bit platform. */
  type Uint = n: int | 0 <= n < 0x1_0000_0000_0000_0000

  /** The nine error codes of the provider. */
  function ErrorCodes(): seq<string>
  {
    [ErrorInvalidRequest, ErrorUnauthorizedClient, ErrorAccessDenied,
     ErrorUnsupportedResponseType, ErrorInvalidScope, ErrorServerError,
     ErrorTemporarilyUnavailable, ErrorUnsupportedGrantType, ErrorInvalidClient]
  }

  /** No two error codes coincide, so a client can tell every error apart. */
  lemma ErrorCodesDistinct()
    ensures |ErrorCodes()| == 9
    ensures forall i, j :: 0 <= i < j < |ErrorCodes()| ==> ErrorCodes()[i] != ErrorCodes()[j]
  {
  }

  datatype AuthorizationResponse = AuthorizationResponse(code: string, state: string)

  datatype AccessTokenResponse = AccessTokenResponse(accessToken: string, tokenType: string, expiresIn: Uint)

  /** A typed OAuth 2.0 error; `uri` is nil or a URL. */
  datatype ErrorResponse = ErrorResponse(errorCode: string, description: string, uri: Option<Url>)
  {
    /** ErrorResponse.Error() */
    function Error(): string
    {
      errorCode
    }
  }

  /** json.Marshal of an AccessTokenResponse. */
  function TokenJson(t: AccessTokenResponse): (obj: JsonObject)
    ensures obj.Keys == {"access_token", "token_type", "expires_in"}
    ensures obj["access_token"] == JString(t.accessToken)
    ensures obj["token_type"] == JString(t.tokenType)
    ensures obj["expires_in"].JNumber? && obj["expires_in"].number == t.expiresIn
  {
    map["access_token" := JString(t.accessToken),
        "token_type" := JString(t.tokenType),
        "expires_in" := JNumber(t.expiresIn)]
  }

  /** json.Marshal of an ErrorResponse: `omitempty` drops an empty description and a nil URI. */
  function ErrorJson(e: ErrorResponse): (obj: JsonObject)
    ensures "error" in obj && obj["error"] == JString(e.Error())
    ensures "error_description" in obj <==> e.description != ""
    ensures "error_description" in obj ==> obj["error_description"] == JString(e.description)
    ensures "error_uri" in obj <==> e.uri.Some?
    ensures obj.Keys <= {"error", "error_description", "error_uri"}
  {
    var withError: JsonObject := map["error" := JString(e.errorCode)];
    var withDescription :=
      if e.description == "" then withError
      else withError["error_description" := JString(e.description)];
    match e.uri
    case None => withDescription
    case Some(u) => withDescription["error_uri" := JUrl(u)]
  }

  /** (*AccessTokenResponse).WriteResponse(w, code) */
  function WriteToken(t: AccessTokenResponse, code: int): (r: Response)
    ensures r.Sent? && r.status == code && r.header == map["Content-Type" := ContentTypeJson]
    ensures r.body == Json(TokenJson(t)) && r.cookies == []
  {
    Sent(code, map["Content-Type" := ContentTypeJson], [], Json(TokenJson(t)))
  }

  /** (*ErrorResponse).WriteResponse(w, code) */
  function WriteError(e: ErrorResponse, code: int): (r: Response)
    ensures r.Sent? && r.status == code && r.header == map["Content-Type" := ContentTypeJson]
    ensures r.body == Json(ErrorJson(e)) && r.cookies == []
  {
    Sent(code, map["Content-Type" := ContentTypeJson], [], Json(ErrorJson(e)))
  }

  /** The JSON error a response carries, if any. */
  predicate IsJsonError(r: Response, status: int, code: string)
  {
    && r.Sent? && r.status == status && r.body.Json?
    && "error" in r.body.json && r.body.json["error"] == JString(code)
  }
}
