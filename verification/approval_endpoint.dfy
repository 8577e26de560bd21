/** oauth2/endpoint/approval.go: the endpoint the approval prompt posts to. It re-checks the
    session, the expiration time and the signature before letting the response type redirect
    back to the client. */
module ApprovalEndpoint {
  import opened Wrappers
  import opened NetUrl
  import opened Stdlib
  import opened Http
  import opened OAuth2
  import opened Services
  import opened Util
  import opened ResponseTypes
  import opened Signature

  const ApprovalParameterUserId := "user_id"
  const ApprovalParameterExpirationTime := "expiration_time"
  const ApprovalParameterSignature := "signature"
  const SessionCookie := "sessionid"

  /** approvalEndpointHandler */
  datatype Config = Config(
    loginUrl: Url,
    serverKey: Bytes,
    userAuthService: UserAuthenticationService,
    handlers: map<string, ResponseType>)

  /** The posted approval is still valid at time `now` and carries the signature of these
      parameters for this user, expiration time and session. */
  predicate SignatureAccepted(p: Primitives, serverKey: Bytes, params: Values, userId: string,
                              expirationTime: string, signature: string, sessionId: string, now: int)
  {
    && p.parseInt(expirationTime).Some?
    && now <= p.parseInt(expirationTime).value
    && p.b64Decode(signature).Some?
    && CheckMAC(p, params, userId, expirationTime, sessionId, p.b64Decode(signature).value,
                ComputeKey(p, userId, expirationTime, sessionId, serverKey))
  }

  /** The signature check of an approval request, by its posted fields. */
  predicate Accepted(p: Primitives, cfg: Config, now: int, r: Request, params: Values, sessionId: string)
  {
    SignatureAccepted(p, cfg.serverKey, params, PostFormValue(r, ApprovalParameterUserId),
      PostFormValue(r, ApprovalParameterExpirationTime), PostFormValue(r, ApprovalParameterSignature),
      sessionId, now)
  }

  /** The outcome of a signed, valid approval: the response type's redirect, or 400 when it
      fails. */
  function Complete(p: Primitives, handler: ResponseType, params: Values): (resp: Response)
    ensures resp.Sent? && resp.cookies == [] && resp.body == NoBody
    ensures handler.execute(params).Ok? ==>
      resp.status == StatusFound && resp.header == map["Location" := p.urlString(handler.execute(params).value)]
    ensures handler.execute(params).Err? ==> resp == Status(StatusBadRequest)
  {
    match handler.execute(params)
    case Ok(redirectUri) => Redirect(p.urlString(redirectUri), StatusFound)
    case Err(_) => Status(StatusBadRequest)
  }

  /** The parameters the signature covers: the extracted ones with response_type added again. */
  function ApprovalParameters(r: Request, handler: ResponseType, responseType: string): Values
  {
    Add(handler.extract(r), ParameterResponseType, responseType)
  }

  /** approvalEndpointHandler.ServeHTTP at time `now` (time.Now().UnixNano()). */
  function Handle(p: Primitives, cfg: Config, now: int, r: Request): (resp: Response)
    ensures resp.Sent?
    ensures r.verb != "POST" ==> resp == Status(StatusMethodNotAllowed)
    ensures r.verb == "POST" && QueryValue(r, ParameterResponseType) !in cfg.handlers ==>
      resp == Status(StatusBadRequest)
    ensures r.verb == "POST" && QueryValue(r, ParameterResponseType) in cfg.handlers ==>
      && (CookieValue(r, SessionCookie).None? ==> resp == RedirectToLogin(p, cfg.loginUrl, r.url))
      && (CookieValue(r, SessionCookie).Some? ==>
            var sessionId := CookieValue(r, SessionCookie).value;
            var handler := cfg.handlers[QueryValue(r, ParameterResponseType)];
            var params := ApprovalParameters(r, handler, QueryValue(r, ParameterResponseType));
            && (cfg.userAuthService.isSessionValid(sessionId).Err? ==> resp == Status(StatusServiceUnavailable))
            && (cfg.userAuthService.isSessionValid(sessionId) == Ok(false) ==>
                  resp == RedirectToLogin(p, cfg.loginUrl, r.url))
            && (cfg.userAuthService.isSessionValid(sessionId) == Ok(true) ==>
                  && (!Accepted(p, cfg, now, r, params, sessionId) ==> resp == Status(StatusBadRequest))
                  && (Accepted(p, cfg, now, r, params, sessionId) ==> resp == Complete(p, handler, params))))
  {
    if r.verb != "POST" then Status(StatusMethodNotAllowed)
    else
      var responseType := QueryValue(r, ParameterResponseType);
      if responseType !in cfg.handlers then Status(StatusBadRequest)
      else
        var handler := cfg.handlers[responseType];
        var params := ApprovalParameters(r, handler, responseType);
        match CookieValue(r, SessionCookie)
        case None => RedirectToLogin(p, cfg.loginUrl, r.url)
        case Some(sessionId) =>
          match cfg.userAuthService.isSessionValid(sessionId)
          case Err(_) => Status(StatusServiceUnavailable)
          case Ok(authenticated) =>
            if !authenticated then RedirectToLogin(p, cfg.loginUrl, r.url)
            else
              var userId := PostFormValue(r, ApprovalParameterUserId);
              var expirationValue := PostFormValue(r, ApprovalParameterExpirationTime);
              var signature := PostFormValue(r, ApprovalParameterSignature);
              match p.parseInt(expirationValue)
              case None => Status(StatusBadRequest)
              case Some(expirationTime) =>
                if now <= expirationTime then
                  match p.b64Decode(signature)
                  case None => Status(StatusBadRequest)
                  case Some(mac) =>
                    var key := ComputeKey(p, userId, expirationValue, sessionId, cfg.serverKey);
                    if CheckMAC(p, params, userId, expirationValue, sessionId, mac, key) then
                      Complete(p, handler, params)
                    else Status(StatusBadRequest)
                else Status(StatusBadRequest)
  }

  /** The response type's Execute runs only for a valid session and an accepted signature:
      otherwise any other Execute gives the same response. */
  lemma ExecuteOnlyWhenAccepted(p: Primitives, cfg: Config, now: int, r: Request,
                                other: Values -> Result<Url, Failure>)
    requires r.verb == "POST" && QueryValue(r, ParameterResponseType) in cfg.handlers
    requires
      var handler := cfg.handlers[QueryValue(r, ParameterResponseType)];
      var params := ApprovalParameters(r, handler, QueryValue(r, ParameterResponseType));
      || CookieValue(r, SessionCookie).None?
      || cfg.userAuthService.isSessionValid(CookieValue(r, SessionCookie).value) != Ok(true)
      || !Accepted(p, cfg, now, r, params, CookieValue(r, SessionCookie).value)
    ensures
      var rt := QueryValue(r, ParameterResponseType);
      Handle(p, cfg, now, r) == Handle(p, cfg.(handlers := cfg.handlers[rt := cfg.handlers[rt].(execute := other)]), now, r)
  {
  }

  /** An approval posted after its expiration time is refused, whatever it carries; one posted
      at the expiration instant itself is still considered. */
  lemma ExpiredApprovalRefused(p: Primitives, cfg: Config, now: int, r: Request)
    requires r.verb == "POST" && QueryValue(r, ParameterResponseType) in cfg.handlers
    requires CookieValue(r, SessionCookie).Some?
    requires cfg.userAuthService.isSessionValid(CookieValue(r, SessionCookie).value) == Ok(true)
    requires p.parseInt(PostFormValue(r, ApprovalParameterExpirationTime)).Some?
    ensures now > p.parseInt(PostFormValue(r, ApprovalParameterExpirationTime)).value ==>
      Handle(p, cfg, now, r) == Status(StatusBadRequest)
    ensures
      var handler := cfg.handlers[QueryValue(r, ParameterResponseType)];
      var params := ApprovalParameters(r, handler, QueryValue(r, ParameterResponseType));
      var sessionId := CookieValue(r, SessionCookie).value;
      var userId := PostFormValue(r, ApprovalParameterUserId);
      var expirationValue := PostFormValue(r, ApprovalParameterExpirationTime);
      var decoded := p.b64Decode(PostFormValue(r, ApprovalParameterSignature));
      && now == p.parseInt(expirationValue).value
      && decoded.Some?
      && decoded.value == ComputeMAC(p, params, userId, expirationValue, sessionId,
                                     ComputeKey(p, userId, expirationValue, sessionId, cfg.serverKey)) ==>
        Handle(p, cfg, now, r) == Complete(p, handler, params)
  {
  }
}
