/** oauth2/endpoint/auth.go: the authorization endpoint (section 3.1 of RFC 6749). It checks
    the request, asks for the user's session, and renders a signed approval prompt. */
module AuthEndpoint {
  import opened Wrappers
  import opened NetUrl
  import opened Stdlib
  import opened Http
  import opened OAuth2
  import opened Services
  import opened Scope
  import opened Util
  import opened Helpers
  import opened ResponseTypes
  import opened Signature

  /** expiresIn: two hours, in the nanoseconds UnixNano counts. */
  const ExpiresIn: int := 2 * 60 * 60 * 1_000_000_000

  const SessionCookie := "sessionid"

  /** The Content-Type the prompt adds; spaced unlike util.ContentTypeHtml. */
  const ContentTypeHtmlSpaced := "text/html; charset=utf-8"

  /** The one scope description the unfinished prompt lists. */
  const ScopeDescription := "Scope description"

  /** authEndpointHandler; the template factory is left out. */
  datatype Config = Config(
    serverKey: Bytes,
    loginUrl: Url,
    oauth2Service: Oauth2Service,
    userAuthService: UserAuthenticationService,
    handlers: map<string, ResponseType>)

  /** The error for a response_type that is absent or not registered. */
  function ResponseTypeError(responseType: string): (e: ErrorResponse)
    ensures e.errorCode == ErrorInvalidRequest && e.uri == None
    ensures responseType == "" ==> e.description == "Required parameter is missing: response_type"
    ensures responseType != "" ==> e.description == "Invalid response_type: " + responseType
  {
    var description :=
      if responseType == "" then "Required parameter is missing: " + ParameterResponseType
      else "Invalid response_type: " + responseType;
    ErrorResponse(ErrorInvalidRequest, description, None)
  }

  /** The error for a scope the service rejected. */
  const InvalidScopeError := ErrorResponse(ErrorInvalidScope, "Some requested scopes were invalid", None)

  /** The key auth.go derives: the server key's HMAC of the expiration time and the session id.
      It passes no user id, unlike approval.go's ComputeKey. */
  function PromptKey(p: Primitives, serverKey: Bytes, expirationTime: int, sessionId: string): Bytes
  {
    Sum(p, WriteAll(NewHmac(serverKey), [p.formatInt(expirationTime), sessionId]))
  }

  /** The signature auth.go computes over the parameters, the expiration time and the session. */
  function PromptSignature(p: Primitives, params: Values, expirationTime: int, sessionId: string, key: Bytes): Bytes
  {
    Sum(p, WriteAll(NewHmac(key), [p.encodeValues(params), p.formatInt(expirationTime), sessionId]))
  }

  /** The prompt's key and signature are approval.go's ComputeKey and ComputeMAC with an empty
      user id and the decimal expiration time: the two files agree on what is signed. */
  lemma PromptSigningMatchesApproval(p: Primitives, serverKey: Bytes, params: Values, expirationTime: int, sessionId: string)
    ensures PromptKey(p, serverKey, expirationTime, sessionId)
         == ComputeKey(p, "", p.formatInt(expirationTime), sessionId, serverKey)
    ensures
      var key := PromptKey(p, serverKey, expirationTime, sessionId);
      PromptSignature(p, params, expirationTime, sessionId, key)
        == ComputeMAC(p, params, "", p.formatInt(expirationTime), sessionId, key)
  {
    var e := p.formatInt(expirationTime);
    var key := PromptKey(p, serverKey, expirationTime, sessionId);
    SumOfWrites(p, serverKey, [e, sessionId]);
    assert Concat([e, sessionId]) == e + sessionId by {
      assert [e, sessionId][1..] == [sessionId];
      assert Concat([sessionId]) == sessionId + Concat([]);
      assert sessionId + [] == sessionId;
    }
    assert "" + e + sessionId == e + sessionId;
    SumOfWrites(p, key, [p.encodeValues(params), e, sessionId]);
    Concat3(p.encodeValues(params), e, sessionId);
    assert p.encodeValues(params) + "" + e + sessionId == p.encodeValues(params) + e + sessionId;
  }

  /** The approval prompt: status 200, the parameters encoded, and the signature in base64. */
  function Prompt(p: Primitives, serverKey: Bytes, params: Values, expirationTime: int, sessionId: string): Response
  {
    var key := PromptKey(p, serverKey, expirationTime, sessionId);
    var signature := PromptSignature(p, params, expirationTime, sessionId, key);
    Sent(StatusOK, map["Content-Type" := ContentTypeHtmlSpaced], [],
      Html(ApprovalPromptView([ScopeDescription], expirationTime, p.b64Encode(signature), p.encodeValues(params))))
  }

  /** The parameters that are signed: the extracted ones with response_type added once more. */
  function SignedParameters(extracted: Values, responseType: string): Values
  {
    Add(extracted, ParameterResponseType, responseType)
  }

  /** With the code response type the signed parameters hold response_type twice: once from
      the extraction and once added by the handler. */
  lemma ResponseTypeSignedTwice(r: Request)
    ensures SignedParameters(ExtractParameters(r), QueryValue(r, ParameterResponseType))[ParameterResponseType]
         == [QueryValue(r, ParameterResponseType), QueryValue(r, ParameterResponseType)]
  {
  }

  /** What happens once the parameters are complete: the scope check, then the session check. */
  function AfterParameters(p: Primitives, cfg: Config, now: int, r: Request, params: Values): (resp: Response)
    ensures resp.Sent? && resp.header.Keys <= {"Content-Type", "Location"}
    ensures resp.body.Html? && resp.body.view.ErrorView? ==> resp.body.view.error == ErrorInvalidScope
  {
    match cfg.oauth2Service.validateScope(ParseScope(Get(params, ParameterScope)))
    case Err(_) => RenderHttpError(HttpErrorServiceUnavailable)
    case Ok(result) =>
      if !result.IsValid() then RenderError(InvalidScopeError)
      else
        match CookieValue(r, SessionCookie)
        case None => RedirectToLogin(p, cfg.loginUrl, r.url)
        case Some(sessionId) =>
          match cfg.userAuthService.isSessionValid(sessionId)
          case Err(_) => RenderHttpError(HttpErrorServiceUnavailable)
          case Ok(authenticated) =>
            if !authenticated then RedirectToLogin(p, cfg.loginUrl, r.url)
            else Prompt(p, cfg.serverKey, params, now + ExpiresIn, sessionId)
  }

  /** The scope and session checks of a complete request, rung by rung: a failing scope
      service or session service gives the 503 page, rejected scopes the `invalid_scope` page,
      a missing or invalid session the login redirect, and a valid one the signed prompt. */
  lemma AfterParametersOutcomes(p: Primitives, cfg: Config, now: int, r: Request, params: Values)
    ensures
      var resp := AfterParameters(p, cfg, now, r, params);
      var scopes := cfg.oauth2Service.validateScope(ParseScope(Get(params, ParameterScope)));
      && (scopes.Err? ==> resp == RenderHttpError(HttpErrorServiceUnavailable))
      && (scopes.Ok? && !scopes.value.IsValid() ==> resp == RenderError(InvalidScopeError) && resp.status == StatusBadRequest)
      && (scopes.Ok? && scopes.value.IsValid() && CookieValue(r, SessionCookie).None? ==>
            resp == RedirectToLogin(p, cfg.loginUrl, r.url))
      && (scopes.Ok? && scopes.value.IsValid() && CookieValue(r, SessionCookie).Some? ==>
            var session := cfg.userAuthService.isSessionValid(CookieValue(r, SessionCookie).value);
            && (session.Err? ==> resp == RenderHttpError(HttpErrorServiceUnavailable))
            && (session == Ok(false) ==> resp == RedirectToLogin(p, cfg.loginUrl, r.url))
            && (session == Ok(true) ==>
                  resp == Prompt(p, cfg.serverKey, params, now + ExpiresIn, CookieValue(r, SessionCookie).value)))
  {
  }

  /** authEndpointHandler.ServeHTTP at time `now` (time.Now().UnixNano()). */
  function Handle(p: Primitives, cfg: Config, now: int, r: Request): (resp: Response)
    ensures resp.Sent? ==> resp.header.Keys <= {"Content-Type", "Location"}
    ensures r.verb != "GET" ==> resp == Status(StatusMethodNotAllowed)
    ensures r.verb == "GET" && QueryValue(r, ParameterResponseType) !in cfg.handlers ==>
      resp == RenderError(ResponseTypeError(QueryValue(r, ParameterResponseType)))
    ensures resp.Panicked? <==>
      && r.verb == "GET" && QueryValue(r, ParameterResponseType) in cfg.handlers
      && var extracted := cfg.handlers[QueryValue(r, ParameterResponseType)].extract(r);
         CheckParameters(extracted, p.iterationOrder(extracted)).Panics?
    ensures r.verb == "GET" && QueryValue(r, ParameterResponseType) in cfg.handlers ==>
      var extracted := cfg.handlers[QueryValue(r, ParameterResponseType)].extract(r);
      var check := CheckParameters(extracted, p.iterationOrder(extracted));
      && (check.Missing? ==> resp == RenderError(MakeMissingParameterError(check.name, None)))
      && (check.Complete? ==>
            resp == AfterParameters(p, cfg, now, r, SignedParameters(extracted, QueryValue(r, ParameterResponseType))))
  {
    if r.verb != "GET" then Status(StatusMethodNotAllowed)
    else
      var responseType := QueryValue(r, ParameterResponseType);
      if responseType in cfg.handlers then
        var extracted := cfg.handlers[responseType].extract(r);
        match CheckParameters(extracted, p.iterationOrder(extracted))
        case Panics => Panicked
        case Missing(name) => RenderError(MakeMissingParameterError(name, None))
        case Complete => AfterParameters(p, cfg, now, r, SignedParameters(extracted, responseType))
      else
        RenderError(ResponseTypeError(responseType))
  }

  /** The prompt is shown exactly when every check passed, and it signs the parameters with a
      key bound to the session and to an expiration two hours ahead. */
  lemma PromptShownIff(p: Primitives, cfg: Config, now: int, r: Request)
    ensures Handle(p, cfg, now, r).Sent? && Handle(p, cfg, now, r).status == StatusOK <==>
      && r.verb == "GET" && QueryValue(r, ParameterResponseType) in cfg.handlers
      && var extracted := cfg.handlers[QueryValue(r, ParameterResponseType)].extract(r);
         var params := SignedParameters(extracted, QueryValue(r, ParameterResponseType));
         && CheckParameters(extracted, p.iterationOrder(extracted)).Complete?
         && cfg.oauth2Service.validateScope(ParseScope(Get(params, ParameterScope))).Ok?
         && cfg.oauth2Service.validateScope(ParseScope(Get(params, ParameterScope))).value.IsValid()
         && CookieValue(r, SessionCookie).Some?
         && cfg.userAuthService.isSessionValid(CookieValue(r, SessionCookie).value) == Ok(true)
    ensures Handle(p, cfg, now, r).Sent? && Handle(p, cfg, now, r).status == StatusOK ==>
      var extracted := cfg.handlers[QueryValue(r, ParameterResponseType)].extract(r);
      Handle(p, cfg, now, r)
        == Prompt(p, cfg.serverKey, SignedParameters(extracted, QueryValue(r, ParameterResponseType)),
                  now + ExpiresIn, CookieValue(r, SessionCookie).value)
  {
  }

  /** Every redirect the endpoint issues goes to the login page and returns to the request. */
  lemma RedirectsGoToLogin(p: Primitives, cfg: Config, now: int, r: Request)
    ensures Handle(p, cfg, now, r).Sent? && Handle(p, cfg, now, r).status == StatusFound ==>
      Handle(p, cfg, now, r) == RedirectToLogin(p, cfg.loginUrl, r.url)
  {
  }

  /** The scope service is not asked while a parameter is missing, and the session service is
      not asked while the scope is rejected. */
  lemma ServicesAskedInOrder(p: Primitives, cfg: Config, now: int, r: Request,
                             otherOauth2: Oauth2Service, otherUsers: UserAuthenticationService)
    requires r.verb == "GET" && QueryValue(r, ParameterResponseType) in cfg.handlers
    ensures
      var extracted := cfg.handlers[QueryValue(r, ParameterResponseType)].extract(r);
      !CheckParameters(extracted, p.iterationOrder(extracted)).Complete? ==>
        Handle(p, cfg, now, r) == Handle(p, cfg.(oauth2Service := otherOauth2, userAuthService := otherUsers), now, r)
    ensures
      var extracted := cfg.handlers[QueryValue(r, ParameterResponseType)].extract(r);
      var params := SignedParameters(extracted, QueryValue(r, ParameterResponseType));
      var scopes := cfg.oauth2Service.validateScope(ParseScope(Get(params, ParameterScope)));
      scopes.Err? || !scopes.value.IsValid() ==>
        Handle(p, cfg, now, r) == Handle(p, cfg.(userAuthService := otherUsers), now, r)
  {
  }

  /** With the code response type, whose parameters are single values, a missing parameter is
      always reported and the handler never panics. */
  lemma CodeRequestsDoNotPanic(p: Primitives, cfg: Config, now: int, r: Request)
    requires Lawful(p)
    requires r.verb == "GET" && QueryValue(r, ParameterResponseType) in cfg.handlers
    requires cfg.handlers[QueryValue(r, ParameterResponseType)].extract(r) == ExtractParameters(r)
    ensures
      var resp := Handle(p, cfg, now, r);
      && resp.Sent?
      && ((exists k :: k in ExtractedNames && QueryValue(r, k) == "") <==>
            resp.body.Html? && resp.body.view.ErrorView? && resp.body.view.error == ErrorInvalidRequest)
  {
    var extracted := ExtractParameters(r);
    var check := CheckParameters(extracted, p.iterationOrder(extracted));
    CodeParametersChecked(p, r);
    var resp := Handle(p, cfg, now, r);
    if check.Missing? {
      assert resp == RenderError(MakeMissingParameterError(check.name, None));
    } else {
      assert check.Complete?;
      assert resp == AfterParameters(p, cfg, now, r, SignedParameters(extracted, QueryValue(r, ParameterResponseType)));
    }
  }

  /** The parameter check on the code type's single-valued parameters never panics, and it
      stops exactly when one of the five query values is empty. */
  lemma CodeParametersChecked(p: Primitives, r: Request)
    requires Lawful(p)
    ensures
      var extracted := ExtractParameters(r);
      var check := CheckParameters(extracted, p.iterationOrder(extracted));
      && !check.Panics?
      && (check.Missing? <==> exists k :: k in ExtractedNames && QueryValue(r, k) == "")
  {
    var extracted := ExtractParameters(r);
    var check := CheckParameters(extracted, p.iterationOrder(extracted));
    assert !check.Panics? by {
      assert forall k :: k in extracted ==> |extracted[k]| == 1;
    }
    if check.Missing? {
      assert QueryValue(r, check.name) == "" && check.name in ExtractedNames;
    } else {
      assert forall k :: k in extracted ==> extracted[k][0] != "";
      assert forall k :: k in ExtractedNames ==> QueryValue(r, k) != "" by {
        forall k | k in ExtractedNames ensures QueryValue(r, k) != "" {
          assert extracted[k] == [QueryValue(r, k)];
        }
      }
    }
  }

  /** NewAuthEndpointHandler: the handler behind NoCachingMiddleware. */
  function Serve(p: Primitives, cfg: Config, now: int, r: Request): (resp: Response)
    ensures resp.Sent? ==>
      && "Cache-Control" in resp.header && resp.header["Cache-Control"] == "no-store"
      && "Pragma" in resp.header && resp.header["Pragma"] == "no-cache"
    ensures resp.Panicked? == Handle(p, cfg, now, r).Panicked?
    ensures resp.Sent? ==> resp.status == Handle(p, cfg, now, r).status && resp.body == Handle(p, cfg, now, r).body
  {
    NoCaching(Handle(p, cfg, now, r))
  }
}
