/** login/handle.go: the login page. Every response sets a fresh nonce cookie; a GET renders
    the form with a CSRF token derived from that nonce, and a POST checks the token against the
    nonce cookie it comes back with before authenticating the user. */
module Login {
  import opened Wrappers
  import opened NetUrl
  import opened Stdlib
  import opened Http
  import opened Services
  import opened Util

  /** The number of random bytes in a nonce. */
  const TokenSize: nat := 128
  const CookieNonce := "nonce"
  const CookieSession := "sessionid"
  const ParameterContinue := "continue"

  const InvalidParametersError := HttpError(StatusBadRequest, "Some request parameters were invalid.")
  const IncorrectCredentialsMessage := "The email or password you entered is incorrect."

  /** loginHandler; the template factory is left out. */
  datatype Config = Config(
    serverKey: Bytes,
    userAuthService: UserAuthenticationService,
    tokenGenerator: TokenGenerator)

  /** computeMAC: the server key's HMAC of a single write of `value`. */
  function ComputeMac(p: Primitives, value: string, key: Bytes): (mac: Bytes)
    ensures mac == p.hmacSha256(key, value)
  {
    SumOfWrites(p, key, [value]);
    assert Concat([value]) == value by {
      assert [value][1..] == [];
      assert value + [] == value;
    }
    Sum(p, WriteAll(NewHmac(key), [value]))
  }

  /** The nonce this request is given: TokenSize random bytes, base64-encoded. */
  function Nonce(p: Primitives, cfg: Config): string
  {
    p.b64Encode(cfg.tokenGenerator(TokenSize))
  }

  /** The CSRF token the form carries for `nonce`. */
  function Csrf(p: Primitives, serverKey: Bytes, nonce: string): string
  {
    p.b64Encode(ComputeMac(p, nonce, serverKey))
  }

  /** The checks a POST must pass: a non-empty `continue` URL that unescapes, a non-empty nonce
      cookie, and a `csrf` field that decodes to the server's MAC of that nonce. */
  predicate PostValid(p: Primitives, serverKey: Bytes, r: Request)
  {
    && p.queryUnescape(QueryValue(r, ParameterContinue)).Some?
    && p.queryUnescape(QueryValue(r, ParameterContinue)).value != ""
    && CookieValue(r, CookieNonce).Some? && CookieValue(r, CookieNonce).value != ""
    && p.b64Decode(PostFormValue(r, "csrf")).Some?
    && p.b64Decode(PostFormValue(r, "csrf")).value == ComputeMac(p, CookieValue(r, CookieNonce).value, serverKey)
  }

  /** The 405 page for any other method. */
  function MethodNotAllowed(r: Request): (e: HttpError)
    ensures e.statusCode == StatusMethodNotAllowed
  {
    HttpError(StatusMethodNotAllowed,
      "The request method " + r.verb + " is not supported for the URL " + r.url.path + ".")
  }

  /** Everything the handler writes after the nonce cookie, given that nonce. */
  function Respond(p: Primitives, cfg: Config, nonce: string, r: Request): (resp: Response)
    ensures resp.Sent?
  {
    if r.verb == "GET" then
      Sent(StatusOK, map["Content-Type" := ContentTypeHtml], [],
        Html(LoginView("", "", "", Csrf(p, cfg.serverKey, nonce))))
    else if r.verb == "POST" then
      if !PostValid(p, cfg.serverKey, r) then RenderHttpError(InvalidParametersError)
      else
        var continueUrl := p.queryUnescape(QueryValue(r, ParameterContinue)).value;
        var email := PostFormValue(r, "email");
        var password := PostFormValue(r, "password");
        match cfg.userAuthService.authenticateUser(email, password)
        case Err(CredentialsMismatch) =>
          Sent(StatusOK, map[], [], Html(LoginView(email, "", IncorrectCredentialsMessage, "")))
        case Err(_) => RenderHttpError(HttpErrorServiceUnavailable)
        case Ok(sessionId) =>
          WithCookieFirst(Cookie(CookieSession, sessionId, true), Redirect(continueUrl, StatusFound))
    else
      RenderHttpError(MethodNotAllowed(r))
  }

  /** loginHandler.ServeHTTP */
  function Serve(p: Primitives, cfg: Config, r: Request): (resp: Response)
    ensures resp.Sent? && |resp.cookies| >= 1
    ensures resp.cookies[0] == Cookie(CookieNonce, p.b64Encode(cfg.tokenGenerator(TokenSize)), true)
    ensures r.verb == "GET" ==>
      && resp.status == StatusOK && resp.header == map["Content-Type" := ContentTypeHtml]
      && resp.body == Html(LoginView("", "", "", p.b64Encode(p.hmacSha256(cfg.serverKey, resp.cookies[0].value))))
    ensures r.verb == "POST" && !PostValid(p, cfg.serverKey, r) ==>
      resp.status == StatusBadRequest && resp.body == Html(HttpErrorView(StatusBadRequest, InvalidParametersError.description))
    ensures r.verb == "POST" ==>
      (resp.status == StatusFound <==>
         PostValid(p, cfg.serverKey, r)
         && cfg.userAuthService.authenticateUser(PostFormValue(r, "email"), PostFormValue(r, "password")).Ok?)
    ensures r.verb == "POST" && resp.status == StatusFound ==>
      && resp.cookies[1..] == [Cookie(CookieSession,
           cfg.userAuthService.authenticateUser(PostFormValue(r, "email"), PostFormValue(r, "password")).value, true)]
      && resp.header == map["Location" := p.queryUnescape(QueryValue(r, ParameterContinue)).value]
    ensures r.verb == "POST" && PostValid(p, cfg.serverKey, r) ==>
      var answer := cfg.userAuthService.authenticateUser(PostFormValue(r, "email"), PostFormValue(r, "password"));
      && (answer == Err(CredentialsMismatch) ==>
            && resp.status == StatusOK && |resp.cookies| == 1
            && resp.body == Html(LoginView(PostFormValue(r, "email"), "", IncorrectCredentialsMessage, "")))
      && (answer.Err? && answer.error != CredentialsMismatch ==>
            && resp.status == StatusServiceUnavailable && |resp.cookies| == 1
            && resp.body == Html(HttpErrorView(StatusServiceUnavailable, HttpErrorServiceUnavailable.description)))
    ensures r.verb != "GET" && r.verb != "POST" ==> resp.status == StatusMethodNotAllowed
  {
    var nonce := Nonce(p, cfg);
    WithCookieFirst(Cookie(CookieNonce, nonce, true), Respond(p, cfg, nonce, r))
  }

  /** The response without the nonce cookie. */
  function WithoutNonceCookie(resp: Response): Response
  {
    if resp.Sent? && |resp.cookies| >= 1 then resp.(cookies := resp.cookies[1..]) else resp
  }

  /** Only a GET uses the fresh nonce: for any other method the generator decides nothing but
      the nonce cookie. */
  lemma PostIgnoresGenerator(p: Primitives, cfg: Config, r: Request, other: TokenGenerator)
    requires r.verb != "GET"
    ensures WithoutNonceCookie(Serve(p, cfg, r)) == WithoutNonceCookie(Serve(p, cfg.(tokenGenerator := other), r))
  {
  }

  /** A POST that fails the checks never reaches the authentication service. */
  lemma InvalidPostSkipsAuthentication(p: Primitives, cfg: Config, r: Request, other: UserAuthenticationService)
    requires r.verb == "POST" && !PostValid(p, cfg.serverKey, r)
    ensures Serve(p, cfg, r) == Serve(p, cfg.(userAuthService := other), r)
  {
  }

  /** The form a GET renders is accepted by the POST that returns it: the CSRF field holds the
      token for the nonce cookie issued with it. */
  lemma IssuedCsrfAccepted(p: Primitives, cfg: Config, get: Request, post: Request)
    requires Lawful(p)
    requires get.verb == "GET" && post.verb == "POST"
    requires
      var issued := Serve(p, cfg, get);
      && issued.cookies[0].value != ""
      && CookieValue(post, CookieNonce) == Some(issued.cookies[0].value)
      && PostFormValue(post, "csrf") == issued.body.view.csrf
    requires p.queryUnescape(QueryValue(post, ParameterContinue)).Some?
    requires p.queryUnescape(QueryValue(post, ParameterContinue)).value != ""
    ensures PostValid(p, cfg.serverKey, post)
    ensures Serve(p, cfg, post).status != StatusBadRequest
  {
    var nonce := Serve(p, cfg, get).cookies[0].value;
    assert PostFormValue(post, "csrf") == p.b64Encode(ComputeMac(p, nonce, cfg.serverKey));
  }
}
