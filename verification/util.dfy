/** util/http_request.go, util/http_middleware.go and util/http_response.go: HTTP Basic client
    credentials (section 2 of RFC 7617), the middleware in front of the token endpoint, and the
    redirect to the login page. */
module Util {
  import opened Wrappers
  import opened Strings
  import opened NetUrl
  import opened Stdlib
  import opened Http
  import opened OAuth2
  import opened Services

  const ContentTypeHtml := "text/html;charset=utf-8"

  /** Why an Authorization header yields no credentials. */
  datatype BasicAuthError =
    | NotBasic        // "Authorization method must be Basic"
    | BadEncoding     // the base64 decoder's error
    | BadCredentials  // "Invalid client credentials"

  /** The header starts with the scheme name "Basic" (case-sensitive) and one space. */
  predicate HasBasicScheme(auth: string)
  {
    |auth| >= 6 && auth[..6] == "Basic "
  }

  /** The Authorization-header parser of util.GetBasicAuth; grant_type's decodeAuthHeader
      repeats it line for line. The decoded text is split at its first ':', so the secret may
      itself hold colons. */
  function ParseBasicAuth(p: Primitives, auth: string): (r: Result<ClientCredentials, BasicAuthError>)
    ensures r == Err(NotBasic) <==> !HasBasicScheme(auth)
    ensures HasBasicScheme(auth) && p.b64Decode(auth[6..]).None? ==> r == Err(BadEncoding)
    ensures r.Ok? ==>
      && HasBasicScheme(auth)
      && p.b64Decode(auth[6..]) == Some(r.value.id + ":" + r.value.secret)
      && r.value.id != "" && ':' !in r.value.id && r.value.secret != ""
  {
    var parts := SplitN2(auth, ' ');
    assert HasBasicScheme(auth) ==> parts == ["Basic", auth[6..]] by {
      if HasBasicScheme(auth) {
        assert auth == "Basic" + [' '] + auth[6..];
        SplitN2Of("Basic", ' ', auth[6..]);
      }
    }
    if |parts| != 2 || parts[0] != "Basic" then
      Err(NotBasic)
    else
      assert auth[6..] == parts[1] && HasBasicScheme(auth) by {
        assert auth == "Basic" + [' '] + parts[1];
        assert auth[..6] == "Basic ";
      }
      match p.b64Decode(parts[1])
      case None => Err(BadEncoding)
      case Some(decoded) =>
        var cred := SplitN2(decoded, ':');
        if |cred| != 2 || cred[0] == "" || cred[1] == "" then Err(BadCredentials)
        else Ok(ClientCredentials(cred[0], cred[1]))
  }

  /** A decoded "id:secret" with a non-empty, colon-free id and a non-empty secret yields exactly
      that pair. */
  lemma ParseBasicAuthOf(p: Primitives, payload: string, id: string, secret: string)
    requires p.b64Decode(payload) == Some(id + ":" + secret)
    requires id != "" && ':' !in id && secret != ""
    ensures ParseBasicAuth(p, "Basic " + payload) == Ok(ClientCredentials(id, secret))
  {
    assert "Basic " + payload == "Basic" + [' '] + payload;
    SplitN2Of("Basic", ' ', payload);
    assert id + ":" + secret == id + [':'] + secret;
    SplitN2Of(id, ':', secret);
  }

  /** Decoded text without a colon, or whose first colon opens or ends it (an empty id or an
      empty secret), is rejected. */
  lemma ParseBasicAuthRejects(p: Primitives, payload: string, decoded: string)
    requires p.b64Decode(payload) == Some(decoded)
    requires
      || ':' !in decoded
      || decoded[0] == ':'
      || (decoded[|decoded| - 1] == ':' && ':' !in decoded[..|decoded| - 1])
    ensures ParseBasicAuth(p, "Basic " + payload) == Err(BadCredentials)
  {
    assert "Basic " + payload == "Basic" + [' '] + payload;
    SplitN2Of("Basic", ' ', payload);
    if ':' in decoded {
      if decoded[0] == ':' {
        assert decoded == "" + [':'] + decoded[1..];
        SplitN2Of("", ':', decoded[1..]);
      } else {
        var n := |decoded| - 1;
        assert decoded == decoded[..n] + [':'] + "";
        SplitN2Of(decoded[..n], ':', "");
      }
    }
  }

  /** Round trip: the header a client builds from an id and secret gives them back. */
  lemma BasicAuthRoundTrip(p: Primitives, id: string, secret: string)
    requires Lawful(p)
    requires id != "" && ':' !in id && secret != ""
    ensures ParseBasicAuth(p, "Basic " + p.b64Encode(id + ":" + secret)) == Ok(ClientCredentials(id, secret))
  {
    ParseBasicAuthOf(p, p.b64Encode(id + ":" + secret), id, secret);
  }

  /** util.GetBasicAuth: the credentials depend on nothing but the Authorization header. */
  function GetBasicAuth(p: Primitives, r: Request): Result<ClientCredentials, BasicAuthError>
  {
    ParseBasicAuth(p, HeaderValue(r, "Authorization"))
  }

  /** The headers NoCachingMiddleware sets. */
  const NoCacheHeader: Header := map["Cache-Control" := "no-store", "Pragma" := "no-cache"]

  /** NoCachingMiddleware: sets the two no-cache headers, then runs the wrapped handler once,
      whose `inner` response may override them. */
  function NoCaching(inner: Response): (r: Response)
    ensures inner.Panicked? <==> r.Panicked?
    ensures inner.Sent? ==>
      && r.status == inner.status && r.body == inner.body && r.cookies == inner.cookies
      && r.header.Keys == inner.header.Keys + {"Cache-Control", "Pragma"}
      && (forall k :: k in inner.header ==> r.header[k] == inner.header[k])
      && ("Cache-Control" !in inner.header ==> r.header["Cache-Control"] == "no-store")
      && ("Pragma" !in inner.header ==> r.header["Pragma"] == "no-cache")
  {
    match inner
    case Sent(status, header, cookies, body) => Sent(status, NoCacheHeader + header, cookies, body)
    case Panicked => Panicked
  }

  /** r.SetBasicAuth(user, password) */
  function SetBasicAuth(p: Primitives, r: Request, user: string, password: string): Request
  {
    r.(header := r.header["Authorization" := ["Basic " + p.b64Encode(user + ":" + password)]])
  }

  /** ClientCredentialsFromFormDataToHeaderMiddleware: either the 400 it answers by itself, or
      the request the wrapped handler runs on. */
  function NormalizeClientCredentials(p: Primitives, r: Request): (out: Result<Request, Response>)
    ensures !r.formOk ==>
      out == Err(WriteError(ErrorResponse(ErrorInvalidRequest, "", None), StatusBadRequest))
    ensures r.formOk && HeaderValue(r, "Authorization") != "" ==> out == Ok(r)
    ensures r.formOk && HeaderValue(r, "Authorization") == "" ==>
      && out.Ok?
      && out.value == r.(header := out.value.header)
      && HeaderValue(out.value, "Authorization")
           == "Basic " + p.b64Encode(PostFormValue(r, "client_id") + ":" + PostFormValue(r, "client_secret"))
      && out.value.header.Keys == r.header.Keys + {"Authorization"}
      && (forall k :: k in r.header && k != "Authorization" ==> out.value.header[k] == r.header[k])
  {
    if !r.formOk then
      Err(WriteError(ErrorResponse(ErrorInvalidRequest, "", None), StatusBadRequest))
    else if HeaderValue(r, "Authorization") == "" then
      Ok(SetBasicAuth(p, r, PostFormValue(r, "client_id"), PostFormValue(r, "client_secret")))
    else
      Ok(r)
  }

  /** Credentials posted in the form reach the handler as if sent in the header. */
  lemma NormalizedFormCredentials(p: Primitives, r: Request)
    requires Lawful(p)
    requires r.formOk && HeaderValue(r, "Authorization") == ""
    requires PostFormValue(r, "client_id") != "" && ':' !in PostFormValue(r, "client_id")
    requires PostFormValue(r, "client_secret") != ""
    ensures NormalizeClientCredentials(p, r).Ok?
    ensures GetBasicAuth(p, NormalizeClientCredentials(p, r).value)
      == Ok(ClientCredentials(PostFormValue(r, "client_id"), PostFormValue(r, "client_secret")))
  {
    BasicAuthRoundTrip(p, PostFormValue(r, "client_id"), PostFormValue(r, "client_secret"));
  }

  /** With neither the header nor the form fields, the synthesised header decodes to ":" and
      is rejected. */
  lemma NormalizedNoCredentials(p: Primitives, r: Request)
    requires Lawful(p)
    requires r.formOk && HeaderValue(r, "Authorization") == ""
    requires PostFormValue(r, "client_id") == "" && PostFormValue(r, "client_secret") == ""
    ensures NormalizeClientCredentials(p, r).Ok?
    ensures GetBasicAuth(p, NormalizeClientCredentials(p, r).value) == Err(BadCredentials)
  {
    var payload := p.b64Encode("" + ":" + "");
    assert "" + ":" + "" == ":";
    ParseBasicAuthRejects(p, payload, ":");
  }

  /** The login URL RedirectToLogin sends the browser to: the configured one, with its query
      replaced by `return_to` carrying the escaped URL to come back to. */
  function LoginTarget(p: Primitives, loginUrl: Url, returnTo: Url): (u: Url)
    ensures SameButQuery(u, loginUrl)
    ensures u.rawQuery == "return_to=" + p.queryEscape(p.urlString(returnTo))
  {
    loginUrl.(rawQuery := "return_to=" + p.queryEscape(p.urlString(returnTo)))
  }

  /** What the login page reads back from the redirect's query: `return_to` holding the URL
      to come back to, and nothing else. */
  lemma LoginTargetCarriesReturnUrl(p: Primitives, loginUrl: Url, returnTo: Url)
    requires ReadsEscapedPair(p)
    ensures p.parseQuery(LoginTarget(p, loginUrl, returnTo).rawQuery) == map["return_to" := [p.urlString(returnTo)]]
  {
    var name := "return_to";
    assert PlainName(name) by {
      forall i | 0 <= i < |name| ensures Unreserved(name[i]) {
      }
    }
    assert "return_to=" + p.queryEscape(p.urlString(returnTo)) == name + "=" + p.queryEscape(p.urlString(returnTo));
  }

  /** RedirectToLogin: a 302 Found to LoginTarget. The login URL is received by value, so the
      caller's copy is never changed. */
  function RedirectToLogin(p: Primitives, loginUrl: Url, returnTo: Url): (r: Response)
    ensures r.Sent? && r.status == StatusFound && r.body == NoBody && r.cookies == []
    ensures r.header == map["Location" := p.urlString(LoginTarget(p, loginUrl, returnTo))]
  {
    Redirect(p.urlString(LoginTarget(p, loginUrl, returnTo)), StatusFound)
  }

  /** util.HTTPError: a status with a human-readable description. */
  datatype HttpError = HttpError(statusCode: int, description: string)

  /** util.HTTPErrorServiceUnavaliable, which util/ does not define here; it is taken to carry
      the 503 wording of the login handler. */
  const HttpErrorServiceUnavailable :=
    HttpError(StatusServiceUnavailable, "The service you're looking for is temporarily unavaliable.")

  /** util.RenderHTTPError, which util/ does not define here: the error's status, then its page. */
  function RenderHttpError(e: HttpError): Response
  {
    Sent(e.statusCode, map[], [], Html(HttpErrorView(e.statusCode, e.description)))
  }
}
