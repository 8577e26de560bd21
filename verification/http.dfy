/** An abstract `net/http` exchange: the request fields the handlers read and the response they
    write, as immutable values. */
module Http {
  import opened Wrappers
  import opened NetUrl

  /** The response header, one value per name (every handler uses Header().Set). */
  type Header = map<string, string>

  /** An incoming request; `verb` is r.Method.
      `query` is r.URL.Query() (the parsed query of `url`); `form` is r.PostForm after the
      body was parsed, and `formOk` says whether r.ParseForm() succeeded; `header` is keyed by
      canonical header names; `cookies` maps each cookie name to the value r.Cookie returns. */
  datatype Request = Request(
    verb: string,
    url: Url,
    query: Values,
    form: Values,
    formOk: bool,
    header: Values,
    cookies: map<string, string>)

  /** r.Header.Get(name) */
  function HeaderValue(r: Request, name: string): string
  {
    Get(r.header, name)
  }

  /** r.PostFormValue(name) */
  function PostFormValue(r: Request, name: string): string
  {
    Get(r.form, name)
  }

  /** r.URL.Query().Get(name) */
  function QueryValue(r: Request, name: string): string
  {
    Get(r.query, name)
  }

  /** r.Cookie(name): the value, or None for http.ErrNoCookie. */
  function CookieValue(r: Request, name: string): Option<string>
  {
    if name in r.cookies then Some(r.cookies[name]) else None
  }

  /** A Set-Cookie the response carries. */
  datatype Cookie = Cookie(name: string, value: string, httpOnly: bool)

  /** A JSON value as json.Marshal produces it for the provider's structs. */
  datatype JsonValue = JString(text: string) | JNumber(number: nat) | JUrl(url: Url)

  /** A marshalled JSON object: which keys appear and what they hold. */
  type JsonObject = map<string, JsonValue>

  /** The data handed to an HTML template; the rendering itself is not modelled. */
  datatype View =
    /** "error_response", given an *oauth2.ErrorResponse */
    | ErrorView(error: string, description: string, uri: Option<Url>)
    /** a util.HTTPError page */
    | HttpErrorView(statusCode: int, description: string)
    /** "approval_prompt", given an endpoint.ApprovalPrompt */
    | ApprovalPromptView(scopes: seq<string>, expirationTime: int, signature: string, parameters: string)
    /** "login", given a login.Login */
    | LoginView(user: string, password: string, errorMessage: string, csrf: string)

  datatype Body = NoBody | Text(text: string) | Json(json: JsonObject) | Html(view: View)

  /** What a handler leaves behind: a written response, or a runtime panic (which net/http
      recovers from by dropping the connection). */
  datatype Response =
    | Sent(status: int, header: Header, cookies: seq<Cookie>, body: Body)
    | Panicked

  const StatusOK := 200
  const StatusFound := 302
  const StatusBadRequest := 400
  const StatusUnauthorized := 401
  const StatusMethodNotAllowed := 405
  const StatusInternalServerError := 500
  const StatusServiceUnavailable := 503

  /** w.WriteHeader(code) with nothing else written. */
  function Status(code: int): Response
  {
    Sent(code, map[], [], NoBody)
  }

  /** http.Error(w, message, code) */
  function Error(message: string, code: int): Response
  {
    Sent(code,
      map["Content-Type" := "text/plain; charset=utf-8", "X-Content-Type-Options" := "nosniff"],
      [], Text(message + "\n"))
  }

  /** http.Redirect(w, r, location, code) for an absolute location. */
  function Redirect(location: string, code: int): Response
  {
    Sent(code, map["Location" := location], [], NoBody)
  }

  /** The response with `cookie` set before everything the handler wrote. */
  function WithCookieFirst(cookie: Cookie, resp: Response): Response
  {
    match resp
    case Sent(status, header, cookies, body) => Sent(status, header, [cookie] + cookies, body)
    case Panicked => Panicked
  }
}
