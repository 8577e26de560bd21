/** oauth2/helpers: the empty-parameter check, the missing-parameter error and the HTML error
    page. */
module Helpers {
  import opened Wrappers
  import opened NetUrl
  import opened Stdlib
  import opened Http
  import opened OAuth2

  /** What a `for name, value := range params { if value[0] == "" ... }` loop finds. */
  datatype Validation =
    | Complete               // the loop ran to the end
    | Missing(name: string)  // it stopped at `name`, whose first value is empty
    | Panics                 // it indexed an empty value list

  /** The loop, visiting the names in `order`. */
  function CheckParameters(params: Values, order: seq<string>): (v: Validation)
    ensures v.Complete? <==> forall k :: k in order && k in params ==> |params[k]| > 0 && params[k][0] != ""
    ensures v.Missing? ==> v.name in order && v.name in params && |params[v.name]| > 0 && params[v.name][0] == ""
    ensures v.Panics? ==> exists k :: k in order && k in params && |params[k]| == 0
    decreases |order|
  {
    if |order| == 0 then Complete
    else
      var k := order[0];
      assert forall j :: j in order ==> j == k || j in order[1..];
      if k in params && |params[k]| == 0 then Panics
      else if k in params && params[k][0] == "" then Missing(k)
      else CheckParameters(params, order[1..])
  }

  /** Which empty parameter is named depends on the map's iteration order, which Go
      randomises. */
  lemma NamedParameterDependsOnOrder()
    ensures CheckParameters(map["a" := [""], "b" := [""]], ["a", "b"]) == Missing("a")
    ensures CheckParameters(map["a" := [""], "b" := [""]], ["b", "a"]) == Missing("b")
  {
  }

  /** MakeMissingParameterError: the `uri` argument is ignored and the URI left nil. */
  function MakeMissingParameterError(name: string, uri: Option<Url>): (e: ErrorResponse)
    ensures e.errorCode == ErrorInvalidRequest
    ensures e.description == "Required parameter is missing: " + name
    ensures e.uri == None
  {
    ErrorResponse(ErrorInvalidRequest, "Required parameter is missing: " + name, None)
  }

  /** The error is written with exactly the `error` and `error_description` keys. */
  lemma MissingParameterErrorKeys(name: string, uri: Option<Url>)
    ensures ErrorJson(MakeMissingParameterError(name, uri)).Keys == {"error", "error_description"}
  {
    var obj := ErrorJson(MakeMissingParameterError(name, uri));
    assert "error_description" in obj;
  }

  /** ValidateParameters: None when it returns true having written nothing; otherwise the one
      response it leaves behind. */
  function ValidateParameters(p: Primitives, params: Values): (written: Option<Response>)
    ensures Lawful(p) ==>
      (written.None? <==> forall k :: k in params ==> |params[k]| > 0 && params[k][0] != "")
    ensures (forall k :: k in params ==> |params[k]| > 0) ==> written != Some(Panicked)
    ensures written.Some? && written.value.Sent? ==>
      exists k :: k in params && |params[k]| > 0 && params[k][0] == ""
        && written.value == WriteError(MakeMissingParameterError(k, None), StatusBadRequest)
  {
    match CheckParameters(params, p.iterationOrder(params))
    case Complete => None
    case Missing(name) => Some(WriteError(MakeMissingParameterError(name, None), StatusBadRequest))
    case Panics => Some(Panicked)
  }

  /** RenderError: the status is written before the Content-Type is added, so only the status
      and the page reach the client. */
  function RenderError(e: ErrorResponse): (r: Response)
    ensures r.Sent? && r.status == StatusBadRequest && r.header == map[] && r.cookies == []
    ensures r.body == Html(ErrorView(e.errorCode, e.description, e.uri))
  {
    Sent(StatusBadRequest, map[], [], Html(ErrorView(e.errorCode, e.description, e.uri)))
  }

  /** helpers.NewMissingClientCredentialsError, which the token endpoint and the
      authorization-code controller call for a credential failure. */
  function NewMissingClientCredentialsError(): (e: ErrorResponse)
    ensures e.errorCode == ErrorInvalidClient && e.description != "" && e.uri == None
  {
    ErrorResponse(ErrorInvalidClient, "Client credentials are missing or invalid", None)
  }
}
