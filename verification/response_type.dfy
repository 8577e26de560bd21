/** oauth2/response_type/common.go and code.go: the parameters an authorization request is
    reduced to, and the code flow's redirect back to the client (sections 3.1.2 and 4.1.2 of
    RFC 6749). */
module ResponseTypes {
  import opened Wrappers
  import opened NetUrl
  import opened Stdlib
  import opened Http
  import opened OAuth2
  import opened Services

  /** The endpoint package's ResponseType interface. */
  datatype ResponseType = ResponseType(
    extract: Request -> Values,
    execute: Values -> Result<Url, Failure>)

  /** The five parameter names every response type extracts. */
  const ExtractedNames: set<string> :=
    {ParameterResponseType, ParameterClientId, ParameterRedirectUri, ParameterState, ParameterScope}

  /** extractParameters: the first query value of each of the five names, one value each; a
      name absent from the query is present with "". The rest of the query and the form body
      are ignored. */
  function ExtractParameters(r: Request): (params: Values)
    ensures params.Keys == ExtractedNames
    ensures SingleValued(params)
    ensures forall k :: k in params ==> params[k] == [QueryValue(r, k)] && Get(params, k) == QueryValue(r, k)
  {
    var params: Values := map[];
    var params := Add(params, ParameterResponseType, QueryValue(r, ParameterResponseType));
    var params := Add(params, ParameterClientId, QueryValue(r, ParameterClientId));
    var params := Add(params, ParameterRedirectUri, QueryValue(r, ParameterRedirectUri));
    var params := Add(params, ParameterState, QueryValue(r, ParameterState));
    Add(params, ParameterScope, QueryValue(r, ParameterScope))
  }

  /** The extraction reads nothing but the first query values of the five names: two requests
      that agree on those extract the same parameters, whatever else their queries, forms,
      headers and cookies hold. */
  lemma ExtractReadsOnlyTheFiveNames(r1: Request, r2: Request)
    requires forall k :: k in ExtractedNames ==> QueryValue(r1, k) == QueryValue(r2, k)
    ensures ExtractParameters(r1) == ExtractParameters(r2)
  {
    var e1 := ExtractParameters(r1);
    var e2 := ExtractParameters(r2);
    assert forall k :: k in e1 ==> e1[k] == e2[k];
  }

  /** The code and state as query parameters: AuthorizationResponse.Encode, which response.go
      does not define, read as url.Values{"code": {code}, "state": {state}}.Encode(). */
  function AuthorizationResponseValues(resp: AuthorizationResponse): Values
  {
    map["code" := [resp.code], "state" := [resp.state]]
  }

  /** The error url.Parse returns for a malformed redirect_uri. */
  const RedirectUriParseError := Opaque("url.Parse")

  /** CodeController.Execute: asks the service for a code, then appends `code` and `state` to
      the redirect URI's query, after an '&' when it already has one. */
  function CodeExecute(p: Primitives, service: Oauth2Service, params: Values): (out: Result<Url, Failure>)
    ensures p.parseUrl(Get(params, ParameterRedirectUri)).None? ==> out == Err(RedirectUriParseError)
    ensures
      var parsed := p.parseUrl(Get(params, ParameterRedirectUri));
      parsed.Some? ==>
        var answer := service.code(Get(params, ParameterClientId), parsed.value,
                                   Get(params, ParameterScope), Get(params, ParameterState));
        && (answer.Err? ==> out == Err(answer.error))
        && (answer.Ok? ==>
              var encoded := p.encodeValues(AuthorizationResponseValues(answer.value));
              && out.Ok?
              && SameButQuery(out.value, parsed.value)
              && (parsed.value.rawQuery == "" ==> out.value.rawQuery == encoded)
              && (parsed.value.rawQuery != "" ==> out.value.rawQuery == parsed.value.rawQuery + "&" + encoded))
  {
    var clientId := Get(params, ParameterClientId);
    match p.parseUrl(Get(params, ParameterRedirectUri))
    case None => Err(RedirectUriParseError)
    case Some(redirectUri) =>
      var scope := Get(params, ParameterScope);
      var state := Get(params, ParameterState);
      match service.code(clientId, redirectUri, scope, state)
      case Err(e) => Err(e)
      case Ok(response) =>
        var encoded := p.encodeValues(AuthorizationResponseValues(response));
        if redirectUri.rawQuery == "" then Ok(redirectUri.(rawQuery := encoded))
        else Ok(redirectUri.(rawQuery := redirectUri.rawQuery + "&" + encoded))
  }

  /** An unparseable redirect_uri fails before the service is asked: any other service gives
      the same answer. */
  lemma CodeExecuteBadUriSkipsService(p: Primitives, s1: Oauth2Service, s2: Oauth2Service, params: Values)
    requires p.parseUrl(Get(params, ParameterRedirectUri)).None?
    ensures CodeExecute(p, s1, params) == CodeExecute(p, s2, params)
  {
  }

  /** The client reads back the service's code and state from the redirect, provided the
      registered redirect URI did not already carry parameters of those names. */
  lemma CodeRedirectCarriesResponse(p: Primitives, service: Oauth2Service, params: Values)
    requires Lawful(p)
    requires CodeExecute(p, service, params).Ok?
    ensures
      var parsed := p.parseUrl(Get(params, ParameterRedirectUri)).value;
      var response := service.code(Get(params, ParameterClientId), parsed,
                                   Get(params, ParameterScope), Get(params, ParameterState)).value;
      var query := p.parseQuery(CodeExecute(p, service, params).value.rawQuery);
      ("code" !in p.parseQuery(parsed.rawQuery) ==> Get(query, "code") == response.code)
      && ("state" !in p.parseQuery(parsed.rawQuery) ==> Get(query, "state") == response.state)
  {
    var parsed := p.parseUrl(Get(params, ParameterRedirectUri)).value;
    var response := service.code(Get(params, ParameterClientId), parsed,
                                 Get(params, ParameterScope), Get(params, ParameterState)).value;
    var values := AuthorizationResponseValues(response);
    var encoded := p.encodeValues(values);
    assert p.parseQuery(encoded) == values by {
      assert Nonempty(values) == values;
    }
    if parsed.rawQuery != "" {
      assert encoded != "" by {
        assert "code" in p.parseQuery(encoded);
      }
      assert p.parseQuery(parsed.rawQuery + "&" + encoded) == Merge(p.parseQuery(parsed.rawQuery), values);
    }
  }

  /** The code response type, as registered with the authorization and approval endpoints. */
  function CodeController(p: Primitives, service: Oauth2Service): ResponseType
  {
    ResponseType(r => ExtractParameters(r), params => CodeExecute(p, service, params))
  }
}
