/** Properties that span two endpoints: the approval prompt rendered by the authorization
    endpoint (oauth2/endpoint/auth.go) is what the approval endpoint (approval.go) accepts. */
module Flows {
  import opened Wrappers
  import opened NetUrl
  import opened Stdlib
  import opened Http
  import opened OAuth2
  import AuthEndpoint
  import ApprovalEndpoint

  /** Posting back an approval prompt before it expires, from the same session and with the
      same authorization request, passes every approval check: the approval endpoint hands the
      parameters to the response type. The prompt signs no user id, so the post carries an
      empty one. */
  lemma {:induction false} PromptAcceptedByApproval(
    p: Primitives, authCfg: AuthEndpoint.Config, issuedAt: int, get: Request,
    approvalCfg: ApprovalEndpoint.Config, now: int, post: Request)
    requires Lawful(p)
    requires
      var prompt := AuthEndpoint.Handle(p, authCfg, issuedAt, get);
      prompt.Sent? && prompt.status == StatusOK
    requires MinInt64 <= issuedAt + AuthEndpoint.ExpiresIn <= MaxInt64
    requires now <= issuedAt + AuthEndpoint.ExpiresIn
    requires approvalCfg.serverKey == authCfg.serverKey
    requires post.verb == "POST"
    requires QueryValue(post, ParameterResponseType) == QueryValue(get, ParameterResponseType)
    requires QueryValue(post, ParameterResponseType) in approvalCfg.handlers
    requires
      var rt := QueryValue(get, ParameterResponseType);
      approvalCfg.handlers[rt].extract(post) == authCfg.handlers[rt].extract(get)
    requires CookieValue(post, "sessionid") == CookieValue(get, "sessionid")
    requires approvalCfg.userAuthService.isSessionValid(CookieValue(get, "sessionid").value) == Ok(true)
    requires
      var view := AuthEndpoint.Handle(p, authCfg, issuedAt, get).body.view;
      && PostFormValue(post, ApprovalEndpoint.ApprovalParameterUserId) == ""
      && PostFormValue(post, ApprovalEndpoint.ApprovalParameterExpirationTime) == p.formatInt(view.expirationTime)
      && PostFormValue(post, ApprovalEndpoint.ApprovalParameterSignature) == view.signature
    ensures
      var rt := QueryValue(post, ParameterResponseType);
      var handler := approvalCfg.handlers[rt];
      ApprovalEndpoint.Handle(p, approvalCfg, now, post)
        == ApprovalEndpoint.Complete(p, handler, ApprovalEndpoint.ApprovalParameters(post, handler, rt))
  {
    var rt := QueryValue(get, ParameterResponseType);
    var sessionId := CookieValue(get, "sessionid").value;
    var expirationTime := issuedAt + AuthEndpoint.ExpiresIn;
    AuthEndpoint.PromptShownIff(p, authCfg, issuedAt, get);
    var extracted := authCfg.handlers[rt].extract(get);
    var params := AuthEndpoint.SignedParameters(extracted, rt);
    var key := AuthEndpoint.PromptKey(p, authCfg.serverKey, expirationTime, sessionId);
    var signature := AuthEndpoint.PromptSignature(p, params, expirationTime, sessionId, key);
    assert AuthEndpoint.Handle(p, authCfg, issuedAt, get).body.view
        == ApprovalPromptView([AuthEndpoint.ScopeDescription], expirationTime, p.b64Encode(signature), p.encodeValues(params));
    AuthEndpoint.PromptSigningMatchesApproval(p, authCfg.serverKey, params, expirationTime, sessionId);
    var handler := approvalCfg.handlers[rt];
    assert ApprovalEndpoint.ApprovalParameters(post, handler, rt) == params;
    assert p.parseInt(p.formatInt(expirationTime)) == Some(expirationTime);
    assert p.b64Decode(p.b64Encode(signature)) == Some(signature);
    assert ApprovalEndpoint.Accepted(p, approvalCfg, now, post, params, sessionId);
  }
}
