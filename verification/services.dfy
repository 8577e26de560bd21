/** service/oauth2.go, service/user_authentication.go and service/token_generator.go: the
    collaborators the core consumes, as records of functions from arguments to answers. */
module Services {
  import opened Wrappers
  import opened NetUrl
  import opened OAuth2

  /** An OAuth 2.0 client's own identity. */
  datatype ClientCredentials = ClientCredentials(id: string, secret: string)

  datatype ScopeValidationResult = ScopeValidationResult(valid: seq<string>, invalid: seq<string>)
  {
    /** ScopeValidationResult.IsValid: no requested scope was rejected. */
    predicate IsValid()
    {
      |invalid| == 0
    }
  }

  /** The errors a collaborator can return, told apart as the handlers' type assertions do. */
  datatype Failure =
    | OAuthFailure(response: ErrorResponse)   // an *oauth2.ErrorResponse
    | CredentialsMismatch                     // a service.CredentialsMismatch
    | Opaque(message: string)                 // any other error

  /** Oauth2Service, including the methods only the controllers' call sites and mocks show. */
  datatype Oauth2Service = Oauth2Service(
    passwordFlow: (ClientCredentials, string, string) -> Result<AccessTokenResponse, Failure>,
    authorizationCode: (ClientCredentials, string, string) -> Result<AccessTokenResponse, Failure>,
    validateScope: seq<string> -> Result<ScopeValidationResult, Failure>,
    code: (string, Url, string, string) -> Result<AuthorizationResponse, Failure>)

  datatype UserAuthenticationService = UserAuthenticationService(
    isSessionValid: string -> Result<bool, Failure>,
    authenticateUser: (string, string) -> Result<string, Failure>)

  /** TokenGenerator.Generate(n): n random bytes. */
  type TokenGenerator = nat -> string
}
