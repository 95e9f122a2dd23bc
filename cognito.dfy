/** The identity provider's `InitiateAuth` operation, seen from the handler:
    the request it is sent and the outcomes it can report. The call itself
    is a parameter of the handler. */
module Cognito {
  import opened Wrappers
  import opened Http

  const UserPasswordAuth: string := "USER_PASSWORD_AUTH"

  const UsernameKey: string := "USERNAME"
  const PasswordKey: string := "PASSWORD"
  const SecretHashKey: string := "SECRET_HASH"

  datatype InitiateAuthInput = InitiateAuthInput(
    authFlow: string,
    authParameters: map<string, string>,
    clientId: string)

  /** The token bundle of a completed authentication. */
  datatype AuthenticationResult = AuthenticationResult(
    idToken: Option<string>,
    accessToken: Option<string>,
    expiresIn: int32,
    tokenType: Option<string>)

  /** A successful call: either the tokens, or no tokens and the name of the
      challenge the provider demands (empty when the provider names none). */
  datatype InitiateAuthOutput = InitiateAuthOutput(
    authenticationResult: Option<AuthenticationResult>,
    challengeName: string)

  /** The error kinds the handler distinguishes; `Other` carries the text of
      any other error. */
  datatype CognitoError =
    | NotAuthorized
    | UserNotFound
    | UserNotConfirmed
    | PasswordResetRequired
    | Other(text: string)

  datatype Outcome = Answered(output: InitiateAuthOutput) | Rejected(error: CognitoError)
}
