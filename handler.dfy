/** The Lambda handler: validates one login request, builds the upstream
    authentication parameters, calls the identity provider and translates its
    outcome into a JSON response. Every step that leaves this file (base64,
    JSON, HMAC, the network call) is a function supplied in `Collaborators`. */
module Handler {
  import opened Wrappers
  import opened Http
  import opened Config
  import opened Cognito

  /** The part of the API Gateway request the handler reads. */
  datatype Request = Request(body: string, isBase64Encoded: bool)

  /** The decoded JSON body; a missing field decodes as "". */
  datatype AuthRequest = AuthRequest(email: string, password: string)

  /** The foreign steps, as total functions of their inputs:
      `decodeBase64`  the standard base64 decoding, None when the text is not base64;
      `unmarshal`     the JSON decoding into an AuthRequest, None on a JSON error;
      `hmac`          base64(HMAC-SHA256(key, message)), None if the MAC fails;
      `initiateAuth`  the identity provider's answer to one request. */
  datatype Collaborators = Collaborators(
    decodeBase64: string -> Option<string>,
    unmarshal: string -> Option<AuthRequest>,
    hmac: (string, string) -> Option<string>,
    initiateAuth: InitiateAuthInput -> Outcome)

  const InvalidRequest: string := "invalid_request"
  const BodyRequired: string := "Request body is required."
  const InvalidBase64: string := "Invalid base64 body"
  const InvalidJSON: string := "Request body must be valid JSON"
  const FieldsRequired: string := "Both email and password are required."

  const ServerError: string := "server_error"
  const SecretHashFailed: string := "Failed to calculate client secret hash."

  const InvalidCredentials: string := "invalid_credentials"
  const UserNotFoundCode: string := "user_not_found"
  const UserNotConfirmedCode: string := "user_not_confirmed"
  const PasswordResetRequiredCode: string := "password_reset_required"
  const UpstreamError: string := "upstream_error"
  const UpstreamErrorPrefix: string := "Cognito error: "

  const ChallengeRequired: string := "challenge_required"
  const ChallengeMessage: string := "Additional challenge required"

  function BadRequest(message: string): Response
  {
    ErrorResponse(StatusBadRequest, InvalidRequest, message)
  }

  /** `calcSecretHash`: the MAC keyed by the client secret over the username
      followed by the client id. */
  function CalcSecretHash(username: string, clientID: string, clientSecret: string,
                          hmac: (string, string) -> Option<string>): Option<string>
  {
    hmac(clientSecret, username + clientID)
  }

  /** The text that is JSON-decoded: the body itself, or its base64 decoding
      when the request is marked as encoded. */
  function DecodedBody(event: Request, fx: Collaborators): Option<string>
  {
    if event.isBase64Encoded then fx.decodeBase64(event.body) else Some(event.body)
  }

  /** `Handle`'s input checks, in order, each failing with 400: a body, its
      base64 decoding, its JSON decoding, then a non-empty email and password. */
  function Validate(event: Request, fx: Collaborators): (r: Result<AuthRequest, Response>)
    ensures r.Failure? ==>
      && WellFormed(r.error) && r.error.statusCode == StatusBadRequest
      && r.error.body.ErrorBody? && r.error.body.error == InvalidRequest
    ensures event.body == "" ==> r == Failure(BadRequest(BodyRequired))
    ensures event.body != "" && DecodedBody(event, fx).None? ==>
      r == Failure(BadRequest(InvalidBase64))
    ensures event.body != "" && DecodedBody(event, fx).Some? &&
            fx.unmarshal(DecodedBody(event, fx).value).None? ==>
      r == Failure(BadRequest(InvalidJSON))
    ensures r.Success? ==>
      && event.body != "" && DecodedBody(event, fx).Some?
      && fx.unmarshal(DecodedBody(event, fx).value) == Some(r.value)
      && r.value.email != "" && r.value.password != ""
    ensures event.body != "" && DecodedBody(event, fx).Some? &&
            fx.unmarshal(DecodedBody(event, fx).value).Some? ==>
      var req := fx.unmarshal(DecodedBody(event, fx).value).value;
      r == (if req.email == "" || req.password == "" then Failure(BadRequest(FieldsRequired)) else Success(req))
  {
    if event.body == "" then
      Failure(BadRequest(BodyRequired))
    else if event.isBase64Encoded && fx.decodeBase64(event.body).None? then
      Failure(BadRequest(InvalidBase64))
    else
      var rawBody := if event.isBase64Encoded then fx.decodeBase64(event.body).value else event.body;
      match fx.unmarshal(rawBody)
      case None => Failure(BadRequest(InvalidJSON))
      case Some(req) =>
        if req.email == "" || req.password == "" then Failure(BadRequest(FieldsRequired))
        else Success(req)
  }

  /** `Handle`'s authentication parameters: USERNAME and PASSWORD always, SECRET_HASH exactly when a
      client secret is configured, and a 500 when the hash cannot be made. */
  function BuildAuthParams(cfg: AppConfig, req: AuthRequest,
                           hmac: (string, string) -> Option<string>): (r: Result<map<string, string>, Response>)
    ensures r.Failure? <==>
      cfg.clientSecret != "" && CalcSecretHash(req.email, cfg.clientID, cfg.clientSecret, hmac).None?
    ensures r.Failure? ==>
      r.error == ErrorResponse(StatusInternalServerError, ServerError, SecretHashFailed)
    ensures r.Success? ==>
      && r.value.Keys == {UsernameKey, PasswordKey} + (if cfg.clientSecret != "" then {SecretHashKey} else {})
      && r.value[UsernameKey] == req.email
      && r.value[PasswordKey] == req.password
      && (cfg.clientSecret != "" ==>
            Some(r.value[SecretHashKey]) == hmac(cfg.clientSecret, req.email + cfg.clientID))
  {
    var authParams := map[UsernameKey := req.email, PasswordKey := req.password];
    if cfg.clientSecret == "" then
      Success(authParams)
    else
      match CalcSecretHash(req.email, cfg.clientID, cfg.clientSecret, hmac)
      case None => Failure(ErrorResponse(StatusInternalServerError, ServerError, SecretHashFailed))
      case Some(secretHash) => Success(authParams[SecretHashKey := secretHash])
  }

  /** Everything `Handle` does before the upstream call: either the response
      it returns early, or the request the upstream is called with. */
  function Prepare(cfg: AppConfig, event: Request, fx: Collaborators): (r: Result<InitiateAuthInput, Response>)
    ensures r.Failure? ==> WellFormed(r.error) && r.error.body.ErrorBody?
    ensures r.Failure? ==> r.error.statusCode == StatusBadRequest || r.error.statusCode == StatusInternalServerError
    ensures Validate(event, fx).Failure? ==> r == Failure(Validate(event, fx).error)
    ensures Validate(event, fx).Success? ==>
      var built := BuildAuthParams(cfg, Validate(event, fx).value, fx.hmac);
      && (r.Failure? <==> built.Failure?)
      && (r.Failure? ==> r.error == built.error)
    ensures r.Success? ==>
      && Validate(event, fx).Success?
      && r.value.authFlow == UserPasswordAuth
      && r.value.clientId == cfg.clientID
      && Success(r.value.authParameters) == BuildAuthParams(cfg, Validate(event, fx).value, fx.hmac)
  {
    match Validate(event, fx)
    case Failure(early) => Failure(early)
    case Success(req) =>
      match BuildAuthParams(cfg, req, fx.hmac)
      case Failure(early) => Failure(early)
      case Success(authParams) => Success(InitiateAuthInput(UserPasswordAuth, authParams, cfg.clientID))
  }

  /** `handleCognitoError`: the closed table of upstream errors. */
  function HandleCognitoError(e: CognitoError): (r: Response)
    ensures WellFormed(r) && r.body.ErrorBody?
    ensures r.statusCode == StatusUnauthorized <==> e == NotAuthorized
    ensures r.statusCode == StatusNotFound <==> e == UserNotFound
    ensures r.statusCode == StatusForbidden <==> e == UserNotConfirmed || e == PasswordResetRequired
    ensures r.statusCode == StatusBadGateway <==> e.Other?
    ensures e == NotAuthorized ==> r.body == ErrorBody(InvalidCredentials, "Invalid email or password.")
    ensures e == UserNotFound ==> r.body == ErrorBody(UserNotFoundCode, "User does not exist.")
    ensures e == UserNotConfirmed ==> r.body == ErrorBody(UserNotConfirmedCode, "User not confirmed.")
    ensures e == PasswordResetRequired ==>
      r.body == ErrorBody(PasswordResetRequiredCode, "Password reset required.")
    ensures e.Other? ==> r.body == ErrorBody(UpstreamError, UpstreamErrorPrefix + e.text)
  {
    match e
    case NotAuthorized =>
      ErrorResponse(StatusUnauthorized, InvalidCredentials, "Invalid email or password.")
    case UserNotFound =>
      ErrorResponse(StatusNotFound, UserNotFoundCode, "User does not exist.")
    case UserNotConfirmed =>
      ErrorResponse(StatusForbidden, UserNotConfirmedCode, "User not confirmed.")
    case PasswordResetRequired =>
      ErrorResponse(StatusForbidden, PasswordResetRequiredCode, "Password reset required.")
    case Other(text) =>
      ErrorResponse(StatusBadGateway, UpstreamError, UpstreamErrorPrefix + text)
  }

  /** Reads back, from a response body, the upstream error it reports (None
      for a response that reports no upstream error). */
  function UpstreamErrorOf(r: Response): Option<CognitoError>
  {
    match r.body
    case ErrorBody(code, message) =>
      if code == InvalidCredentials then Some(NotAuthorized)
      else if code == UserNotFoundCode then Some(UserNotFound)
      else if code == UserNotConfirmedCode then Some(UserNotConfirmed)
      else if code == PasswordResetRequiredCode then Some(PasswordResetRequired)
      else if code == UpstreamError && UpstreamErrorPrefix <= message then
        Some(Other(message[|UpstreamErrorPrefix|..]))
      else None
    case _ => None
  }

  /** The error table loses nothing: the upstream error can be read back from
      the response. */
  lemma UpstreamErrorRoundTrip(e: CognitoError)
    ensures UpstreamErrorOf(HandleCognitoError(e)) == Some(e)
  {
  }

  /** Distinct upstream errors give distinct responses. */
  lemma HandleCognitoErrorInjective(e1: CognitoError, e2: CognitoError)
    requires HandleCognitoError(e1) == HandleCognitoError(e2)
    ensures e1 == e2
  {
    UpstreamErrorRoundTrip(e1);
    UpstreamErrorRoundTrip(e2);
  }

  /** `Handle` after the upstream call: the response for what it reported. */
  function RespondToOutcome(outcome: Outcome): (r: Response)
    ensures WellFormed(r)
    ensures r.statusCode == StatusOK <==>
      outcome.Answered? && outcome.output.authenticationResult.Some?
    ensures r.statusCode == StatusUnauthorized <==> outcome == Rejected(NotAuthorized)
    ensures r.statusCode == StatusNotFound <==> outcome == Rejected(UserNotFound)
    ensures r.statusCode == StatusForbidden <==>
      || outcome == Rejected(UserNotConfirmed)
      || outcome == Rejected(PasswordResetRequired)
      || (outcome.Answered? && outcome.output.authenticationResult.None?)
    ensures r.statusCode == StatusBadGateway <==> outcome.Rejected? && outcome.error.Other?
    ensures r.body.TokenBody? <==> r.statusCode == StatusOK
    ensures outcome.Rejected? ==> r == HandleCognitoError(outcome.error)
    ensures outcome.Answered? && outcome.output.authenticationResult.None? ==>
      r.body == ChallengeBody(ChallengeRequired, ChallengeMessage, outcome.output.challengeName)
    ensures outcome.Answered? && outcome.output.authenticationResult.Some? ==>
      var result := outcome.output.authenticationResult.value;
      && (result.idToken.Some? ==> r.body.token == result.idToken)
      && (result.idToken.None? ==> r.body.token == result.accessToken)
      && r.body.expiresIn == result.expiresIn
      && r.body.tokenType == result.tokenType
  {
    match outcome
    case Rejected(e) => HandleCognitoError(e)
    case Answered(output) =>
      match output.authenticationResult
      case None =>
        RawResponse(StatusForbidden, ChallengeBody(ChallengeRequired, ChallengeMessage, output.challengeName))
      case Some(result) =>
        var token := if result.idToken.None? then result.accessToken else result.idToken;
        RawResponse(StatusOK, TokenBody(token, result.expiresIn, result.tokenType))
  }

  /** `Handle` as one expression: the early response, or the translation of
      the upstream's outcome for the prepared request. */
  function Respond(cfg: AppConfig, event: Request, fx: Collaborators): (r: Response)
    ensures WellFormed(r)
    ensures r.statusCode == StatusBadRequest <==> Validate(event, fx).Failure?
    ensures r.statusCode == StatusInternalServerError <==>
      && Validate(event, fx).Success?
      && cfg.clientSecret != ""
      && CalcSecretHash(Validate(event, fx).value.email, cfg.clientID, cfg.clientSecret, fx.hmac).None?
    ensures Prepare(cfg, event, fx).Failure? ==> r == Prepare(cfg, event, fx).error
    ensures Prepare(cfg, event, fx).Success? ==>
      r == RespondToOutcome(fx.initiateAuth(Prepare(cfg, event, fx).value))
  {
    match Prepare(cfg, event, fx)
    case Failure(early) => early
    case Success(input) => RespondToOutcome(fx.initiateAuth(input))
  }

  /** The handler itself, step by step as the source runs it. Its error result
      is always nil: every failure is a response. */
  method Handle(cfg: AppConfig, event: Request, fx: Collaborators) returns (resp: Response, err: Option<string>)
    ensures resp == Respond(cfg, event, fx)
    ensures err == None
  {
    err := None;
    var rawBody := event.body;
    if rawBody == "" {
      return BadRequest(BodyRequired), err;
    }

    if event.isBase64Encoded {
      var decoded := fx.decodeBase64(rawBody);
      if decoded.None? {
        return BadRequest(InvalidBase64), err;
      }
      rawBody := decoded.value;
    }

    var req := fx.unmarshal(rawBody);
    if req.None? {
      return BadRequest(InvalidJSON), err;
    }

    if req.value.email == "" || req.value.password == "" {
      return BadRequest(FieldsRequired), err;
    }

    var authParams := map[UsernameKey := req.value.email, PasswordKey := req.value.password];

    if cfg.clientSecret != "" {
      var secretHash := CalcSecretHash(req.value.email, cfg.clientID, cfg.clientSecret, fx.hmac);
      if secretHash.None? {
        return ErrorResponse(StatusInternalServerError, ServerError, SecretHashFailed), err;
      }
      authParams := authParams[SecretHashKey := secretHash.value];
    }

    var input := InitiateAuthInput(UserPasswordAuth, authParams, cfg.clientID);
    var outcome := fx.initiateAuth(input);
    if outcome.Rejected? {
      return HandleCognitoError(outcome.error), err;
    }

    if outcome.output.authenticationResult.None? {
      var challenge := outcome.output.challengeName;
      return RawResponse(StatusForbidden, ChallengeBody(ChallengeRequired, ChallengeMessage, challenge)), err;
    }

    var result := outcome.output.authenticationResult.value;
    var token := result.idToken;
    if token.None? {
      token := result.accessToken;
    }
    resp := RawResponse(StatusOK, TokenBody(token, result.expiresIn, result.tokenType));
  }

  // ---------------------------------------------------------------------
  // Properties relating several runs of the handler.

  /** An empty body is rejected before anything else runs: no decoding, no
      JSON, no hash and no upstream call can influence the response. */
  lemma EmptyBodyShortCircuits(cfg: AppConfig, event: Request, fx: Collaborators, fx': Collaborators)
    requires event.body == ""
    ensures Respond(cfg, event, fx) == Respond(cfg, event, fx') == BadRequest(BodyRequired)
  {
  }

  /** A response returned before the upstream call does not depend on the
      upstream: the call is not made. */
  lemma NoUpstreamCallOnEarlyReturn(cfg: AppConfig, event: Request, fx: Collaborators,
                                    initiateAuth: InitiateAuthInput -> Outcome)
    requires Prepare(cfg, event, fx).Failure?
    ensures Respond(cfg, event, fx.(initiateAuth := initiateAuth)) == Respond(cfg, event, fx)
  {
  }

  /** Without a client secret the MAC is never computed. */
  lemma NoHashWithoutSecret(cfg: AppConfig, event: Request, fx: Collaborators,
                            hmac: (string, string) -> Option<string>)
    requires cfg.clientSecret == ""
    ensures Respond(cfg, event, fx.(hmac := hmac)) == Respond(cfg, event, fx)
  {
  }

  /** A body not marked as encoded is parsed as it is: the decoder is unused. */
  lemma PlainBodyNotDecoded(cfg: AppConfig, event: Request, fx: Collaborators,
                            decodeBase64: string -> Option<string>)
    requires !event.isBase64Encoded
    ensures Respond(cfg, event, fx.(decodeBase64 := decodeBase64)) == Respond(cfg, event, fx)
  {
  }

  /** An encoded body that decodes to a non-empty text is handled exactly as
      a plain request carrying that text. */
  lemma DecodedTextIsParsed(cfg: AppConfig, event: Request, fx: Collaborators, text: string)
    requires event.isBase64Encoded && event.body != ""
    requires fx.decodeBase64(event.body) == Some(text) && text != ""
    ensures Respond(cfg, event, fx) == Respond(cfg, Request(text, false), fx)
  {
  }

  /** A response reports upstream error `e` exactly when the upstream was
      called and rejected the request with `e`. */
  lemma ReportsUpstreamErrorIff(cfg: AppConfig, event: Request, fx: Collaborators, e: CognitoError)
    ensures UpstreamErrorOf(Respond(cfg, event, fx)) == Some(e) <==>
      Prepare(cfg, event, fx).Success? && fx.initiateAuth(Prepare(cfg, event, fx).value) == Rejected(e)
  {
  }
}
