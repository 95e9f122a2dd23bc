# Login adapter for a Cognito user pool, modelled in Dafny

This package models the decision logic of an AWS Lambda login handler. The handler receives an API Gateway
HTTP request whose body holds `{"email", "password"}`. The body may also be base64-encoded. It checks the
input, builds the `USER_PASSWORD_AUTH` parameters for Cognito's `InitiateAuth` call, and attaches a
`SECRET_HASH` when a client secret is configured. It then turns the provider's answer into a JSON response
with a fixed status code and a fixed error code:

- a token bundle,
- a challenge,
- or one of four known errors or any other error.

Files and modules:

- `wrappers.dfy` (`Wrappers`): `Option` and `Result`.
- `http.dfy` (`Http`): the status codes it uses, from section 15 of RFC 9110. Also the response record,
  its three body shapes, the default headers, and the builders `rawResponse` and `errorResponse`.
- `config.dfy` (`Config`): the parsing part of `loadConfig`.
- `cognito.dfy` (`Cognito`): what the upstream is sent and what it can answer. The upstream errors form a
  closed datatype `NotAuthorized | UserNotFound | UserNotConfirmed | PasswordResetRequired | Other(text)`.
  It replaces the source's `errors.As` type tests.
- `handler.dfy` (`Handler`): the handler.
  - `Validate` covers the input checks, in order.
  - `BuildAuthParams` builds the parameter map.
  - `Prepare` gives the request actually sent upstream, or the early response.
  - `HandleCognitoError` is the error table; `RespondToOutcome` handles the answer.
  - `Respond` is the whole handler written as one function.
  - `Handle` is the method that runs the same steps in the source's order. It reassigns the body after
    decoding and updates the local `authParams` map with `SECRET_HASH`. It is proved equal to `Respond`.

The steps that leave the program are the fields of `Collaborators`: base64 decoding, JSON decoding, the
HMAC and the network call. Each one is a total function of its input, so the same input always gives the
same result. "No call happens" is stated as "the response does not depend on that function". Response
bodies are structured values, not serialized JSON.

Behaviour of the code worth noting:

- A successful call with no authentication result always yields the 403 challenge response, with whatever
  challenge name the provider gave, possibly the empty one.
- A 200 response's `token` may be absent, when neither an ID token nor an access token is returned.
- An ID token that is present but empty is still preferred over the access token.
- An encoded body that decodes to the empty text is not rejected as "body required". It goes on to JSON
  decoding. `DecodedTextIsParsed` therefore asks for a non-empty decoded text.

## Model

| member | source | states |
|---|---|---|
| `Http.RawResponse` | src/main.go:207-224 | the response has exactly the two headers `Content-Type: application/json` and `Access-Control-Allow-Origin: *`, is not base64-encoded, and carries the given status and body |
| `Http.ErrorResponse` | src/main.go:212-215 | a well-formed response with the given status whose body is `{error: code, message}` |
| `Config.LoadConfig` | src/main.go:31-49 | fails (with "COGNITO_CLIENT_ID not configured") exactly when the client id is empty; otherwise copies the variables, and the JSON-object flag is on exactly when the lowered value is "1", "true" or "yes" |
| `Handler.Validate` | src/main.go:107-127 | passes exactly when the body is non-empty, its decoding (base64 only for an encoded body) succeeds, the JSON decoding succeeds and both fields are non-empty; every failure is a well-formed 400 `invalid_request`; the message names the first failing check: empty body, then base64 decoding (only for an encoded body), then JSON decoding, then an empty email or password; on success the result is the JSON decoding of the decoded text (the raw body when not encoded) and both fields are non-empty |
| `Handler.BuildAuthParams` | src/main.go:129-142 | the map's keys are exactly USERNAME and PASSWORD, plus SECRET_HASH exactly when a secret is configured; USERNAME = email, PASSWORD = password, SECRET_HASH = MAC(secret, email ++ clientID); fails, with 500 `server_error` "Failed to calculate client secret hash.", exactly when a secret is configured and the MAC fails |
| `Handler.Prepare` | src/main.go:104-148 | an early response is a well-formed error with status 400 or 500; a failed validation returns exactly that validation's response; after a passed validation it fails exactly when building the parameters fails, with that 500 response, and otherwise produces the request; a request sent upstream comes only from a request that passed validation, uses the `USER_PASSWORD_AUTH` flow and the configured client id, and its parameters are those built for that request |
| `Handler.HandleCognitoError` | src/main.go:182-205 | always an error body; 401 exactly for NotAuthorized, 404 exactly for UserNotFound, 403 exactly for UserNotConfirmed or PasswordResetRequired, 502 exactly for any other error; each known error's body is its own code and message (`invalid_credentials` "Invalid email or password.", `user_not_found` "User does not exist.", `user_not_confirmed` "User not confirmed.", `password_reset_required` "Password reset required."), and any other error's body is `upstream_error` / "Cognito error: " + the error text |
| `Handler.UpstreamErrorRoundTrip` | src/main.go:182-205 | the upstream error can be read back from its response (each known error has its own code; the other error's text follows the prefix) |
| `Handler.HandleCognitoErrorInjective` | src/main.go:182-205 | two upstream errors that give the same response are the same error |
| `Handler.RespondToOutcome` | src/main.go:150-179 | 200 exactly for an answer with an authentication result, and only then a token body; 401/404/403/502 exactly as the error table says, plus 403 for an answer without a result, whose body is `challenge_required` / "Additional challenge required" / the challenge name; the token is the ID token when present and the access token otherwise; `expires_in` and `token_type` are the result's |
| `Handler.Respond` | src/main.go:104-180 | every response is well-formed; 400 exactly when the input fails validation; 500 exactly when valid input meets a configured secret whose MAC fails; an early return gives exactly the response `Prepare` returns early; otherwise the response is the translation of what the upstream answers to the prepared request |
| `Handler.Handle` | src/main.go:104-180 | the step-by-step handler returns the response `Respond` specifies, and its error result is always nil |
| `Handler.EmptyBodyShortCircuits` | src/main.go:107-110 | with an empty body the response is 400 "Request body is required." whatever the decoder, JSON decoder, MAC and upstream do |
| `Handler.NoUpstreamCallOnEarlyReturn` | src/main.go:107-153 | a response returned before the call does not depend on the upstream |
| `Handler.NoHashWithoutSecret` | src/main.go:135-142 | without a client secret the response does not depend on the MAC |
| `Handler.PlainBodyNotDecoded` | src/main.go:112-121 | a body not marked as encoded is handled without the base64 decoder |
| `Handler.DecodedTextIsParsed` | src/main.go:112-121 | an encoded body that decodes to a non-empty text is handled exactly like a plain request carrying that text |
| `Handler.ReportsUpstreamErrorIff` | src/main.go:150-205 | a response reports upstream error e exactly when the upstream was called and rejected the request with e |

## Left out

- The `InitiateAuth` network call is the `initiateAuth` function of `Collaborators`. Its retries, timeouts and context cancellation are not modelled.
- `newHandler` and `main` are not modelled. They are AWS SDK configuration, client construction, log-level selection and Lambda start-up, all I/O.
- The internals of HMAC-SHA256 and of the Go standard library's base64 and JSON codecs are not modelled. They are the `hmac`, `decodeBase64` and `unmarshal` functions. `calcSecretHash` is modelled only as a MAC keyed by the secret over username ++ client id.
- JSON serialization of response bodies is not modelled. Bodies are structured values, and the source ignores `json.Marshal`'s error.
- Structured logging is not modelled. It is a side effect with no influence on responses.
- Environment reads and `strings.ToLower` are not modelled. `LoadConfig` receives the variables' values, with RETURN_JSON_OBJECT already lower-cased.
- The `returnJSONObj` flag is parsed but never read by the handler, so no behaviour is given to it.
- All responses share one `defaultHeaders` map in the source. The model gives each response an equal map value, so that aliasing is not modelled.
- Request fields other than the body and `IsBase64Encoded` are not modelled, because the handler reads no others.
- `Handler.Handle` assigns a new map value to its local `authParams`, where the source adds `SECRET_HASH` to the map in place. The map is never shared, so the difference cannot be observed.
