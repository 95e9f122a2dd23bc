/** The API Gateway (HTTP API, payload v2) response the handler returns, with
    the JSON body kept as a structured value, and the two response builders. */
module Http {
  import opened Wrappers

  // Status codes of section 15 of RFC 9110 that the handler uses.
  const StatusOK: int := 200                   // section 15.3.1
  const StatusBadRequest: int := 400           // section 15.5.1
  const StatusUnauthorized: int := 401         // section 15.5.2
  const StatusForbidden: int := 403            // section 15.5.4
  const StatusNotFound: int := 404             // section 15.5.5
  const StatusInternalServerError: int := 500  // section 15.6.1
  const StatusBadGateway: int := 502           // section 15.6.3

  /** The upstream's 32-bit `ExpiresIn`. */
  newtype int32 = x: int | -0x8000_0000 <= x < 0x8000_0000

  const ContentType: string := "Content-Type"
  const AllowOrigin: string := "Access-Control-Allow-Origin"

  /** The headers attached to every response. */
  const DefaultHeaders: map<string, string> :=
    map[ContentType := "application/json", AllowOrigin := "*"]

  /** The three JSON body shapes: `errorResponse`, `challengeResponse` and
      `authResponse`. An absent optional field is JSON `null`. */
  datatype Body =
    | ErrorBody(error: string, message: string)
    | ChallengeBody(error: string, message: string, challenge: string)
    | TokenBody(token: Option<string>, expiresIn: int32, tokenType: Option<string>)

  datatype Response = Response(
    statusCode: int,
    headers: map<string, string>,
    body: Body,
    isBase64Encoded: bool)

  /** What every response of the handler looks like: exactly the two default
      headers and a body that is not base64-encoded. */
  predicate WellFormed(r: Response) {
    && r.headers.Keys == {ContentType, AllowOrigin}
    && r.headers[ContentType] == "application/json"
    && r.headers[AllowOrigin] == "*"
    && !r.isBase64Encoded
  }

  /** `rawResponse`: wraps a body with the default headers. */
  function RawResponse(statusCode: int, body: Body): (r: Response)
    ensures WellFormed(r)
    ensures r.statusCode == statusCode && r.body == body
  {
    Response(statusCode, DefaultHeaders, body, false)
  }

  /** `errorResponse`: an `{error, message}` body under the given status. */
  function ErrorResponse(statusCode: int, code: string, message: string): (r: Response)
    ensures WellFormed(r)
    ensures r.statusCode == statusCode
    ensures r.body.ErrorBody? && r.body.error == code && r.body.message == message
  {
    RawResponse(statusCode, ErrorBody(code, message))
  }
}
