/** The value-parsing part of `loadConfig`: the environment is given as a
    record of the variables' values (the read itself is I/O). */
module Config {
  import opened Wrappers

  datatype AppConfig = AppConfig(
    clientID: string,
    clientSecret: string,
    userPoolID: string,
    region: string,
    returnJSONObj: bool)

  /** The environment variables `loadConfig` reads. `returnJSONObject` holds
      the value of RETURN_JSON_OBJECT after lower-casing. */
  datatype Environment = Environment(
    cognitoClientID: string,
    cognitoClientSecret: string,
    cognitoUserPoolID: string,
    awsRegion: string,
    returnJSONObject: string)

  const MissingClientID: string := "COGNITO_CLIENT_ID not configured"

  /** The lower-cased spellings that switch the flag on. */
  const EnabledSpellings: set<string> := {"1", "true", "yes"}

  predicate IsEnabledFlag(lowered: string)
  {
    lowered in EnabledSpellings
  }

  /** `loadConfig`: fails exactly when no client id is configured; otherwise
      copies the variables and parses the flag. */
  function LoadConfig(env: Environment): (r: Result<AppConfig, string>)
    ensures r.Failure? <==> env.cognitoClientID == ""
    ensures r.Failure? ==> r.error == MissingClientID
    ensures r.Success? ==> r.value.clientID == env.cognitoClientID != ""
    ensures r.Success? ==> r.value.clientSecret == env.cognitoClientSecret
    ensures r.Success? ==> r.value.userPoolID == env.cognitoUserPoolID
    ensures r.Success? ==> r.value.region == env.awsRegion
    ensures r.Success? ==>
      (r.value.returnJSONObj <==>
         env.returnJSONObject == "1" || env.returnJSONObject == "true" || env.returnJSONObject == "yes")
  {
    if env.cognitoClientID == "" then
      Failure(MissingClientID)
    else
      Success(AppConfig(
        clientID := env.cognitoClientID,
        clientSecret := env.cognitoClientSecret,
        userPoolID := env.cognitoUserPoolID,
        region := env.awsRegion,
        returnJSONObj := IsEnabledFlag(env.returnJSONObject)))
  }
}
