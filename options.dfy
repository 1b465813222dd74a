/** `Options/FacebookClientOptions.cs`: the settings every service reads,
    and the check that the three required ones are present. */
module Options {
  import opened Wrappers
  import opened Text
  import Http

  /** `FacebookClientOptions.SectionName`, the configuration section bound to the options. */
  const SectionName: string := "Facebook"

  const DefaultApiVersion: string := "v18.0"

  const PageAccessTokenRequired: string := "Facebook PageAccessToken is required"
  const AppSecretRequired: string := "Facebook AppSecret is required"
  const VerifyTokenRequired: string := "Facebook VerifyToken is required"

  /** What `Validate` throws for these three values, `None` when it returns:
      the checks run in a fixed order and only the first missing value is
      reported. `PageId`, `AppId` and `ApiVersion` play no part. */
  function ValidationError(pageAccessToken: string, appSecret: string, verifyToken: string)
    : (e: Option<Http.Exception>)
    ensures e.None? <==> !AllWhiteSpace(pageAccessToken) && !AllWhiteSpace(appSecret) && !AllWhiteSpace(verifyToken)
    ensures AllWhiteSpace(pageAccessToken) ==>
              e == Some(Http.InvalidOperationException(PageAccessTokenRequired))
    ensures !AllWhiteSpace(pageAccessToken) && AllWhiteSpace(appSecret) ==>
              e == Some(Http.InvalidOperationException(AppSecretRequired))
    ensures !AllWhiteSpace(pageAccessToken) && !AllWhiteSpace(appSecret) && AllWhiteSpace(verifyToken) ==>
              e == Some(Http.InvalidOperationException(VerifyTokenRequired))
  {
    if AllWhiteSpace(pageAccessToken) then Some(Http.InvalidOperationException(PageAccessTokenRequired))
    else if AllWhiteSpace(appSecret) then Some(Http.InvalidOperationException(AppSecretRequired))
    else if AllWhiteSpace(verifyToken) then Some(Http.InvalidOperationException(VerifyTokenRequired))
    else None
  }

  /** `FacebookClientOptions`: settable properties, bound from configuration. */
  class FacebookClientOptions {
    var pageAccessToken: string
    var appSecret: string
    var verifyToken: string
    var pageId: Option<string>
    var appId: Option<string>
    var apiVersion: string

    /** The property initialisers: empty tokens, no ids, API version `v18.0`. */
    constructor()
      ensures pageAccessToken == "" && appSecret == "" && verifyToken == ""
      ensures pageId == None && appId == None
      ensures apiVersion == DefaultApiVersion
    {
      pageAccessToken := "";
      appSecret := "";
      verifyToken := "";
      pageId := None;
      appId := None;
      apiVersion := DefaultApiVersion;
    }

    /** `Validate()`: the exception it throws, `None` when it returns. */
    method Validate() returns (error: Option<Http.Exception>)
      ensures error == ValidationError(pageAccessToken, appSecret, verifyToken)
    {
      if IsNullOrWhiteSpace(Some(pageAccessToken)) {
        return Some(Http.InvalidOperationException(PageAccessTokenRequired));
      }
      if IsNullOrWhiteSpace(Some(appSecret)) {
        return Some(Http.InvalidOperationException(AppSecretRequired));
      }
      if IsNullOrWhiteSpace(Some(verifyToken)) {
        return Some(Http.InvalidOperationException(VerifyTokenRequired));
      }
      return None;
    }

    /** What the services read to build Graph API URLs. */
    function Credentials(): (c: Http.Credentials)
      reads this
      ensures c.apiVersion == apiVersion && c.pageAccessToken == pageAccessToken
    {
      Http.Credentials(apiVersion, pageAccessToken)
    }
  }

  /** A freshly constructed options object does not validate: the page access
      token is the first value missing. */
  method ValidateDefaults() returns (error: Option<Http.Exception>)
    ensures error == Some(Http.InvalidOperationException(PageAccessTokenRequired))
  {
    var options := new FacebookClientOptions();
    error := options.Validate();
  }
}
