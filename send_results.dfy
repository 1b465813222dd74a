/** `FacebookSendResult` and `FacebookSendMethod` from
    `Messaging/IFacebookMessaging.cs`: the result value of the human-agent
    fallback and upload sends, built only through `Ok` and `Failed`. */
module SendResults {
  import opened Wrappers

  /** `FacebookSendMethod`; `Standard` is the first value and so the default. */
  datatype FacebookSendMethod = Standard | HumanAgentTag

  /** `FacebookSendResult`, an init-only record. */
  datatype FacebookSendResult = FacebookSendResult(
    success: bool,
    errorMessage: Option<string>,
    methodUsed: FacebookSendMethod,
    humanAgentTagRequired: bool,
    humanAgentTagPermissionDenied: bool)

  /** `FacebookSendResult.Ok(method = Standard)`. */
  function Ok(sendMethod: FacebookSendMethod := Standard): (r: FacebookSendResult)
    ensures r.success && r.errorMessage == None && r.methodUsed == sendMethod
    ensures !r.humanAgentTagRequired && !r.humanAgentTagPermissionDenied
  {
    FacebookSendResult(true, None, sendMethod, false, false)
  }

  /** `FacebookSendResult.Failed(error, humanAgentRequired = false,
      humanAgentDenied = false)`: `MethodUsed` is never set, so it stays
      `Standard`. */
  function Failed(error: string, humanAgentRequired: bool := false, humanAgentDenied: bool := false)
    : (r: FacebookSendResult)
    ensures !r.success && r.errorMessage == Some(error) && r.methodUsed == Standard
    ensures r.humanAgentTagRequired == humanAgentRequired
    ensures r.humanAgentTagPermissionDenied == humanAgentDenied
  {
    FacebookSendResult(false, Some(error), Standard, humanAgentRequired, humanAgentDenied)
  }

  /** The arguments of one factory call. */
  datatype Construction =
    | OkCall(sendMethod: FacebookSendMethod)
    | FailedCall(error: string, humanAgentRequired: bool, humanAgentDenied: bool)

  function Build(c: Construction): FacebookSendResult
  {
    match c
    case OkCall(sendMethod) => Ok(sendMethod)
    case FailedCall(error, required, denied) => Failed(error, required, denied)
  }

  /** What a result built by `Ok` or `Failed` looks like: an error message
      exactly on failure, human-agent flags only on failure, and a failure
      always reporting `Standard`. */
  predicate Consistent(r: FacebookSendResult)
  {
    && (r.success <==> r.errorMessage.None?)
    && (r.success || r.methodUsed == Standard)
    && (r.success ==> !r.humanAgentTagRequired && !r.humanAgentTagPermissionDenied)
  }

  /** Reads back the factory call a consistent result came from. */
  function ConstructionOf(r: FacebookSendResult): (c: Construction)
    requires Consistent(r)
    ensures Build(c) == r
  {
    if r.success then OkCall(r.methodUsed)
    else FailedCall(r.errorMessage.value, r.humanAgentTagRequired, r.humanAgentTagPermissionDenied)
  }

  /** The factories build exactly the consistent results, and no two factory
      calls build the same result. */
  lemma FactoriesBuildConsistentResults(c: Construction, r: FacebookSendResult)
    ensures Consistent(Build(c))
    ensures ConstructionOf(Build(c)) == c
    ensures Consistent(r) <==> exists c' :: Build(c') == r
  {
    if Consistent(r) {
      assert Build(ConstructionOf(r)) == r;
    }
  }
}
