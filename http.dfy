/**
 * The boundary to the Graph API. A call is not executed: the model receives
 * its outcome as a value, one of the three things the services distinguish
 * with `IsSuccessStatusCode` and `try`/`catch`.
 */
module Http {
  import opened Wrappers
  import opened Json

  const BaseUrl: string := "https://graph.facebook.com"

  /** `HttpStatusCode`: its number and the text `{statusCode}` interpolates to. */
  datatype HttpStatus = HttpStatus(code: int, name: string)

  /** `HttpResponseMessage.IsSuccessStatusCode`. */
  predicate IsSuccessStatusCode(s: HttpStatus)
  {
    200 <= s.code <= 299
  }

  /** The exceptions the core throws, rethrows or catches. */
  datatype Exception =
    | ArgumentException(message: string)
    | ArgumentOutOfRangeException(paramName: string)
    | InvalidOperationException(message: string)
    | HttpRequestException(message: string)
    | FacebookApiException(status: HttpStatus, errorResponse: string)
    | OtherException(typeName: string, message: string)

  /**
   * The outcome of one request: the call threw (no response, a cancelled
   * token, a body that did not deserialise), or a response arrived with a
   * status, its raw text (read on the error path) and, for a success status,
   * the deserialised body (`None` for a JSON `null`).
   */
  datatype Response<B> =
    | Threw(exception: Exception)
    | Responded(status: HttpStatus, content: string, parsed: Option<B>)

  datatype Verb = Get | Post | Delete

  /** The request a service hands to `HttpClient`. */
  datatype Request = Request(verb: Verb, url: string, body: Option<Json>)

  /** One service operation: the request it hands to `HttpClient` and what it
      returns once the outcome of that request is known. */
  datatype Call<T> = Call(request: Request, result: T)

  /** What every service reads from `FacebookClientOptions` to build its URLs. */
  datatype Credentials = Credentials(apiVersion: string, pageAccessToken: string)

  /** `{BaseUrl}/{ApiVersion}/me/{path}?{query}access_token={PageAccessToken}`. */
  function GraphUrl(c: Credentials, path: string, query: string): (url: string)
    ensures |BaseUrl| < |url| && url[..|BaseUrl|] == BaseUrl
  {
    BaseUrl + "/" + c.apiVersion + "/me/" + path + "?" + query + "access_token=" + c.pageAccessToken
  }

  /** The body `{ "result": ... }` that the messenger-profile endpoints answer with. */
  datatype ResultResponse = ResultResponse(result: Option<string>)

  /** `result?.Result == "success"` after a success status, `false` otherwise
      (error status or anything thrown). */
  function ProfileUpdateSucceeded(r: Response<ResultResponse>): (ok: bool)
    ensures ok <==> r.Responded? && IsSuccessStatusCode(r.status)
                    && r.parsed == Some(ResultResponse(Some("success")))
  {
    match r
    case Threw(_) => false
    case Responded(status, _, parsed) =>
      if !IsSuccessStatusCode(status) then false
      else parsed.Some? && parsed.value.result == Some("success")
  }

  /** A success status whose body deserialised to something other than `null`. */
  predicate Delivered<B>(r: Response<B>)
  {
    r.Responded? && IsSuccessStatusCode(r.status) && r.parsed.Some?
  }

  /** The `{ "data": [...] }` body of the list endpoints. */
  datatype DataResponse<T> = DataResponse(data: Option<seq<T>>)

  /** A delivered body whose `data` is not `null`. */
  predicate HasData<T>(r: Response<DataResponse<T>>)
  {
    Delivered(r) && r.parsed.value.data.Some?
  }

  /** `result?.Data?.FirstOrDefault()` after a success status, `null` on an
      error status or anything thrown. The entries are themselves nullable. */
  function FirstOrNone<T>(r: Response<DataResponse<Option<T>>>): (first: Option<T>)
    ensures HasData(r) && |r.parsed.value.data.value| > 0 ==> first == r.parsed.value.data.value[0]
    ensures !(HasData(r) && |r.parsed.value.data.value| > 0) ==> first == None
  {
    match r
    case Threw(_) => None
    case Responded(status, _, parsed) =>
      if !IsSuccessStatusCode(status) || parsed.None? then None
      else match parsed.value.data
        case None => None
        case Some(items) => if |items| == 0 then None else items[0]
  }

  /** `result?.Data?.FirstOrDefault()?.List ?? new List()`: the list in the
      first data entry, empty whenever any step of that chain is missing. */
  function FirstListOrEmpty<T>(r: Response<DataResponse<Option<seq<T>>>>): (xs: seq<T>)
    ensures FirstOrNone(r).Some? ==> xs == FirstOrNone(r).value
    ensures FirstOrNone(r).None? ==> xs == []
    ensures !Delivered(r) ==> xs == []
  {
    match FirstOrNone(r)
    case Some(list) => list
    case None => []
  }

  /** `result?.Data ?? new List()` after a success status, empty otherwise. */
  function DataOrEmpty<T>(r: Response<DataResponse<T>>): (xs: seq<T>)
    ensures HasData(r) ==> xs == r.parsed.value.data.value
    ensures !HasData(r) ==> xs == []
  {
    match r
    case Threw(_) => []
    case Responded(status, _, parsed) =>
      if !IsSuccessStatusCode(status) || parsed.None? || parsed.value.data.None? then []
      else parsed.value.data.value
  }

  /** The plain `bool` sends: `true` exactly for a success status, whatever the body. */
  function Posted<B>(r: Response<B>): (ok: bool)
    ensures ok <==> r.Responded? && IsSuccessStatusCode(r.status)
    ensures r.Threw? ==> !ok
  {
    match r
    case Threw(_) => false
    case Responded(status, _, _) => IsSuccessStatusCode(status)
  }
}
