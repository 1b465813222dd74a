/** `IceBreakers/FacebookIceBreakersService.cs`: the conversation starters
    on the messenger profile endpoint. */
module IceBreakers {
  import opened Wrappers
  import opened Json
  import opened Http

  /** `IceBreaker`; both properties start as "". */
  datatype IceBreaker = IceBreaker(question: string, payload: string)

  /** The most ice breakers `SetAsync` sends. */
  const MaxIceBreakers: nat := 4

  /** One entry of `ice_breakers`: exactly `{question, payload}`, unchanged. */
  function IceBreakerJson(ib: IceBreaker): (r: Json)
    ensures Keys(r) == {"question", "payload"}
    ensures r.fields["question"] == JString(ib.question) && r.fields["payload"] == JString(ib.payload)
  {
    JObject(map["question" := JString(ib.question), "payload" := JString(ib.payload)])
  }

  /** The body `SetAsync` posts for the (already truncated) list, in order. */
  function IceBreakersPayload(ibs: seq<IceBreaker>): (r: Json)
    ensures Keys(r) == {"ice_breakers"} && r.fields["ice_breakers"].JArray?
    ensures |r.fields["ice_breakers"].items| == |ibs|
    ensures forall i :: 0 <= i < |ibs| ==> r.fields["ice_breakers"].items[i] == IceBreakerJson(ibs[i])
  {
    JObject(map["ice_breakers" := JArray(MapSeq(ibs, IceBreakerJson))])
  }

  /** `SetAsync`: a list longer than four is cut to its first four before the
      payload is built; the result is `true` only for a success status
      answered with `result` "success". */
  method SetIceBreakers(c: Credentials, iceBreakers: seq<IceBreaker>, outcome: Response<ResultResponse>)
    returns (call: Call<bool>)
    ensures call.request.verb == Post && call.request.url == GraphUrl(c, "messenger_profile", "")
    ensures |iceBreakers| <= MaxIceBreakers ==> call.request.body == Some(IceBreakersPayload(iceBreakers))
    ensures |iceBreakers| > MaxIceBreakers ==> call.request.body == Some(IceBreakersPayload(iceBreakers[..MaxIceBreakers]))
    ensures call.result <==> ProfileUpdateSucceeded(outcome)
  {
    var list := iceBreakers;
    if |list| > MaxIceBreakers {
      list := list[..MaxIceBreakers];
    }
    var url := GraphUrl(c, "messenger_profile", "");
    call := Call(Request(Post, url, Some(IceBreakersPayload(list))), ProfileUpdateSucceeded(outcome));
  }

  /** The body of `GetAsync`: a list of `{ "ice_breakers": [...] }` entries. */
  type IceBreakersDataResponse = DataResponse<Option<seq<IceBreaker>>>

  /** `GetAsync`: the ice breakers of the first data entry, empty on any failure. */
  function GetIceBreakers(c: Credentials, outcome: Response<IceBreakersDataResponse>): (call: Call<seq<IceBreaker>>)
    ensures call.request == Request(Get, GraphUrl(c, "messenger_profile", "fields=ice_breakers&"), None)
    ensures call.result == FirstListOrEmpty(outcome)
    ensures !Delivered(outcome) ==> call.result == []
  {
    Call(Request(Get, GraphUrl(c, "messenger_profile", "fields=ice_breakers&"), None), FirstListOrEmpty(outcome))
  }

  /** `DeleteAsync`: `DELETE` with `{ "fields": ["ice_breakers"] }`, and the
      same success rule as `SetAsync`. */
  function DeleteIceBreakers(c: Credentials, outcome: Response<ResultResponse>): (call: Call<bool>)
    ensures call.request.verb == Delete && call.request.url == GraphUrl(c, "messenger_profile", "")
    ensures call.request.body == Some(JObject(map["fields" := JArray([JString("ice_breakers")])]))
    ensures call.result <==> ProfileUpdateSucceeded(outcome)
  {
    Call(Request(Delete, GraphUrl(c, "messenger_profile", ""),
                 Some(JObject(map["fields" := JArray([JString("ice_breakers")])]))),
         ProfileUpdateSucceeded(outcome))
  }

  /** The reference inverse of `IceBreakerJson`, written for the round-trip lemma. */
  function DecodeIceBreaker(j: Json): Option<IceBreaker>
  {
    if j.JObject? then Some(IceBreaker(StringMemberOrEmpty(j, "question"), StringMemberOrEmpty(j, "payload")))
    else None
  }

  /** The posted list reads back exactly, in order: nothing is lost but the
      entries past the fourth. */
  lemma IceBreakersRoundTrip(ibs: seq<IceBreaker>)
    ensures var p := IceBreakersPayload(ibs);
      DecodeEach(p.fields["ice_breakers"].items, DecodeIceBreaker) == Some(ibs)
  {
    forall i | 0 <= i < |ibs| ensures DecodeIceBreaker(IceBreakerJson(ibs[i])) == Some(ibs[i]) {
    }
    DecodeEachInverts(ibs, IceBreakerJson, DecodeIceBreaker, (ib: IceBreaker) => ib);
    assert MapSeq(ibs, (ib: IceBreaker) => ib) == ibs;
  }
}
