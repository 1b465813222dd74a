/** `Handover/FacebookHandoverService.cs`: the handover protocol, which moves
    control of a conversation between the bot and other apps such as the
    Page Inbox. */
module Handover {
  import opened Wrappers
  import opened Text
  import opened Json
  import opened Http

  /** A 32-bit value of `HandoverTarget` that names none of its members. */
  type UndefinedTargetValue = x: int | -0x8000_0000 <= x < 0x8000_0000 && !(0 <= x < 2) witness -1

  /** `HandoverTarget`: PageInbox, PrimaryReceiver, or any other `int` a cast can produce. */
  datatype HandoverTarget = PageInbox | PrimaryReceiver | UndefinedTarget(raw: UndefinedTargetValue)

  /** `HandoverAppIds.PageInbox`. */
  const PageInboxAppId: string := "263902037430900"

  const ReturnToPrimaryMessage: string := "Use TakeThreadControlAsync to return to primary receiver"

  /** The target switch of `PassThreadControlAsync(recipientId, HandoverTarget, ...)`:
      only the Page Inbox has an app id; the primary receiver is refused with
      `ArgumentException`, an undefined value with `ArgumentOutOfRangeException`. */
  function TargetAppId(target: HandoverTarget): (r: Result<string, Exception>)
    ensures r.Success? <==> target == PageInbox
    ensures r.Success? ==> r.value == PageInboxAppId
    ensures target == PrimaryReceiver ==> r == Failure(ArgumentException(ReturnToPrimaryMessage))
    ensures target.UndefinedTarget? ==> r == Failure(ArgumentOutOfRangeException("target"))
  {
    match target
    case PageInbox => Success(PageInboxAppId)
    case PrimaryReceiver => Failure(ArgumentException(ReturnToPrimaryMessage))
    case UndefinedTarget(_) => Failure(ArgumentOutOfRangeException("target"))
  }

  /** The body of the three control requests: `recipient.id` always,
      `target_app_id` only when passing control, `metadata` only when non-empty. */
  function ControlPayload(recipientId: string, targetAppId: Option<string>, metadata: Option<string>): (r: Json)
    ensures r.JObject? && "recipient" in r.fields
    ensures r.fields["recipient"] == JObject(map["id" := JString(recipientId)])
    ensures Keys(r) <= {"recipient", "target_app_id", "metadata"}
    ensures "target_app_id" in r.fields <==> targetAppId.Some?
    ensures "target_app_id" in r.fields ==> r.fields["target_app_id"] == JString(targetAppId.value)
    ensures "metadata" in r.fields <==> !IsNullOrEmpty(metadata)
    ensures "metadata" in r.fields ==> r.fields["metadata"] == JString(metadata.value)
  {
    var recipient := map["recipient" := JObject(map["id" := JString(recipientId)])];
    var withTarget := if targetAppId.Some? then recipient["target_app_id" := JString(targetAppId.value)] else recipient;
    JObject(if IsNullOrEmpty(metadata) then withTarget else withTarget["metadata" := JString(metadata.value)])
  }

  /** The body `SuccessResponse` of the control endpoints. */
  datatype SuccessResponse = SuccessResponse(success: bool)

  /** `result?.Success ?? false` after a success status, `false` otherwise. */
  function ControlSucceeded(outcome: Response<SuccessResponse>): (ok: bool)
    ensures ok <==> Delivered(outcome) && outcome.parsed.value.success
    ensures ok ==> outcome.Responded? && IsSuccessStatusCode(outcome.status)
  {
    match outcome
    case Threw(_) => false
    case Responded(status, _, parsed) =>
      IsSuccessStatusCode(status) && parsed.Some? && parsed.value.success
  }

  /** `PassThreadControlAsync(recipientId, targetAppId, metadata)`: the
      dictionary starts with `recipient` and `target_app_id`, then takes
      `metadata` if it is non-empty. */
  method PassThreadControlToApp(c: Credentials, recipientId: string, targetAppId: string,
                                metadata: Option<string>, outcome: Response<SuccessResponse>)
    returns (call: Call<bool>)
    ensures call.request == Request(Post, GraphUrl(c, "pass_thread_control", ""),
                                    Some(ControlPayload(recipientId, Some(targetAppId), metadata)))
    ensures call.result <==> ControlSucceeded(outcome)
  {
    var payload := map["recipient" := JObject(map["id" := JString(recipientId)]),
                       "target_app_id" := JString(targetAppId)];
    if !IsNullOrEmpty(metadata) {
      payload := payload["metadata" := JString(metadata.value)];
    }
    call := Call(Request(Post, GraphUrl(c, "pass_thread_control", ""), Some(JObject(payload))),
                 ControlSucceeded(outcome));
  }

  /** `PassThreadControlAsync(recipientId, HandoverTarget, metadata)`: the
      target switch throws before any request is made; the Page Inbox is
      addressed by its well-known app id. */
  method PassThreadControl(c: Credentials, recipientId: string, target: HandoverTarget,
                           metadata: Option<string>, outcome: Response<SuccessResponse>)
    returns (r: Result<Call<bool>, Exception>)
    ensures r.Failure? <==> target != PageInbox
    ensures r.Failure? ==> r.error == TargetAppId(target).error
    ensures r.Success? ==>
      && r.value.request.body == Some(ControlPayload(recipientId, Some(PageInboxAppId), metadata))
      && r.value.request.body.value.fields["target_app_id"] == JString("263902037430900")
      && (r.value.result <==> ControlSucceeded(outcome))
  {
    var appId := TargetAppId(target);
    if appId.Failure? {
      return Failure(appId.error);
    }
    var call := PassThreadControlToApp(c, recipientId, appId.value, metadata, outcome);
    r := Success(call);
  }

  /** `TakeThreadControlAsync`: `recipient` and optional `metadata`, never a
      `target_app_id`. */
  method TakeThreadControl(c: Credentials, recipientId: string, metadata: Option<string>,
                           outcome: Response<SuccessResponse>)
    returns (call: Call<bool>)
    ensures call.request == Request(Post, GraphUrl(c, "take_thread_control", ""),
                                    Some(ControlPayload(recipientId, None, metadata)))
    ensures "target_app_id" !in call.request.body.value.fields
    ensures call.result <==> ControlSucceeded(outcome)
  {
    var payload := map["recipient" := JObject(map["id" := JString(recipientId)])];
    if !IsNullOrEmpty(metadata) {
      payload := payload["metadata" := JString(metadata.value)];
    }
    call := Call(Request(Post, GraphUrl(c, "take_thread_control", ""), Some(JObject(payload))),
                 ControlSucceeded(outcome));
  }

  /** `RequestThreadControlAsync`: the same body as taking control, sent to
      `request_thread_control`. */
  method RequestThreadControl(c: Credentials, recipientId: string, metadata: Option<string>,
                              outcome: Response<SuccessResponse>)
    returns (call: Call<bool>)
    ensures call.request == Request(Post, GraphUrl(c, "request_thread_control", ""),
                                    Some(ControlPayload(recipientId, None, metadata)))
    ensures "target_app_id" !in call.request.body.value.fields
    ensures call.result <==> ControlSucceeded(outcome)
  {
    var payload := map["recipient" := JObject(map["id" := JString(recipientId)])];
    if !IsNullOrEmpty(metadata) {
      payload := payload["metadata" := JString(metadata.value)];
    }
    call := Call(Request(Post, GraphUrl(c, "request_thread_control", ""), Some(JObject(payload))),
                 ControlSucceeded(outcome));
  }

  /** `ThreadOwnerInfo`. */
  datatype ThreadOwnerInfo = ThreadOwnerInfo(appId: Option<string>)

  /** `SecondaryReceiverInfo`. */
  datatype SecondaryReceiverInfo = SecondaryReceiverInfo(id: string, name: Option<string>)

  /** `GetThreadOwnerAsync`: the first data entry, `null` on any failure or an empty list. */
  function GetThreadOwner(c: Credentials, recipientId: string,
                          outcome: Response<DataResponse<Option<ThreadOwnerInfo>>>)
    : (call: Call<Option<ThreadOwnerInfo>>)
    ensures call.request == Request(Get, GraphUrl(c, "thread_owner", "recipient=" + recipientId + "&"), None)
    ensures call.result == FirstOrNone(outcome)
    ensures !Delivered(outcome) ==> call.result == None
  {
    Call(Request(Get, GraphUrl(c, "thread_owner", "recipient=" + recipientId + "&"), None), FirstOrNone(outcome))
  }

  /** `GetSecondaryReceiversAsync`: the whole data list, empty on any failure. */
  function GetSecondaryReceivers(c: Credentials, outcome: Response<DataResponse<SecondaryReceiverInfo>>)
    : (call: Call<seq<SecondaryReceiverInfo>>)
    ensures call.request == Request(Get, GraphUrl(c, "secondary_receivers", "fields=id,name&"), None)
    ensures call.result == DataOrEmpty(outcome)
    ensures !Delivered(outcome) ==> call.result == []
  {
    Call(Request(Get, GraphUrl(c, "secondary_receivers", "fields=id,name&"), None), DataOrEmpty(outcome))
  }
}
