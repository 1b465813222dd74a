/** `Messaging/FacebookMessagingService.cs`: the Send API envelopes, and how
    the outcome of a send becomes an exception. */
module Messaging {
  import opened Wrappers
  import opened Json
  import opened Http
  import opened Messages

  /** `{ "id": recipientId }`. */
  function RecipientById(recipientId: string): Json
  {
    JObject(map["id" := JString(recipientId)])
  }

  /** The plain envelope: the recipient and the message, and nothing else. */
  function MessageEnvelope(recipientId: string, m: Message): (r: Json)
    ensures Keys(r) == {"recipient", "message"}
    ensures r.fields["recipient"] == RecipientById(recipientId)
    ensures r.fields["message"] == ToJson(m)
    ensures "messaging_type" !in r.fields && "tag" !in r.fields
  {
    JObject(map["recipient" := RecipientById(recipientId), "message" := ToJson(m)])
  }

  /** The tagged envelope: the plain envelope plus `messaging_type`
      `MESSAGE_TAG` and the tag string as given. */
  function TaggedEnvelope(recipientId: string, m: Message, tag: string): (r: Json)
    ensures Keys(r) == {"recipient", "message", "messaging_type", "tag"}
    ensures r.fields["messaging_type"] == JString("MESSAGE_TAG")
    ensures r.fields["tag"] == JString(tag)
    ensures r.fields - {"messaging_type", "tag"} == MessageEnvelope(recipientId, m).fields
  {
    JObject(map["recipient" := RecipientById(recipientId), "message" := ToJson(m),
                "messaging_type" := JString("MESSAGE_TAG"), "tag" := JString(tag)])
  }

  /** The three sender actions `SendTypingOnAsync`, `SendTypingOffAsync` and
      `SendMarkSeenAsync` pass on. */
  datatype SenderAction = TypingOn | TypingOff | MarkSeen

  function ActionName(a: SenderAction): (s: string)
    ensures s == "typing_on" <==> a == TypingOn
    ensures s == "typing_off" <==> a == TypingOff
    ensures s == "mark_seen" <==> a == MarkSeen
  {
    match a
    case TypingOn => "typing_on"
    case TypingOff => "typing_off"
    case MarkSeen => "mark_seen"
  }

  /** The sender-action envelope: the recipient and the action, never a message. */
  function SenderActionEnvelope(recipientId: string, a: SenderAction): (r: Json)
    ensures Keys(r) == {"recipient", "sender_action"}
    ensures r.fields["recipient"] == RecipientById(recipientId)
    ensures r.fields["sender_action"] == JString(ActionName(a))
    ensures "message" !in r.fields
  {
    JObject(map["recipient" := RecipientById(recipientId), "sender_action" := JString(ActionName(a))])
  }

  /** `SendToGraphApiAsync`: what the send throws, `None` when it completes.
      Anything the transport throws (an `HttpRequestException` is caught,
      logged and rethrown) propagates unchanged; an error status becomes a
      `FacebookApiException` with the status and the raw body. */
  function SendToGraphApi<B>(outcome: Response<B>): (thrown: Option<Exception>)
    ensures outcome.Threw? ==> thrown == Some(outcome.exception)
    ensures outcome.Responded? && !IsSuccessStatusCode(outcome.status) ==>
              thrown == Some(FacebookApiException(outcome.status, outcome.content))
    ensures thrown.None? <==> outcome.Responded? && IsSuccessStatusCode(outcome.status)
  {
    match outcome
    case Threw(e) => Some(e)
    case Responded(status, content, _) =>
      if IsSuccessStatusCode(status) then None else Some(FacebookApiException(status, content))
  }

  const ApiErrorPrefix: string := "Facebook API Error: "

  /** `FacebookApiException.Message`: `Facebook API Error: {status} - {body}`. */
  function ApiErrorMessage(status: HttpStatus, errorResponse: string): (msg: string)
    ensures |msg| == |ApiErrorPrefix| + |status.name| + 3 + |errorResponse|
    ensures msg[..|ApiErrorPrefix|] == ApiErrorPrefix
    ensures msg[|ApiErrorPrefix| + |status.name|..|ApiErrorPrefix| + |status.name| + 3] == " - "
    ensures msg[|msg| - |errorResponse|..] == errorResponse
  {
    ApiErrorPrefix + status.name + " - " + errorResponse
  }

  /** The message keeps the whole error body: for one status, different bodies
      give different messages. */
  lemma ApiErrorMessageKeepsBody(status: HttpStatus, a: string, b: string)
    ensures ApiErrorMessage(status, a) == ApiErrorMessage(status, b) <==> a == b
  {
    if ApiErrorMessage(status, a) == ApiErrorMessage(status, b) {
      var m := ApiErrorMessage(status, a);
      assert a == m[|m| - |a|..];
      assert b == m[|m| - |b|..];
    }
  }

  /** `SendAsync(IFacebookMessage, recipientId)`. */
  function Send<B>(c: Credentials, m: Message, recipientId: string, outcome: Response<B>)
    : (call: Call<Option<Exception>>)
    ensures call.request == Request(Post, GraphUrl(c, "messages", ""), Some(MessageEnvelope(recipientId, m)))
    ensures call.result == SendToGraphApi(outcome)
  {
    Call(Request(Post, GraphUrl(c, "messages", ""), Some(MessageEnvelope(recipientId, m))),
         SendToGraphApi(outcome))
  }

  /** `SendAsync(string, recipientId)`: the text travels as a `TextMessage`. */
  function SendText<B>(c: Credentials, text: string, recipientId: string, outcome: Response<B>)
    : (call: Call<Option<Exception>>)
    ensures call == Send(c, TextMessage(text), recipientId, outcome)
    ensures call.request.body.value.fields["message"] == JObject(map["text" := JString(text)])
  {
    Send(c, TextMessage(text), recipientId, outcome)
  }

  /** `SendWithTagAsync(IFacebookMessage, recipientId, string)`. */
  function SendWithTag<B>(c: Credentials, m: Message, recipientId: string, tag: string, outcome: Response<B>)
    : (call: Call<Option<Exception>>)
    ensures call.request == Request(Post, GraphUrl(c, "messages", ""), Some(TaggedEnvelope(recipientId, m, tag)))
    ensures call.result == SendToGraphApi(outcome)
  {
    Call(Request(Post, GraphUrl(c, "messages", ""), Some(TaggedEnvelope(recipientId, m, tag))),
         SendToGraphApi(outcome))
  }

  /** `SendSenderActionAsync`, behind the typing and mark-seen sends. */
  function SendSenderAction<B>(c: Credentials, recipientId: string, a: SenderAction, outcome: Response<B>)
    : (call: Call<Option<Exception>>)
    ensures call.request == Request(Post, GraphUrl(c, "messages", ""), Some(SenderActionEnvelope(recipientId, a)))
    ensures call.result == SendToGraphApi(outcome)
  {
    Call(Request(Post, GraphUrl(c, "messages", ""), Some(SenderActionEnvelope(recipientId, a))),
         SendToGraphApi(outcome))
  }

  /** The message of a send reads back as what was sent, up to null-versus-empty,
      tagged or not. */
  lemma EnvelopesCarryMessage(recipientId: string, m: Message, tag: string)
    ensures DecodeMessage(MessageEnvelope(recipientId, m).fields["message"]) == Some(Normalize(m))
    ensures DecodeMessage(TaggedEnvelope(recipientId, m, tag).fields["message"]) == Some(Normalize(m))
  {
    MessageRoundTrip(m);
  }
}
