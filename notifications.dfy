/** `Notifications/FacebookNotificationService.cs`: one-time notification
    requests, and the single message a granted token allows. */
module Notifications {
  import opened Wrappers
  import opened Json
  import opened Http
  import opened Messages

  /** The request that asks a user for permission: a `one_time_notif_req`
      template addressed by page-scoped id, carrying the title and payload
      unchanged. */
  function OneTimeRequestEnvelope(recipientId: string, title: string, payload: string): (r: Json)
    ensures Keys(r) == {"recipient", "message"}
    ensures r.fields["recipient"] == JObject(map["id" := JString(recipientId)])
    ensures var message := r.fields["message"];
            && Keys(message) == {"attachment"}
            && var attachment := message.fields["attachment"];
               && Keys(attachment) == {"type", "payload"}
               && attachment.fields["type"] == JString("template")
               && Keys(attachment.fields["payload"]) == {"template_type", "title", "payload"}
               && attachment.fields["payload"].fields["template_type"] == JString("one_time_notif_req")
               && attachment.fields["payload"].fields["title"] == JString(title)
               && attachment.fields["payload"].fields["payload"] == JString(payload)
  {
    var template := map["template_type" := JString("one_time_notif_req"),
                        "title" := JString(title),
                        "payload" := JString(payload)];
    var attachment := map["type" := JString("template"), "payload" := JObject(template)];
    JObject(map["recipient" := JObject(map["id" := JString(recipientId)]),
                "message" := JObject(map["attachment" := JObject(attachment)])])
  }

  /** The message sent with a granted token: the recipient is named by the
      token alone, never by an id. */
  function TokenEnvelope(token: string, m: Message): (r: Json)
    ensures Keys(r) == {"recipient", "message"}
    ensures r.fields["recipient"] == JObject(map["one_time_notif_token" := JString(token)])
    ensures "id" !in r.fields["recipient"].fields
    ensures r.fields["message"] == ToJson(m)
  {
    JObject(map["recipient" := JObject(map["one_time_notif_token" := JString(token)]),
                "message" := ToJson(m)])
  }

  /** The token envelope loses nothing of its message but null-versus-empty. */
  lemma TokenEnvelopeCarriesMessage(token: string, m: Message)
    ensures DecodeMessage(TokenEnvelope(token, m).fields["message"]) == Some(Normalize(m))
  {
    MessageRoundTrip(m);
  }

  /** `SendRequestAsync`: `true` exactly for a success status; an error status
      or anything thrown gives `false`. */
  function SendRequest<B>(c: Credentials, recipientId: string, title: string, payload: string,
                          outcome: Response<B>): (call: Call<bool>)
    ensures call.request == Request(Post, GraphUrl(c, "messages", ""),
                                    Some(OneTimeRequestEnvelope(recipientId, title, payload)))
    ensures call.result <==> outcome.Responded? && IsSuccessStatusCode(outcome.status)
  {
    Call(Request(Post, GraphUrl(c, "messages", ""), Some(OneTimeRequestEnvelope(recipientId, title, payload))),
         Posted(outcome))
  }

  /** `SendAsync(token, IFacebookMessage)`: `true` exactly for a success status. */
  function Send<B>(c: Credentials, token: string, m: Message, outcome: Response<B>): (call: Call<bool>)
    ensures call.request == Request(Post, GraphUrl(c, "messages", ""), Some(TokenEnvelope(token, m)))
    ensures call.result <==> outcome.Responded? && IsSuccessStatusCode(outcome.status)
  {
    Call(Request(Post, GraphUrl(c, "messages", ""), Some(TokenEnvelope(token, m))), Posted(outcome))
  }

  /** `SendAsync(token, string)`: the text travels as a `TextMessage`. */
  function SendText<B>(c: Credentials, token: string, text: string, outcome: Response<B>): (call: Call<bool>)
    ensures call == Send(c, token, TextMessage(text), outcome)
    ensures call.request.body.value.fields["message"] == JObject(map["text" := JString(text)])
  {
    Send(c, token, TextMessage(text), outcome)
  }
}
