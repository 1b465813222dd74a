/** The closed family of outgoing messages (`Messages/IFacebookMessage.cs`
    and the three templates under `Templates/`) and their `ToJson`. */
module Messages {
  import opened Wrappers
  import opened Json
  import opened Buttons
  import opened GenericTemplates
  import opened QuickReplies

  /** Every implementation of `IFacebookMessage` in the library. */
  datatype Message =
    | TextMessage(text: string)
    | ImageMessage(url: string)
    | VideoMessage(url: string)
    | AudioMessage(url: string)
    | FileMessage(url: string)
    | ButtonTemplate(text: string, buttons: seq<Button>)
    | GenericTemplate(elements: seq<GenericElement>)
    | QuickRepliesMessage(message: Message, replies: seq<QuickReply>)

  /** The four URL attachments. */
  predicate IsAttachment(m: Message)
  {
    m.ImageMessage? || m.VideoMessage? || m.AudioMessage? || m.FileMessage?
  }

  /** The attachment `type` each URL attachment emits. */
  function AttachmentType(m: Message): string
    requires IsAttachment(m)
  {
    match m
    case ImageMessage(_) => "image"
    case VideoMessage(_) => "video"
    case AudioMessage(_) => "audio"
    case FileMessage(_) => "file"
  }

  /** `new QuickReplies(text, replies)`: the text becomes a `TextMessage`. */
  function QuickRepliesWithText(text: string, replies: seq<QuickReply>): (m: Message)
    ensures m.QuickRepliesMessage? && m.message == TextMessage(text) && m.replies == replies
  {
    QuickRepliesMessage(TextMessage(text), replies)
  }

  /** `{attachment: {type, payload: {url, is_reusable: true}}}`. */
  function AttachmentJson(kind: string, url: string): Json
  {
    JObject(map["attachment" := JObject(map[
      "type" := JString(kind),
      "payload" := JObject(map["url" := JString(url), "is_reusable" := JBool(true)])])])
  }

  /** `IFacebookMessage.ToJson` for every message. */
  function ToJson(m: Message): (r: Json)
    ensures r.JObject?
    ensures m.TextMessage? ==> Keys(r) == {"text"} && r.fields["text"] == JString(m.text)
    ensures IsAttachment(m) ==>
      && Keys(r) == {"attachment"}
      && var a := r.fields["attachment"];
      && Keys(a) == {"type", "payload"} && a.fields["type"] == JString(AttachmentType(m))
      && var p := a.fields["payload"];
      && Keys(p) == {"url", "is_reusable"}
      && p.fields["url"] == JString(m.url) && p.fields["is_reusable"] == JBool(true)
    ensures m.ButtonTemplate? ==> r == ButtonTemplateJson(m.text, m.buttons)
    ensures m.GenericTemplate? ==> r == GenericTemplateJson(m.elements)
    ensures m.QuickRepliesMessage? ==>
      && Keys(r) == {"message", "quick_replies"}
      && r.fields["message"] == ToJson(m.message)
      && r.fields["quick_replies"] == JArray(MapSeq(m.replies, QuickReplyJson))
  {
    match m
    case TextMessage(text) => JObject(map["text" := JString(text)])
    case ImageMessage(url) => AttachmentJson("image", url)
    case VideoMessage(url) => AttachmentJson("video", url)
    case AudioMessage(url) => AttachmentJson("audio", url)
    case FileMessage(url) => AttachmentJson("file", url)
    case ButtonTemplate(text, buttons) => ButtonTemplateJson(text, buttons)
    case GenericTemplate(elements) => GenericTemplateJson(elements)
    case QuickRepliesMessage(message, replies) =>
      JObject(map[
        "message" := ToJson(message),
        "quick_replies" := JArray(MapSeq(replies, QuickReplyJson))])
  }

  /** The four attachment kinds never serialise alike, whatever their URLs. */
  lemma AttachmentKindsNeverCollide(a: Message, b: Message)
    requires IsAttachment(a) && IsAttachment(b)
    ensures ToJson(a) == ToJson(b) <==> a == b
  {
    if ToJson(a) == ToJson(b) {
      assert JString(AttachmentType(a)) == JString(AttachmentType(b));
      assert JString(a.url) == JString(b.url);
    }
  }

  /** What a message keeps through serialisation: buttons, elements and
      quick replies read back with empty strings as null. */
  function Normalize(m: Message): Message
  {
    match m
    case ButtonTemplate(text, buttons) => ButtonTemplate(text, MapSeq(buttons, NormalizeButton))
    case GenericTemplate(elements) => GenericTemplate(MapSeq(elements, NormalizeElement))
    case QuickRepliesMessage(message, replies) =>
      QuickRepliesMessage(Normalize(message), MapSeq(replies, NormalizeQuickReply))
    case _ => m
  }

  /** Reads an attachment back from its `attachment` object. */
  function DecodeAttachment(a: Json): Option<Message>
  {
    var kind := StringMember(a, "type");
    var p := if "payload" in Keys(a) then a.fields["payload"] else JObject(map[]);
    var url := StringMember(p, "url");
    if kind == Some("template") then DecodeTemplate(p)
    else if url.None? then None
    else if kind == Some("image") then Some(ImageMessage(url.value))
    else if kind == Some("video") then Some(VideoMessage(url.value))
    else if kind == Some("audio") then Some(AudioMessage(url.value))
    else if kind == Some("file") then Some(FileMessage(url.value))
    else None
  }

  /** Reads a button or generic template back from its `payload` object. */
  function DecodeTemplate(p: Json): Option<Message>
  {
    var templateType := StringMember(p, "template_type");
    if templateType == Some("button") && "buttons" in Keys(p) && p.fields["buttons"].JArray? then
      var bs := DecodeEach(p.fields["buttons"].items, DecodeButton);
      if bs.Some? then Some(ButtonTemplate(StringMemberOrEmpty(p, "text"), bs.value)) else None
    else if templateType == Some("generic") && "elements" in Keys(p) && p.fields["elements"].JArray? then
      var es := DecodeEach(p.fields["elements"].items, DecodeElement);
      if es.Some? then Some(GenericTemplate(es.value)) else None
    else None
  }

  /** Reads a message back from its JSON: the inverse of `ToJson` up to `Normalize`. */
  function DecodeMessage(j: Json): Option<Message>
  {
    if !j.JObject? then None
    else if "quick_replies" in j.fields then
      var replies := if j.fields["quick_replies"].JArray?
                     then DecodeEach(j.fields["quick_replies"].items, DecodeQuickReply) else None;
      var inner := if "message" in j.fields then DecodeMessage(j.fields["message"]) else None;
      if replies.Some? && inner.Some? then Some(QuickRepliesMessage(inner.value, replies.value)) else None
    else if "text" in j.fields && j.fields["text"].JString? then Some(TextMessage(j.fields["text"].str))
    else if "attachment" in j.fields then DecodeAttachment(j.fields["attachment"])
    else None
  }

  /** Every message reads back from its JSON, up to null-versus-empty. */
  lemma {:induction false} MessageRoundTrip(m: Message)
    ensures DecodeMessage(ToJson(m)) == Some(Normalize(m))
  {
    match m
    case ButtonTemplate(text, buttons) =>
      ButtonsRoundTrip(buttons);
    case GenericTemplate(elements) =>
      ElementsRoundTrip(elements);
    case QuickRepliesMessage(message, replies) =>
      MessageRoundTrip(message);
      QuickRepliesRoundTrip(replies);
    case _ =>
  }

  /** Two messages with the same JSON differ at most in null-versus-empty. */
  lemma SameJsonSameMessage(a: Message, b: Message)
    requires ToJson(a) == ToJson(b)
    ensures Normalize(a) == Normalize(b)
  {
    MessageRoundTrip(a);
    MessageRoundTrip(b);
  }
}
