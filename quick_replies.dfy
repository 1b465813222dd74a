/** `Templates/QuickReplies.cs`: quick-reply buttons. The `QuickReplies`
    message that carries them is part of the message union in `Messages`. */
module QuickReplies {
  import opened Wrappers
  import opened Text
  import opened Json

  /** `QuickReply`; `ContentType` is initialised to "text" and the rest to null. */
  datatype QuickReply = QuickReply(
    contentType: string,
    title: Option<string>,
    payload: Option<string>,
    imageUrl: Option<string>)

  /** `new QuickReply()`. */
  const NewQuickReply: QuickReply := QuickReply("text", None, None, None)

  /** `QuickReply.Text(title, payload, imageUrl = null)`. */
  function TextQuickReply(title: string, payload: string, imageUrl: Option<string> := None): (r: QuickReply)
    ensures r.contentType == "text" && r.title == Some(title) && r.payload == Some(payload)
    ensures r.imageUrl == imageUrl
  {
    NewQuickReply.(title := Some(title), payload := Some(payload), imageUrl := imageUrl)
  }

  /** `QuickReply.UserPhoneNumber`. */
  const UserPhoneNumber: QuickReply := NewQuickReply.(contentType := "user_phone_number")

  /** `QuickReply.UserEmail`. */
  const UserEmail: QuickReply := NewQuickReply.(contentType := "user_email")

  /** `QuickReply.ToJson`: `content_type` always; `title`, `payload` and
      `image_url` each only when non-null and non-empty; nothing else. */
  function QuickReplyJson(q: QuickReply): (r: Json)
    ensures r.JObject? && "content_type" in r.fields && r.fields["content_type"] == JString(q.contentType)
    ensures Keys(r) <= {"content_type", "title", "payload", "image_url"}
    ensures "title" in r.fields <==> !IsNullOrEmpty(q.title)
    ensures "title" in r.fields ==> r.fields["title"] == JString(q.title.value)
    ensures "payload" in r.fields <==> !IsNullOrEmpty(q.payload)
    ensures "payload" in r.fields ==> r.fields["payload"] == JString(q.payload.value)
    ensures "image_url" in r.fields <==> !IsNullOrEmpty(q.imageUrl)
    ensures "image_url" in r.fields ==> r.fields["image_url"] == JString(q.imageUrl.value)
  {
    var f0 := map["content_type" := JString(q.contentType)];
    var f1 := if IsNullOrEmpty(q.title) then f0 else f0["title" := JString(q.title.value)];
    var f2 := if IsNullOrEmpty(q.payload) then f1 else f1["payload" := JString(q.payload.value)];
    var f3 := if IsNullOrEmpty(q.imageUrl) then f2 else f2["image_url" := JString(q.imageUrl.value)];
    JObject(f3)
  }

  /** `QuickReply.ToJson` as written: a dictionary extended by three guards. */
  method QuickReplyToJson(q: QuickReply) returns (r: Json)
    ensures r == QuickReplyJson(q)
  {
    var obj := map["content_type" := JString(q.contentType)];
    if !IsNullOrEmpty(q.title) {
      obj := obj["title" := JString(q.title.value)];
    }
    if !IsNullOrEmpty(q.payload) {
      obj := obj["payload" := JString(q.payload.value)];
    }
    if !IsNullOrEmpty(q.imageUrl) {
      obj := obj["image_url" := JString(q.imageUrl.value)];
    }
    r := JObject(obj);
  }

  /** The phone-number and e-mail replies serialise to their content type alone. */
  lemma UserDataRepliesCarryOnlyContentType()
    ensures QuickReplyJson(UserPhoneNumber) == JObject(map["content_type" := JString("user_phone_number")])
    ensures QuickReplyJson(UserEmail) == JObject(map["content_type" := JString("user_email")])
  {
  }

  /** What a quick reply keeps through serialisation. */
  function NormalizeQuickReply(q: QuickReply): QuickReply
  {
    QuickReply(q.contentType, NullIfEmpty(q.title), NullIfEmpty(q.payload), NullIfEmpty(q.imageUrl))
  }

  /** Reads a quick reply back from its JSON. */
  function DecodeQuickReply(j: Json): Option<QuickReply>
  {
    match StringMember(j, "content_type")
    case None => None
    case Some(ct) =>
      Some(QuickReply(ct, StringMember(j, "title"), StringMember(j, "payload"), StringMember(j, "image_url")))
  }

  /** Quick-reply serialisation loses nothing but null-versus-empty distinctions. */
  lemma QuickReplyRoundTrip(q: QuickReply)
    ensures DecodeQuickReply(QuickReplyJson(q)) == Some(NormalizeQuickReply(q))
  {
  }

  /** A list of quick replies reads back in order. */
  lemma QuickRepliesRoundTrip(qs: seq<QuickReply>)
    ensures DecodeEach(MapSeq(qs, QuickReplyJson), DecodeQuickReply) == Some(MapSeq(qs, NormalizeQuickReply))
  {
    forall i | 0 <= i < |qs| ensures DecodeQuickReply(QuickReplyJson(qs[i])) == Some(NormalizeQuickReply(qs[i])) {
      QuickReplyRoundTrip(qs[i]);
    }
    DecodeEachInverts(qs, QuickReplyJson, DecodeQuickReply, NormalizeQuickReply);
  }
}
