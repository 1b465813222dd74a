/** `Templates/ButtonTemplate.cs`: the three button kinds and the button template. */
module Buttons {
  import opened Wrappers
  import opened Text
  import opened Json

  /** `IFacebookButton`, a closed family of three records. */
  datatype Button =
    | UrlButton(title: string, url: string, webviewHeightRatio: Option<string>)
    | PostbackButton(title: string, payload: string)
    | CallButton(title: string, phoneNumber: string)

  /** `IFacebookButton.ToJson`. Every button names its `type` and `title`; a URL
      button adds `url` and, only when it is set and non-empty, its
      `webview_height_ratio`; the other two carry a `payload`. */
  function ButtonJson(b: Button): (r: Json)
    ensures r.JObject? && "type" in r.fields && "title" in r.fields
    ensures r.fields["title"] == JString(b.title)
    ensures b.UrlButton? ==>
      && r.fields["type"] == JString("web_url")
      && Keys(r) == {"type", "title", "url"} + (if IsNullOrEmpty(b.webviewHeightRatio) then {} else {"webview_height_ratio"})
      && r.fields["url"] == JString(b.url)
    ensures b.UrlButton? && !IsNullOrEmpty(b.webviewHeightRatio) ==>
      r.fields["webview_height_ratio"] == JString(b.webviewHeightRatio.value)
    ensures b.PostbackButton? ==>
      && r.fields["type"] == JString("postback")
      && Keys(r) == {"type", "title", "payload"}
      && r.fields["payload"] == JString(b.payload)
    ensures b.CallButton? ==>
      && r.fields["type"] == JString("phone_number")
      && Keys(r) == {"type", "title", "payload"}
      && r.fields["payload"] == JString(b.phoneNumber)
  {
    match b
    case UrlButton(title, url, ratio) =>
      var fields := map["type" := JString("web_url"), "title" := JString(title), "url" := JString(url)];
      JObject(if IsNullOrEmpty(ratio) then fields else fields["webview_height_ratio" := JString(ratio.value)])
    case PostbackButton(title, payload) =>
      JObject(map["type" := JString("postback"), "title" := JString(title), "payload" := JString(payload)])
    case CallButton(title, phoneNumber) =>
      JObject(map["type" := JString("phone_number"), "title" := JString(title), "payload" := JString(phoneNumber)])
  }

  /** `UrlButton.ToJson`, which fills a dictionary and then inserts the ratio
      only when there is one. */
  method UrlButtonToJson(title: string, url: string, webviewHeightRatio: Option<string>) returns (r: Json)
    ensures r == ButtonJson(UrlButton(title, url, webviewHeightRatio))
  {
    var obj := map["type" := JString("web_url"), "title" := JString(title), "url" := JString(url)];
    if !IsNullOrEmpty(webviewHeightRatio) {
      obj := obj["webview_height_ratio" := JString(webviewHeightRatio.value)];
    }
    r := JObject(obj);
  }

  /** `ButtonTemplate.ToJson`: a "template" attachment of `template_type`
      "button" whose `buttons` are the buttons' JSON, in the same order. */
  function ButtonTemplateJson(text: string, buttons: seq<Button>): (r: Json)
    ensures Keys(r) == {"attachment"}
    ensures var a := r.fields["attachment"];
      && Keys(a) == {"type", "payload"} && a.fields["type"] == JString("template")
      && var p := a.fields["payload"];
      && Keys(p) == {"template_type", "text", "buttons"}
      && p.fields["template_type"] == JString("button")
      && p.fields["text"] == JString(text)
      && p.fields["buttons"].JArray?
      && |p.fields["buttons"].items| == |buttons|
      && forall i :: 0 <= i < |buttons| ==> p.fields["buttons"].items[i] == ButtonJson(buttons[i])
  {
    JObject(map["attachment" := JObject(map[
      "type" := JString("template"),
      "payload" := JObject(map[
        "template_type" := JString("button"),
        "text" := JString(text),
        "buttons" := JArray(MapSeq(buttons, ButtonJson))])])])
  }

  /** What a button keeps through serialisation: an empty ratio is dropped. */
  function NormalizeButton(b: Button): Button
  {
    match b
    case UrlButton(title, url, ratio) => UrlButton(title, url, NullIfEmpty(ratio))
    case _ => b
  }

  /** Reads a button back from its JSON, dispatching on `type`. */
  function DecodeButton(j: Json): Option<Button>
  {
    match StringMember(j, "type")
    case Some("web_url") =>
      Some(UrlButton(StringMemberOrEmpty(j, "title"), StringMemberOrEmpty(j, "url"), StringMember(j, "webview_height_ratio")))
    case Some("postback") =>
      Some(PostbackButton(StringMemberOrEmpty(j, "title"), StringMemberOrEmpty(j, "payload")))
    case Some("phone_number") =>
      Some(CallButton(StringMemberOrEmpty(j, "title"), StringMemberOrEmpty(j, "payload")))
    case _ => None
  }

  /** Button serialisation loses nothing but the difference between an absent
      and an empty ratio; in particular the three kinds never collide. */
  lemma ButtonRoundTrip(b: Button)
    ensures DecodeButton(ButtonJson(b)) == Some(NormalizeButton(b))
  {
  }

  /** The button lists of a template read back in order. */
  lemma ButtonsRoundTrip(bs: seq<Button>)
    ensures DecodeEach(MapSeq(bs, ButtonJson), DecodeButton) == Some(MapSeq(bs, NormalizeButton))
  {
    forall i | 0 <= i < |bs| ensures DecodeButton(ButtonJson(bs[i])) == Some(NormalizeButton(bs[i])) {
      ButtonRoundTrip(bs[i]);
    }
    DecodeEachInverts(bs, ButtonJson, DecodeButton, NormalizeButton);
  }
}
