/** `Templates/GenericTemplate.cs`: the carousel template and its elements. */
module GenericTemplates {
  import opened Wrappers
  import opened Text
  import opened Json
  import opened Buttons

  /** `GenericElement`; `Title` is initialised to "" and the rest to null. */
  datatype GenericElement = GenericElement(
    title: string,
    subtitle: Option<string>,
    imageUrl: Option<string>,
    defaultAction: Option<Button>,
    buttons: Option<seq<Button>>)

  /** `new GenericElement()`. */
  const NewElement: GenericElement := GenericElement("", None, None, None, None)

  /** `GenericElement.ToJson`: `title` always; `subtitle` and `image_url` only
      when non-null and non-empty; `default_action` only when set; `buttons`
      only when there is at least one; nothing else. */
  function ElementJson(e: GenericElement): (r: Json)
    ensures r.JObject? && "title" in r.fields && r.fields["title"] == JString(e.title)
    ensures Keys(r) <= {"title", "subtitle", "image_url", "default_action", "buttons"}
    ensures "subtitle" in r.fields <==> !IsNullOrEmpty(e.subtitle)
    ensures "subtitle" in r.fields ==> r.fields["subtitle"] == JString(e.subtitle.value)
    ensures "image_url" in r.fields <==> !IsNullOrEmpty(e.imageUrl)
    ensures "image_url" in r.fields ==> r.fields["image_url"] == JString(e.imageUrl.value)
    ensures "default_action" in r.fields <==> e.defaultAction.Some?
    ensures "default_action" in r.fields ==> r.fields["default_action"] == ButtonJson(e.defaultAction.value)
    ensures "buttons" in r.fields <==> e.buttons.Some? && |e.buttons.value| > 0
    ensures "buttons" in r.fields ==> r.fields["buttons"] == JArray(MapSeq(e.buttons.value, ButtonJson))
  {
    var f0 := map["title" := JString(e.title)];
    var f1 := if IsNullOrEmpty(e.subtitle) then f0 else f0["subtitle" := JString(e.subtitle.value)];
    var f2 := if IsNullOrEmpty(e.imageUrl) then f1 else f1["image_url" := JString(e.imageUrl.value)];
    var f3 := if e.defaultAction.None? then f2 else f2["default_action" := ButtonJson(e.defaultAction.value)];
    var f4 := if e.buttons.Some? && |e.buttons.value| > 0
              then f3["buttons" := JArray(MapSeq(e.buttons.value, ButtonJson))] else f3;
    JObject(f4)
  }

  /** `GenericElement.ToJson` as written: a dictionary that the four guards
      extend in turn. */
  method ElementToJson(e: GenericElement) returns (r: Json)
    ensures r == ElementJson(e)
  {
    var obj := map["title" := JString(e.title)];
    if !IsNullOrEmpty(e.subtitle) {
      obj := obj["subtitle" := JString(e.subtitle.value)];
    }
    if !IsNullOrEmpty(e.imageUrl) {
      obj := obj["image_url" := JString(e.imageUrl.value)];
    }
    if e.defaultAction.Some? {
      obj := obj["default_action" := ButtonJson(e.defaultAction.value)];
    }
    if e.buttons.Some? && |e.buttons.value| > 0 {
      obj := obj["buttons" := JArray(MapSeq(e.buttons.value, ButtonJson))];
    }
    r := JObject(obj);
  }

  /** `GenericTemplate.ToJson`: a "template" attachment of `template_type`
      "generic" whose `elements` are the elements' JSON, in the same order. */
  function GenericTemplateJson(elements: seq<GenericElement>): (r: Json)
    ensures Keys(r) == {"attachment"}
    ensures var a := r.fields["attachment"];
      && Keys(a) == {"type", "payload"} && a.fields["type"] == JString("template")
      && var p := a.fields["payload"];
      && Keys(p) == {"template_type", "elements"}
      && p.fields["template_type"] == JString("generic")
      && p.fields["elements"] == JArray(MapSeq(elements, ElementJson))
  {
    JObject(map["attachment" := JObject(map[
      "type" := JString("template"),
      "payload" := JObject(map[
        "template_type" := JString("generic"),
        "elements" := JArray(MapSeq(elements, ElementJson))])])])
  }

  /** What an element keeps through serialisation: empty strings and an empty
      button list read back as null, and buttons are normalised. */
  function NormalizeElement(e: GenericElement): GenericElement
  {
    GenericElement(
      e.title,
      NullIfEmpty(e.subtitle),
      NullIfEmpty(e.imageUrl),
      if e.defaultAction.Some? then Some(NormalizeButton(e.defaultAction.value)) else None,
      if e.buttons.Some? && |e.buttons.value| > 0 then Some(MapSeq(e.buttons.value, NormalizeButton)) else None)
  }

  /** Reads an element back from its JSON; a malformed button fails the element. */
  function DecodeElement(j: Json): Option<GenericElement>
  {
    if !j.JObject? then None
    else
      var action := if "default_action" in j.fields then DecodeButton(j.fields["default_action"]) else None;
      var buttons := if "buttons" in j.fields && j.fields["buttons"].JArray?
                     then DecodeEach(j.fields["buttons"].items, DecodeButton) else None;
      if "default_action" in j.fields && action.None? then None
      else if "buttons" in j.fields && buttons.None? then None
      else Some(GenericElement(
        StringMemberOrEmpty(j, "title"),
        StringMember(j, "subtitle"),
        StringMember(j, "image_url"),
        action,
        buttons))
  }

  /** Element serialisation loses nothing but null-versus-empty distinctions. */
  lemma ElementRoundTrip(e: GenericElement)
    ensures DecodeElement(ElementJson(e)) == Some(NormalizeElement(e))
  {
    if e.defaultAction.Some? {
      ButtonRoundTrip(e.defaultAction.value);
    }
    if e.buttons.Some? && |e.buttons.value| > 0 {
      ButtonsRoundTrip(e.buttons.value);
    }
  }

  /** The elements of a carousel read back in order. */
  lemma ElementsRoundTrip(es: seq<GenericElement>)
    ensures DecodeEach(MapSeq(es, ElementJson), DecodeElement) == Some(MapSeq(es, NormalizeElement))
  {
    forall i | 0 <= i < |es| ensures DecodeElement(ElementJson(es[i])) == Some(NormalizeElement(es[i])) {
      ElementRoundTrip(es[i]);
    }
    DecodeEachInverts(es, ElementJson, DecodeElement, NormalizeElement);
  }
}
