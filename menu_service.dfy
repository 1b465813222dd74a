/** `Menu/FacebookMenuService.cs`: the persistent menu on the messenger
    profile endpoint. */
module MenuService {
  import opened Wrappers
  import opened Text
  import opened Json
  import opened Http
  import opened Menu

  /** The nine member names of a menu item are pairwise distinct. */
  lemma MemberNamesDistinct()
    ensures "type" != "title"
    ensures "type" != "payload"
    ensures "type" != "url"
    ensures "type" != "webview_height_ratio"
    ensures "type" != "messenger_extensions"
    ensures "type" != "fallback_url"
    ensures "type" != "webview_share_button"
    ensures "type" != "call_to_actions"
    ensures "title" != "payload"
    ensures "title" != "url"
    ensures "title" != "webview_height_ratio"
    ensures "title" != "messenger_extensions"
    ensures "title" != "fallback_url"
    ensures "title" != "webview_share_button"
    ensures "title" != "call_to_actions"
    ensures "payload" != "url"
    ensures "payload" != "webview_height_ratio"
    ensures "payload" != "messenger_extensions"
    ensures "payload" != "fallback_url"
    ensures "payload" != "webview_share_button"
    ensures "payload" != "call_to_actions"
    ensures "url" != "webview_height_ratio"
    ensures "url" != "messenger_extensions"
    ensures "url" != "fallback_url"
    ensures "url" != "webview_share_button"
    ensures "url" != "call_to_actions"
    ensures "webview_height_ratio" != "messenger_extensions"
    ensures "webview_height_ratio" != "fallback_url"
    ensures "webview_height_ratio" != "webview_share_button"
    ensures "webview_height_ratio" != "call_to_actions"
    ensures "messenger_extensions" != "fallback_url"
    ensures "messenger_extensions" != "webview_share_button"
    ensures "messenger_extensions" != "call_to_actions"
    ensures "fallback_url" != "webview_share_button"
    ensures "fallback_url" != "call_to_actions"
    ensures "webview_share_button" != "call_to_actions"
  {
    assert "webview_height_ratio"[8] != "webview_share_button"[8];
    assert "webview_height_ratio"[0] != "messenger_extensions"[0];
    assert "webview_share_button"[0] != "messenger_extensions"[0];
  }

  const LinkKeys: set<string> := {"payload", "url", "webview_height_ratio"}
  const WebviewKeys: set<string> := {"messenger_extensions", "fallback_url", "webview_share_button"}

  /** The two members `ConvertMenuItem` always emits. */
  function RequiredMembers(item: MenuItem): (m: map<string, Json>)
    ensures m.Keys == {"type", "title"}
    ensures m["type"] == JString(item.itemType) && m["title"] == JString(item.title)
  {
    map["type" := JString(item.itemType), "title" := JString(item.title)]
  }

  /** The first three guarded inserts: `payload`, `url` and
      `webview_height_ratio`, each only when non-empty. */
  function InsertLinks(m: map<string, Json>, item: MenuItem): (r: map<string, Json>)
    requires m.Keys !! LinkKeys
    ensures forall k :: k !in LinkKeys ==> (k in r <==> k in m)
    ensures forall k :: k in m ==> r[k] == m[k]
    ensures "payload" in r <==> !IsNullOrEmpty(item.payload)
    ensures "payload" in r ==> r["payload"] == JString(item.payload.value)
    ensures "url" in r <==> !IsNullOrEmpty(item.url)
    ensures "url" in r ==> r["url"] == JString(item.url.value)
    ensures "webview_height_ratio" in r <==> !IsNullOrEmpty(item.webviewHeightRatio)
    ensures "webview_height_ratio" in r ==> r["webview_height_ratio"] == JString(item.webviewHeightRatio.value)
  {
    MemberNamesDistinct();
    var m1 := if IsNullOrEmpty(item.payload) then m else m["payload" := JString(item.payload.value)];
    var m2 := if IsNullOrEmpty(item.url) then m1 else m1["url" := JString(item.url.value)];
    if IsNullOrEmpty(item.webviewHeightRatio) then m2
    else m2["webview_height_ratio" := JString(item.webviewHeightRatio.value)]
  }

  /** The next three: `messenger_extensions` whenever it has a value, `false`
      included; `fallback_url` and `webview_share_button` only when non-empty. */
  function InsertWebview(m: map<string, Json>, item: MenuItem): (r: map<string, Json>)
    requires m.Keys !! WebviewKeys
    ensures forall k :: k !in WebviewKeys ==> (k in r <==> k in m)
    ensures forall k :: k in m ==> r[k] == m[k]
    ensures "messenger_extensions" in r <==> item.messengerExtensions.Some?
    ensures "messenger_extensions" in r ==> r["messenger_extensions"] == JBool(item.messengerExtensions.value)
    ensures "fallback_url" in r <==> !IsNullOrEmpty(item.fallbackUrl)
    ensures "fallback_url" in r ==> r["fallback_url"] == JString(item.fallbackUrl.value)
    ensures "webview_share_button" in r <==> !IsNullOrEmpty(item.webviewShareButton)
    ensures "webview_share_button" in r ==> r["webview_share_button"] == JString(item.webviewShareButton.value)
  {
    MemberNamesDistinct();
    var m1 := if item.messengerExtensions.None? then m
              else m["messenger_extensions" := JBool(item.messengerExtensions.value)];
    var m2 := if IsNullOrEmpty(item.fallbackUrl) then m1 else m1["fallback_url" := JString(item.fallbackUrl.value)];
    if IsNullOrEmpty(item.webviewShareButton) then m2
    else m2["webview_share_button" := JString(item.webviewShareButton.value)]
  }

  /** The last insert: `call_to_actions`, only for a non-empty list, converted
      recursively in order. */
  function InsertChildren(m: map<string, Json>, item: MenuItem): (r: map<string, Json>)
    requires "call_to_actions" !in m
    ensures forall k :: k != "call_to_actions" ==> (k in r <==> k in m)
    ensures forall k :: k in m ==> r[k] == m[k]
    ensures "call_to_actions" in r <==> item.callToActions.Items? && |item.callToActions.items| > 0
    ensures "call_to_actions" in r ==>
      && r["call_to_actions"].JArray?
      && |r["call_to_actions"].items| == |item.callToActions.items|
      && forall i :: 0 <= i < |item.callToActions.items| ==>
           r["call_to_actions"].items[i] == MenuItemJson(item.callToActions.items[i])
    decreases item, 1
  {
    if item.callToActions.Items? && |item.callToActions.items| > 0
    then m["call_to_actions" := JArray(MenuItemsJson(item.callToActions.items))]
    else m
  }

  /** `ConvertMenuItem`: the required members, then the guarded inserts in
      the order the source performs them. `MenuItemRequiredMembers`,
      `MenuItemLinkMembers`, `MenuItemWebviewMembers` and
      `MenuItemChildMembers` state every member it emits. */
  function MenuItemJson(item: MenuItem): (r: Json)
    ensures r.JObject?
    ensures "type" in r.fields && r.fields["type"] == JString(item.itemType)
    ensures "title" in r.fields && r.fields["title"] == JString(item.title)
    decreases item, 2
  {
    MemberNamesDistinct();
    JObject(InsertChildren(InsertWebview(InsertLinks(RequiredMembers(item), item), item), item))
  }

  /** `type` and `title` always carry the item's own values, and no key
      outside the nine the menu API knows is ever emitted. */
  lemma MenuItemRequiredMembers(item: MenuItem)
    ensures var r := MenuItemJson(item);
      && "type" in r.fields && r.fields["type"] == JString(item.itemType)
      && "title" in r.fields && r.fields["title"] == JString(item.title)
      && Keys(r) <= {"type", "title", "payload", "url", "webview_height_ratio",
                     "messenger_extensions", "fallback_url", "webview_share_button", "call_to_actions"}
  {
    MemberNamesDistinct();
  }

  /** `payload`, `url` and `webview_height_ratio` appear exactly when the
      property is non-empty, and hold it unchanged. */
  lemma MenuItemLinkMembers(item: MenuItem)
    ensures var r := MenuItemJson(item).fields;
      && ("payload" in r <==> !IsNullOrEmpty(item.payload))
      && ("payload" in r ==> r["payload"] == JString(item.payload.value))
      && ("url" in r <==> !IsNullOrEmpty(item.url))
      && ("url" in r ==> r["url"] == JString(item.url.value))
      && ("webview_height_ratio" in r <==> !IsNullOrEmpty(item.webviewHeightRatio))
      && ("webview_height_ratio" in r ==> r["webview_height_ratio"] == JString(item.webviewHeightRatio.value))
  {
    MemberNamesDistinct();
  }

  /** `messenger_extensions` appears whenever it has a value, `false`
      included; `fallback_url` and `webview_share_button` exactly when non-empty. */
  lemma MenuItemWebviewMembers(item: MenuItem)
    ensures var r := MenuItemJson(item).fields;
      && ("messenger_extensions" in r <==> item.messengerExtensions.Some?)
      && ("messenger_extensions" in r ==> r["messenger_extensions"] == JBool(item.messengerExtensions.value))
      && ("fallback_url" in r <==> !IsNullOrEmpty(item.fallbackUrl))
      && ("fallback_url" in r ==> r["fallback_url"] == JString(item.fallbackUrl.value))
      && ("webview_share_button" in r <==> !IsNullOrEmpty(item.webviewShareButton))
      && ("webview_share_button" in r ==> r["webview_share_button"] == JString(item.webviewShareButton.value))
  {
    MemberNamesDistinct();
  }

  /** `call_to_actions` appears exactly for a non-empty child list, holding
      the children's own serialisations in order. */
  lemma MenuItemChildMembers(item: MenuItem)
    ensures var r := MenuItemJson(item).fields;
      && ("call_to_actions" in r <==> item.callToActions.Items? && |item.callToActions.items| > 0)
      && ("call_to_actions" in r ==> r["call_to_actions"] == JArray(MenuItemsJson(item.callToActions.items)))
  {
    MemberNamesDistinct();
  }

  /** `items.Select(ConvertMenuItem).ToList()`. */
  function MenuItemsJson(items: seq<MenuItem>): (r: seq<Json>)
    ensures |r| == |items|
    ensures forall i :: 0 <= i < |items| ==> r[i] == MenuItemJson(items[i])
    decreases items
  {
    seq(|items|, i requires 0 <= i < |items| => MenuItemJson(items[i]))
  }

  /** `ConvertMenuItem` as written: a dictionary extended by seven guards, the
      last of which converts the children. */
  method ConvertMenuItem(item: MenuItem) returns (r: Json)
    ensures r == MenuItemJson(item)
    decreases item
  {
    var result := map["type" := JString(item.itemType), "title" := JString(item.title)];
    if !IsNullOrEmpty(item.payload) {
      result := result["payload" := JString(item.payload.value)];
    }
    if !IsNullOrEmpty(item.url) {
      result := result["url" := JString(item.url.value)];
    }
    if !IsNullOrEmpty(item.webviewHeightRatio) {
      result := result["webview_height_ratio" := JString(item.webviewHeightRatio.value)];
    }
    assert result == InsertLinks(RequiredMembers(item), item);
    if item.messengerExtensions.Some? {
      result := result["messenger_extensions" := JBool(item.messengerExtensions.value)];
    }
    if !IsNullOrEmpty(item.fallbackUrl) {
      result := result["fallback_url" := JString(item.fallbackUrl.value)];
    }
    if !IsNullOrEmpty(item.webviewShareButton) {
      result := result["webview_share_button" := JString(item.webviewShareButton.value)];
    }
    assert result == InsertWebview(InsertLinks(RequiredMembers(item), item), item);
    if item.callToActions.Items? && |item.callToActions.items| > 0 {
      var converted := ConvertMenuItems(item.callToActions.items);
      result := result["call_to_actions" := JArray(converted)];
    }
    r := JObject(result);
  }

  /** `items.Select(ConvertMenuItem).ToList()`, one item at a time. */
  method ConvertMenuItems(items: seq<MenuItem>) returns (converted: seq<Json>)
    ensures converted == MenuItemsJson(items)
    decreases items
  {
    converted := [];
    var i := 0;
    while i < |items|
      invariant 0 <= i <= |items|
      invariant converted == MenuItemsJson(items[..i])
    {
      var child := ConvertMenuItem(items[i]);
      assert items[..i + 1] == items[..i] + [items[i]];
      converted := converted + [child];
      i := i + 1;
    }
    assert items[..i] == items;
  }

  /** One entry of `persistent_menu`. */
  function MenuJson(m: PersistentMenu): (r: Json)
    ensures Keys(r) == {"locale", "composer_input_disabled", "call_to_actions"}
    ensures r.fields["locale"] == JString(m.locale)
    ensures r.fields["composer_input_disabled"] == JBool(m.composerInputDisabled)
    ensures r.fields["call_to_actions"] == JArray(MenuItemsJson(m.callToActions))
  {
    JObject(map[
      "locale" := JString(m.locale),
      "composer_input_disabled" := JBool(m.composerInputDisabled),
      "call_to_actions" := JArray(MenuItemsJson(m.callToActions))])
  }

  /** The body `SetAsync(menus)` posts: one `persistent_menu` entry per menu, in order. */
  function SetPayload(menus: seq<PersistentMenu>): (r: Json)
    ensures Keys(r) == {"persistent_menu"}
    ensures r.fields["persistent_menu"].JArray?
    ensures |r.fields["persistent_menu"].items| == |menus|
    ensures forall i :: 0 <= i < |menus| ==> r.fields["persistent_menu"].items[i] == MenuJson(menus[i])
  {
    JObject(map["persistent_menu" := JArray(MapSeq(menus, MenuJson))])
  }

  /** `SetAsync(List<PersistentMenu>)`: post the payload to `messenger_profile`;
      `true` only for a success status answered with `result` "success". */
  function SetMenus(c: Credentials, menus: seq<PersistentMenu>, outcome: Response<ResultResponse>): (call: Call<bool>)
    ensures call.request == Request(Post, GraphUrl(c, "messenger_profile", ""), Some(SetPayload(menus)))
    ensures call.result <==> ProfileUpdateSucceeded(outcome)
  {
    Call(Request(Post, GraphUrl(c, "messenger_profile", ""), Some(SetPayload(menus))), ProfileUpdateSucceeded(outcome))
  }

  /** `SetAsync(PersistentMenu)`: the list overload with that one menu. */
  function SetMenu(c: Credentials, menu: PersistentMenu, outcome: Response<ResultResponse>): (call: Call<bool>)
    ensures call.request.body.Some?
    ensures var body := call.request.body.value;
      body.JObject? && "persistent_menu" in body.fields
      && body.fields["persistent_menu"] == JArray([MenuJson(menu)])
    ensures call == SetMenus(c, [menu], outcome)
  {
    SetMenus(c, [menu], outcome)
  }

  /** The body of `GetAsync`: a list of `{ "persistent_menu": [...] }` entries. */
  type MenuDataResponse = DataResponse<Option<seq<PersistentMenu>>>

  /** `GetAsync`: the menus of the first data entry, empty on any failure. */
  function GetMenus(c: Credentials, outcome: Response<MenuDataResponse>): (call: Call<seq<PersistentMenu>>)
    ensures call.request == Request(Get, GraphUrl(c, "messenger_profile", "fields=persistent_menu&"), None)
    ensures call.result == FirstListOrEmpty(outcome)
    ensures !Delivered(outcome) ==> call.result == []
  {
    Call(Request(Get, GraphUrl(c, "messenger_profile", "fields=persistent_menu&"), None), FirstListOrEmpty(outcome))
  }

  /** `DeleteAsync`: `DELETE` with `{ "fields": ["persistent_menu"] }`, and
      the same success rule as `SetAsync`. */
  function DeleteMenus(c: Credentials, outcome: Response<ResultResponse>): (call: Call<bool>)
    ensures call.request.verb == Delete && call.request.url == GraphUrl(c, "messenger_profile", "")
    ensures call.request.body == Some(JObject(map["fields" := JArray([JString("persistent_menu")])]))
    ensures call.result <==> ProfileUpdateSucceeded(outcome)
  {
    Call(Request(Delete, GraphUrl(c, "messenger_profile", ""),
                 Some(JObject(map["fields" := JArray([JString("persistent_menu")])]))),
         ProfileUpdateSucceeded(outcome))
  }

  /** What a menu item keeps through `ConvertMenuItem` and back: empty strings
      and empty child lists read back as null. */
  function NormalizeItem(item: MenuItem): MenuItem
    decreases item
  {
    item.(
      payload := NullIfEmpty(item.payload),
      url := NullIfEmpty(item.url),
      webviewHeightRatio := NullIfEmpty(item.webviewHeightRatio),
      fallbackUrl := NullIfEmpty(item.fallbackUrl),
      webviewShareButton := NullIfEmpty(item.webviewShareButton),
      callToActions := if item.callToActions.Items? && |item.callToActions.items| > 0
                       then Items(NormalizeItems(item.callToActions.items)) else NullItems)
  }

  function NormalizeItems(items: seq<MenuItem>): (r: seq<MenuItem>)
    ensures |r| == |items|
    decreases items
  {
    seq(|items|, i requires 0 <= i < |items| => NormalizeItem(items[i]))
  }

  /** The reference inverse of `MenuItemJson`, written for the round-trip lemma. */
  function DecodeMenuItem(j: Json): Option<MenuItem>
    decreases j
  {
    if !j.JObject? then None
    else
      var children := if "call_to_actions" in j.fields && j.fields["call_to_actions"].JArray?
                      then DecodeMenuItems(j.fields["call_to_actions"].items) else None;
      if "call_to_actions" in j.fields && children.None? then None
      else Some(MenuItem(
        StringMemberOrEmpty(j, "type"),
        StringMemberOrEmpty(j, "title"),
        StringMember(j, "payload"),
        StringMember(j, "url"),
        StringMember(j, "webview_height_ratio"),
        BoolMember(j, "messenger_extensions"),
        StringMember(j, "fallback_url"),
        StringMember(j, "webview_share_button"),
        if children.Some? then Items(children.value) else NullItems))
  }

  function DecodeMenuItems(js: seq<Json>): (r: Option<seq<MenuItem>>)
    ensures r.Some? ==> |r.value| == |js|
    decreases js
  {
    if js == [] then Some([])
    else
      match (DecodeMenuItem(js[0]), DecodeMenuItems(js[1..]))
      case (Some(x), Some(xs)) => Some([x] + xs)
      case _ => None
  }

  /** The required and link members read back through the reference inverse. */
  lemma LinkMembersRead(item: MenuItem)
    ensures var j := MenuItemJson(item);
      && StringMemberOrEmpty(j, "type") == item.itemType
      && StringMemberOrEmpty(j, "title") == item.title
      && StringMember(j, "payload") == NullIfEmpty(item.payload)
      && StringMember(j, "url") == NullIfEmpty(item.url)
      && StringMember(j, "webview_height_ratio") == NullIfEmpty(item.webviewHeightRatio)
  {
    MemberNamesDistinct();
  }

  /** The webview members read back through the reference inverse. */
  lemma WebviewMembersRead(item: MenuItem)
    ensures var j := MenuItemJson(item);
      && BoolMember(j, "messenger_extensions") == item.messengerExtensions
      && StringMember(j, "fallback_url") == NullIfEmpty(item.fallbackUrl)
      && StringMember(j, "webview_share_button") == NullIfEmpty(item.webviewShareButton)
  {
    MemberNamesDistinct();
  }

  /** A menu tree reads back from its JSON at every depth, up to null-versus-empty. */
  lemma {:induction false} MenuItemRoundTrip(item: MenuItem)
    ensures DecodeMenuItem(MenuItemJson(item)) == Some(NormalizeItem(item))
    decreases item, 1
  {
    MemberNamesDistinct();
    LinkMembersRead(item);
    WebviewMembersRead(item);
    var j := MenuItemJson(item);
    if item.callToActions.Items? && |item.callToActions.items| > 0 {
      MenuItemsRoundTrip(item.callToActions.items);
      assert j.fields["call_to_actions"] == JArray(MenuItemsJson(item.callToActions.items));
    } else {
      assert "call_to_actions" !in j.fields;
    }
  }

  lemma {:induction false} MenuItemsRoundTrip(items: seq<MenuItem>)
    ensures DecodeMenuItems(MenuItemsJson(items)) == Some(NormalizeItems(items))
    decreases items, 0
  {
    if items != [] {
      MenuItemRoundTrip(items[0]);
      MenuItemsRoundTrip(items[1..]);
      assert MenuItemsJson(items)[1..] == MenuItemsJson(items[1..]);
      assert NormalizeItems(items) == [NormalizeItem(items[0])] + NormalizeItems(items[1..]);
    }
  }

  /** The factories serialise to exactly the keys they set. */
  lemma FactoryItemsSerialise(title: string, payload: string, url: string, ratio: WebviewHeightRatioType)
    ensures Keys(MenuItemJson(CreatePostback(title, payload))) ==
              (if payload == "" then {"type", "title"} else {"type", "title", "payload"})
    ensures Keys(MenuItemJson(CreateWebUrl(title, url, ratio))) ==
              (if url == "" then {"type", "title", "webview_height_ratio"} else {"type", "title", "url", "webview_height_ratio"})
    ensures MenuItemJson(CreateWebUrlWithExtensions(title, url, None, ratio)).fields["messenger_extensions"] == JBool(true)
  {
  }

  /** A default-constructed menu posts the default locale, an enabled composer and no items. */
  lemma DefaultMenuSerialises()
    ensures MenuJson(NewPersistentMenu()) == JObject(map[
      "locale" := JString("default"),
      "composer_input_disabled" := JBool(false),
      "call_to_actions" := JArray([])])
  {
  }
}
