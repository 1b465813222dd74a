/** `Menu/IFacebookMenu.cs`: the persistent-menu configuration, its item
    factories and the webview height ratio. */
module Menu {
  import opened Wrappers

  /** A 32-bit value of `WebviewHeightRatioType` that names none of its members. */
  type UndefinedRatioValue = x: int | -0x8000_0000 <= x < 0x8000_0000 && !(0 <= x < 3) witness -1

  /** `WebviewHeightRatioType`: Compact, Tall, Full, or any other `int` a cast can produce. */
  datatype WebviewHeightRatioType = Compact | Tall | Full | UndefinedRatio(raw: UndefinedRatioValue)

  /** `WebviewHeightRatioExtensions.ToApiString`: an undefined value reads as "full". */
  function RatioApiString(ratio: WebviewHeightRatioType): (s: string)
    ensures s in {"compact", "tall", "full"}
    ensures s == "compact" <==> ratio == Compact
    ensures s == "tall" <==> ratio == Tall
    ensures s == "full" <==> ratio == Full || ratio.UndefinedRatio?
  {
    match ratio
    case Compact => "compact"
    case Tall => "tall"
    case Full => "full"
    case UndefinedRatio(_) => "full"
  }

  /** The nullable `List<MenuItem>` of a nested item. It is a datatype of its
      own, not an `Option`, so that recursion into a submenu visibly shrinks. */
  datatype ItemList = NullItems | Items(items: seq<MenuItem>)

  /** `MenuItem`; `Type` and `Title` start as "", every other property as null. */
  datatype MenuItem = MenuItem(
    itemType: string,
    title: string,
    payload: Option<string>,
    url: Option<string>,
    webviewHeightRatio: Option<string>,
    messengerExtensions: Option<bool>,
    fallbackUrl: Option<string>,
    webviewShareButton: Option<string>,
    callToActions: ItemList)

  /** `new MenuItem()`. */
  const NewMenuItem: MenuItem := MenuItem("", "", None, None, None, None, None, None, NullItems)

  /** `PersistentMenu`, with its initialisers. */
  datatype PersistentMenu = PersistentMenu(
    locale: string,
    composerInputDisabled: bool,
    callToActions: seq<MenuItem>)

  /** `new PersistentMenu()`. */
  function NewPersistentMenu(): (m: PersistentMenu)
    ensures m.locale == "default" && !m.composerInputDisabled && m.callToActions == []
  {
    PersistentMenu("default", false, [])
  }

  /** `MenuItem.CreatePostback`: a postback with its payload and nothing else set. */
  function CreatePostback(title: string, payload: string): (item: MenuItem)
    ensures item.itemType == "postback" && item.title == title && item.payload == Some(payload)
    ensures item.url.None? && item.webviewHeightRatio.None? && item.messengerExtensions.None?
    ensures item.fallbackUrl.None? && item.webviewShareButton.None? && item.callToActions.NullItems?
  {
    NewMenuItem.(itemType := "postback", title := title, payload := Some(payload))
  }

  /** `MenuItem.CreateWebUrl`, whose ratio defaults to `Full`. */
  function CreateWebUrl(title: string, url: string, heightRatio: WebviewHeightRatioType := Full): (item: MenuItem)
    ensures item.itemType == "web_url" && item.title == title && item.url == Some(url)
    ensures item.webviewHeightRatio == Some(RatioApiString(heightRatio))
    ensures item.payload.None? && item.messengerExtensions.None?
    ensures item.fallbackUrl.None? && item.webviewShareButton.None? && item.callToActions.NullItems?
  {
    NewMenuItem.(itemType := "web_url", title := title, url := Some(url),
                 webviewHeightRatio := Some(RatioApiString(heightRatio)))
  }

  /** `MenuItem.CreateWebUrlWithExtensions`: Messenger Extensions on, and the
      fallback URL defaulting to the URL itself. */
  function CreateWebUrlWithExtensions(title: string, url: string, fallbackUrl: Option<string> := None,
                                      heightRatio: WebviewHeightRatioType := Full): (item: MenuItem)
    ensures item.itemType == "web_url" && item.title == title && item.url == Some(url)
    ensures item.webviewHeightRatio == Some(RatioApiString(heightRatio))
    ensures item.messengerExtensions == Some(true)
    ensures fallbackUrl.None? ==> item.fallbackUrl == Some(url)
    ensures fallbackUrl.Some? ==> item.fallbackUrl == fallbackUrl
    ensures item.payload.None? && item.webviewShareButton.None? && item.callToActions.NullItems?
  {
    NewMenuItem.(itemType := "web_url", title := title, url := Some(url),
                 webviewHeightRatio := Some(RatioApiString(heightRatio)),
                 messengerExtensions := Some(true),
                 fallbackUrl := if fallbackUrl.Some? then fallbackUrl else Some(url))
  }

  /** `MenuItem.CreateNested`: a submenu holding `items`. */
  function CreateNested(title: string, items: seq<MenuItem>): (item: MenuItem)
    ensures item.itemType == "nested" && item.title == title && item.callToActions == Items(items)
    ensures item.payload.None? && item.url.None? && item.webviewHeightRatio.None?
    ensures item.messengerExtensions.None? && item.fallbackUrl.None? && item.webviewShareButton.None?
  {
    NewMenuItem.(itemType := "nested", title := title, callToActions := Items(items))
  }
}
