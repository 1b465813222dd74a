# FacebookSDK Messenger core, modelled in Dafny

This project models the logic of a C# Facebook Messenger Platform SDK that
can be stated without a network:

- the closed family of outgoing messages and their JSON:
  - text and URL attachments (image, video, audio, file)
  - button and generic templates
  - quick replies
- the send envelopes: plain, tagged, sender-action, one-time notification
  and handover;
- the recursive persistent-menu items and the messenger-profile payloads
  (persistent menu, ice breakers);
- the media validator, with its MIME allow-lists, size caps and check order;
- the small decision rules:
  - message tags to API strings
  - webview height ratios
  - the menu-item factories
  - ice-breaker truncation
  - the handover target to app id
  - options validation
  - the profile display name
  - the webhook attachment predicates
- how each service turns the outcome of its HTTP call into its result: a
  `bool`, an empty list, a `null`, or a thrown exception;
- the `FacebookSendResult` value and its `Ok`/`Failed` factories.

JSON is a small datatype (`Json.Json`: string, bool, array, object as a map).
Nullable references become `Option`. A thrown exception is either a
`Result` failure or an `Option<Exception>` result.

A service call does not run. It is a function, or a method where the source
fills a dictionary step by step, from the credentials, the arguments and the
outcome of the request (`Http.Response`: thrown, or a status with its raw body
and parsed body). The call returns an `Http.Call`: the request it would send
and the value it returns.

Six serialisers have a reference inverse, a decoder written only for a
round-trip lemma: `Buttons.ButtonJson`, `GenericTemplates.ElementJson`,
`QuickReplies.QuickReplyJson`, `Messages.ToJson`, `MenuService.MenuItemJson`
and `IceBreakers.IceBreakersPayload`. Each lemma shows that its serialiser
loses nothing but the difference between null and empty (an empty string
or an empty list). The decoders are
not a model of how the `Get` operations read a body: those take the parsed
body from the outcome as given. The envelopes and payloads without a
round-trip (`Handover.ControlPayload`, `Notifications.OneTimeRequestEnvelope`,
`Notifications.TokenEnvelope`, `Messaging.MessageEnvelope`,
`Messaging.TaggedEnvelope`, `Messaging.SenderActionEnvelope`,
`MenuService.MenuJson`, `MenuService.SetPayload`) are specified key by key.

Files, one module each:

- `wrappers.dfy`, `text.dfy`, `json.dfy`, `http.dfy`: shared definitions
- `media_limits.dfy`, `buttons.dfy`, `generic_template.dfy`,
  `quick_replies.dfy`, `messages.dfy`, `message_tags.dfy`
- `menu.dfy`, `menu_service.dfy`, `ice_breakers.dfy`, `handover.dfy`
- `notifications.dfy`, `messaging.dfy`, `send_results.dfy`, `options.dfy`
- `user_profile.dfy`, `webhook.dfy`

## Model

| member | source | states |
|---|---|---|
| MediaLimits.GetMaxSizeForType | Constants/FacebookMediaLimits.cs:76-96 | null for a null, empty or white-space type; otherwise the lists are tried in the order image, video, audio, file on the lower-cased, trimmed type, and the first that holds it gives its cap (5, 16, 16 or 100 MiB); null when none does |
| MediaLimits.IsContentTypeSupported | Constants/FacebookMediaLimits.cs:132-143 | false for a null, empty or white-space type; otherwise true exactly when some entry of one of the four lists equals the lower-cased, trimmed type, ignoring case |
| MediaLimits.SupportedIffHasCap | Constants/FacebookMediaLimits.cs:132-143 | a type is supported exactly when `GetMaxSizeForType` gives a cap |
| MediaLimits.GetMediaCategory | Constants/FacebookMediaLimits.cs:148-165 | "unknown" for a blank type; otherwise the name of the first list, in the order image, video, audio, file, that holds the lower-cased, trimmed type, or "unknown" |
| MediaLimits.ListedIffInList | Constants/FacebookMediaLimits.cs:82-83 | the list scan finds a type exactly when some entry of the list equals it, ignoring case |
| MediaLimits.LookupByList | Constants/FacebookMediaLimits.cs:83-95 | read with "some entry matches", each list in lookup order gives its own cap and category name (image 5 MiB, video 16 MiB, audio 16 MiB, file 100 MiB); a type in no list gets null and "unknown" |
| MediaLimits.CategoryAgreesWithCap | Constants/FacebookMediaLimits.cs:148-165 | "unknown" exactly for unsupported types; the cap `GetMaxSizeForType` returns is the one `CapOfCategory` attaches to the category |
| MediaLimits.CategoryAgreesWithCapOfNormalized | Constants/FacebookMediaLimits.cs:83-95 | the same agreement on an already normalised type, list by list in lookup order |
| MediaLimits.LookupIgnoresCaseAndPadding | Constants/FacebookMediaLimits.cs:81-93 | two types that agree after lower-casing and trimming get the same cap and the same category |
| MediaLimits.BlankIffNormalizesToEmpty | Constants/FacebookMediaLimits.cs:78-81 | a type is null-or-white-space exactly when normalising it leaves the empty string |
| MediaLimits.Ok | Constants/FacebookMediaLimits.cs:213 | valid, no error, the given maximum |
| MediaLimits.Fail | Constants/FacebookMediaLimits.cs:216 | invalid, with the given error and maximum |
| MediaLimits.ThrowIfInvalid | Constants/FacebookMediaLimits.cs:219-223 | throws exactly when the result is invalid, an `ArgumentException` carrying the error |
| MediaLimits.Validate | Constants/FacebookMediaLimits.cs:104-127 | checks in order: blank type, then non-positive size, then unsupported type (no maximum), then oversize (carrying the cap); valid iff supported and 0 < size <= cap, and then the maximum is the cap |
| Messages.ToJson | Messages/IFacebookMessage.cs:17-80 | text gives exactly `{text}`; each attachment gives `{attachment:{type, payload:{url, is_reusable: true}}}` with its own type string; templates and quick replies as their own serialisers give |
| Messages.AttachmentKindsNeverCollide | Messages/IFacebookMessage.cs:31-77 | two attachments serialise alike exactly when they are the same message |
| Messages.QuickRepliesWithText | Templates/QuickReplies.cs:13-17 | the string constructor wraps the text as a `TextMessage` |
| Messages.MessageRoundTrip | Templates/QuickReplies.cs:25-38 | every message, nested quick replies included, reads back from its JSON up to null-versus-empty |
| Messages.SameJsonSameMessage | Messages/IFacebookMessage.cs:17-80 | two messages with the same JSON differ at most in null-versus-empty |
| Buttons.ButtonJson | Templates/ButtonTemplate.cs:36-78 | URL button: `type` web_url, `title`, `url`, and `webview_height_ratio` iff non-empty; postback: exactly `{type, title, payload}`; call: `{type: phone_number, title, payload: phone number}` |
| Buttons.UrlButtonToJson | Templates/ButtonTemplate.cs:38-51 | the in-place dictionary build equals `ButtonJson` of the URL button |
| Buttons.ButtonTemplateJson | Templates/ButtonTemplate.cs:10-22 | attachment type template, `template_type` button, the text, and the buttons serialised in order |
| Buttons.ButtonRoundTrip | Templates/ButtonTemplate.cs:36-78 | a button reads back from its JSON, an empty ratio read as null |
| Buttons.ButtonsRoundTrip | Templates/ButtonTemplate.cs:19 | a button list reads back element by element, in order |
| GenericTemplates.ElementJson | Templates/GenericTemplate.cs:35-55 | `title` always; `subtitle`, `image_url` iff non-empty; `default_action` iff present; `buttons` iff present and non-empty, in order; no other key |
| GenericTemplates.ElementToJson | Templates/GenericTemplate.cs:35-55 | the dictionary filled by four conditional inserts equals `ElementJson` |
| GenericTemplates.GenericTemplateJson | Templates/GenericTemplate.cs:10-21 | attachment type template, `template_type` generic, elements serialised in order |
| GenericTemplates.ElementRoundTrip | Templates/GenericTemplate.cs:35-55 | an element reads back from its JSON up to null-versus-empty |
| GenericTemplates.ElementsRoundTrip | Templates/GenericTemplate.cs:18 | an element list reads back in order |
| QuickReplies.TextQuickReply | Templates/QuickReplies.cs:54-60 | content type text, with the title, payload and image URL given |
| QuickReplies.QuickReplyJson | Templates/QuickReplies.cs:72-89 | `content_type` always; `title`, `payload`, `image_url` each iff non-empty; no other key |
| QuickReplies.QuickReplyToJson | Templates/QuickReplies.cs:72-89 | the dictionary filled by conditional inserts equals `QuickReplyJson` |
| QuickReplies.UserDataRepliesCarryOnlyContentType | Templates/QuickReplies.cs:65-70 | the phone-number and e-mail replies serialise to their `content_type` alone |
| QuickReplies.QuickReplyRoundTrip | Templates/QuickReplies.cs:72-89 | a reply reads back from its JSON up to null-versus-empty |
| QuickReplies.QuickRepliesRoundTrip | Templates/QuickReplies.cs:36 | a reply list reads back in order |
| MessageTags.TagValue | Messages/MessageTag.cs:53-74 | every value is a 32-bit number, in 0..3 exactly for the four named members |
| MessageTags.TagOfValue | Messages/MessageTag.cs:53-74 | every 32-bit value is some `MessageTagType` with that number |
| MessageTags.TagValueRoundTrip | Messages/MessageTag.cs:53-74 | number and enum value convert into each other |
| MessageTags.ToApiString | Messages/MessageTag.cs:84-91 | the four fixed mappings; every success is one of the four `MessageTag` constants; an undefined value throws `ArgumentOutOfRangeException` for `tag` |
| MessageTags.ParseApiString | Messages/MessageTag.cs:19-47 | defined exactly on the four `MessageTag` constants, and never yields an undefined value |
| MessageTags.ApiStringRoundTrip | Messages/MessageTag.cs:84-91 | a string `ToApiString` returns parses back to its tag, and each constant parses to a tag whose API string it is |
| MessageTags.ToApiStringInjective | Messages/MessageTag.cs:84-91 | distinct tags never share an API string |
| Menu.RatioApiString | Menu/IFacebookMenu.cs:198-204 | compact, tall and full map to their names; any other value maps to full |
| Menu.NewPersistentMenu | Menu/IFacebookMenu.cs:64-74 | locale default, composer input not disabled, no items |
| Menu.CreatePostback | Menu/IFacebookMenu.cs:130-135 | type postback with title and payload, every other field unset |
| Menu.CreateWebUrl | Menu/IFacebookMenu.cs:140-146 | type web_url with title, url and the ratio string, full by default |
| Menu.CreateWebUrlWithExtensions | Menu/IFacebookMenu.cs:151-159 | as `CreateWebUrl` plus messenger extensions true and a fallback URL defaulting to the URL |
| Menu.CreateNested | Menu/IFacebookMenu.cs:164-169 | type nested with title and the given children |
| MenuService.MenuItemJson | Menu/FacebookMenuService.cs:135-165 | an item always serialises to a JSON object holding `type` and `title` with the item's own values; the other members are stated by the four member lemmas |
| MenuService.MenuItemRequiredMembers | Menu/FacebookMenuService.cs:137-141 | `type` and `title` always, and no key outside the nine member names |
| MenuService.MenuItemLinkMembers | Menu/FacebookMenuService.cs:143-150 | `payload`, `url`, `webview_height_ratio` each present iff non-empty, with its value |
| MenuService.MenuItemWebviewMembers | Menu/FacebookMenuService.cs:152-159 | `messenger_extensions` iff the nullable bool has a value (false included); `fallback_url`, `webview_share_button` iff non-empty |
| MenuService.MenuItemChildMembers | Menu/FacebookMenuService.cs:161-162 | `call_to_actions` iff the children are non-null and non-empty, converted recursively in order |
| MenuService.ConvertMenuItem | Menu/FacebookMenuService.cs:135-165 | the in-place dictionary build, recursing on the children, equals `MenuItemJson` |
| MenuService.ConvertMenuItems | Menu/FacebookMenuService.cs:162 | converting a list item by item equals the list of `MenuItemJson` |
| MenuService.MenuItemsJson | Menu/FacebookMenuService.cs:50 | one converted item per item, in order |
| MenuService.MenuJson | Menu/FacebookMenuService.cs:46-51 | exactly `locale`, `composer_input_disabled` and the converted items |
| MenuService.SetPayload | Menu/FacebookMenuService.cs:44-52 | one `persistent_menu` entry per menu, in order |
| MenuService.SetMenus | Menu/FacebookMenuService.cs:40-73 | POST to messenger_profile with that payload; true iff a success status and `result` is "success" |
| MenuService.SetMenu | Menu/FacebookMenuService.cs:37-38 | behaves as `SetMenus` of the one-menu list |
| MenuService.GetMenus | Menu/FacebookMenuService.cs:75-98 | GET with `fields=persistent_menu`; the first entry's menus, empty on error status, exception or missing data |
| MenuService.DeleteMenus | Menu/FacebookMenuService.cs:100-133 | DELETE with `fields: [persistent_menu]`; true iff success status and "success" |
| MenuService.MenuItemRoundTrip | Menu/FacebookMenuService.cs:135-165 | an item, children included, reads back from its JSON up to null-versus-empty |
| MenuService.MenuItemsRoundTrip | Menu/FacebookMenuService.cs:162 | an item list reads back in order |
| MenuService.FactoryItemsSerialise | Menu/IFacebookMenu.cs:130-159 | the keys a postback or web-url factory item serialises to, and `messenger_extensions` true for the extensions factory |
| MenuService.DefaultMenuSerialises | Menu/IFacebookMenu.cs:64-74 | a default menu serialises with locale default, composer input enabled, no items |
| IceBreakers.IceBreakerJson | IceBreakers/FacebookIceBreakersService.cs:49-53 | exactly `{question, payload}`, unchanged |
| IceBreakers.IceBreakersPayload | IceBreakers/FacebookIceBreakersService.cs:47-54 | `ice_breakers` maps each entry in order |
| IceBreakers.SetIceBreakers | IceBreakers/FacebookIceBreakersService.cs:37-75 | more than 4 entries are cut to the first 4, 4 or fewer are sent unchanged; true iff success status and "success" |
| IceBreakers.GetIceBreakers | IceBreakers/FacebookIceBreakersService.cs:77-100 | GET with `fields=ice_breakers`; empty on any failure or missing data |
| IceBreakers.DeleteIceBreakers | IceBreakers/FacebookIceBreakersService.cs:102-135 | DELETE with `fields: [ice_breakers]`; true iff success status and "success" |
| IceBreakers.IceBreakersRoundTrip | IceBreakers/FacebookIceBreakersService.cs:47-54 | the payload reads back to the same list |
| Handover.TargetAppId | Handover/FacebookHandoverService.cs:37-47 | Page Inbox gives app id 263902037430900; primary receiver throws `ArgumentException`; any other value throws `ArgumentOutOfRangeException` |
| Handover.ControlPayload | Handover/FacebookHandoverService.cs:53-62 | `recipient.id` always, `target_app_id` exactly when passing, `metadata` iff non-empty |
| Handover.ControlSucceeded | Handover/FacebookHandoverService.cs:66-82 | true iff a success status and the parsed `success` is true |
| Handover.PassThreadControlToApp | Handover/FacebookHandoverService.cs:49-83 | the dictionary build equals `ControlPayload` with the target app id; POST to pass_thread_control |
| Handover.PassThreadControl | Handover/FacebookHandoverService.cs:37-47 | throws before any request unless the target is the Page Inbox; then passes to 263902037430900 |
| Handover.TakeThreadControl | Handover/FacebookHandoverService.cs:85-118 | POST to take_thread_control; never a `target_app_id` |
| Handover.RequestThreadControl | Handover/FacebookHandoverService.cs:120-153 | POST to request_thread_control; never a `target_app_id` |
| Handover.GetThreadOwner | Handover/FacebookHandoverService.cs:155-178 | GET thread_owner for the recipient; the first entry, null on any failure |
| Handover.GetSecondaryReceivers | Handover/FacebookHandoverService.cs:180-203 | GET secondary_receivers with `fields=id,name`; empty on any failure |
| Notifications.OneTimeRequestEnvelope | Notifications/FacebookNotificationService.cs:42-58 | `recipient.id`, attachment type template, `template_type` one_time_notif_req, title and payload unchanged |
| Notifications.TokenEnvelope | Notifications/FacebookNotificationService.cs:87-91 | the recipient is `one_time_notif_token` and never `id`; the message is the message's JSON |
| Notifications.TokenEnvelopeCarriesMessage | Notifications/FacebookNotificationService.cs:90 | the message in a token envelope reads back as the message sent |
| Notifications.SendRequest | Notifications/FacebookNotificationService.cs:38-78 | POST to messages; true iff a success status, false on error status or exception |
| Notifications.Send | Notifications/FacebookNotificationService.cs:83-111 | POST of the token envelope; true iff a success status |
| Notifications.SendText | Notifications/FacebookNotificationService.cs:80-81 | behaves as `Send` of a `TextMessage` |
| Messaging.MessageEnvelope | Messaging/FacebookMessagingService.cs:37-41 | exactly `{recipient:{id}, message}`, no `messaging_type` or `tag` |
| Messaging.TaggedEnvelope | Messaging/FacebookMessagingService.cs:76-82 | the plain envelope plus `messaging_type` MESSAGE_TAG and the tag unchanged |
| Messaging.ActionName | Messaging/FacebookMessagingService.cs:50-57 | typing_on, typing_off, mark_seen, one per action |
| Messaging.SenderActionEnvelope | Messaging/FacebookMessagingService.cs:59-65 | exactly `{recipient:{id}, sender_action}`, no message |
| Messaging.SendToGraphApi | Messaging/FacebookMessagingService.cs:91-111 | anything thrown propagates unchanged; an error status throws `FacebookApiException` with the status and raw body; a success status completes |
| Messaging.ApiErrorMessage | Messaging/FacebookMessagingService.cs:124-128 | the message is "Facebook API Error: ", the status, " - ", then the body |
| Messaging.ApiErrorMessageKeepsBody | Messaging/FacebookMessagingService.cs:125 | for one status, messages are equal exactly when bodies are |
| Messaging.Send | Messaging/FacebookMessagingService.cs:35-44 | POST of the plain envelope, outcome mapped by `SendToGraphApi` |
| Messaging.SendText | Messaging/FacebookMessagingService.cs:32-33 | behaves as `Send` of a `TextMessage` |
| Messaging.SendWithTag | Messaging/FacebookMessagingService.cs:74-85 | POST of the tagged envelope, outcome mapped by `SendToGraphApi` |
| Messaging.SendSenderAction | Messaging/FacebookMessagingService.cs:59-68 | POST of the sender-action envelope, outcome mapped by `SendToGraphApi` |
| Messaging.EnvelopesCarryMessage | Messaging/FacebookMessagingService.cs:40 | the message in a plain or tagged envelope reads back as the message sent |
| SendResults.Ok | Messaging/IFacebookMessaging.cs:310-311 | success, no error, the method given (Standard by default), both human-agent flags false |
| SendResults.Failed | Messaging/IFacebookMessaging.cs:313-320 | failure with the error and both flags as given; the method stays Standard |
| SendResults.ConstructionOf | Messaging/IFacebookMessaging.cs:302-320 | a consistent result determines the factory call that builds it |
| SendResults.FactoriesBuildConsistentResults | Messaging/IFacebookMessaging.cs:310-320 | factories build exactly the consistent results, and distinct calls build distinct results |
| Options.ValidationError | Options/FacebookClientOptions.cs:43-53 | page access token, then app secret, then verify token: the first blank one is reported; none iff all three are non-blank |
| Options.FacebookClientOptions.constructor | Options/FacebookClientOptions.cs:13-38 | empty tokens, no ids, API version v18.0 |
| Options.FacebookClientOptions.Validate | Options/FacebookClientOptions.cs:43-53 | the guard chain throws what `ValidationError` names |
| Options.FacebookClientOptions.Credentials | Options/FacebookClientOptions.cs:13-38 | the API version and token the services put in their URLs |
| Options.ValidateDefaults | Options/FacebookClientOptions.cs:13-23 | a default-constructed options object fails, on the page access token |
| UserProfile.DisplayName | Models/FacebookUserProfile.cs:35 | never white space at either end, never longer than the joined names |
| UserProfile.NoNamesNoDisplayName | Models/FacebookUserProfile.cs:35 | with both names absent the display name is empty |
| UserProfile.FirstNameOnly | Models/FacebookUserProfile.cs:35 | with only a first name, that name trimmed |
| UserProfile.LastNameOnly | Models/FacebookUserProfile.cs:35 | with only a last name, that name trimmed |
| UserProfile.BothNames | Models/FacebookUserProfile.cs:35 | with two non-blank names, the first without leading and the last without trailing white space, one space between |
| Webhook.HasText | Webhook/FacebookMessage.cs:28 | iff the text is non-null and non-empty |
| Webhook.HasAttachments | Webhook/FacebookMessage.cs:31 | iff the list is non-null with at least one element |
| Webhook.IsQuickReply | Webhook/FacebookMessage.cs:34 | iff a quick-reply payload is present |
| Webhook.IsKind | Webhook/FacebookMessage.cs:53-68 | the type matches the kind, ignoring case: both lower-case to the same string |
| Webhook.IsImage | Webhook/FacebookMessage.cs:53 | true exactly when the type lower-cases to "image" |
| Webhook.IsVideo | Webhook/FacebookMessage.cs:56 | true exactly when the type lower-cases to "video" |
| Webhook.IsAudio | Webhook/FacebookMessage.cs:59 | true exactly when the type lower-cases to "audio" |
| Webhook.IsFile | Webhook/FacebookMessage.cs:62 | true exactly when the type lower-cases to "file" |
| Webhook.IsLocation | Webhook/FacebookMessage.cs:65 | true exactly when the type lower-cases to "location" |
| Webhook.IsFallback | Webhook/FacebookMessage.cs:68 | true exactly when the type lower-cases to "fallback" |
| Webhook.IsKindIffLowered | Webhook/FacebookMessage.cs:53-68 | against a lower-case literal, the case-insensitive test compares the lower-cased type |
| Webhook.KindOfLoweredType | Webhook/FacebookMessage.cs:53-68 | each `Is*` holds iff the lower-cased type is its literal |
| Webhook.AtMostOneKind | Webhook/FacebookMessage.cs:53-68 | no two of `IsImage` .. `IsFallback` hold at once |
| Webhook.DefaultAttachmentHasNoKind | Webhook/FacebookMessage.cs:45 | the default empty type makes all six false |
| Http.ProfileUpdateSucceeded | Menu/FacebookMenuService.cs:58-72 | true iff a success status and a body whose `result` is "success"; any exception gives false |
| Http.FirstOrNone | Handover/FacebookHandoverService.cs:163-177 | the first data entry after a success status, null otherwise |
| Http.FirstListOrEmpty | Menu/FacebookMenuService.cs:83-97 | the list in the first data entry, empty whenever a step of the chain is missing |
| Http.DataOrEmpty | Handover/FacebookHandoverService.cs:188-202 | the data list after a success status, empty otherwise |
| Http.Posted | Notifications/FacebookNotificationService.cs:62-77 | true exactly for a success status, whatever the body |

## Left out

- HTTP transport, `HttpClient`, JSON (de)serialisation, logging, `CancellationToken` and async are not modelled. Each call is a function of its outcome, given as a value. A body that fails to deserialise counts as a thrown outcome.
- System.Text.Json reading with the snake-case policy is not modelled. The `Get` operations take the parsed body from the outcome as given.
- JSON member order is not modelled, because objects are maps. Array order is.
- `FormatFileSize` (Constants/FacebookMediaLimits.cs:174-186) uses floating-point division and `F1` formatting. `MediaLimits.Validate` takes it as a function parameter and treats the oversize message as opaque.
- `long` sizes are unbounded integers. The source only compares them, so no wrap-around arises.
- `ToLowerInvariant` and `OrdinalIgnoreCase` are modelled on ASCII letters only. Unicode case folding beyond ASCII is not modelled.
- The reflection in `QuickReplies.ToJson` (Templates/QuickReplies.cs:28-31) is modelled as "the inner message's JSON object".
- `HttpStatusCode` formatting is a name carried with the status. Its text is not derived from the number.
- `MenuItem`, `PersistentMenu` and `IceBreaker` are settable classes in the source. They are modelled as values, because nothing in the core updates one in place after it is built. Aliasing between items is therefore not captured.
- Handover.GetSecondaryReceivers: a JSON `null` entry inside the data list is not modelled. Entries are always present.
- `SendImageAsync`, `SendVideoAsync`, `SendAudioAsync` and `SendFileAsync` (Messaging/IFacebookMessaging.cs:84-111), human-agent fallback, upload-and-send and the `MessageTagType` and persona overloads of the send methods are declared in Messaging/IFacebookMessaging.cs. No implementation of them exists in Messaging/FacebookMessagingService.cs, so only `FacebookSendResult` is modelled.
- `OneTimeNotificationOptIn.IsExpired` and `ExpiryTime` read the system clock, so they are not modelled.
- The conversation, persona and profile services are network clients whose only logic is URL interpolation, so they are not modelled.
- Dependency-injection wiring and the client aggregate are framework plumbing, so they are not modelled.
- The webhook payload classes other than `FacebookMessage`/`FacebookAttachment` are not modelled. `FacebookCoordinates` is left out because it is doubles.
- The "max 3 items" note on persistent-menu items is documentation only. The source does not enforce it, so neither does the model.
