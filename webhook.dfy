/** `Webhook/FacebookMessage.cs`: the message a webhook delivers, and the
    helper properties that classify it and its attachments. */
module Webhook {
  import opened Wrappers
  import opened Text

  /** `FacebookQuickReplyPayload`. */
  datatype FacebookQuickReplyPayload = FacebookQuickReplyPayload(payload: string)

  /** `FacebookAttachmentPayload`, without the coordinates of a location. */
  datatype FacebookAttachmentPayload = FacebookAttachmentPayload(url: Option<string>, stickerId: Option<int>)

  /** `FacebookAttachment`; `Type` defaults to the empty string. */
  datatype FacebookAttachment = FacebookAttachment(attachmentType: string, payload: Option<FacebookAttachmentPayload>)

  const NewAttachment := FacebookAttachment("", None)

  /** `FacebookMessage`; `ReplyTo` is reduced to the message id it carries. */
  datatype FacebookMessage = FacebookMessage(
    mid: string,
    text: Option<string>,
    attachments: Option<seq<FacebookAttachment>>,
    quickReply: Option<FacebookQuickReplyPayload>,
    replyTo: Option<string>)

  /** `HasText`: the text is neither null nor empty. */
  function HasText(m: FacebookMessage): (b: bool)
    ensures b <==> m.text.Some? && |m.text.value| > 0
  {
    !IsNullOrEmpty(m.text)
  }

  /** `HasAttachments`: `Attachments?.Any() == true`. */
  function HasAttachments(m: FacebookMessage): (b: bool)
    ensures b <==> m.attachments.Some? && |m.attachments.value| > 0
  {
    match m.attachments
    case None => false
    case Some(list) => |list| > 0
  }

  /** `IsQuickReply`: a quick-reply payload is present. */
  function IsQuickReply(m: FacebookMessage): (b: bool)
    ensures b <==> m.quickReply.Some?
  {
    m.quickReply != None
  }

  /** The six attachment types the helper properties test for, in the order
      `IsImage` … `IsFallback` are declared. */
  const AttachmentKinds: seq<string> := ["image", "video", "audio", "file", "location", "fallback"]

  /** `Type.Equals(kind, StringComparison.OrdinalIgnoreCase)`. */
  function IsKind(a: FacebookAttachment, kind: string): (b: bool)
    ensures b <==> ToLowerInvariant(a.attachmentType) == ToLowerInvariant(kind)
  {
    EqualsIgnoreCase(a.attachmentType, kind)
  }

  /** `IsImage` … `IsFallback`: the type is the kind's literal, ignoring case. */
  function IsImage(a: FacebookAttachment): (b: bool)
    ensures b <==> ToLowerInvariant(a.attachmentType) == "image"
  {
    IsKindIffLowered(a, "image"); IsKind(a, "image")
  }

  function IsVideo(a: FacebookAttachment): (b: bool)
    ensures b <==> ToLowerInvariant(a.attachmentType) == "video"
  {
    IsKindIffLowered(a, "video"); IsKind(a, "video")
  }

  function IsAudio(a: FacebookAttachment): (b: bool)
    ensures b <==> ToLowerInvariant(a.attachmentType) == "audio"
  {
    IsKindIffLowered(a, "audio"); IsKind(a, "audio")
  }

  function IsFile(a: FacebookAttachment): (b: bool)
    ensures b <==> ToLowerInvariant(a.attachmentType) == "file"
  {
    IsKindIffLowered(a, "file"); IsKind(a, "file")
  }

  function IsLocation(a: FacebookAttachment): (b: bool)
    ensures b <==> ToLowerInvariant(a.attachmentType) == "location"
  {
    IsKindIffLowered(a, "location"); IsKind(a, "location")
  }

  function IsFallback(a: FacebookAttachment): (b: bool)
    ensures b <==> ToLowerInvariant(a.attachmentType) == "fallback"
  {
    IsKindIffLowered(a, "fallback"); IsKind(a, "fallback")
  }

  /** A string with no upper-case ASCII letter. */
  predicate IsLowerCase(s: string)
  {
    forall i :: 0 <= i < |s| ==> !('A' <= s[i] <= 'Z')
  }

  /** Against a lower-case literal, the case-insensitive comparison is a
      comparison of the lower-cased type. */
  lemma IsKindIffLowered(a: FacebookAttachment, kind: string)
    requires IsLowerCase(kind)
    ensures IsKind(a, kind) <==> ToLowerInvariant(a.attachmentType) == kind
  {
    var lowered := ToLowerInvariant(a.attachmentType);
    if IsKind(a, kind) {
      forall i | 0 <= i < |kind| ensures lowered[i] == kind[i] {
        assert ToLowerChar(kind[i]) == kind[i];
      }
    }
    if lowered == kind {
      forall i | 0 <= i < |kind| ensures ToLowerChar(a.attachmentType[i]) == ToLowerChar(kind[i]) {
        assert ToLowerChar(kind[i]) == kind[i];
      }
    }
  }

  lemma KindIsLowerCase(i: nat)
    requires i < |AttachmentKinds|
    ensures IsLowerCase(AttachmentKinds[i])
  {
  }

  /** An attachment has at most one of the six types: no two of `IsImage`,
      `IsVideo`, `IsAudio`, `IsFile`, `IsLocation` and `IsFallback` hold at once. */
  lemma AtMostOneKind(a: FacebookAttachment, i: nat, j: nat)
    requires i < |AttachmentKinds| && j < |AttachmentKinds|
    requires IsKind(a, AttachmentKinds[i]) && IsKind(a, AttachmentKinds[j])
    ensures i == j
  {
    KindIsLowerCase(i);
    KindIsLowerCase(j);
    IsKindIffLowered(a, AttachmentKinds[i]);
    IsKindIffLowered(a, AttachmentKinds[j]);
  }

  /** The type is a kind exactly when its lower-cased form is that kind's
      literal, whatever the case the sender used. */
  lemma KindOfLoweredType(a: FacebookAttachment, i: nat)
    requires i < |AttachmentKinds|
    ensures IsKind(a, AttachmentKinds[i]) <==> ToLowerInvariant(a.attachmentType) == AttachmentKinds[i]
  {
    KindIsLowerCase(i);
    IsKindIffLowered(a, AttachmentKinds[i]);
  }

  /** A default-constructed attachment, whose type is empty, is none of the six. */
  lemma DefaultAttachmentHasNoKind(i: nat)
    requires i < |AttachmentKinds|
    ensures !IsKind(NewAttachment, AttachmentKinds[i])
  {
    assert |AttachmentKinds[i]| > 0;
  }
}
