/** `Messages/MessageTag.cs`: the tag strings that let a page message a user
    outside the standard 24-hour window, and the enum that names them. */
module MessageTags {
  import opened Wrappers
  import opened Http

  const ConfirmedEventUpdateTag: string := "CONFIRMED_EVENT_UPDATE"
  const PostPurchaseUpdateTag: string := "POST_PURCHASE_UPDATE"
  const AccountUpdateTag: string := "ACCOUNT_UPDATE"
  const HumanAgentTag: string := "HUMAN_AGENT"

  /** The four constants of the static class `MessageTag`. */
  const AllTags: set<string> := {ConfirmedEventUpdateTag, PostPurchaseUpdateTag, AccountUpdateTag, HumanAgentTag}

  /** A 32-bit value of `MessageTagType` that names none of its members. */
  type UndefinedTagValue = x: int | -0x8000_0000 <= x < 0x8000_0000 && !(0 <= x < 4) witness -1

  /** `MessageTagType`, an `int`-backed enum: members 0..3, and any other
      `int` a cast can produce. */
  datatype MessageTagType =
    | ConfirmedEventUpdate
    | PostPurchaseUpdate
    | AccountUpdate
    | HumanAgent
    | UndefinedTag(raw: UndefinedTagValue)

  /** The underlying `int` of a tag. */
  function TagValue(t: MessageTagType): (v: int)
    ensures -0x8000_0000 <= v < 0x8000_0000
    ensures 0 <= v < 4 <==> !t.UndefinedTag?
  {
    match t
    case ConfirmedEventUpdate => 0
    case PostPurchaseUpdate => 1
    case AccountUpdate => 2
    case HumanAgent => 3
    case UndefinedTag(raw) => raw
  }

  /** `(MessageTagType)v`: every 32-bit value is a tag. */
  function TagOfValue(v: int): (t: MessageTagType)
    requires -0x8000_0000 <= v < 0x8000_0000
    ensures TagValue(t) == v
  {
    if v == 0 then ConfirmedEventUpdate
    else if v == 1 then PostPurchaseUpdate
    else if v == 2 then AccountUpdate
    else if v == 3 then HumanAgent
    else UndefinedTag(v)
  }

  /** The cast and the underlying value are inverse: enum values are their numbers. */
  lemma TagValueRoundTrip(t: MessageTagType)
    ensures TagOfValue(TagValue(t)) == t
  {
  }

  /** `MessageTagTypeExtensions.ToApiString`: the member's constant, or
      `ArgumentOutOfRangeException` naming `tag` for an undefined value. */
  function ToApiString(t: MessageTagType): (r: Result<string, Exception>)
    ensures r.Success? <==> !t.UndefinedTag?
    ensures r.Success? ==> r.value in AllTags
    ensures r.Failure? ==> r.error == ArgumentOutOfRangeException("tag")
    ensures t == ConfirmedEventUpdate ==> r == Success(ConfirmedEventUpdateTag)
    ensures t == PostPurchaseUpdate ==> r == Success(PostPurchaseUpdateTag)
    ensures t == AccountUpdate ==> r == Success(AccountUpdateTag)
    ensures t == HumanAgent ==> r == Success(HumanAgentTag)
  {
    match t
    case ConfirmedEventUpdate => Success(ConfirmedEventUpdateTag)
    case PostPurchaseUpdate => Success(PostPurchaseUpdateTag)
    case AccountUpdate => Success(AccountUpdateTag)
    case HumanAgent => Success(HumanAgentTag)
    case UndefinedTag(_) => Failure(ArgumentOutOfRangeException("tag"))
  }

  /** The tag named by an API string, the inverse of `ToApiString`. */
  function ParseApiString(s: string): (t: Option<MessageTagType>)
    ensures t.Some? <==> s in AllTags
    ensures t.Some? ==> !t.value.UndefinedTag?
  {
    if s == ConfirmedEventUpdateTag then Some(ConfirmedEventUpdate)
    else if s == PostPurchaseUpdateTag then Some(PostPurchaseUpdate)
    else if s == AccountUpdateTag then Some(AccountUpdate)
    else if s == HumanAgentTag then Some(HumanAgent)
    else None
  }

  /** Every defined tag is recovered from its API string, and every constant
      is the API string of exactly one tag; so `ToApiString` is injective. */
  lemma ApiStringRoundTrip(t: MessageTagType, s: string)
    ensures ToApiString(t).Success? ==> ParseApiString(ToApiString(t).value) == Some(t)
    ensures s in AllTags ==> ToApiString(ParseApiString(s).value) == Success(s)
  {
  }

  /** Two defined tags with the same API string are the same tag. */
  lemma ToApiStringInjective(a: MessageTagType, b: MessageTagType)
    requires ToApiString(a).Success? && ToApiString(a) == ToApiString(b)
    ensures a == b
  {
    ApiStringRoundTrip(a, "");
    ApiStringRoundTrip(b, "");
  }
}
