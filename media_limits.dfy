/**
 * `FacebookMediaLimits`: the MIME-type allow-lists, their size caps, and the
 * validation of an upload's content type and size.
 */
module MediaLimits {
  import opened Wrappers
  import opened Text
  import opened Http

  const ImageMaxSize: int := 5 * 1024 * 1024
  const VideoMaxSize: int := 16 * 1024 * 1024
  const AudioMaxSize: int := 16 * 1024 * 1024
  const FileMaxSize: int := 100 * 1024 * 1024

  const AllowedImageTypes: seq<string> := ["image/jpeg", "image/jpg", "image/png"]
  const AllowedVideoTypes: seq<string> := ["video/mp4", "video/3gpp"]
  const AllowedAudioTypes: seq<string> :=
    ["audio/aac", "audio/mp4", "audio/mpeg", "audio/amr", "audio/ogg", "audio/opus"]
  const AllowedFileTypes: seq<string> := [
    "application/pdf",
    "application/msword",
    "application/vnd.openxmlformats-officedocument.wordprocessingml.document",
    "application/vnd.ms-excel",
    "application/vnd.openxmlformats-officedocument.spreadsheetml.sheet",
    "application/vnd.ms-powerpoint",
    "application/vnd.openxmlformats-officedocument.presentationml.presentation",
    "text/plain"
  ]

  /** `contentType.ToLowerInvariant().Trim()`. */
  function Normalize(contentType: string): string
  {
    Trim(ToLowerInvariant(contentType))
  }

  /** `Array.Exists(types, t => t.Equals(normalized, OrdinalIgnoreCase))`. */
  predicate Listed(types: seq<string>, normalized: string)
  {
    |types| > 0 && (EqualsIgnoreCase(types[0], normalized) || Listed(types[1..], normalized))
  }

  /** Membership read directly: some entry of the list equals the type, ignoring case. */
  predicate InList(types: seq<string>, normalized: string)
  {
    exists i :: 0 <= i < |types| && EqualsIgnoreCase(types[i], normalized)
  }

  /** The recursive scan finds a type exactly when some entry matches it. */
  lemma {:induction false} ListedIffInList(types: seq<string>, normalized: string)
    ensures Listed(types, normalized) <==> InList(types, normalized)
    decreases |types|
  {
    if |types| > 0 {
      var rest := types[1..];
      ListedIffInList(rest, normalized);
      if InList(rest, normalized) {
        var i :| 0 <= i < |rest| && EqualsIgnoreCase(rest[i], normalized);
        assert types[i + 1] == rest[i];
      }
      if InList(types, normalized) && !EqualsIgnoreCase(types[0], normalized) {
        var i :| 0 <= i < |types| && EqualsIgnoreCase(types[i], normalized);
        assert rest[i - 1] == types[i];
      }
    }
  }

  /** The cap of the first allow-list that holds an already normalised type. */
  function CapOfNormalized(n: string): Option<int>
  {
    if Listed(AllowedImageTypes, n) then Some(ImageMaxSize)
    else if Listed(AllowedVideoTypes, n) then Some(VideoMaxSize)
    else if Listed(AllowedAudioTypes, n) then Some(AudioMaxSize)
    else if Listed(AllowedFileTypes, n) then Some(FileMaxSize)
    else None
  }

  /** `GetMaxSizeForType`: null for a blank type, otherwise the cap of the
      first allow-list that holds the normalised type, or null. */
  function GetMaxSizeForType(contentType: Option<string>): (r: Option<int>)
    ensures IsNullOrWhiteSpace(contentType) ==> r == None
    ensures !IsNullOrWhiteSpace(contentType) ==>
      var n := Normalize(contentType.value);
      && (Listed(AllowedImageTypes, n) ==> r == Some(ImageMaxSize))
      && (!Listed(AllowedImageTypes, n) && Listed(AllowedVideoTypes, n) ==> r == Some(VideoMaxSize))
      && (!Listed(AllowedImageTypes, n) && !Listed(AllowedVideoTypes, n) && Listed(AllowedAudioTypes, n)
          ==> r == Some(AudioMaxSize))
      && (!Listed(AllowedImageTypes, n) && !Listed(AllowedVideoTypes, n) && !Listed(AllowedAudioTypes, n)
          ==> r == if Listed(AllowedFileTypes, n) then Some(FileMaxSize) else None)
  {
    if IsNullOrWhiteSpace(contentType) then None else CapOfNormalized(Normalize(contentType.value))
  }

  /** `IsContentTypeSupported`: the normalised type is in one of the four lists. */
  function IsContentTypeSupported(contentType: Option<string>): (b: bool)
    ensures IsNullOrWhiteSpace(contentType) ==> !b
    ensures !IsNullOrWhiteSpace(contentType) ==>
      var n := Normalize(contentType.value);
      b <==> InList(AllowedImageTypes, n) || InList(AllowedVideoTypes, n)
             || InList(AllowedAudioTypes, n) || InList(AllowedFileTypes, n)
  {
    if IsNullOrWhiteSpace(contentType) then false
    else
      var n := Normalize(contentType.value);
      ListedIffInList(AllowedImageTypes, n);
      ListedIffInList(AllowedVideoTypes, n);
      ListedIffInList(AllowedAudioTypes, n);
      ListedIffInList(AllowedFileTypes, n);
      Listed(AllowedImageTypes, n) || Listed(AllowedVideoTypes, n)
      || Listed(AllowedAudioTypes, n) || Listed(AllowedFileTypes, n)
  }

  /** The name of the first allow-list that holds an already normalised type. */
  function CategoryOfNormalized(n: string): string
  {
    if Listed(AllowedImageTypes, n) then "image"
    else if Listed(AllowedVideoTypes, n) then "video"
    else if Listed(AllowedAudioTypes, n) then "audio"
    else if Listed(AllowedFileTypes, n) then "file"
    else "unknown"
  }

  /** `GetMediaCategory`: the name of the list that matched, or "unknown". */
  function GetMediaCategory(contentType: Option<string>): (r: string)
    ensures r in {"image", "video", "audio", "file", "unknown"}
    ensures IsNullOrWhiteSpace(contentType) ==> r == "unknown"
    ensures !IsNullOrWhiteSpace(contentType) ==>
      var n := Normalize(contentType.value);
      && (Listed(AllowedImageTypes, n) ==> r == "image")
      && (!Listed(AllowedImageTypes, n) && Listed(AllowedVideoTypes, n) ==> r == "video")
      && (!Listed(AllowedImageTypes, n) && !Listed(AllowedVideoTypes, n) && Listed(AllowedAudioTypes, n)
          ==> r == "audio")
      && (!Listed(AllowedImageTypes, n) && !Listed(AllowedVideoTypes, n) && !Listed(AllowedAudioTypes, n)
          ==> r == if Listed(AllowedFileTypes, n) then "file" else "unknown")
  {
    if IsNullOrWhiteSpace(contentType) then "unknown" else CategoryOfNormalized(Normalize(contentType.value))
  }

  /** The cap that belongs to each category name. */
  function CapOfCategory(category: string): Option<int>
  {
    match category
    case "image" => Some(ImageMaxSize)
    case "video" => Some(VideoMaxSize)
    case "audio" => Some(AudioMaxSize)
    case "file" => Some(FileMaxSize)
    case _ => None
  }

  /** A type is supported exactly when it has a cap. */
  lemma SupportedIffHasCap(contentType: Option<string>)
    ensures IsContentTypeSupported(contentType) <==> GetMaxSizeForType(contentType).Some?
  {
  }

  /** The category is "unknown" exactly for unsupported types, and the cap is
      the one `CapOfCategory` attaches to the category. */
  lemma CategoryAgreesWithCap(contentType: Option<string>)
    ensures GetMediaCategory(contentType) == "unknown" <==> !IsContentTypeSupported(contentType)
    ensures GetMaxSizeForType(contentType) == CapOfCategory(GetMediaCategory(contentType))
  {
    if !IsNullOrWhiteSpace(contentType) {
      CategoryAgreesWithCapOfNormalized(Normalize(contentType.value));
    }
  }

  /** The same agreement, on a type that is already normalised. */
  lemma CategoryAgreesWithCapOfNormalized(n: string)
    ensures CategoryOfNormalized(n) == "unknown" <==> CapOfNormalized(n).None?
    ensures CapOfNormalized(n) == CapOfCategory(CategoryOfNormalized(n))
  {
    if Listed(AllowedImageTypes, n) {
    } else if Listed(AllowedVideoTypes, n) {
    } else if Listed(AllowedAudioTypes, n) {
    } else if Listed(AllowedFileTypes, n) {
    }
  }

  /** Each allow-list, tried in the order image, video, audio, file, gives its
      own cap and its own category name; a type in none of them gets neither.
      Membership is read as "some entry matches, ignoring case". */
  lemma LookupByList(t: string)
    ensures var n := Normalize(t);
      !IsNullOrWhiteSpace(Some(t)) && InList(AllowedImageTypes, n) ==>
      GetMaxSizeForType(Some(t)) == Some(ImageMaxSize) && GetMediaCategory(Some(t)) == "image"
    ensures var n := Normalize(t);
      (!IsNullOrWhiteSpace(Some(t)) && !InList(AllowedImageTypes, n) && InList(AllowedVideoTypes, n)) ==>
      GetMaxSizeForType(Some(t)) == Some(VideoMaxSize) && GetMediaCategory(Some(t)) == "video"
    ensures var n := Normalize(t);
      (!IsNullOrWhiteSpace(Some(t)) && !InList(AllowedImageTypes, n) && !InList(AllowedVideoTypes, n)
       && InList(AllowedAudioTypes, n)) ==>
      GetMaxSizeForType(Some(t)) == Some(AudioMaxSize) && GetMediaCategory(Some(t)) == "audio"
    ensures var n := Normalize(t);
      (!IsNullOrWhiteSpace(Some(t)) && !InList(AllowedImageTypes, n) && !InList(AllowedVideoTypes, n)
       && !InList(AllowedAudioTypes, n) && InList(AllowedFileTypes, n)) ==>
      GetMaxSizeForType(Some(t)) == Some(FileMaxSize) && GetMediaCategory(Some(t)) == "file"
    ensures var n := Normalize(t);
      (!InList(AllowedImageTypes, n) && !InList(AllowedVideoTypes, n)
       && !InList(AllowedAudioTypes, n) && !InList(AllowedFileTypes, n)) ==>
      GetMaxSizeForType(Some(t)) == None && GetMediaCategory(Some(t)) == "unknown"
  {
    var n := Normalize(t);
    ListedIffInList(AllowedImageTypes, n);
    ListedIffInList(AllowedVideoTypes, n);
    ListedIffInList(AllowedAudioTypes, n);
    ListedIffInList(AllowedFileTypes, n);
  }

  /** The lookup sees only the normalised type: two spellings that agree after
      lower-casing and trimming get the same cap (null and blank included). */
  lemma LookupIgnoresCaseAndPadding(a: string, b: string)
    requires Normalize(a) == Normalize(b)
    ensures GetMaxSizeForType(Some(a)) == GetMaxSizeForType(Some(b))
    ensures GetMediaCategory(Some(a)) == GetMediaCategory(Some(b))
  {
    BlankIffNormalizesToEmpty(a);
    BlankIffNormalizesToEmpty(b);
  }

  /** `IsNullOrWhiteSpace` holds exactly when normalisation leaves nothing. */
  lemma BlankIffNormalizesToEmpty(s: string)
    ensures IsNullOrWhiteSpace(Some(s)) <==> Normalize(s) == ""
  {
    TrimEmptyIffAllWhiteSpace(ToLowerInvariant(s));
    ToLowerKeepsWhiteSpace(s);
  }

  /** `MediaValidationResult`. Its `default` value (all fields zeroed) is
      `MediaValidationResult(false, None, None)`. */
  datatype MediaValidationResult = MediaValidationResult(isValid: bool, error: Option<string>, maxAllowedSize: Option<int>)

  /** `MediaValidationResult.Ok`. */
  function Ok(maxAllowedSize: Option<int> := None): (r: MediaValidationResult)
    ensures r.isValid && r.error == None && r.maxAllowedSize == maxAllowedSize
  {
    MediaValidationResult(true, None, maxAllowedSize)
  }

  /** `MediaValidationResult.Fail`. */
  function Fail(error: string, maxAllowedSize: Option<int> := None): (r: MediaValidationResult)
    ensures !r.isValid && r.error == Some(error) && r.maxAllowedSize == maxAllowedSize
  {
    MediaValidationResult(false, Some(error), maxAllowedSize)
  }

  /** The message of `new ArgumentException(null)`. */
  const DefaultArgumentMessage: string := "Value does not fall within the expected range."

  /** `ThrowIfInvalid`: the `ArgumentException` it throws, if any. */
  function ThrowIfInvalid(v: MediaValidationResult): (thrown: Option<Exception>)
    ensures thrown.Some? <==> !v.isValid
    ensures !v.isValid && v.error.Some? ==> thrown == Some(ArgumentException(v.error.value))
  {
    if v.isValid then None
    else Some(ArgumentException(if v.error.Some? then v.error.value else DefaultArgumentMessage))
  }

  const ContentTypeRequired: string := "Content type is required"
  const SizeNotPositive: string := "File size must be greater than 0"

  function UnsupportedMessage(contentType: string): string
  {
    "Content type '" + contentType + "' is not supported by Facebook Messenger"
  }

  /**
   * `Validate`. `formatFileSize` stands for `FormatFileSize`, which renders
   * byte counts with floating-point division and is not part of this model.
   * The checks run in a fixed order: blank type, non-positive size,
   * unsupported type, oversize.
   */
  function Validate(contentType: Option<string>, fileSize: int, formatFileSize: int -> string): (r: MediaValidationResult)
    ensures IsNullOrWhiteSpace(contentType) ==> r == Fail(ContentTypeRequired)
    ensures !IsNullOrWhiteSpace(contentType) && fileSize <= 0 ==> r == Fail(SizeNotPositive)
    ensures (!IsNullOrWhiteSpace(contentType) && fileSize > 0 && !IsContentTypeSupported(contentType))
              ==> r == Fail(UnsupportedMessage(contentType.value))
    ensures (IsContentTypeSupported(contentType) && fileSize > GetMaxSizeForType(contentType).value)
              ==> !r.isValid && r.maxAllowedSize == GetMaxSizeForType(contentType)
    ensures r.isValid <==> IsContentTypeSupported(contentType) && 0 < fileSize <= GetMaxSizeForType(contentType).value
    ensures r.isValid ==> r.error == None && r.maxAllowedSize == GetMaxSizeForType(contentType)
  {
    if IsNullOrWhiteSpace(contentType) then Fail(ContentTypeRequired)
    else if fileSize <= 0 then Fail(SizeNotPositive)
    else
      var maxSize := GetMaxSizeForType(contentType);
      if maxSize.None? then Fail(UnsupportedMessage(contentType.value))
      else if fileSize > maxSize.value then
        Fail("File size " + formatFileSize(fileSize) + " exceeds Facebook Messenger limit of "
             + formatFileSize(maxSize.value) + " for " + contentType.value, maxSize)
      else Ok(maxSize)
  }
}
