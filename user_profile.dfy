/** `Models/FacebookUserProfile.cs`: the profile record and its `DisplayName`. */
module UserProfile {
  import opened Wrappers
  import opened Text

  /** `FacebookUserProfile`, an init-only record read from the Graph API. */
  datatype FacebookUserProfile = FacebookUserProfile(
    id: string,
    firstName: Option<string>,
    lastName: Option<string>,
    profilePic: Option<string>,
    locale: Option<string>,
    timezone: Option<int>,
    gender: Option<string>)

  /** `DisplayName`: `$"{FirstName} {LastName}".Trim()`. Whatever the names,
      the result has no white space at either end. */
  function DisplayName(p: FacebookUserProfile): (name: string)
    ensures name == "" || (!IsWhiteSpace(name[0]) && !IsWhiteSpace(name[|name| - 1]))
    ensures |name| <= |OrEmpty(p.firstName)| + 1 + |OrEmpty(p.lastName)|
  {
    Trim(OrEmpty(p.firstName) + " " + OrEmpty(p.lastName))
  }

  /** Without either name the display name is empty. */
  lemma NoNamesNoDisplayName(p: FacebookUserProfile)
    requires p.firstName == None && p.lastName == None
    ensures DisplayName(p) == ""
  {
    assert OrEmpty(p.firstName) + " " + OrEmpty(p.lastName) == " ";
    TrimEmptyIffAllWhiteSpace(" ");
  }

  /** With only a first name the display name is that name trimmed. */
  lemma FirstNameOnly(p: FacebookUserProfile)
    requires p.firstName.Some? && p.lastName == None
    ensures DisplayName(p) == Trim(p.firstName.value)
  {
    var first := p.firstName.value;
    assert OrEmpty(p.firstName) + " " + OrEmpty(p.lastName) == first + " ";
    TrimStartAppend(first, " ");
    assert TrimStart(" ") == "";
    if TrimStart(first) != "" {
      TrimEndAppendWhiteSpace(TrimStart(first), ' ');
    }
  }

  /** With only a last name the display name is that name trimmed. */
  lemma LastNameOnly(p: FacebookUserProfile)
    requires p.firstName == None && p.lastName.Some?
    ensures DisplayName(p) == Trim(p.lastName.value)
  {
    var last := p.lastName.value;
    var s := OrEmpty(p.firstName) + " " + OrEmpty(p.lastName);
    assert s == " " + last;
    assert s[1..] == last;
  }

  /** Trimming the joined names never reaches into a name that has something
      other than white space: the inner separator survives between them. */
  lemma BothNames(p: FacebookUserProfile)
    requires p.firstName.Some? && p.lastName.Some?
    requires !AllWhiteSpace(p.firstName.value) && !AllWhiteSpace(p.lastName.value)
    ensures DisplayName(p) == TrimStart(p.firstName.value) + " " + TrimEnd(p.lastName.value)
  {
    var first, last := p.firstName.value, p.lastName.value;
    assert OrEmpty(p.firstName) + " " + OrEmpty(p.lastName) == first + (" " + last);
    TrimJoined(first, last);
    assert TrimStart(first) + (" " + TrimEnd(last)) == TrimStart(first) + " " + TrimEnd(last);
  }

  /** Trimming `first + " " + last` trims only the outer ends of the two
      names when neither is all white space. */
  lemma TrimJoined(first: string, last: string)
    requires !AllWhiteSpace(first) && !AllWhiteSpace(last)
    ensures Trim(first + (" " + last)) == TrimStart(first) + (" " + TrimEnd(last))
  {
    var t := TrimStart(first);
    NotBlankSurvivesTrim(first);
    NotBlankSurvivesTrim(last);
    TrimStartAppend(first, " " + last);
    TrimEndPrepend(" ", last);
    TrimEndPrepend(t, " " + last);
  }

  /** Neither half of `Trim` empties a string that is not all white space. */
  lemma NotBlankSurvivesTrim(s: string)
    requires !AllWhiteSpace(s)
    ensures TrimStart(s) != "" && TrimEnd(s) != ""
  {
  }

  /** TrimEnd of a concatenation whose suffix is not all white space only
      trims that suffix. */
  lemma {:induction false} TrimEndPrepend(s: string, t: string)
    requires TrimEnd(t) != ""
    ensures TrimEnd(s + t) == s + TrimEnd(t)
    decreases |t|
  {
    var st := s + t;
    assert |t| > 0;
    assert st[|st| - 1] == t[|t| - 1];
    if IsWhiteSpace(t[|t| - 1]) {
      assert st[..|st| - 1] == s + t[..|t| - 1];
      TrimEndPrepend(s, t[..|t| - 1]);
    }
  }
}
