/** The profile editor (`EditProfileModal`): the form's fields, their validation, and
    what saving and closing do. Whether a candidate URL parses (the `URL`
    constructor) is a parameter, and so is the outcome of the save callback. */
module EditProfile {
  import opened Wrappers
  import Strings
  import UserHook

  /** `EditProfileData`. */
  datatype EditProfileData = EditProfileData(
    displayName: string,
    bio: string,
    location: string,
    website: string,
    preferences: UserHook.Preferences)

  /** The `errors` object: a message per field that failed. */
  datatype FormErrors = FormErrors(displayName: Option<string>, bio: Option<string>, website: Option<string>)

  const NoErrors := FormErrors(None, None, None)

  const NameRequired := "Display name is required"
  const NameTooLong := "Display name must be 30 characters or less"
  const BioTooLong := "Bio must be 250 characters or less"
  const InvalidUrl := "Please enter a valid URL"
  const MaxNameLength := 30
  const MaxBioLength := 250

  /** `Object.keys(newErrors).length === 0`. */
  predicate NoErrorSet(e: FormErrors)
  {
    e.displayName.None? && e.bio.None? && e.website.None?
  }

  /** The address handed to the URL parser: as typed when it starts with `http`,
      otherwise behind `https://`. */
  function UrlCandidate(url: string): (u: string)
    ensures Strings.StartsWith(u, "http")
    ensures Strings.StartsWith(url, "http") ==> u == url
    ensures !Strings.StartsWith(url, "http") ==> u == "https://" + url
  {
    if Strings.StartsWith(url, "http") then url else "https://" + url
  }

  /** Prefixing once is enough: a candidate is its own candidate. */
  lemma UrlCandidateIdempotent(url: string)
    ensures UrlCandidate(UrlCandidate(url)) == UrlCandidate(url)
  {
  }

  /** `isValidUrl(url)`. */
  predicate IsValidUrl(url: string, urlParses: string -> bool)
    ensures Strings.StartsWith(url, "http") ==> (IsValidUrl(url, urlParses) <==> urlParses(url))
    ensures !Strings.StartsWith(url, "http") ==> (IsValidUrl(url, urlParses) <==> urlParses("https://" + url))
  {
    urlParses(UrlCandidate(url))
  }

  /** `validateForm()`'s error object. The display name is checked trimmed for being
      blank but untrimmed for its length, and the two name errors exclude each other;
      an empty website is never checked. */
  function Validate(form: EditProfileData, urlParses: string -> bool): (e: FormErrors)
    ensures e.displayName.Some? ==> e.displayName == Some(NameRequired) || e.displayName == Some(NameTooLong)
    ensures e.displayName == Some(NameRequired) <==> Strings.Trim(form.displayName) == ""
    ensures e.bio.Some? ==> e.bio == Some(BioTooLong)
    ensures e.website.Some? ==> e.website == Some(InvalidUrl) && form.website != ""
  {
    FormErrors(
      if Strings.Trim(form.displayName) == "" then Some(NameRequired)
      else if |form.displayName| > MaxNameLength then Some(NameTooLong)
      else None,
      if |form.bio| > MaxBioLength then Some(BioTooLong) else None,
      if form.website != "" && !IsValidUrl(form.website, urlParses) then Some(InvalidUrl) else None)
  }

  /** The form is valid exactly when the display name has a non-blank character and
      at most 30 characters, the bio at most 250, and the website is empty or parses,
      with `https://` added unless it starts with `http`. */
  lemma ValidIff(form: EditProfileData, urlParses: string -> bool)
    ensures NoErrorSet(Validate(form, urlParses)) <==>
      !Strings.AllWhitespace(form.displayName) && |form.displayName| <= MaxNameLength &&
      |form.bio| <= MaxBioLength &&
      (form.website == "" || urlParses(UrlCandidate(form.website)))
  {
    var e := Validate(form, urlParses);
    assert NoErrorSet(e) <==>
      Strings.Trim(form.displayName) != "" && |form.displayName| <= MaxNameLength &&
      |form.bio| <= MaxBioLength && (form.website == "" || IsValidUrl(form.website, urlParses));
    assert Strings.Trim(form.displayName) == "" <==> Strings.AllWhitespace(form.displayName) by {
      Strings.TrimEmptyIffBlank(form.displayName);
    }
  }

  /** A name padded with spaces past 30 characters fails on length although its
      trimmed text is short: the length is measured before trimming. */
  lemma PaddedNameTooLong(form: EditProfileData, urlParses: string -> bool)
    requires |form.displayName| > MaxNameLength && !Strings.AllWhitespace(form.displayName)
    ensures Validate(form, urlParses).displayName == Some(NameTooLong)
  {
    Strings.TrimEmptyIffBlank(form.displayName);
  }

  /** `user.bio || ''` and the like: a missing optional text edits as empty. */
  function OrEmpty(s: Option<string>): (r: string)
    ensures s.Some? ==> r == s.value
    ensures s.None? ==> r == ""
  {
    if s.Some? then s.value else ""
  }

  /** The form data taken from a profile. */
  function FormOf(user: UserHook.UserProfile): (f: EditProfileData)
    ensures f.displayName == user.displayName && f.preferences == user.preferences
    ensures f.bio == OrEmpty(user.bio) && f.location == OrEmpty(user.location) &&
            f.website == OrEmpty(user.website)
  {
    EditProfileData(user.displayName, OrEmpty(user.bio), OrEmpty(user.location),
                    OrEmpty(user.website), user.preferences)
  }

  /** What `onSave` came back with: a result, or a rejection. */
  datatype SaveOutcome = Resolved(success: bool, error: Option<string>) | Rejected

  datatype Alert = Alert(title: string, message: string)

  const UpdatedAlert := Alert("Success", "Profile updated successfully")
  const UnexpectedAlert := Alert("Error", "An unexpected error occurred")

  /** `result.error || 'Failed to update profile'`. */
  function FailureAlert(error: Option<string>): (a: Alert)
    ensures a.title == "Error" && a.message != ""
    ensures error.Some? && error.value != "" ==> a.message == error.value
  {
    Alert("Error", if error.Some? && error.value != "" then error.value else "Failed to update profile")
  }

  /** The text inputs of the form. */
  datatype TextField = DisplayNameField | BioField | LocationField | WebsiteField

  /** The form after typing text into one field; the others keep their values. */
  function WithText(f: EditProfileData, field: TextField, text: string): (r: EditProfileData)
    ensures r.preferences == f.preferences
    ensures field != DisplayNameField ==> r.displayName == f.displayName
    ensures field != BioField ==> r.bio == f.bio
    ensures field != LocationField ==> r.location == f.location
    ensures field != WebsiteField ==> r.website == f.website
  {
    match field
    case DisplayNameField => f.(displayName := text)
    case BioField => f.(bio := text)
    case LocationField => f.(location := text)
    case WebsiteField => f.(website := text)
  }

  /** The editor's state for one user. */
  class ProfileForm {
    var formData: EditProfileData
    var errors: FormErrors
    var loading: bool

    constructor (user: UserHook.UserProfile)
      ensures formData == FormOf(user) && errors == NoErrors && !loading
    {
      formData := FormOf(user);
      errors := NoErrors;
      loading := false;
    }

    /** An `onChangeText` handler. */
    method ChangeText(field: TextField, text: string)
      modifies this`formData
      ensures formData == WithText(old(formData), field, text)
    {
      formData := WithText(formData, field, text);
    }

    /** A preferences switch. */
    method ChangePreferences(preferences: UserHook.Preferences)
      modifies this`formData
      ensures formData == old(formData).(preferences := preferences)
    {
      formData := formData.(preferences := preferences);
    }

    /** `validateForm()`: records the errors and reports whether there are none. */
    method ValidateForm(urlParses: string -> bool) returns (valid: bool)
      modifies this`errors
      ensures errors == Validate(formData, urlParses)
      ensures valid <==> NoErrorSet(errors)
    {
      errors := Validate(formData, urlParses);
      valid := errors.displayName.None? && errors.bio.None? && errors.website.None?;
    }

    /** `handleSave()`: an invalid form is never submitted and changes nothing but the
        errors; a valid one is submitted as it is, loading ends, and the outcome
        decides whether the editor closes and which alert appears. */
    method HandleSave(urlParses: string -> bool, outcome: SaveOutcome)
      returns (submitted: Option<EditProfileData>, closed: bool, alert: Option<Alert>)
      modifies this`errors, this`loading
      ensures errors == Validate(formData, urlParses)
      ensures !NoErrorSet(errors) ==> submitted.None? && !closed && alert.None? && loading == old(loading)
      ensures NoErrorSet(errors) ==> submitted == Some(formData) && !loading
      ensures NoErrorSet(errors) && outcome.Resolved? && outcome.success ==> closed && alert == Some(UpdatedAlert)
      ensures NoErrorSet(errors) && outcome.Resolved? && !outcome.success ==>
        !closed && alert == Some(FailureAlert(outcome.error))
      ensures NoErrorSet(errors) && outcome.Rejected? ==> !closed && alert == Some(UnexpectedAlert)
    {
      var valid := ValidateForm(urlParses);
      if !valid {
        return None, false, None;
      }
      loading := true;
      submitted := Some(formData);
      if outcome.Rejected? {
        closed, alert := false, Some(UnexpectedAlert);
      } else if outcome.success {
        closed, alert := true, Some(UpdatedAlert);
      } else {
        closed, alert := false, Some(FailureAlert(outcome.error));
      }
      loading := false;
    }

    /** `handleClose()`: the form goes back to the user's values, with missing texts
        empty, and the errors are cleared. */
    method HandleClose(user: UserHook.UserProfile) returns (closed: bool)
      modifies this`formData, this`errors
      ensures formData == FormOf(user) && errors == NoErrors && closed
    {
      formData := FormOf(user);
      errors := NoErrors;
      closed := true;
    }
  }

  /** Whatever was typed, closing and reopening on the same profile gives the
      form a fresh editor would show. */
  method EditThenClose(user: UserHook.UserProfile, field: TextField, text: string)
    returns (reset: EditProfileData, errors: FormErrors)
    ensures reset == FormOf(user) && errors == NoErrors
  {
    var form := new ProfileForm(user);
    form.ChangeText(field, text);
    var _ := form.HandleClose(user);
    reset, errors := form.formData, form.errors;
  }

  /** Blanking the display name blocks the save whatever the callback would do. */
  method BlankNameBlocksSave(user: UserHook.UserProfile, urlParses: string -> bool, outcome: SaveOutcome)
    returns (submitted: Option<EditProfileData>, message: Option<string>)
    ensures submitted.None? && message == Some(NameRequired)
  {
    var form := new ProfileForm(user);
    form.ChangeText(DisplayNameField, "   ");
    assert Strings.AllWhitespace("   ");
    Strings.TrimEmptyIffBlank("   ");
    var closed, alert;
    submitted, closed, alert := form.HandleSave(urlParses, outcome);
    message := form.errors.displayName;
  }
}
