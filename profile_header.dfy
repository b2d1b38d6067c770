/** The rules of the profile header (`ProfileHeader`): the join-date label, the
    masked e-mail, the bio preview and its toggle, and the avatar initials. */
module ProfileHeader {
  import opened Wrappers
  import Strings
  import UserHook

  // ---------------------------------------------------------------- join date

  /** The 30-day month, in milliseconds. */
  const MonthMs := 1000 * 60 * 60 * 24 * 30

  /** `Math.floor((now - date) / month)`: whole 30-day months elapsed. */
  function MonthsSince(now: int, date: int): (m: int)
    ensures m * MonthMs <= now - date < (m + 1) * MonthMs
  {
    (now - date) / MonthMs
  }

  /** The label for m whole months. */
  function JoinLabel(m: int): (s: string)
    ensures s == "Joined this month" <==> m < 1
  {
    if m < 1 then "Joined this month"
    else if m == 1 then "Joined 1 month ago"
    else if m < 12 then
      var t := "Joined " + Strings.NatToString(m) + " months ago";
      assert t[|t| - 1] == 'o';
      t
    else
      var years := m / 12;
      if years == 1 then "Joined 1 year ago"
      else
        var t := "Joined " + Strings.NatToString(years) + " years ago";
        assert t[|t| - 1] == 'o';
        t
  }

  /** `formatJoinDate(date)` at time now (ms). */
  function FormatJoinDate(now: int, date: int): (s: string)
    ensures s == "Joined this month" <==> now - date < MonthMs
  {
    JoinLabel(MonthsSince(now, date))
  }

  /** The buckets in terms of the time elapsed: under a month, one month, 2 to 11
      months by their count, and then whole 12-month years. */
  lemma JoinDateBuckets(now: int, date: int)
    ensures MonthMs <= now - date < 2 * MonthMs ==> FormatJoinDate(now, date) == "Joined 1 month ago"
    ensures 12 * MonthMs <= now - date < 24 * MonthMs ==> FormatJoinDate(now, date) == "Joined 1 year ago"
    ensures var m := MonthsSince(now, date);
      2 <= m < 12 ==> FormatJoinDate(now, date) == "Joined " + Strings.NatToString(m) + " months ago"
    ensures var m := MonthsSince(now, date);
      24 <= m ==> FormatJoinDate(now, date) == "Joined " + Strings.NatToString(m / 12) + " years ago"
  {
  }

  /** A months label names its count: two different counts from 2 to 11 give two
      different labels. */
  lemma MonthLabelsDiffer(m1: int, m2: int)
    requires 2 <= m1 < 12 && 2 <= m2 < 12
    requires JoinLabel(m1) == JoinLabel(m2)
    ensures m1 == m2
  {
    Strings.StripAround("Joined ", Strings.NatToString(m1), Strings.NatToString(m2), " months ago");
    Strings.NatToStringInjective(m1, m2);
  }

  // ---------------------------------------------------------------- e-mail

  /** The local part with everything after its first two characters starred. */
  function MaskLocal(local: string): (m: string)
    ensures |m| == |local|
    ensures |local| <= 2 ==> m == local
    ensures |local| > 2 ==> m[..2] == local[..2] && forall i :: 2 <= i < |m| ==> m[i] == '*'
  {
    if |local| > 2 then local[..2] + Strings.Repeat('*', |local| - 2) else local
  }

  /** `maskEmail(email)`: the masked first `@`-field, `@`, and the second field, which
      is `undefined` when there is no `@`. */
  function MaskEmail(email: string): (r: string)
    ensures '@' !in email ==> r == MaskLocal(email) + "@undefined"
  {
    var parts := Strings.Split(email, '@');
    Strings.SplitWithoutSep(email, '@');
    MaskLocal(parts[0]) + "@" + (if |parts| > 1 then parts[1] else "undefined")
  }

  /** For an address local@domain, possibly followed by further `@`-fields, the mask
      keeps the domain and the length of the local part and drops what follows. */
  lemma MaskEmailOf(local: string, domain: string, rest: string)
    requires '@' !in local && '@' !in domain
    requires rest == "" || rest[0] == '@'
    ensures MaskEmail(local + "@" + domain + rest) == MaskLocal(local) + "@" + domain
  {
    var email := local + "@" + domain + rest;
    var parts := Strings.Split(email, '@');
    assert |parts| > 1 && parts[0] == local && parts[1] == domain by {
      assert email == local + ['@'] + (domain + rest);
      Strings.SplitAfter(local, '@', domain + rest);
      if rest == "" {
        assert domain + rest == domain;
        Strings.SplitWithoutSep(domain, '@');
      } else {
        assert rest == ['@'] + rest[1..];
        assert domain + rest == domain + ['@'] + rest[1..];
        Strings.SplitAfter(domain, '@', rest[1..]);
      }
    }
  }

  /** The e-mail line: the address itself when the user shows it, masked otherwise. */
  function EmailShown(user: UserHook.UserProfile): (r: string)
    ensures user.preferences.showEmail ==> r == user.email
    ensures !user.preferences.showEmail ==> r == MaskEmail(user.email)
  {
    if user.preferences.showEmail then user.email else MaskEmail(user.email)
  }

  // ---------------------------------------------------------------- bio

  const BioPreviewLength := 100

  /** `bioPreview`: a bio over 100 characters cut to its first 100 and `...`. */
  function BioPreview(bio: string): (r: string)
    ensures |bio| <= BioPreviewLength ==> r == bio
    ensures |bio| > BioPreviewLength ==>
      |r| == BioPreviewLength + 3 && r[..BioPreviewLength] == bio[..BioPreviewLength] &&
      r[BioPreviewLength..] == "..."
  {
    if |bio| > BioPreviewLength then bio[..BioPreviewLength] + "..." else bio
  }

  /** `shouldShowBio`: a bio that is present and not empty. */
  predicate ShowsBio(bio: Option<string>)
    ensures ShowsBio(bio) <==> bio.Some? && |bio.value| > 0
    ensures ShowsBioToggle(bio) ==> ShowsBio(bio)
  {
    bio.Some? && bio.value != ""
  }

  /** The Show more / Show less control appears for a bio over 100 characters. */
  predicate ShowsBioToggle(bio: Option<string>)
  {
    bio.Some? && |bio.value| > BioPreviewLength
  }

  /** The bio text on screen, None when the section is hidden. */
  function BioText(bio: Option<string>, expanded: bool): (r: Option<string>)
    ensures r.Some? <==> ShowsBio(bio)
    ensures r.Some? && expanded ==> r == bio
    ensures r.Some? ==> |r.value| <= |bio.value| || |r.value| == BioPreviewLength + 3
  {
    if !ShowsBio(bio) then None
    else if expanded then bio
    else Some(BioPreview(bio.value))
  }

  /** Whenever there is no toggle, the collapsed bio is the whole bio, so nothing is
      hidden from a reader who cannot expand it. */
  lemma NoToggleShowsAll(bio: Option<string>)
    requires !ShowsBioToggle(bio)
    ensures BioText(bio, false) == BioText(bio, true)
  {
  }

  /** Whenever there is a toggle, collapsing shows the first 100 characters only. */
  lemma ToggleHidesRest(bio: Option<string>)
    requires ShowsBioToggle(bio)
    ensures BioText(bio, false) == Some(bio.value[..BioPreviewLength] + "...")
  {
  }

  // ---------------------------------------------------------------- initials

  /** `words.map(n => n[0]).join('')`: an empty word contributes nothing, since its
      `n[0]` is undefined and joins as the empty string. */
  function Firsts(words: seq<string>): (r: string)
    ensures |r| <= |words|
  {
    if words == [] then ""
    else (if words[0] == "" then "" else [words[0][0]]) + Firsts(words[1..])
  }

  /** The avatar's initials: the first characters of the space-separated words of
      the display name, upper-cased. */
  function Initials(displayName: string): (r: string)
    ensures |r| <= |Strings.Split(displayName, ' ')|
  {
    Strings.ToUpper(Firsts(Strings.Split(displayName, ' ')))
  }

  lemma {:induction false} FirstsOfWords(words: seq<string>)
    requires forall i :: 0 <= i < |words| ==> words[i] != ""
    ensures Firsts(words) == seq(|words|, i requires 0 <= i < |words| => words[i][0])
  {
    if words != [] {
      FirstsOfWords(words[1..]);
    }
  }

  /** A name made of non-empty words joined by single spaces has one initial per
      word, in order. */
  lemma InitialsOfWords(words: seq<string>)
    requires words != []
    requires forall i :: 0 <= i < |words| ==> words[i] != "" && ' ' !in words[i]
    ensures Initials(Strings.Join(words, ' ')) ==
            Strings.ToUpper(seq(|words|, i requires 0 <= i < |words| => words[i][0]))
  {
    Strings.JoinSplit(words, ' ');
    FirstsOfWords(words);
  }
}
