/** The profile's echo cells: the list item (`EchoListItem`) and the grid item
    (`EchoGridItem`). Both show the duration when it is truthy, a capped number of
    tags, a private indicator, a relative date and an accessibility label. */
module EchoItems {
  import opened Wrappers
  import Seqs
  import Format
  import LikeStore
  import Posts
  import UserActivity

  const ListTagCount := 3
  const GridTagCount := 2
  const LabelContentLength := 50

  /** `{echo.duration && formatDuration(echo.duration)}`: a missing or zero duration
      shows nothing. */
  function DurationText(duration: Option<int>): (r: Option<string>)
    ensures r.Some? <==> duration.Some? && duration.value != 0
    ensures r.Some? ==> r.value == Format.FormatDuration(duration.value)
  {
    if duration.Some? && duration.value != 0 then Some(Format.FormatDuration(duration.value)) else None
  }

  /** `echo.tags.slice(0, 3)` in the list item. */
  function ListTags(echo: UserActivity.UserEcho): (tags: seq<string>)
    ensures |tags| <= ListTagCount && |tags| <= |echo.tags| && tags == echo.tags[..|tags|]
  {
    Seqs.Take(echo.tags, ListTagCount)
  }

  /** `echo.tags.slice(0, 2)` in the grid item. */
  function GridTags(echo: UserActivity.UserEcho): (tags: seq<string>)
    ensures |tags| <= GridTagCount && |tags| <= |echo.tags| && tags == echo.tags[..|tags|]
  {
    Seqs.Take(echo.tags, GridTagCount)
  }

  /** The grid shows the first two of the tags the list shows. */
  lemma GridTagsWithinList(echo: UserActivity.UserEcho)
    ensures GridTags(echo) == ListTags(echo)[..|GridTags(echo)|]
  {
  }

  /** The lock appears for a private echo where the tab asks for it. */
  predicate ShowsPrivateIndicator(showPrivateIndicator: bool, echo: UserActivity.UserEcho)
  {
    showPrivateIndicator && !echo.isPublic
  }

  /** The list item's markers: the heart exactly where the tab asks for it, and the
      lock as above. */
  function ListIndicators(showLikedIndicator: bool, showPrivateIndicator: bool, echo: UserActivity.UserEcho): (m: (bool, bool))
    ensures m.0 <==> showLikedIndicator
    ensures m.1 <==> showPrivateIndicator && !echo.isPublic
  {
    (showLikedIndicator, ShowsPrivateIndicator(showPrivateIndicator, echo))
  }

  /** The user's own echoes are all public, so their cells never show the lock. */
  lemma NoLockOnOwnEchoes(db: seq<Posts.Post>, show: bool, i: nat)
    requires i < |UserActivity.UserEchoes(db)|
    ensures !ShowsPrivateIndicator(show, UserActivity.UserEchoes(db)[i])
  {
  }

  /** `Echo: ${echo.content.substring(0, 50)}...`: the marker is appended whatever
      the length of the content. */
  function AccessibilityLabel(content: string): (shown: string)
    ensures |content| <= LabelContentLength ==> shown == "Echo: " + content + "..."
    ensures |content| > LabelContentLength ==> shown == "Echo: " + content[..LabelContentLength] + "..."
    ensures |shown| <= LabelContentLength + 9
  {
    var n := if |content| < LabelContentLength then |content| else LabelContentLength;
    "Echo: " + content[..n] + "..."
  }

  /** The label determines the first 50 characters of the content, and nothing more. */
  lemma LabelNamesPrefix(c1: string, c2: string)
    requires AccessibilityLabel(c1) == AccessibilityLabel(c2)
    ensures |c1| >= LabelContentLength && |c2| >= LabelContentLength ==> c1[..LabelContentLength] == c2[..LabelContentLength]
    ensures |c1| < LabelContentLength ==> c1 == c2
  {
    var l := AccessibilityLabel(c1);
    var n1 := if |c1| < LabelContentLength then |c1| else LabelContentLength;
    var n2 := if |c2| < LabelContentLength then |c2| else LabelContentLength;
    assert |l| == n1 + 9 == n2 + 9;
    assert c1[..n1] == l[6..6 + n1];
    assert c2[..n2] == AccessibilityLabel(c2)[6..6 + n2];
  }

  // ---------------------------------------------------------------- the date cell

  /** What rendering `getRelativeTime(echo.createdAt)` gives: the label, or the
      TypeError raised by `date.getTime()` on an echo without a date. */
  datatype DateCell = Label(text: string) | TypeError

  /** The date cell as written: an undated echo makes `getRelativeTime` throw. */
  function DateCellAsWritten(now: int, createdAt: Option<int>): (c: DateCell)
    ensures c.TypeError? <==> createdAt.None?
    ensures createdAt.Some? ==> c == Label(UserActivity.GetRelativeTime(now, createdAt.value))
  {
    if createdAt.Some? then Label(UserActivity.GetRelativeTime(now, createdAt.value)) else TypeError
  }

  /** Every liked echo is undated, so each row of the liked tab throws when it
      renders its date, whatever the clock says. */
  lemma LikedRowsThrow(liked: seq<LikeStore.LikedPost>, now: int, i: nat)
    requires i < |liked|
    ensures DateCellAsWritten(now, UserActivity.LikedEchoes(liked)[i].createdAt) == TypeError
  {
  }

  /** The date cell with an absent date shown as no label at all. */
  function DateText(now: int, createdAt: Option<int>): (shown: Option<string>)
    ensures shown.None? <==> createdAt.None?
    ensures createdAt.Some? ==> shown == Some(UserActivity.GetRelativeTime(now, createdAt.value))
  {
    if createdAt.Some? then Some(UserActivity.GetRelativeTime(now, createdAt.value)) else None
  }

  /** The corrected cell renders for every echo and agrees with the written one
      wherever that one does not throw. */
  lemma DateCellAgrees(now: int, createdAt: Option<int>)
    ensures DateCellAsWritten(now, createdAt).Label? ==>
      DateText(now, createdAt) == Some(DateCellAsWritten(now, createdAt).text)
    ensures DateCellAsWritten(now, createdAt).TypeError? ==> DateText(now, createdAt) == None
  {
  }
}
