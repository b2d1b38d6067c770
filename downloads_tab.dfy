/** The downloads tab (`DownloadsTab`): the table of downloads from the most recent,
    the total size, the striped rows, the expiry line and the confirmed delete. */
module DownloadsTab {
  import opened Wrappers
  import opened Time
  import Strings
  import Sorting
  import UserActivity

  type UserDownload = UserActivity.UserDownload

  /** The sort comparator as written. */
  function Compare(a: UserDownload, b: UserDownload): (c: int)
    ensures c < 0 <==> a.downloadedAt > b.downloadedAt
    ensures c == 0 <==> a.downloadedAt == b.downloadedAt
  {
    b.downloadedAt - a.downloadedAt
  }

  /** The key the comparator orders by, highest first: the download time. */
  function DownloadRank(d: UserDownload): Sorting.Rank
  {
    (d.downloadedAt, 0)
  }

  /** The comparator keeps a before b exactly when a was downloaded no earlier. */
  lemma CompareIsRank(a: UserDownload, b: UserDownload)
    ensures Compare(a, b) <= 0 <==> Sorting.RankGe(DownloadRank(a), DownloadRank(b))
  {
  }

  /** `[...downloads].sort(...)`: the downloads reordered from the most recent; the
      list passed in is left as it was. */
  method SortDownloads(downloads: seq<UserDownload>) returns (sorted: seq<UserDownload>)
    ensures sorted == Sorting.Sort(downloads, DownloadRank)
    ensures multiset(sorted) == multiset(downloads)
    ensures forall i, j :: 0 <= i < j < |sorted| ==> sorted[i].downloadedAt >= sorted[j].downloadedAt
  {
    sorted := Sorting.SortedCopy(downloads, DownloadRank);
    Sorting.SortPermutes(downloads, DownloadRank);
    Sorting.SortIsSorted(downloads, DownloadRank);
  }

  /** `downloads.reduce((sum, d) => sum + d.size, 0)`: the sizes added up from the
      first download. */
  function TotalSize(downloads: seq<UserDownload>): (total: int)
    ensures (forall i :: 0 <= i < |downloads| ==> downloads[i].size >= 0) ==> total >= 0
  {
    if downloads == [] then 0
    else TotalSize(downloads[..|downloads| - 1]) + downloads[|downloads| - 1].size
  }

  lemma TotalSizeAppend(t: seq<UserDownload>, x: UserDownload)
    ensures TotalSize(t + [x]) == TotalSize(t) + x.size
  {
    assert (t + [x])[..|t + [x]| - 1] == t;
  }

  lemma {:induction false} TotalSizeInsert(t: seq<UserDownload>, x: UserDownload)
    ensures TotalSize(Sorting.Insert(t, x, DownloadRank)) == TotalSize(t) + x.size
    decreases |t|
  {
    if t == [] || Sorting.RankGe(DownloadRank(t[|t| - 1]), DownloadRank(x)) {
      TotalSizeAppend(t, x);
    } else {
      var u := t[..|t| - 1];
      TotalSizeInsert(u, x);
      TotalSizeAppend(Sorting.Insert(u, x, DownloadRank), t[|t| - 1]);
    }
  }

  /** The total in the header, taken over the downloads as given, is the total of the
      rows of the table: sorting moves sizes around but adds none and drops none. */
  lemma {:induction false} TotalSizeOfSorted(downloads: seq<UserDownload>)
    ensures TotalSize(Sorting.Sort(downloads, DownloadRank)) == TotalSize(downloads)
  {
    if downloads != [] {
      var u := downloads[..|downloads| - 1];
      TotalSizeOfSorted(u);
      TotalSizeInsert(Sorting.Sort(u, DownloadRank), downloads[|downloads| - 1]);
    }
  }

  /** The sizes of the demo downloads: 2048576, 4194304 and 1572864 bytes. */
  lemma MockTotalSize(now: int)
    ensures TotalSize(UserActivity.MockDownloads(now)) == 7815744
  {
    var m := UserActivity.MockDownloads(now);
    assert m[0].size == 2048576 && m[1].size == 4194304 && m[2].size == 1572864;
    assert m[..2][..1] == [m[0]];
    assert m[..2] == m[..2][..1] + [m[1]];
    TotalSizeAppend([], m[0]);
    TotalSizeAppend([m[0]], m[1]);
    TotalSizeAppend(m[..2], m[2]);
    assert m == m[..2] + [m[2]];
  }

  /** `index % 2 === 0`: the rows at even positions get the striped background. */
  predicate Striped(index: nat)
  {
    index % 2 == 0
  }

  /** The first row is striped and neighbouring rows never look the same. */
  lemma StripesAlternate(index: nat)
    ensures Striped(0)
    ensures Striped(index) != Striped(index + 1)
  {
  }

  // ---------------------------------------------------------------- expiry line

  /** The expiry line as written, `Expires {getRelativeTime(expiresAt)}`: a time that
      measures the past is given a date in the future. */
  function ExpiryLabelAsWritten(now: int, expiresAt: Option<int>): (r: Option<string>)
    ensures r.Some? <==> expiresAt.Some?
  {
    if expiresAt.Some? then Some("Expires " + UserActivity.GetRelativeTime(now, expiresAt.value)) else None
  }

  /** Every download expiring later than a minute ago, which is every download still
      kept, reads "Expires Just now", however far off its expiry is. */
  lemma FutureExpiryReadsJustNow(now: int, expiresAt: int)
    requires now - expiresAt < Minute
    ensures ExpiryLabelAsWritten(now, Some(expiresAt)) == Some("Expires Just now")
  {
    assert UserActivity.GetRelativeTime(now, expiresAt) == "Just now";
    assert "Expires " + "Just now" == "Expires Just now";
  }

  /** The demo downloads expire in seven and in four days, yet the two lines match. */
  lemma MockExpiriesAlike(now: int)
    ensures var m := UserActivity.MockDownloads(now);
      ExpiryLabelAsWritten(now, m[0].expiresAt) == ExpiryLabelAsWritten(now, m[2].expiresAt) == Some("Expires Just now")
  {
    MockExpiries(now);
    FutureExpiryReadsJustNow(now, now + 7 * Day);
    FutureExpiryReadsJustNow(now, now + 4 * Day);
  }

  /** The expiry line counting the time left: at least a minute ahead, it names the
      whole units remaining (minutes, hours, days, 30-day months or years); otherwise
      it is the line as written. */
  function ExpiryLabel(now: int, expiresAt: Option<int>): (r: Option<string>)
    ensures r.Some? <==> expiresAt.Some?
    ensures expiresAt.Some? && expiresAt.value - now < Minute ==> r == ExpiryLabelAsWritten(now, expiresAt)
  {
    if expiresAt.None? then None
    else
      var left := UserActivity.DiffInSeconds(expiresAt.value, now);
      if left < UserActivity.MinuteSeconds then Some("Expires " + UserActivity.GetRelativeTime(now, expiresAt.value))
      else
        var u := UserActivity.UnitFor(left);
        Some("Expires in " + Strings.NatToString(left / u.1) + u.0)
  }

  /** A line for an expiry at least a minute away reads back as the count n of whole
      units left, which is at least one. */
  lemma ExpiryLabelCounts(now: int, expiresAt: int)
    requires expiresAt - now >= Minute
    ensures var left := UserActivity.DiffInSeconds(expiresAt, now);
      var u := UserActivity.UnitFor(left); var n := left / u.1;
      ExpiryLabel(now, Some(expiresAt)) == Some("Expires in " + Strings.NatToString(n) + u.0) &&
      1 <= n && n * u.1 <= left < (n + 1) * u.1
  {
  }

  /** Between one and thirty days ahead, two expiries with the same line are the same
      number of whole days away. */
  lemma ExpiryNamesDays(now: int, e1: int, e2: int)
    requires var l1 := UserActivity.DiffInSeconds(e1, now);
      UserActivity.DaySeconds <= l1 < UserActivity.MonthSeconds
    requires var l2 := UserActivity.DiffInSeconds(e2, now);
      UserActivity.DaySeconds <= l2 < UserActivity.MonthSeconds
    requires ExpiryLabel(now, Some(e1)) == ExpiryLabel(now, Some(e2))
    ensures UserActivity.DiffInSeconds(e1, now) / UserActivity.DaySeconds ==
            UserActivity.DiffInSeconds(e2, now) / UserActivity.DaySeconds
  {
    var n1 := UserActivity.DiffInSeconds(e1, now) / UserActivity.DaySeconds;
    var n2 := UserActivity.DiffInSeconds(e2, now) / UserActivity.DaySeconds;
    Strings.StripAround("Expires in ", Strings.NatToString(n1), Strings.NatToString(n2), "d");
    Strings.NatToStringInjective(n1, n2);
  }

  /** The demo downloads' lines tell their expiries apart. */
  lemma MockExpiryLabels(now: int)
    ensures ExpiryLabel(now, UserActivity.MockDownloads(now)[0].expiresAt) == Some("Expires in 7d")
    ensures ExpiryLabel(now, UserActivity.MockDownloads(now)[1].expiresAt) == None
    ensures ExpiryLabel(now, UserActivity.MockDownloads(now)[2].expiresAt) == Some("Expires in 4d")
  {
    MockExpiries(now);
    DaysLeftLabel(now, 7);
    assert "Expires in " + [Strings.DigitChar(7)] + "d" == "Expires in 7d";
    DaysLeftLabel(now, 4);
    assert "Expires in " + [Strings.DigitChar(4)] + "d" == "Expires in 4d";
  }

  /** The demo downloads built at time now expire 7 days ahead, never, and 4 days ahead. */
  lemma MockExpiries(now: int)
    ensures var m := UserActivity.MockDownloads(now);
      m[0].expiresAt == Some(now + 7 * Day) && m[1].expiresAt == None && m[2].expiresAt == Some(now + 4 * Day)
  {
    var m := UserActivity.MockDownloads(now);
    assert m[0].expiresAt == Some(UserActivity.DownloadsRelative[0].expiresAt.value + now);
    assert m[2].expiresAt == Some(UserActivity.DownloadsRelative[2].expiresAt.value + now);
  }

  lemma DaysLeftLabel(now: int, days: nat)
    requires 1 <= days < 10
    ensures ExpiryLabel(now, Some(now + days * Day)) == Some("Expires in " + [Strings.DigitChar(days)] + "d")
  {
    var left := UserActivity.DiffInSeconds(now + days * Day, now);
    assert left == days * UserActivity.DaySeconds;
    assert UserActivity.UnitFor(left) == ("d", UserActivity.DaySeconds);
    assert left / UserActivity.DaySeconds == days;
  }

  // ---------------------------------------------------------------- delete

  /** The confirmation asked before a delete. */
  datatype Prompt = Prompt(title: string, message: string)

  function DeletePrompt(d: UserDownload): (p: Prompt)
    ensures p.title == "Delete Download"
    ensures p.message == "Are you sure you want to delete \"" + d.title + "\"?"
  {
    Prompt("Delete Download", "Are you sure you want to delete \"" + d.title + "\"?")
  }

  /** `handleDeleteDownload(row)` and the user's answer to the prompt. Delete calls
      `removeDownload` of the tab's own `useUserActivity()` instance, own: its
      downloads with that row's id go and every other list stays; Cancel changes
      nothing. No other instance is touched. */
  method HandleDelete(own: UserActivity.ActivityHook, row: UserDownload, confirmed: bool) returns (prompt: Prompt)
    modifies own`activity
    ensures prompt == DeletePrompt(row)
    ensures !confirmed ==> own.activity == old(own.activity)
    ensures confirmed && old(own.activity).None? ==> own.activity.None?
    ensures confirmed && old(own.activity).Some? ==>
      own.activity == Some(old(own.activity).value.(downloads :=
        UserActivity.WithoutDownload(old(own.activity).value.downloads, row.id)))
    ensures confirmed && own.activity.Some? ==>
      forall k :: 0 <= k < |own.activity.value.downloads| ==> own.activity.value.downloads[k].id != row.id
  {
    prompt := DeletePrompt(row);
    if confirmed {
      own.RemoveDownload(row.id);
    }
  }

  /** As written: the table's rows come from the profile screen's instance, shown,
      while Delete goes to the tab's own instance. After a confirmed delete the
      re-rendered table is the same as before and still shows the deleted row. */
  method DeleteAsWritten(shown: UserActivity.ActivityHook, own: UserActivity.ActivityHook, row: UserDownload)
      returns (before: Screen, after: Screen)
    requires shown != own
    requires shown.activity.Some? && row in shown.activity.value.downloads
    modifies own`activity
    ensures before.Table? && after == before
    ensures row in after.rows
  {
    before := Render(shown.activity.value.downloads);
    var _ := HandleDelete(own, row, true);
    after := Render(shown.activity.value.downloads);
    Sorting.SortPermutes(shown.activity.value.downloads, DownloadRank);
    assert row in multiset(after.rows);
  }

  /** The delete with the profile screen's `removeDownload` passed down to the tab:
      the re-rendered table no longer shows any download with that row's id, and
      shows every other download. */
  method DeleteThroughParent(shown: UserActivity.ActivityHook, row: UserDownload) returns (after: Screen)
    requires shown.activity.Some?
    modifies shown`activity
    ensures shown.activity.Some? &&
      shown.activity.value.downloads == UserActivity.WithoutDownload(old(shown.activity).value.downloads, row.id)
    ensures after.Table? ==> forall k :: 0 <= k < |after.rows| ==> after.rows[k].id != row.id
    ensures forall d :: d in old(shown.activity).value.downloads && d.id != row.id ==> after.Table? && d in after.rows
  {
    var _ := HandleDelete(shown, row, true);
    var left := shown.activity.value.downloads;
    after := Render(left);
    if after.Table? {
      Sorting.SortPermutes(left, DownloadRank);
      forall k | 0 <= k < |after.rows| ensures after.rows[k].id != row.id {
        assert after.rows[k] in multiset(left);
      }
    }
    forall d | d in old(shown.activity).value.downloads && d.id != row.id ensures after.Table? && d in after.rows {
      assert d in left;
      Sorting.SortPermutes(left, DownloadRank);
      assert d in multiset(after.rows);
    }
  }

  // ---------------------------------------------------------------- screen

  /** What the tab renders. */
  datatype Screen =
    | NoDownloads
    | Table(count: nat, totalSize: int, rows: seq<UserDownload>)

  /** The tab for a list of downloads: the empty state for none; otherwise the count,
      the total size and the rows from the most recent. */
  method Render(downloads: seq<UserDownload>) returns (screen: Screen)
    ensures screen.NoDownloads? <==> downloads == []
    ensures screen.Table? ==>
      screen.count == |downloads| && screen.totalSize == TotalSize(downloads) &&
      screen.rows == Sorting.Sort(downloads, DownloadRank) &&
      screen.totalSize == TotalSize(screen.rows)
  {
    if |downloads| == 0 {
      return NoDownloads;
    }
    var sorted := SortDownloads(downloads);
    TotalSizeOfSorted(downloads);
    screen := Table(|downloads|, TotalSize(downloads), sorted);
  }
}
