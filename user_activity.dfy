/** The profile's activity hook (`useUserActivity`): the echo lists it builds from the
    catalog, the saved posts and the liked posts, the mock downloads and friends, the
    removal of a download, and the relative-time labels the tabs show. */
module UserActivity {
  import opened Wrappers
  import opened Time
  import Seqs
  import Strings
  import Posts
  import SaveStore
  import LikeStore

  /** An echo as the profile tabs show it. A liked post's snapshot has no audio URL
      and no creation time, so those are optional. */
  datatype UserEcho = UserEcho(
    id: string,
    content: string,
    audioUrl: Option<string>,
    duration: Option<int>,
    voiceStyle: string,
    likes: int,
    replies: int,
    createdAt: Option<int>,
    tags: seq<string>,
    isPublic: bool)

  datatype AudioFormat = Mp3 | Wav | Aac

  /** A downloaded echo; times in milliseconds since the epoch, size in bytes. */
  datatype UserDownload = UserDownload(
    id: string,
    echoId: string,
    title: string,
    format: AudioFormat,
    size: int,
    downloadedAt: int,
    expiresAt: Option<int>)

  datatype UserFriend = UserFriend(
    id: string,
    username: string,
    displayName: string,
    avatar: Option<string>,
    isOnline: bool,
    lastSeen: Option<int>,
    mutualFriends: int,
    friendshipDate: int)

  datatype Activity = Activity(
    savedEchoes: seq<UserEcho>,
    likedEchoes: seq<UserEcho>,
    downloads: seq<UserDownload>,
    userEchoes: seq<UserEcho>,
    friends: seq<UserFriend>)

  const DefaultVoiceStyle := "Original"

  function EchoIds(echoes: seq<UserEcho>): (ids: seq<string>)
    ensures |ids| == |echoes| && forall i :: 0 <= i < |echoes| ==> ids[i] == echoes[i].id
  {
    seq(|echoes|, i requires 0 <= i < |echoes| => echoes[i].id)
  }

  /** `voiceStyle || 'Original'`: an absent or empty voice style becomes the default. */
  function VoiceStyleOr(voiceStyle: Option<string>): (r: string)
    ensures r != ""
    ensures voiceStyle.Some? && voiceStyle.value != "" ==> r == voiceStyle.value
  {
    if voiceStyle.Some? && voiceStyle.value != "" then voiceStyle.value else DefaultVoiceStyle
  }

  // ---------------------------------------------------------------- the echo lists

  /** One catalog post as the user's own echo; its voice style is taken as it is. */
  function OwnEcho(p: Posts.Post): UserEcho
  {
    UserEcho(p.id, p.content, Some(p.audioUrl), Some(p.duration), p.voiceStyle,
             p.likes, p.replies, Some(p.createdAt), p.tags, true)
  }

  /** `userEchoes`: the EchoHQ posts of the catalog, in its current order, all public. */
  function UserEchoes(db: seq<Posts.Post>): (r: seq<UserEcho>)
    ensures |r| == |Posts.EchoHqPosts(db)|
    ensures EchoIds(r) == Posts.Ids(Posts.EchoHqPosts(db))
    ensures forall i :: 0 <= i < |r| ==> r[i].isPublic && r[i].createdAt.Some?
  {
    var own := Posts.EchoHqPosts(db);
    seq(|own|, i requires 0 <= i < |own| => OwnEcho(own[i]))
  }

  /** `savedEchoes`: one public echo per saved entry, in order, with a default voice style. */
  function SavedEchoes(saved: seq<SaveStore.SavedPost>): (r: seq<UserEcho>)
    ensures |r| == |saved|
    ensures forall i :: 0 <= i < |r| ==>
      r[i].id == saved[i].post.id && r[i].isPublic && r[i].voiceStyle != "" &&
      r[i].createdAt == Some(saved[i].post.createdAt) && r[i].likes == saved[i].post.likes
  {
    seq(|saved|, i requires 0 <= i < |saved| =>
      var p := saved[i].post;
      UserEcho(p.id, p.content, Some(p.audioUrl), Some(p.duration), VoiceStyleOr(Some(p.voiceStyle)),
               p.likes, p.replies, Some(p.createdAt), p.tags, true))
  }

  /** `likedEchoes`: one public echo per liked record, in order, with a default voice
      style; the records carry no creation time and no audio URL. */
  function LikedEchoes(liked: seq<LikeStore.LikedPost>): (r: seq<UserEcho>)
    ensures |r| == |liked|
    ensures forall i :: 0 <= i < |r| ==>
      r[i].id == liked[i].id && r[i].isPublic && r[i].voiceStyle != "" &&
      r[i].createdAt.None? && r[i].likes == liked[i].likes
  {
    seq(|liked|, i requires 0 <= i < |liked| =>
      var p := liked[i];
      UserEcho(p.id, p.content, None, p.duration, VoiceStyleOr(p.voiceStyle),
               p.likes, p.replies, None, p.tags, true))
  }

  /** The liked tab lists exactly the ids the like store holds. */
  lemma LikedEchoesMatchStore(s: LikeStore.Likes)
    requires LikeStore.InStep(s)
    ensures forall id :: id in s.ids <==> id in EchoIds(LikedEchoes(s.records))
  {
    var ids := EchoIds(LikedEchoes(s.records));
    forall id | id in s.ids ensures id in ids {
      var i :| 0 <= i < |s.records| && s.records[i].id == id;
      assert ids[i] == id;
    }
  }

  /** In the catalog the user's echoes are the five EchoHQ posts. */
  lemma CatalogUserEchoes(loadTime: int)
    ensures EchoIds(UserEchoes(Posts.Catalog(loadTime))) ==
            ["echohq_1", "echohq_2", "echohq_3", "echohq_4", "echohq_5"]
  {
    Posts.CatalogEchoHq(loadTime);
    Posts.CatalogIdsAtLoadTime(loadTime);
    EchoIdsOfBand(Posts.Catalog(loadTime));
  }

  /** A list of posts with the catalog's ids whose EchoHQ posts are positions 15 to
      19 gives the user the five EchoHQ echoes. */
  lemma EchoIdsOfBand(db: seq<Posts.Post>)
    requires |db| == 24 && Posts.Ids(db) == Posts.CatalogIds
    requires Posts.EchoHqPosts(db) == db[15..20]
    ensures EchoIds(UserEchoes(db)) == ["echohq_1", "echohq_2", "echohq_3", "echohq_4", "echohq_5"]
  {
    var band := db[15..20];
    assert EchoIds(UserEchoes(db)) == Posts.Ids(band);
    assert Posts.Ids(band) == Posts.CatalogIds[15..20] by {
      forall i | 0 <= i < 5 ensures Posts.Ids(band)[i] == Posts.CatalogIds[15 + i] {
        assert band[i] == db[15 + i];
        assert Posts.Ids(db)[15 + i] == db[15 + i].id;
      }
    }
    assert Posts.CatalogIds[15..20] == ["echohq_1", "echohq_2", "echohq_3", "echohq_4", "echohq_5"];
  }

  // ---------------------------------------------------------------- mock data

  /** `generateMockDownloads()`, with times relative to the clock. */
  const DownloadsRelative: seq<UserDownload> := [
    UserDownload("dl_1", "post_1", "Coffee Shop Philosophy", Mp3, 2048576, -2 * Hour, Some(7 * Day)),
    UserDownload("dl_2", "post_2", "Morning Energy Boost", Wav, 4194304, -1 * Day, None),
    UserDownload("dl_3", "elon_confession", "Elon's Vulnerability", Aac, 1572864, -3 * Day, Some(4 * Day))
  ]

  /** The mock downloads as generated at time now (ms). */
  function MockDownloads(now: int): (r: seq<UserDownload>)
    ensures |r| == |DownloadsRelative|
    ensures forall i :: 0 <= i < |r| ==>
      r[i].(downloadedAt := 0, expiresAt := None) == DownloadsRelative[i].(downloadedAt := 0, expiresAt := None) &&
      r[i].downloadedAt == DownloadsRelative[i].downloadedAt + now
    ensures forall i :: 0 <= i < |r| ==>
      r[i].expiresAt == (if DownloadsRelative[i].expiresAt.Some? then Some(DownloadsRelative[i].expiresAt.value + now) else None)
  {
    seq(|DownloadsRelative|, i requires 0 <= i < |DownloadsRelative| =>
      var d := DownloadsRelative[i];
      d.(downloadedAt := d.downloadedAt + now,
         expiresAt := if d.expiresAt.Some? then Some(d.expiresAt.value + now) else None))
  }

  /** `generateMockFriends()`, with the offline friend's last-seen time relative to the
      clock; the friendship dates are midnight UTC of 2024-02-10, 2024-01-25 and
      2024-03-05. */
  const FriendsRelative: seq<UserFriend> := [
    UserFriend("friend_1", "@alex_voice", "Alex Chen",
      Some("https://images.pexels.com/photos/1239291/pexels-photo-1239291.jpeg?auto=compress&cs=tinysrgb&w=150&h=150&fit=crop"),
      true, None, 12, 1707523200000),
    UserFriend("friend_2", "@sarah_speaks", "Sarah Kim",
      Some("https://images.pexels.com/photos/774909/pexels-photo-774909.jpeg?auto=compress&cs=tinysrgb&w=150&h=150&fit=crop"),
      false, Some(-30 * Minute), 8, 1706140800000),
    UserFriend("friend_3", "@mike_audio", "Mike Johnson",
      Some("https://images.pexels.com/photos/1222271/pexels-photo-1222271.jpeg?auto=compress&cs=tinysrgb&w=150&h=150&fit=crop"),
      true, None, 15, 1709596800000)
  ]

  function MockFriends(now: int): (r: seq<UserFriend>)
    ensures |r| == |FriendsRelative|
    ensures forall i :: 0 <= i < |r| ==> r[i].(lastSeen := None) == FriendsRelative[i].(lastSeen := None)
    ensures forall i :: 0 <= i < |r| ==>
      r[i].lastSeen == (if FriendsRelative[i].lastSeen.Some? then Some(FriendsRelative[i].lastSeen.value + now) else None)
  {
    seq(|FriendsRelative|, i requires 0 <= i < |FriendsRelative| =>
      var f := FriendsRelative[i];
      f.(lastSeen := if f.lastSeen.Some? then Some(f.lastSeen.value + now) else None))
  }

  /** What `loadActivity` assembles at time now. */
  function BuildActivity(db: seq<Posts.Post>, saved: seq<SaveStore.SavedPost>,
                         liked: seq<LikeStore.LikedPost>, now: int): (r: Activity)
    ensures |r.savedEchoes| == |saved| && forall i :: 0 <= i < |saved| ==> r.savedEchoes[i].id == saved[i].post.id
    ensures |r.likedEchoes| == |liked| && forall i :: 0 <= i < |liked| ==> r.likedEchoes[i].id == liked[i].id
    ensures EchoIds(r.userEchoes) == Posts.Ids(Posts.EchoHqPosts(db))
    ensures |r.downloads| == 3 && |r.friends| == 3
    ensures forall i :: 0 <= i < |r.savedEchoes| ==> r.savedEchoes[i].isPublic
    ensures forall i :: 0 <= i < |r.userEchoes| ==> r.userEchoes[i].isPublic
  {
    Activity(SavedEchoes(saved), LikedEchoes(liked), MockDownloads(now), UserEchoes(db), MockFriends(now))
  }

  // ---------------------------------------------------------------- downloads

  /** `downloads.filter(d => d.id !== downloadId)`. */
  function WithoutDownload(downloads: seq<UserDownload>, downloadId: string): (r: seq<UserDownload>)
    ensures Seqs.Selects(r, downloads, (d: UserDownload) => d.id != downloadId)
  {
    Seqs.FilterSelects(downloads, (d: UserDownload) => d.id != downloadId);
    Seqs.Filter(downloads, (d: UserDownload) => d.id != downloadId)
  }

  /** Removing an id that is not there changes nothing. */
  lemma WithoutAbsentDownload(downloads: seq<UserDownload>, downloadId: string)
    requires forall i :: 0 <= i < |downloads| ==> downloads[i].id != downloadId
    ensures WithoutDownload(downloads, downloadId) == downloads
  {
    Seqs.FilterAll(downloads, (d: UserDownload) => d.id != downloadId);
  }

  /** The hook's state. */
  class ActivityHook {
    var activity: Option<Activity>
    var loading: bool
    var error: Option<string>

    constructor ()
      ensures activity == None && loading && error == None
    {
      activity := None;
      loading := true;
      error := None;
    }

    /** `loadActivity()` at time now, over the catalog, the saved posts and the liked
        records as they currently are. */
    method LoadActivity(db: seq<Posts.Post>, saved: seq<SaveStore.SavedPost>,
                        liked: seq<LikeStore.LikedPost>, now: int)
      modifies this`activity, this`loading
      ensures activity == Some(BuildActivity(db, saved, liked, now))
      ensures !loading
    {
      loading := true;
      activity := Some(BuildActivity(db, saved, liked, now));
      loading := false;
    }

    /** `removeDownload(downloadId)`: nothing without an activity; otherwise only the
        downloads with that id go, and the other lists stay as they were. */
    method RemoveDownload(downloadId: string)
      modifies this`activity
      ensures old(activity).None? ==> activity.None?
      ensures old(activity).Some? ==>
        activity == Some(old(activity).value.(downloads := WithoutDownload(old(activity).value.downloads, downloadId)))
    {
      if activity.Some? {
        var prev := activity.value;
        activity := Some(prev.(downloads := Seqs.Filter(prev.downloads, (d: UserDownload) => d.id != downloadId)));
      }
    }
  }

  // ---------------------------------------------------------------- relative time

  const MinuteSeconds := 60
  const HourSeconds := 3600
  const DaySeconds := 86400
  const MonthSeconds := 2592000
  const YearSeconds := 31536000

  /** `Math.floor((now - past) / 1000)` on millisecond times: whole seconds elapsed,
      rounded down also when that time lies in the future. */
  function DiffInSeconds(now: int, past: int): (d: int)
    ensures d * 1000 <= now - past < (d + 1) * 1000
  {
    (now - past) / 1000
  }

  /** The load effect runs again whenever the liked records or the saved posts change,
      and each run generates the demo downloads afresh: a download removed in between
      is back after the next like or save. */
  method RemovedDownloadReturns(db: seq<Posts.Post>, saved: seq<SaveStore.SavedPost>,
                                liked: seq<LikeStore.LikedPost>, liked2: seq<LikeStore.LikedPost>,
                                now: int, later: int)
    returns (before: seq<UserDownload>, after: seq<UserDownload>)
    ensures forall i :: 0 <= i < |before| ==> before[i].id != "dl_1"
    ensures |after| == 3 && after[0].id == "dl_1"
  {
    var hook := new ActivityHook();
    hook.LoadActivity(db, saved, liked, now);
    hook.RemoveDownload("dl_1");
    before := hook.activity.value.downloads;
    hook.LoadActivity(db, saved, liked2, later);
    after := hook.activity.value.downloads;
  }

  /** The suffix and the length in seconds of the unit a difference of d seconds is
      shown in: the largest of minute, hour, day, 30-day month and 365-day year that
      fits into d. */
  function UnitFor(d: int): (u: (string, nat))
    requires d >= MinuteSeconds
    ensures 0 < u.1 <= d
  {
    if d < HourSeconds then ("m", MinuteSeconds)
    else if d < DaySeconds then ("h", HourSeconds)
    else if d < MonthSeconds then ("d", DaySeconds)
    else if d < YearSeconds then ("mo", MonthSeconds)
    else ("y", YearSeconds)
  }

  /** `getRelativeTime` on a difference of d seconds. */
  function RelativeTime(d: int): (shown: string)
    ensures d < MinuteSeconds <==> shown == "Just now"
  {
    if d < MinuteSeconds then "Just now"
    else
      var u := UnitFor(d);
      var text := Strings.NatToString(d / u.1) + u.0 + " ago";
      assert text[|text| - 1] == 'o';
      text
  }

  /** A label other than "Just now" reads back as a count n of whole units elapsed:
      at least one, and fewer than make up the next larger unit. */
  lemma RelativeTimeCount(d: int)
    requires d >= MinuteSeconds
    ensures var u := UnitFor(d); var n := d / u.1;
      RelativeTime(d) == Strings.NatToString(n) + u.0 + " ago" &&
      Strings.ParseNat(Strings.NatToString(n)) == n &&
      1 <= n && n * u.1 <= d < (n + 1) * u.1 &&
      (u.0 == "m" ==> n < 60) && (u.0 == "h" ==> n < 24) && (u.0 == "d" ==> n < 30) &&
      (u.0 == "mo" ==> n <= 12)
  {
    var u := UnitFor(d);
    Strings.ParseNatToString(d / u.1);
  }

  /** `getRelativeTime(date)` at time now (ms): "Just now" exactly when less than a
      minute has passed, which includes every date in the future. */
  function GetRelativeTime(now: int, date: int): (shown: string)
    ensures shown == "Just now" <==> now - date < Minute
  {
    RelativeTime(DiffInSeconds(now, date))
  }
}
