/** The play tracker (`PlayContext`): which post is playing, which posts this user
    has played, a play count per post and the history of play sessions. The guard
    meant to count a play once per post reads the played set of the render that
    created the handler, so a caller holding an old handler counts every call. */
module PlayStore {
  import opened Wrappers
  import Seqs

  /** One counted play: the post, the listener, when (ms) and how long (seconds). */
  datatype PlaySession = PlaySession(postId: string, userId: string, timestamp: int, duration: int)

  /** The demo's single listener. */
  const CurrentUserId := "user_123"
  /** The listening time recorded for every counted play, in seconds. */
  const SessionDuration := 5

  const PlayCountsKey := "@echo_play_counts"
  const PlayedPostsKey := "@echo_played_posts"
  const PlayHistoryKey := "@echo_play_history"

  /** The `reduce` summing the sessions' durations. */
  function TotalDuration(history: seq<PlaySession>): (total: int)
    ensures history == [] ==> total == 0
    ensures (forall i :: 0 <= i < |history| ==> history[i].duration >= 0) ==> total >= 0
  {
    if history == [] then 0 else TotalDuration(history[..|history| - 1]) + history[|history| - 1].duration
  }

  /** The total of a history whose sessions all last SessionDuration seconds. */
  lemma {:induction false} TotalOfUniformSessions(history: seq<PlaySession>)
    ensures (forall i :: 0 <= i < |history| ==> history[i].duration == SessionDuration) ==>
            TotalDuration(history) == SessionDuration * |history|
  {
    if history != [] {
      TotalOfUniformSessions(history[..|history| - 1]);
    }
  }

  lemma {:induction false} TotalDurationAppend(history: seq<PlaySession>, s: PlaySession)
    ensures TotalDuration(history + [s]) == TotalDuration(history) + s.duration
  {
    assert (history + [s])[..|history|] == history;
  }

  /** The distinct listeners among the sessions of one post. */
  function Listeners(history: seq<PlaySession>, postId: string): (users: set<string>)
    ensures |users| <= |Seqs.Filter(history, (s: PlaySession) => s.postId == postId)|
  {
    var sessions := Seqs.Filter(history, (s: PlaySession) => s.postId == postId);
    var userIds := seq(|sessions|, i requires 0 <= i < |sessions| => sessions[i].userId);
    assert (set u | u in userIds) == (set i | 0 <= i < |sessions| :: sessions[i].userId) by {
      forall u | u in userIds ensures u in (set i | 0 <= i < |sessions| :: sessions[i].userId) {
        var i :| 0 <= i < |userIds| && userIds[i] == u;
        assert sessions[i].userId == u;
      }
      forall i | 0 <= i < |sessions| ensures sessions[i].userId in userIds {
        assert userIds[i] == sessions[i].userId;
      }
    }
    Seqs.SetSizeAtMostLength(userIds);
    set i | 0 <= i < |sessions| :: sessions[i].userId
  }

  /** When every session is the current user's, a post has at most one listener. */
  lemma SingleListener(history: seq<PlaySession>, postId: string)
    ensures (forall i :: 0 <= i < |history| ==> history[i].userId == CurrentUserId) ==>
            Listeners(history, postId) <= {CurrentUserId} && |Listeners(history, postId)| <= 1
  {
    var sessions := Seqs.Filter(history, (s: PlaySession) => s.postId == postId);
    assert forall i :: 0 <= i < |sessions| ==> sessions[i] in history;
    if forall i :: 0 <= i < |history| ==> history[i].userId == CurrentUserId {
      var users := Listeners(history, postId);
      assert users <= {CurrentUserId};
      assert users == {} || users == {CurrentUserId};
    }
  }

  /** How many sessions of the history belong to post postId. */
  function SessionCount(history: seq<PlaySession>, postId: string): nat
  {
    if history == [] then 0
    else SessionCount(history[..|history| - 1], postId) + (if history[|history| - 1].postId == postId then 1 else 0)
  }

  lemma SessionCountAppend(history: seq<PlaySession>, s: PlaySession, postId: string)
    ensures SessionCount(history + [s], postId) == SessionCount(history, postId) + (if s.postId == postId then 1 else 0)
  {
    assert (history + [s])[..|history|] == history;
  }

  /** A post without sessions has a session count of zero. */
  lemma {:induction false} SessionCountAbsent(history: seq<PlaySession>, postId: string)
    ensures (forall i :: 0 <= i < |history| ==> history[i].postId != postId) ==>
            SessionCount(history, postId) == 0
  {
    if history != [] {
      SessionCountAbsent(history[..|history| - 1], postId);
    }
  }

  /** The tracker's state: the provider's latest state, and `renderedPlayed`, the
      played set of the last render, which the handlers created by that render read. */
  class PlayTracker {
    var currentlyPlaying: Option<string>
    var playedPosts: set<string>
    var playCounts: map<string, int>
    var playHistory: seq<PlaySession>
    var renderedPlayed: set<string>

    /** What every sequence of calls from the empty state keeps: the counted posts are
        the played ones, each count is the number of its post's sessions and at least
        one, every session is the current user's and lasts the standard duration, and
        the rendered played set never runs ahead of the latest one. */
    ghost predicate Valid()
      reads this
    {
      playCounts.Keys == playedPosts &&
      renderedPlayed <= playedPosts &&
      (forall i :: 0 <= i < |playHistory| ==>
        playHistory[i].userId == CurrentUserId && playHistory[i].duration == SessionDuration &&
        playHistory[i].postId in playedPosts) &&
      (forall id :: id in playCounts ==> playCounts[id] == SessionCount(playHistory, id) && playCounts[id] >= 1)
    }

    /** Valid, with every played post counted exactly once. */
    ghost predicate Consistent()
      reads this
    {
      Valid() && forall id :: id in playCounts ==> playCounts[id] == 1
    }

    constructor ()
      ensures currentlyPlaying == None && playedPosts == {} && playCounts == map[] && playHistory == []
      ensures renderedPlayed == {}
      ensures Consistent()
    {
      currentlyPlaying := None;
      playedPosts := {};
      playCounts := map[];
      playHistory := [];
      renderedPlayed := {};
    }

    /** A render of the provider: the handlers it creates see the latest played set. */
    method Render()
      modifies this`renderedPlayed
      ensures renderedPlayed == playedPosts
    {
      renderedPlayed := playedPosts;
    }

    /** `setCurrentlyPlaying(postId)`. */
    method SetCurrentlyPlaying(postId: Option<string>)
      modifies this`currentlyPlaying
      ensures currentlyPlaying == postId
    {
      currentlyPlaying := postId;
    }

    /** The updates `incrementPlayCount` makes once its guard has passed, each through
        the setter's `prev`: the count (0 when absent) plus one, the post marked as
        played, one session appended. */
    method CountPlay(postId: string, now: int)
      modifies this`playedPosts, this`playCounts, this`playHistory
      ensures playCounts == old(playCounts)[postId := (if postId in old(playCounts) then old(playCounts)[postId] else 0) + 1]
      ensures playedPosts == old(playedPosts) + {postId}
      ensures playHistory == old(playHistory) + [PlaySession(postId, CurrentUserId, now, SessionDuration)]
      ensures old(Valid()) ==> Valid()
      ensures old(Valid()) && postId !in old(playedPosts) && old(Consistent()) ==> Consistent()
    {
      ghost var wasValid := Valid();
      ghost var h := playHistory;
      var previous := if postId in playCounts then playCounts[postId] else 0;
      playCounts := playCounts[postId := previous + 1];
      playedPosts := playedPosts + {postId};
      var session := PlaySession(postId, CurrentUserId, now, SessionDuration);
      playHistory := playHistory + [session];
      if wasValid {
        forall id | id in playCounts ensures playCounts[id] == SessionCount(playHistory, id) {
          SessionCountAppend(h, session, id);
          if id == postId && previous == 0 {
            SessionCountAbsent(h, postId);
          }
        }
      }
    }

    /** `incrementPlayCount(postId)` at time now, as written: the guard reads the
        played set of the render that created the handler, so after a play the same
        handler counts the post again. */
    method IncrementPlayCount(postId: string, now: int)
      modifies this`playedPosts, this`playCounts, this`playHistory
      ensures old(Valid()) ==> Valid()
      ensures postId in old(renderedPlayed) ==>
        playedPosts == old(playedPosts) && playCounts == old(playCounts) && playHistory == old(playHistory)
      ensures postId !in old(renderedPlayed) ==>
        playCounts == old(playCounts)[postId := (if postId in old(playCounts) then old(playCounts)[postId] else 0) + 1] &&
        playedPosts == old(playedPosts) + {postId} &&
        playHistory == old(playHistory) + [PlaySession(postId, CurrentUserId, now, SessionDuration)]
      ensures old(renderedPlayed) == old(playedPosts) && old(Consistent()) ==> Consistent()
    {
      if postId !in renderedPlayed {
        CountPlay(postId, now);
      }
    }

    /** `incrementPlayCount` with its guard on the latest played set: a post already
        played changes nothing, so every post is counted at most once. */
    method IncrementPlayCountOnLatest(postId: string, now: int)
      modifies this`playedPosts, this`playCounts, this`playHistory
      ensures old(Valid()) ==> Valid()
      ensures old(Consistent()) ==> Consistent()
      ensures postId in old(playedPosts) ==>
        playedPosts == old(playedPosts) && playCounts == old(playCounts) && playHistory == old(playHistory)
      ensures postId !in old(playedPosts) ==>
        playCounts == old(playCounts)[postId := (if postId in old(playCounts) then old(playCounts)[postId] else 0) + 1] &&
        playedPosts == old(playedPosts) + {postId} &&
        playHistory == old(playHistory) + [PlaySession(postId, CurrentUserId, now, SessionDuration)]
    {
      if postId !in playedPosts {
        CountPlay(postId, now);
      }
    }

    /** `getPlayCount(postId)`: the stored count, 0 for a post without one. It is the
        number of the post's sessions; it is positive exactly for the played posts,
        and 1 for each of them while every post has been counted once. */
    function GetPlayCount(postId: string): (n: int)
      reads this
      ensures postId !in playCounts ==> n == 0
      ensures Valid() ==> n == SessionCount(playHistory, postId)
      ensures Valid() ==> (n > 0 <==> postId in playedPosts)
      ensures Consistent() ==> n == (if postId in playedPosts then 1 else 0)
    {
      if postId in playCounts then playCounts[postId]
      else
        SessionCountAbsent(playHistory, postId);
        0
    }

    /** `hasPlayed(postId)`, as read by a handler of the last render. */
    predicate HasPlayed(postId: string)
      reads this
      ensures HasPlayed(postId) <==> postId in renderedPlayed
      ensures Valid() && HasPlayed(postId) ==> postId in playedPosts
    {
      postId in renderedPlayed
    }

    /** `getTotalPlayTime()`: the sum of the sessions' durations, five seconds per
        session. */
    function GetTotalPlayTime(): (total: int)
      reads this
      ensures Valid() ==> total == SessionDuration * |playHistory|
    {
      TotalOfUniformSessions(playHistory);
      TotalDuration(playHistory)
    }

    /** `getUniqueListeners(postId)`: the number of distinct listeners among the post's
        sessions; never more than its sessions, and at most one, the current user. */
    function GetUniqueListeners(postId: string): (n: nat)
      reads this
      ensures n <= |Seqs.Filter(playHistory, (s: PlaySession) => s.postId == postId)|
      ensures Valid() ==> n <= 1
    {
      SingleListener(playHistory, postId);
      |Listeners(playHistory, postId)|
    }
  }

  /** The play-count step of the timer `handlePlay` starts (discover.tsx): at five
      seconds or more, `hasPlayed` and `incrementPlayCount` of the render that pressed
      play. */
  method PlayTick(t: PlayTracker, postId: string, elapsedSeconds: int, now: int)
    modifies t`playedPosts, t`playCounts, t`playHistory
    ensures old(t.Valid()) ==> t.Valid()
    ensures elapsedSeconds < 5 || postId in old(t.renderedPlayed) ==>
      t.playedPosts == old(t.playedPosts) && t.playCounts == old(t.playCounts) && t.playHistory == old(t.playHistory)
    ensures elapsedSeconds >= 5 && postId !in old(t.renderedPlayed) ==>
      t.playCounts == old(t.playCounts)[postId := (if postId in old(t.playCounts) then old(t.playCounts)[postId] else 0) + 1] &&
      t.playedPosts == old(t.playedPosts) + {postId} &&
      t.playHistory == old(t.playHistory) + [PlaySession(postId, CurrentUserId, now, SessionDuration)]
  {
    if elapsedSeconds >= 5 && !t.HasPlayed(postId) {
      t.IncrementPlayCount(postId, now);
    }
  }

  /** As written: a never-played post, played past five seconds, with no render
      reaching the timer's handlers, is counted on every tick: n ticks give a count
      of n, n sessions and 5n seconds. */
  method PlayWithoutRender(postId: string, times: seq<int>) returns (count: int, sessions: nat, total: int)
    ensures count == |times| && sessions == |times| && total == SessionDuration * |times|
  {
    var t := new PlayTracker();
    t.Render();
    var k := 0;
    while k < |times|
      invariant 0 <= k <= |times|
      invariant t.Valid() && t.renderedPlayed == {}
      invariant |t.playHistory| == k
      invariant k == 0 ==> postId !in t.playCounts
      invariant k > 0 ==> postId in t.playCounts && t.playCounts[postId] == k
    {
      PlayTick(t, postId, 5, times[k]);
      k := k + 1;
    }
    count := t.GetPlayCount(postId);
    sessions := |t.playHistory|;
    total := t.GetTotalPlayTime();
  }

  /** With the guard on the latest state, playing a post any number of times from a
      fresh tracker counts it once. */
  method PlayRepeatedly(postId: string, times: seq<int>) returns (count: int, sessions: nat, total: int)
    requires |times| >= 1
    ensures count == 1 && sessions == 1 && total == SessionDuration
  {
    var t := new PlayTracker();
    var k := 0;
    while k < |times|
      invariant 0 <= k <= |times|
      invariant t.Consistent()
      invariant k == 0 ==> t.playedPosts == {} && t.playHistory == []
      invariant k > 0 ==> t.playedPosts == {postId} && |t.playHistory| == 1
    {
      t.IncrementPlayCountOnLatest(postId, times[k]);
      k := k + 1;
    }
    count := t.GetPlayCount(postId);
    sessions := |t.playHistory|;
    total := t.GetTotalPlayTime();
  }

  /** As written, a render between two calls is enough for the guard: the second call
      of a fresh handler changes nothing. */
  method PlayTwiceWithRender(postId: string, t1: int, t2: int) returns (count: int, sessions: nat)
    ensures count == 1 && sessions == 1
  {
    var t := new PlayTracker();
    t.Render();
    t.IncrementPlayCount(postId, t1);
    t.Render();
    t.IncrementPlayCount(postId, t2);
    count := t.GetPlayCount(postId);
    sessions := |t.playHistory|;
  }
}
