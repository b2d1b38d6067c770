/** The like store (`LikeContext`): the set of liked post ids and, kept in step with
    it, the list of liked-post records the profile's liked tab shows. */
module LikeStore {
  import opened Wrappers
  import Seqs

  /** The snapshot a card hands to `toggleLike`, with the `isLiked` flag the store adds. */
  datatype LikedPost = LikedPost(
    id: string,
    username: string,
    displayName: string,
    avatar: string,
    content: string,
    likes: int,
    replies: int,
    timestamp: string,
    tags: seq<string>,
    voiceStyle: Option<string>,
    duration: Option<int>,
    isLiked: bool)

  /** The pair `likedPosts` / `likedPostsData`. */
  datatype Likes = Likes(ids: set<string>, records: seq<LikedPost>)

  /** `likedPostsData.filter(post => post.id !== postId)`. */
  function WithoutId(records: seq<LikedPost>, postId: string): (r: seq<LikedPost>)
    ensures forall i :: 0 <= i < |r| ==> r[i].id != postId
    ensures Seqs.Selects(r, records, (p: LikedPost) => p.id != postId)
  {
    Seqs.FilterSelects(records, (p: LikedPost) => p.id != postId);
    Seqs.Filter(records, (p: LikedPost) => p.id != postId)
  }

  /** The records of one id, in list order. */
  function RecordsOf(records: seq<LikedPost>, postId: string): seq<LikedPost>
  {
    Seqs.Filter(records, (p: LikedPost) => p.id == postId)
  }

  /** An id is liked exactly when some record carries it. */
  ghost predicate InStep(s: Likes)
  {
    (forall i :: 0 <= i < |s.records| ==> s.records[i].id in s.ids) &&
    (forall id :: id in s.ids ==> exists i :: 0 <= i < |s.records| && s.records[i].id == id)
  }

  /** `toggleLike(postId, postData)`: a liked id is unliked and loses all its records;
      an unliked id is liked and the snapshot, flagged liked, is appended. */
  function Toggle(s: Likes, postId: string, postData: LikedPost): (r: Likes)
    ensures postId in s.ids ==> postId !in r.ids && RecordsOf(r.records, postId) == []
    ensures postId !in s.ids ==>
      postId in r.ids && |r.records| == |s.records| + 1 &&
      r.records[..|s.records|] == s.records &&
      r.records[|s.records|] == postData.(isLiked := true)
    ensures forall other :: other != postId ==> (other in r.ids <==> other in s.ids)
  {
    if postId in s.ids then
      var r := Likes(s.ids - {postId}, WithoutId(s.records, postId));
      Seqs.FilterNone(r.records, (p: LikedPost) => p.id == postId);
      r
    else
      Likes(s.ids + {postId}, s.records + [postData.(isLiked := true)])
  }

  /** Toggling keeps the set and the records in step, provided a like's snapshot
      carries the id being liked. */
  lemma ToggleKeepsInStep(s: Likes, postId: string, postData: LikedPost)
    requires InStep(s)
    requires postId !in s.ids ==> postData.id == postId
    ensures InStep(Toggle(s, postId, postData))
  {
    var r := Toggle(s, postId, postData);
    if postId in s.ids {
      forall id | id in r.ids ensures exists i :: 0 <= i < |r.records| && r.records[i].id == id {
        var i :| 0 <= i < |s.records| && s.records[i].id == id;
        assert s.records[i] in r.records;
        var j :| 0 <= j < |r.records| && r.records[j] == s.records[i];
      }
    } else {
      forall id | id in r.ids ensures exists i :: 0 <= i < |r.records| && r.records[i].id == id {
        if id == postId {
          assert r.records[|s.records|].id == id;
        } else {
          var i :| 0 <= i < |s.records| && s.records[i].id == id;
          assert r.records[i] == s.records[i];
        }
      }
    }
  }

  /** Liking and then unliking an id restores both the set and the records. */
  lemma {:induction false} LikeThenUnlikeRestores(s: Likes, postId: string, d1: LikedPost, d2: LikedPost)
    requires InStep(s) && postId !in s.ids && d1.id == postId
    ensures Toggle(Toggle(s, postId, d1), postId, d2) == s
  {
    var p := (r: LikedPost) => r.id != postId;
    forall i | 0 <= i < |s.records| ensures p(s.records[i]) {
      assert s.records[i].id in s.ids;
    }
    Seqs.FilterAppend(s.records, [d1.(isLiked := true)], p);
    Seqs.FilterAll(s.records, p);
    assert Seqs.Filter([d1.(isLiked := true)], p) == [];
  }

  /** Unliking and liking again restores the set, but the records of that id are
      replaced by the new snapshot, now last in the list. */
  lemma UnlikeThenLikeMovesRecord(s: Likes, postId: string, d1: LikedPost, d2: LikedPost)
    requires postId in s.ids
    ensures var r := Toggle(Toggle(s, postId, d1), postId, d2);
      r.ids == s.ids && r.records == WithoutId(s.records, postId) + [d2.(isLiked := true)]
  {
  }

  /** Filtering by q after filtering by p is filtering by q when q implies p. */
  lemma {:induction false} FilterNarrows(xs: seq<LikedPost>, p: LikedPost -> bool, q: LikedPost -> bool)
    requires forall i :: 0 <= i < |xs| ==> q(xs[i]) ==> p(xs[i])
    ensures Seqs.Filter(Seqs.Filter(xs, p), q) == Seqs.Filter(xs, q)
  {
    if xs != [] {
      FilterNarrows(xs[1..], p, q);
      var t := Seqs.Filter(xs[1..], p);
      if p(xs[0]) {
        assert Seqs.Filter(xs, p) == [xs[0]] + t;
        assert Seqs.Filter(xs, p)[1..] == t;
      } else {
        assert Seqs.Filter(xs, p) == t;
        assert Seqs.Filter(xs, q) == Seqs.Filter(xs[1..], q);
      }
    }
  }

  /** Toggling one id leaves every other id's records as they were. */
  lemma ToggleKeepsOtherRecords(s: Likes, postId: string, postData: LikedPost, other: string)
    requires other != postId && postData.id == postId
    ensures RecordsOf(Toggle(s, postId, postData).records, other) == RecordsOf(s.records, other)
  {
    var q := (r: LikedPost) => r.id == other;
    if postId in s.ids {
      FilterNarrows(s.records, (r: LikedPost) => r.id != postId, q);
    } else {
      Seqs.FilterAppend(s.records, [postData.(isLiked := true)], q);
      assert Seqs.Filter([postData.(isLiked := true)], q) == [];
    }
  }

  /** The provider's state. */
  class LikeManager {
    var likedPosts: set<string>
    var likedPostsData: seq<LikedPost>

    function State(): Likes
      reads this
    {
      Likes(likedPosts, likedPostsData)
    }

    ghost predicate Valid()
      reads this
    {
      InStep(State())
    }

    constructor ()
      ensures likedPosts == {} && likedPostsData == []
      ensures Valid()
    {
      likedPosts := {};
      likedPostsData := [];
    }

    /** `toggleLike(postId, postData)`. */
    method ToggleLike(postId: string, postData: LikedPost)
      modifies this
      ensures State() == Toggle(old(State()), postId, postData)
      ensures old(Valid()) && (postId !in old(likedPosts) ==> postData.id == postId) ==> Valid()
    {
      ghost var s := State();
      if postId in likedPosts {
        likedPosts := likedPosts - {postId};
        likedPostsData := Seqs.Filter(likedPostsData, (p: LikedPost) => p.id != postId);
      } else {
        likedPosts := likedPosts + {postId};
        likedPostsData := likedPostsData + [postData.(isLiked := true)];
      }
      if InStep(s) && (postId !in s.ids ==> postData.id == postId) {
        ToggleKeepsInStep(s, postId, postData);
      }
    }

    /** `isLiked(postId)`: set membership, which in a valid store means some
        liked record carries the id. */
    function IsLiked(postId: string): (liked: bool)
      reads this
      ensures Valid() ==> (liked <==> exists i :: 0 <= i < |likedPostsData| && likedPostsData[i].id == postId)
    {
      postId in likedPosts
    }
  }

  /** Liking and unliking a post from a fresh store leaves nothing behind. */
  method LikeThenUnlike(d: LikedPost) returns (likedBetween: bool, likedAfter: bool, records: nat)
    ensures likedBetween && !likedAfter && records == 0
  {
    var m := new LikeManager();
    m.ToggleLike(d.id, d);
    likedBetween := m.IsLiked(d.id);
    m.ToggleLike(d.id, d);
    likedAfter := m.IsLiked(d.id);
    records := |m.likedPostsData|;
  }
}
