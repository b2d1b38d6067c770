/** The post catalog (`postsDatabase`) and the queries the feeds, search and profile
    screens are built from. The catalog is a module-level array: every query reads its
    current contents, and `getTrendingPosts` sorts it in place. */
module Posts {
  import opened Wrappers
  import Seqs
  import Strings
  import Sorting
  import opened Time

  /** A voice post. A false `hasReplies` and an empty `replyPosts` stand for the
      optional fields being absent. `createdAt` is in milliseconds since the epoch,
      `duration` in seconds. */
  datatype Post = Post(
    id: string, username: string, displayName: string, avatar: string, audioUrl: string,
    duration: int, voiceStyle: string, likes: int, replies: int, timestamp: string,
    isLiked: bool, tags: seq<string>, content: string, createdAt: int,
    hasReplies: bool, replyPosts: seq<Post>)

  /** Posts are always shorter than this many seconds. */
  const DurationLimit := 60
  /** Posts carry at most this many tags. */
  const MaxTags := 3

  /** The invariant the catalog's comments promise of each post. */
  predicate WellFormed(p: Post, loadTime: int)
  {
    |p.tags| <= MaxTags && 0 < p.duration < DurationLimit && p.createdAt <= loadTime
  }

  function Ids(db: seq<Post>): (ids: seq<string>)
    ensures |ids| == |db| && forall i :: 0 <= i < |db| ==> ids[i] == db[i].id
  {
    seq(|db|, i requires 0 <= i < |db| => db[i].id)
  }

  // ---------------------------------------------------------------- feed selections

  const ForYouIds: seq<string> := ["post_1", "post_2", "post_3", "post_4"]
  const FriendsIds: seq<string> := ["post_5", "post_6"]
  const FeaturedIds: seq<string> := ["elon_confession", "post_8", "post_9", "post_10"]
  const EchoHqUsername := "@EchoHQ"

  predicate IsForYou(p: Post) { p.id in ForYouIds }
  predicate IsFriends(p: Post) { p.id in FriendsIds }
  predicate IsFeatured(p: Post) { p.id in FeaturedIds }
  predicate IsEchoHq(p: Post) { p.username == EchoHqUsername }
  predicate IsComedy(p: Post) { "comedy" in p.tags }

  /** `getForYouPosts`: the catalog's posts whose id is one of the four For You ids. */
  function ForYouPosts(db: seq<Post>): (r: seq<Post>)
    ensures Seqs.Selects(r, db, IsForYou)
  {
    Seqs.FilterSelects(db, IsForYou);
    Seqs.Filter(db, IsForYou)
  }

  /** `getFriendsPosts`. */
  function FriendsPosts(db: seq<Post>): (r: seq<Post>)
    ensures Seqs.Selects(r, db, IsFriends)
  {
    Seqs.FilterSelects(db, IsFriends);
    Seqs.Filter(db, IsFriends)
  }

  /** `getFeaturedPosts`. */
  function FeaturedPosts(db: seq<Post>): (r: seq<Post>)
    ensures Seqs.Selects(r, db, IsFeatured)
  {
    Seqs.FilterSelects(db, IsFeatured);
    Seqs.Filter(db, IsFeatured)
  }

  /** `getEchoHQPosts`: the posts whose username is exactly "@EchoHQ". */
  function EchoHqPosts(db: seq<Post>): (r: seq<Post>)
    ensures Seqs.Selects(r, db, IsEchoHq)
  {
    Seqs.FilterSelects(db, IsEchoHq);
    Seqs.Filter(db, IsEchoHq)
  }

  /** `getComedyPosts`: the posts tagged exactly "comedy". */
  function ComedyPosts(db: seq<Post>): (r: seq<Post>)
    ensures Seqs.Selects(r, db, IsComedy)
  {
    Seqs.FilterSelects(db, IsComedy);
    Seqs.Filter(db, IsComedy)
  }

  // ---------------------------------------------------------------- text queries

  /** The username contains the argument, ignoring case. */
  predicate UserMatches(p: Post, username: string)
  {
    Strings.Contains(Strings.ToLower(p.username), Strings.ToLower(username))
  }

  /** `getUserPosts(username)`. */
  function UserPosts(db: seq<Post>, username: string): (r: seq<Post>)
    ensures Seqs.Selects(r, db, p => UserMatches(p, username))
  {
    Seqs.FilterSelects(db, p => UserMatches(p, username));
    Seqs.Filter(db, p => UserMatches(p, username))
  }

  /** The content, a tag, the display name or the username contains the query,
      ignoring case. */
  predicate SearchMatches(p: Post, query: string)
  {
    var lq := Strings.ToLower(query);
    Strings.Contains(Strings.ToLower(p.content), lq) ||
    Seqs.Some(p.tags, (t: string) => Strings.Contains(Strings.ToLower(t), lq)) ||
    Strings.Contains(Strings.ToLower(p.displayName), lq) ||
    Strings.Contains(Strings.ToLower(p.username), lq)
  }

  /** `searchPosts(query)`. */
  function SearchPosts(db: seq<Post>, query: string): (r: seq<Post>)
    ensures Seqs.Selects(r, db, p => SearchMatches(p, query))
  {
    Seqs.FilterSelects(db, p => SearchMatches(p, query));
    Seqs.Filter(db, p => SearchMatches(p, query))
  }

  /** One of the post's tags equals the argument, ignoring case. */
  predicate HasTag(p: Post, tag: string)
  {
    Seqs.Some(p.tags, (t: string) => Strings.ToLower(t) == Strings.ToLower(tag))
  }

  /** `getPostsByTag(tag)`. */
  function PostsByTag(db: seq<Post>, tag: string): (r: seq<Post>)
    ensures Seqs.Selects(r, db, p => HasTag(p, tag))
  {
    Seqs.FilterSelects(db, p => HasTag(p, tag));
    Seqs.Filter(db, p => HasTag(p, tag))
  }

  /** `getPostById(id)`: the first post with that id, or none. */
  function PostById(db: seq<Post>, id: string): (r: Option<Post>)
    ensures r.None? <==> forall i :: 0 <= i < |db| ==> db[i].id != id
    ensures r.Some? ==> r.value in db && r.value.id == id
    ensures r.Some? ==> exists i :: 0 <= i < |db| && db[i] == r.value && forall j :: 0 <= j < i ==> db[j].id != id
  {
    Seqs.Find(db, (p: Post) => p.id == id)
  }

  // ---------------------------------------------------------------- query properties

  /** The empty query matches every post, in search and in the username query. */
  lemma EmptyQueryMatchesAll(db: seq<Post>)
    ensures SearchPosts(db, "") == db
    ensures UserPosts(db, "") == db
  {
    assert Strings.ToLower("") == "";
    forall i | 0 <= i < |db| ensures SearchMatches(db[i], "") && UserMatches(db[i], "") {
      Strings.ContainsSelfAndEmpty(Strings.ToLower(db[i].content));
      Strings.ContainsSelfAndEmpty(Strings.ToLower(db[i].username));
    }
    Seqs.FilterAll(db, p => SearchMatches(p, ""));
    Seqs.FilterAll(db, p => UserMatches(p, ""));
  }

  /** Search ignores case: two queries that lower-case alike find the same posts. */
  lemma SearchIgnoresCase(db: seq<Post>, q1: string, q2: string)
    requires Strings.ToLower(q1) == Strings.ToLower(q2)
    ensures SearchPosts(db, q1) == SearchPosts(db, q2)
    ensures UserPosts(db, q1) == UserPosts(db, q2)
    ensures PostsByTag(db, q1) == PostsByTag(db, q2)
  {
    Seqs.FilterCongruent(db, p => SearchMatches(p, q1), p => SearchMatches(p, q2));
    Seqs.FilterCongruent(db, p => UserMatches(p, q1), p => UserMatches(p, q2));
    Seqs.FilterCongruent(db, p => HasTag(p, q1), p => HasTag(p, q2));
  }

  /** Every post the username query finds, search finds too, in the same order. */
  lemma UserPostsWithinSearch(db: seq<Post>, q: string)
    ensures Seqs.IsSubsequence(UserPosts(db, q), SearchPosts(db, q))
  {
    Seqs.FilterMonotone(db, p => UserMatches(p, q), p => SearchMatches(p, q));
  }

  /** Every post carrying a tag is found by searching for that tag. */
  lemma TagPostsWithinSearch(db: seq<Post>, tag: string)
    ensures Seqs.IsSubsequence(PostsByTag(db, tag), SearchPosts(db, tag))
  {
    var lq := Strings.ToLower(tag);
    forall i | 0 <= i < |db| && HasTag(db[i], tag) ensures SearchMatches(db[i], tag) {
      var tags := db[i].tags;
      Seqs.SomeMeansExists(tags, (t: string) => Strings.ToLower(t) == lq);
      var k :| 0 <= k < |tags| && Strings.ToLower(tags[k]) == lq;
      Strings.ContainsSelfAndEmpty(lq);
      Seqs.SomeMeansExists(tags, (t: string) => Strings.Contains(Strings.ToLower(t), lq));
    }
    Seqs.FilterMonotone(db, p => HasTag(p, tag), p => SearchMatches(p, tag));
  }

  /** The comedy feed is part of what the "comedy" tag query returns. */
  lemma ComedyWithinTag(db: seq<Post>)
    ensures Seqs.IsSubsequence(ComedyPosts(db), PostsByTag(db, "comedy"))
  {
    assert Strings.ToLower("comedy") == "comedy";
    forall i | 0 <= i < |db| && IsComedy(db[i]) ensures HasTag(db[i], "comedy") {
      var tags := db[i].tags;
      var k :| 0 <= k < |tags| && tags[k] == "comedy";
      Seqs.SomeMeansExists(tags, (t: string) => Strings.ToLower(t) == Strings.ToLower("comedy"));
    }
    Seqs.FilterMonotone(db, IsComedy, p => HasTag(p, "comedy"));
  }

  /** The EchoHQ profile's posts all turn up when querying the username "echohq". */
  lemma EchoHqWithinUserQuery(db: seq<Post>)
    ensures Seqs.IsSubsequence(EchoHqPosts(db), UserPosts(db, "echohq"))
  {
    assert Strings.ToLower("echohq") == "echohq";
    assert Strings.ToLower(EchoHqUsername) == "@echohq";
    assert Strings.OccursAt("@echohq", "echohq", 1);
    Strings.ContainsIffOccurs("@echohq", "echohq");
    Seqs.FilterMonotone(db, IsEchoHq, p => UserMatches(p, "echohq"));
  }

  /** In a catalog whose ids are distinct, looking a post up by its id finds it. */
  lemma PostByIdFindsEach(db: seq<Post>, k: nat)
    requires Seqs.Distinct(Ids(db)) && k < |db|
    ensures PostById(db, db[k].id) == Some(db[k])
  {
    var r := PostById(db, db[k].id);
    var i :| 0 <= i < |db| && db[i] == r.value && db[i].id == db[k].id &&
             forall j :: 0 <= j < i ==> db[j].id != db[k].id;
    assert Ids(db)[i] == Ids(db)[k];
  }

  // ---------------------------------------------------------------- trending

  /** getTrendingPosts' comparator `b.likes - a.likes`: most liked first. */
  function ByLikes(p: Post): Sorting.Rank { (p.likes, 0) }

  /** The trending list of a catalog: the ten most liked posts, most liked first. */
  function Trending(db: seq<Post>): (r: seq<Post>)
    ensures |r| == (if |db| < 10 then |db| else 10)
    ensures forall i :: 0 <= i < |r| ==> r[i] in db
  {
    var s := Sorting.Sort(db, ByLikes);
    Sorting.SortPermutes(db, ByLikes);
    assert forall i :: 0 <= i < |s| ==> s[i] in multiset(s);
    Seqs.Take(s, 10)
  }

  /** The trending list is in likes order, has min(10, |db|) posts all from db, and
      every post of db left out of it has no more likes than any post in it. */
  lemma {:induction false} TrendingIsTopTen(db: seq<Post>)
    ensures var r := Trending(db);
      |r| == (if |db| < 10 then |db| else 10) &&
      Sorting.SortedDesc(r, ByLikes) &&
      (forall i :: 0 <= i < |r| ==> r[i] in db) &&
      (forall x :: x in db && x !in r ==> forall i :: 0 <= i < |r| ==> r[i].likes >= x.likes)
  {
    var s := Sorting.Sort(db, ByLikes);
    var r := Trending(db);
    Sorting.SortIsSorted(db, ByLikes);
    Sorting.SortPermutes(db, ByLikes);
    assert |s| == |db| && r == s[..|r|];
    forall i | 0 <= i < |r| ensures r[i] in db {
      assert r[i] == s[i] && s[i] in multiset(s);
    }
    forall x | x in db && x !in r ensures forall i :: 0 <= i < |r| ==> r[i].likes >= x.likes {
      assert x in multiset(s);
      var k :| 0 <= k < |s| && s[k] == x;
      assert k >= |r|;
      forall i | 0 <= i < |r| ensures r[i].likes >= x.likes {
        assert r[i] == s[i] && Sorting.RankGe(ByLikes(s[i]), ByLikes(s[k]));
      }
    }
  }

  /** The module-level catalog array. */
  class PostsDatabase {
    var posts: array<Post>

    /** The array holding db; the application starts from `Catalog(loadTime)`. */
    constructor (db: seq<Post>)
      ensures fresh(posts) && posts[..] == db
    {
      posts := new Post[|db|](i requires 0 <= i < |db| => db[i]);
    }

    /** `getTrendingPosts` as written: `postsDatabase.sort(...)` sorts the shared
        catalog itself before taking the first ten. */
    method GetTrendingPosts() returns (r: seq<Post>)
      modifies posts
      ensures posts[..] == Sorting.Sort(old(posts[..]), ByLikes)
      ensures r == Trending(old(posts[..]))
    {
      Sorting.SortDescending(posts, ByLikes);
      r := Seqs.Take(posts[..], 10);
    }

    /** getTrendingPosts computed on a copy, leaving the catalog's order alone. */
    method TrendingPostsOnCopy() returns (r: seq<Post>)
      ensures r == Trending(posts[..])
    {
      var sorted := Sorting.SortedCopy(posts[..], ByLikes);
      r := Seqs.Take(sorted, 10);
    }
  }

  /** After the in-place sort every selection comes back in likes order. */
  lemma QueriesAfterTrendingSorted(db: seq<Post>, p: Post -> bool)
    ensures Sorting.SortedDesc(Seqs.Filter(Sorting.Sort(db, ByLikes), p), ByLikes)
  {
    Sorting.SortIsSorted(db, ByLikes);
    Sorting.FilterOfSorted(Sorting.Sort(db, ByLikes), p, ByLikes);
  }

  /** Calling getTrendingPosts changes what getForYouPosts returns afterwards: the
      four For You posts come back most-liked first instead of in feed order. */
  lemma TrendingReordersForYou(loadTime: int)
    ensures ForYouPosts(Sorting.Sort(Catalog(loadTime), ByLikes)) != ForYouPosts(Catalog(loadTime))
  {
    var db := Catalog(loadTime);
    QueriesAfterTrendingSorted(db, IsForYou);
    CatalogForYou(loadTime);
    CatalogForYouLikes(loadTime);
    var before := ForYouPosts(db);
    assert before[1] == db[1] && before[2] == db[2];
    assert !Sorting.RankGe(ByLikes(before[1]), ByLikes(before[2]));
  }

  // ---------------------------------------------------------------- the catalog

  const EchoHqAvatar := "https://images.pexels.com/photos/1181686/pexels-photo-1181686.jpeg?auto=compress&cs=tinysrgb&w=150&h=150&fit=crop"

  /** Every catalog post is well formed, and the ids are distinct. */
  lemma CatalogInvariant(loadTime: int)
    ensures |Catalog(loadTime)| == 24
    ensures forall i :: 0 <= i < |Catalog(loadTime)| ==> WellFormed(Catalog(loadTime)[i], loadTime)
    ensures Ids(Catalog(loadTime)) == CatalogIds
    ensures Seqs.Distinct(Ids(Catalog(loadTime)))
  {
    RelativeCatalogShape();
    CatalogIdsDistinct();
    CatalogIdsAtLoadTime(loadTime);
  }

  /** Moving the catalog to load time keeps its ids. */
  lemma CatalogIdsAtLoadTime(loadTime: int)
    ensures Ids(Catalog(loadTime)) == CatalogIds
  {
    RelativeCatalogIds();
    var db := Catalog(loadTime);
    forall i | 0 <= i < |db| ensures db[i].id == RelativeCatalog[i].id {
      assert db[i] == AtLoadTime(RelativeCatalog[i], loadTime);
    }
    assert Ids(db) == Ids(RelativeCatalog);
  }

  lemma RelativeCatalogShape()
    ensures |RelativeCatalog| == 24
    ensures forall i :: 0 <= i < |RelativeCatalog| ==>
      |RelativeCatalog[i].tags| <= MaxTags && 0 < RelativeCatalog[i].duration < DurationLimit &&
      RelativeCatalog[i].createdAt <= 0
    ensures Ids(RelativeCatalog) == CatalogIds
  {
    RelativeCatalogTags();
    RelativeCatalogDurations();
    RelativeCatalogTimes();
    RelativeCatalogIds();
  }

  lemma RelativeCatalogTags()
    ensures forall i :: 0 <= i < |RelativeCatalog| ==> |RelativeCatalog[i].tags| <= MaxTags
  {
    var top, replies := TopLevelPosts, Post1Replies + Post2Replies;
    assert forall i :: 0 <= i < |top| ==> |top[i].tags| <= MaxTags;
    assert forall i :: 0 <= i < |replies| ==> |replies[i].tags| <= MaxTags;
    forall i | 0 <= i < |RelativeCatalog| ensures |RelativeCatalog[i].tags| <= MaxTags {
      if i < |top| {
        assert RelativeCatalog[i] == top[i];
      } else {
        assert RelativeCatalog[i] == replies[i - |top|];
      }
    }
  }

  lemma RelativeCatalogDurations()
    ensures forall i :: 0 <= i < |RelativeCatalog| ==> 0 < RelativeCatalog[i].duration < DurationLimit
  {
    var top, replies := TopLevelPosts, Post1Replies + Post2Replies;
    assert forall i :: 0 <= i < |top| ==> 0 < top[i].duration < DurationLimit;
    assert forall i :: 0 <= i < |replies| ==> 0 < replies[i].duration < DurationLimit;
    forall i | 0 <= i < |RelativeCatalog| ensures 0 < RelativeCatalog[i].duration < DurationLimit {
      if i < |top| {
        assert RelativeCatalog[i] == top[i];
      } else {
        assert RelativeCatalog[i] == replies[i - |top|];
      }
    }
  }

  lemma RelativeCatalogTimes()
    ensures forall i :: 0 <= i < |RelativeCatalog| ==> RelativeCatalog[i].createdAt <= 0
  {
    var top, replies := TopLevelPosts, Post1Replies + Post2Replies;
    assert forall i :: 0 <= i < |top| ==> top[i].createdAt <= 0;
    assert forall i :: 0 <= i < |replies| ==> replies[i].createdAt <= 0;
    forall i | 0 <= i < |RelativeCatalog| ensures RelativeCatalog[i].createdAt <= 0 {
      if i < |top| {
        assert RelativeCatalog[i] == top[i];
      } else {
        assert RelativeCatalog[i] == replies[i - |top|];
      }
    }
  }

  lemma RelativeCatalogIds()
    ensures |RelativeCatalog| == 24
    ensures Ids(RelativeCatalog) == CatalogIds
  {
  }

  lemma CatalogIdsDistinct()
    ensures Seqs.Distinct(CatalogIds)
  {
    var feed := ["post_1", "post_2", "post_3", "post_4", "post_5", "post_6", "post_7", "post_8", "post_9"];
    var more := ["post_10", "elon_confession", "post_11"];
    var shows := ["comedy_1", "comedy_2", "comedy_3", "echohq_1", "echohq_2", "echohq_3", "echohq_4", "echohq_5"];
    var replies := ["reply_1_1", "reply_1_2", "reply_2_1", "reply_2_2"];
    assert Seqs.Distinct(feed);
    assert Seqs.Distinct(more);
    assert Seqs.Distinct(shows);
    assert Seqs.Distinct(replies);
    Seqs.DistinctConcat(feed, more);
    Seqs.DistinctConcat(feed + more, shows);
    Seqs.DistinctConcat(feed + more + shows, replies);
    assert CatalogIds == feed + more + shows + replies;
  }

  const CatalogIds: seq<string> := [
    "post_1", "post_2", "post_3", "post_4", "post_5", "post_6", "post_7", "post_8", "post_9",
    "post_10", "elon_confession", "post_11", "comedy_1", "comedy_2", "comedy_3", "echohq_1",
    "echohq_2", "echohq_3", "echohq_4", "echohq_5", "reply_1_1", "reply_1_2", "reply_2_1",
    "reply_2_2"]

  /** The For You feed is the first four catalog posts. */
  lemma CatalogForYou(loadTime: int)
    ensures ForYouPosts(Catalog(loadTime)) == Catalog(loadTime)[..4]
  {
    var db := Catalog(loadTime);
    CatalogInvariant(loadTime);
    ForYouIdsInCatalog();
    assert forall i :: 0 <= i < |db| ==> db[i].id == CatalogIds[i];
    Seqs.FilterBand(db, IsForYou, 0, 4);
  }

  /** post_2 has fewer likes than post_3. */
  lemma CatalogForYouLikes(loadTime: int)
    ensures |Catalog(loadTime)| == 24
    ensures Catalog(loadTime)[1].likes == 89 && Catalog(loadTime)[2].likes == 256
  {
    var db := Catalog(loadTime);
    assert db[1] == AtLoadTime(RelativeCatalog[1], loadTime);
    assert db[2] == AtLoadTime(RelativeCatalog[2], loadTime);
  }

  lemma ForYouIdsInCatalog()
    ensures |CatalogIds| == 24
    ensures forall i :: 0 <= i < 24 ==> (CatalogIds[i] in ForYouIds <==> i < 4)
  {
  }

  /** The EchoHQ profile's posts are the five echohq_ entries, in catalog order. */
  lemma CatalogEchoHq(loadTime: int)
    ensures EchoHqPosts(Catalog(loadTime)) == Catalog(loadTime)[15..20]
  {
    var db := Catalog(loadTime);
    CatalogUsernames(loadTime);
    Seqs.FilterBand(db, IsEchoHq, 15, 20);
  }

  lemma CatalogUsernames(loadTime: int)
    ensures |Catalog(loadTime)| == 24
    ensures forall i :: 0 <= i < 24 ==> (Catalog(loadTime)[i].username == EchoHqUsername <==> 15 <= i < 20)
  {
    EchoHqInRelativeCatalog();
    var db := Catalog(loadTime);
    forall i | 0 <= i < 24 ensures db[i].username == RelativeCatalog[i].username {
      assert db[i] == AtLoadTime(RelativeCatalog[i], loadTime);
    }
  }

  lemma EchoHqInRelativeCatalog()
    ensures |RelativeCatalog| == 24
    ensures forall i :: 0 <= i < 24 ==> (RelativeCatalog[i].username == EchoHqUsername <==> 15 <= i < 20)
  {
  }

  /** p with its creation time, and its replies', moved from relative to the load
      time to absolute; nothing else changes. */
  function AtLoadTime(p: Post, loadTime: int): (q: Post)
    ensures q.createdAt == p.createdAt + loadTime
    ensures q.(createdAt := p.createdAt, replyPosts := p.replyPosts) == p
    ensures |q.replyPosts| == |p.replyPosts|
    decreases p
  {
    p.(createdAt := p.createdAt + loadTime,
       replyPosts := seq(|p.replyPosts|, j requires 0 <= j < |p.replyPosts| => AtLoadTime(p.replyPosts[j], loadTime)))
  }

  /** `postsDatabase` as the module builds it when it is loaded at time loadTime (ms). */
  function Catalog(loadTime: int): (db: seq<Post>)
    ensures |db| == |RelativeCatalog|
    ensures forall i :: 0 <= i < |db| ==> db[i] == AtLoadTime(RelativeCatalog[i], loadTime)
  {
    seq(|RelativeCatalog|, i requires 0 <= i < |RelativeCatalog| => AtLoadTime(RelativeCatalog[i], loadTime))
  }

  const Post1: Post :=
    Post(
      id := "post_1", username := "@alex_voice", displayName := "Alex Chen",
      avatar := "https://images.pexels.com/photos/1239291/pexels-photo-1239291.jpeg?auto=compress&cs=tinysrgb&w=150&h=150&fit=crop",
      audioUrl := "https://www.soundjay.com/misc/sounds/bell-ringing-05.wav",
      duration := 28, voiceStyle := "Chill Narrator", likes := 142, replies := 25,
      timestamp := "2h", isLiked := false, tags := ["deepthoughts", "philosophy", "mindfulness"],
      content := "Just had the most incredible conversation with a stranger at the coffee shop. Sometimes the best connections happen when you least expect them. We talked about everything from philosophy to our favorite books, and I left feeling so inspired.",
      createdAt := -2 * Hour, hasReplies := true, replyPosts := Post1Replies)

  const Post2: Post :=
    Post(
      id := "post_2", username := "@sarah_speaks", displayName := "Sarah Kim",
      avatar := "https://images.pexels.com/photos/774909/pexels-photo-774909.jpeg?auto=compress&cs=tinysrgb&w=150&h=150&fit=crop",
      audioUrl := "https://www.soundjay.com/misc/sounds/bell-ringing-05.wav",
      duration := 45, voiceStyle := "Energetic Host", likes := 89, replies := 14,
      timestamp := "4h", isLiked := true, tags := ["motivation", "energy", "morning"],
      content := "Morning motivation: Your energy introduces you before you even speak. Today I'm choosing to radiate positivity and see how it transforms not just my day, but the days of everyone I encounter.",
      createdAt := -4 * Hour, hasReplies := true, replyPosts := Post2Replies)

  const Post3: Post :=
    Post(
      id := "post_3", username := "@mike_audio", displayName := "Mike Johnson",
      avatar := "https://images.pexels.com/photos/1222271/pexels-photo-1222271.jpeg?auto=compress&cs=tinysrgb&w=150&h=150&fit=crop",
      audioUrl := "https://www.soundjay.com/misc/sounds/bell-ringing-05.wav",
      duration := 52, voiceStyle := "Wise Storyteller", likes := 256, replies := 47,
      timestamp := "6h", isLiked := false, tags := ["confession", "anonymous", "secrets"],
      content := "I have a confession to make. For years, I've been afraid to share my real thoughts, hiding behind what I thought people wanted to hear. But authenticity is magnetic, and I'm done pretending to be anyone other than myself.",
      createdAt := -6 * Hour, hasReplies := false, replyPosts := [])

  const Post4: Post :=
    Post(
      id := "post_4", username := "@radiowave", displayName := "RadioWave",
      avatar := "https://images.pexels.com/photos/1222271/pexels-photo-1222271.jpeg?auto=compress&cs=tinysrgb&w=150&h=150&fit=crop",
      audioUrl := "https://www.soundjay.com/misc/sounds/bell-ringing-05.wav",
      duration := 38, voiceStyle := "Peppy Radio Host", likes := 178, replies := 31,
      timestamp := "8h", isLiked := false, tags := ["motivation", "energy", "morning"],
      content := "Good morning beautiful souls! Remember that every sunrise is a new opportunity to become the person you've always wanted to be. Let's make today absolutely incredible!",
      createdAt := -8 * Hour, hasReplies := false, replyPosts := [])

  const Post5: Post :=
    Post(
      id := "post_5", username := "@natalie_morning", displayName := "Natalie Chen",
      avatar := "https://images.pexels.com/photos/1181686/pexels-photo-1181686.jpeg?auto=compress&cs=tinysrgb&w=150&h=150&fit=crop",
      audioUrl := "https://www.soundjay.com/misc/sounds/bell-ringing-05.wav",
      duration := 42, voiceStyle := "Warm Morning Voice", likes := 234, replies := 45,
      timestamp := "1h", isLiked := false, tags := ["morning", "coffee", "gratitude"],
      content := "Good morning everyone! Just had my first cup of coffee and I'm feeling so grateful for this beautiful day. There's something magical about morning light streaming through the windows.",
      createdAt := -1 * Hour, hasReplies := false, replyPosts := [])

  const Post6: Post :=
    Post(
      id := "post_6", username := "@encode_club", displayName := "Encode Club",
      avatar := "https://images.pexels.com/photos/3861969/pexels-photo-3861969.jpeg?auto=compress&cs=tinysrgb&w=150&h=150&fit=crop",
      audioUrl := "https://www.soundjay.com/misc/sounds/bell-ringing-05.wav",
      duration := 35, voiceStyle := "Tech Educator", likes := 567, replies := 89,
      timestamp := "3h", isLiked := true, tags := ["coding", "education", "web3"],
      content := "Today we're diving deep into smart contract security. Remember, in Web3, your code is your contract with the world. Every line matters, every function call is a promise. Let's build the future responsibly.",
      createdAt := -3 * Hour, hasReplies := false, replyPosts := [])

  const Post7: Post :=
    Post(
      id := "post_7", username := "@midnight_thinker", displayName := "MidnightThinker",
      avatar := "https://images.pexels.com/photos/1239291/pexels-photo-1239291.jpeg?auto=compress&cs=tinysrgb&w=150&h=150&fit=crop",
      audioUrl := "https://www.soundjay.com/misc/sounds/bell-ringing-05.wav",
      duration := 45, voiceStyle := "Deep Narrator Voice", likes := 892, replies := 134,
      timestamp := "2h", isLiked := false, tags := ["deepthoughts", "philosophy", "existence"],
      content := "What if consciousness is just the universe trying to understand itself through our eyes? Every thought we have is a cosmic conversation.",
      createdAt := -2 * Hour, hasReplies := false, replyPosts := [])

  const Post8: Post :=
    Post(
      id := "post_8", username := "@wisdom_voice", displayName := "Wisdom Voice",
      avatar := "https://images.pexels.com/photos/1130626/pexels-photo-1130626.jpeg?auto=compress&cs=tinysrgb&w=150&h=150&fit=crop",
      audioUrl := "https://www.soundjay.com/misc/sounds/bell-ringing-05.wav",
      duration := 42, voiceStyle := "Sage Storyteller", likes := 2847, replies := 234,
      timestamp := "5h", isLiked := false, tags := ["wisdom", "life", "growth"],
      content := "Life has taught me that wisdom isn't about having all the answers\U{2014}it's about asking better questions. Today I want to share three questions that completely changed how I see the world and my place in it.",
      createdAt := -5 * Hour, hasReplies := false, replyPosts := [])

  const Post9: Post :=
    Post(
      id := "post_9", username := "@energy_boost", displayName := "Energy Boost",
      avatar := "https://images.pexels.com/photos/1043471/pexels-photo-1043471.jpeg?auto=compress&cs=tinysrgb&w=150&h=150&fit=crop",
      audioUrl := "https://www.soundjay.com/misc/sounds/bell-ringing-05.wav",
      duration := 28, voiceStyle := "Energetic Coach", likes := 1923, replies := 156,
      timestamp := "7h", isLiked := false, tags := ["motivation", "energy", "success"],
      content := "Your Monday morning energy sets the tone for your entire week! I'm sharing my 5-minute ritual that transforms how I show up every single day. It's simple, powerful, and will change everything.",
      createdAt := -7 * Hour, hasReplies := false, replyPosts := [])

  const Post10: Post :=
    Post(
      id := "post_10", username := "@heartbreak_healer", displayName := "Heartbreak Healer",
      avatar := "https://images.pexels.com/photos/1181686/pexels-photo-1181686.jpeg?auto=compress&cs=tinysrgb&w=150&h=150&fit=crop",
      audioUrl := "https://www.soundjay.com/misc/sounds/bell-ringing-05.wav",
      duration := 35, voiceStyle := "Gentle Counselor", likes := 3156, replies := 289,
      timestamp := "9h", isLiked := false, tags := ["breakups", "healing", "selflove"],
      content := "Six months ago, I thought my world was ending. Today, I'm grateful for that heartbreak because it led me to the most important relationship of my life\U{2014}the one with myself. Here's what I learned.",
      createdAt := -9 * Hour, hasReplies := false, replyPosts := [])

  const ElonConfession: Post :=
    Post(
      id := "elon_confession", username := "@elonmusk", displayName := "Elon Musk",
      avatar := "https://images.pexels.com/photos/2182970/pexels-photo-2182970.jpeg?auto=compress&cs=tinysrgb&w=150&h=150&fit=crop",
      audioUrl := "https://www.soundjay.com/misc/sounds/bell-ringing-05.wav",
      duration := 57, voiceStyle := "Dramatic Reader", likes := 15847, replies := 2341,
      timestamp := "3h", isLiked := false, tags := ["confession", "truth", "leadership"],
      content := "I need to confess something that's been weighing on me. Despite all the success, the rockets, the companies... I still feel like that awkward kid who just wanted to build cool things. Sometimes I wonder if I'm just really good at pretending to know what I'm doing. The truth is, every major decision terrifies me, but I've learned that courage isn't the absence of fear\U{2014}it's acting despite it.",
      createdAt := -3 * Hour, hasReplies := false, replyPosts := [])

  const Post11: Post :=
    Post(
      id := "post_11", username := "@the_confessor", displayName := "TheConfessor",
      avatar := "https://images.pexels.com/photos/774909/pexels-photo-774909.jpeg?auto=compress&cs=tinysrgb&w=150&h=150&fit=crop",
      audioUrl := "https://www.soundjay.com/misc/sounds/bell-ringing-05.wav",
      duration := 29, voiceStyle := "Whisper", likes := 445, replies := 67,
      timestamp := "3h", isLiked := false, tags := ["confession", "secrets", "truth"],
      content := "I've been pretending to be confident for so long that I forgot what my real voice sounds like. This is me, unfiltered.",
      createdAt := -3 * Hour, hasReplies := false, replyPosts := [])

  const Comedy1: Post :=
    Post(
      id := "comedy_1", username := "@funny_voice", displayName := "Comedy Central",
      avatar := "https://images.pexels.com/photos/1043471/pexels-photo-1043471.jpeg?auto=compress&cs=tinysrgb&w=150&h=150&fit=crop",
      audioUrl := "https://www.soundjay.com/misc/sounds/bell-ringing-05.wav",
      duration := 34, voiceStyle := "Stand-up Comedian", likes := 1567, replies := 234,
      timestamp := "1h", isLiked := false, tags := ["comedy", "humor", "standup"],
      content := "So I went to the gym yesterday... just kidding, I drove past it and felt really good about myself. That counts as exercise, right? My car definitely got a workout!",
      createdAt := -1 * Hour, hasReplies := false, replyPosts := [])

  const Comedy2: Post :=
    Post(
      id := "comedy_2", username := "@laugh_track", displayName := "Laugh Track",
      avatar := "https://images.pexels.com/photos/1222271/pexels-photo-1222271.jpeg?auto=compress&cs=tinysrgb&w=150&h=150&fit=crop",
      audioUrl := "https://www.soundjay.com/misc/sounds/bell-ringing-05.wav",
      duration := 41, voiceStyle := "Impressionist", likes := 2134, replies := 345,
      timestamp := "3h", isLiked := false, tags := ["comedy", "impressions", "entertainment"],
      content := "My impression of my phone battery at 2%: *dramatic whisper* \"I don't feel so good...\" *dies*. Why do phones have more dramatic death scenes than most movies?",
      createdAt := -3 * Hour, hasReplies := false, replyPosts := [])

  const Comedy3: Post :=
    Post(
      id := "comedy_3", username := "@dad_jokes_daily", displayName := "Dad Jokes Daily",
      avatar := "https://images.pexels.com/photos/2182970/pexels-photo-2182970.jpeg?auto=compress&cs=tinysrgb&w=150&h=150&fit=crop",
      audioUrl := "https://www.soundjay.com/misc/sounds/bell-ringing-05.wav",
      duration := 23, voiceStyle := "Dad Voice", likes := 892, replies := 156,
      timestamp := "5h", isLiked := false, tags := ["comedy", "dadjokes", "family"],
      content := "Why don't scientists trust atoms? Because they make up everything! *ba dum tss* I'll see myself out... but first, did you hear about the mathematician who's afraid of negative numbers?",
      createdAt := -5 * Hour, hasReplies := false, replyPosts := [])

  const EchoHq1: Post :=
    Post(
      id := "echohq_1", username := "@EchoHQ", displayName := "EchoHQ",
      avatar := EchoHqAvatar,
      audioUrl := "https://www.soundjay.com/misc/sounds/bell-ringing-05.wav",
      duration := 33, voiceStyle := "Original", likes := 89, replies := 15,
      timestamp := "30m", isLiked := false, tags := ["authentic", "voice", "original"],
      content := "Testing out my authentic voice for the first time. No filters, no effects, just me sharing what's on my mind. There's something powerful about speaking your truth in your own voice.",
      createdAt := -30 * Minute, hasReplies := false, replyPosts := [])

  const EchoHq2: Post :=
    Post(
      id := "echohq_2", username := "@EchoHQ", displayName := "EchoHQ",
      avatar := EchoHqAvatar,
      audioUrl := "https://www.soundjay.com/misc/sounds/bell-ringing-05.wav",
      duration := 41, voiceStyle := "Thoughtful Narrator", likes := 156, replies := 28,
      timestamp := "2h", isLiked := false, tags := ["reflection", "growth", "journey"],
      content := "Been reflecting on how much this platform has changed the way I communicate. Voice has this incredible ability to convey emotion and nuance that text just can't capture. Every echo tells a story.",
      createdAt := -2 * Hour, hasReplies := false, replyPosts := [])

  const EchoHq3: Post :=
    Post(
      id := "echohq_3", username := "@EchoHQ", displayName := "EchoHQ",
      avatar := EchoHqAvatar,
      audioUrl := "https://www.soundjay.com/misc/sounds/bell-ringing-05.wav",
      duration := 38, voiceStyle := "Inspiring Guide", likes := 234, replies := 42,
      timestamp := "4h", isLiked := false, tags := ["community", "connection", "voices"],
      content := "What amazes me most about this community is how diverse voices come together to create something beautiful. Each person brings their unique perspective, their own way of seeing the world.",
      createdAt := -4 * Hour, hasReplies := false, replyPosts := [])

  const EchoHq4: Post :=
    Post(
      id := "echohq_4", username := "@EchoHQ", displayName := "EchoHQ",
      avatar := EchoHqAvatar,
      audioUrl := "https://www.soundjay.com/misc/sounds/bell-ringing-05.wav",
      duration := 29, voiceStyle := "Original", likes := 178, replies := 31,
      timestamp := "6h", isLiked := false, tags := ["gratitude", "community", "authentic"],
      content := "Grateful for everyone who listens and shares their own stories. This is what authentic connection looks like in the digital age.",
      createdAt := -6 * Hour, hasReplies := false, replyPosts := [])

  const EchoHq5: Post :=
    Post(
      id := "echohq_5", username := "@EchoHQ", displayName := "EchoHQ",
      avatar := EchoHqAvatar,
      audioUrl := "https://www.soundjay.com/misc/sounds/bell-ringing-05.wav",
      duration := 44, voiceStyle := "Warm Storyteller", likes := 312, replies := 56,
      timestamp := "8h", isLiked := false, tags := ["storytelling", "memories", "voice"],
      content := "There's something magical about hearing someone's voice tell a story. It's not just the words\U{2014}it's the pauses, the emphasis, the emotion behind each syllable. That's the power of voice.",
      createdAt := -8 * Hour, hasReplies := false, replyPosts := [])

  const Reply1a: Post :=
    Post(
      id := "reply_1_1", username := "@sarah_speaks", displayName := "Sarah Kim",
      avatar := "https://images.pexels.com/photos/774909/pexels-photo-774909.jpeg?auto=compress&cs=tinysrgb&w=150&h=150&fit=crop",
      audioUrl := "https://www.soundjay.com/misc/sounds/bell-ringing-05.wav",
      duration := 22, voiceStyle := "Warm Response", likes := 45, replies := 0,
      timestamp := "1h", isLiked := false, tags := ["response", "connection"],
      content := "This is so true! I had a similar experience last week at a bookstore. Sometimes the universe puts exactly the right person in your path when you need them most.",
      createdAt := -1 * Hour, hasReplies := false, replyPosts := [])

  const Reply1b: Post :=
    Post(
      id := "reply_1_2", username := "@wisdom_voice", displayName := "Wisdom Voice",
      avatar := "https://images.pexels.com/photos/1130626/pexels-photo-1130626.jpeg?auto=compress&cs=tinysrgb&w=150&h=150&fit=crop",
      audioUrl := "https://www.soundjay.com/misc/sounds/bell-ringing-05.wav",
      duration := 28, voiceStyle := "Thoughtful Reflection", likes := 67, replies := 0,
      timestamp := "45m", isLiked := false, tags := ["wisdom", "serendipity"],
      content := "Beautiful reminder that meaningful connections often happen in the most unexpected places. These chance encounters teach us to stay open and present in every moment.",
      createdAt := -45 * Minute, hasReplies := false, replyPosts := [])

  const Reply2a: Post :=
    Post(
      id := "reply_2_1", username := "@energy_boost", displayName := "Energy Boost",
      avatar := "https://images.pexels.com/photos/1043471/pexels-photo-1043471.jpeg?auto=compress&cs=tinysrgb&w=150&h=150&fit=crop",
      audioUrl := "https://www.soundjay.com/misc/sounds/bell-ringing-05.wav",
      duration := 19, voiceStyle := "Enthusiastic Agreement", likes := 32, replies := 0,
      timestamp := "3h", isLiked := false, tags := ["energy", "positivity"],
      content := "YES! Energy is everything! I love how you put this - it really is about choosing your vibe and watching it ripple out into the world.",
      createdAt := -3 * Hour, hasReplies := false, replyPosts := [])

  const Reply2b: Post :=
    Post(
      id := "reply_2_2", username := "@midnight_thinker", displayName := "MidnightThinker",
      avatar := "https://images.pexels.com/photos/1239291/pexels-photo-1239291.jpeg?auto=compress&cs=tinysrgb&w=150&h=150&fit=crop",
      audioUrl := "https://www.soundjay.com/misc/sounds/bell-ringing-05.wav",
      duration := 31, voiceStyle := "Deep Contemplation", likes := 58, replies := 0,
      timestamp := "2h", isLiked := false, tags := ["reflection", "impact"],
      content := "This makes me think about how we're all walking around broadcasting our internal state. What a responsibility and opportunity that is - to be intentional about the energy we share.",
      createdAt := -2 * Hour, hasReplies := false, replyPosts := [])

  /** The replies attached to post_1. */
  const Post1Replies: seq<Post> := [Reply1a, Reply1b]

  /** The replies attached to post_2. */
  const Post2Replies: seq<Post> := [Reply2a, Reply2b]

  /** `postsDatabase` with creation times relative to the moment the module is
      loaded: the twenty top-level posts followed by the four replies. */
  const RelativeCatalog: seq<Post> := TopLevelPosts + Post1Replies + Post2Replies

  /** The twenty top-level posts, in the order of `postsDatabase`. */
  const TopLevelPosts: seq<Post> :=
    [Post1, Post2, Post3, Post4, Post5, Post6, Post7, Post8, Post9, Post10, ElonConfession, Post11, Comedy1, Comedy2, Comedy3, EchoHq1, EchoHq2, EchoHq3, EchoHq4, EchoHq5]
}
