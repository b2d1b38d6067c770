/** The decisions of a post card (`PostCard`): the like snapshot, what the save,
    download and play buttons do, and which tags and reply count it shows. */
module PostCard {
  import opened Wrappers
  import Seqs
  import Posts
  import LikeStore
  import SaveStore

  /** The record `handleLike` hands to the like store: the post's fields, with the
      count it will show after the toggle. The store sets `isLiked` itself. */
  function LikeSnapshot(post: Posts.Post, currentlyLiked: bool): (d: LikeStore.LikedPost)
    ensures d.id == post.id && d.username == post.username && d.displayName == post.displayName
    ensures d.likes == if currentlyLiked then post.likes - 1 else post.likes + 1
  {
    LikeStore.LikedPost(post.id, post.username, post.displayName, post.avatar, post.content,
      if currentlyLiked then post.likes - 1 else post.likes + 1,
      post.replies, post.timestamp, post.tags, Some(post.voiceStyle), Some(post.duration), false)
  }

  /** `handleLike()`: toggles the post with a snapshot built from whether it is liked
      now; the like flips and the store stays in step. */
  method HandleLike(likes: LikeStore.LikeManager, post: Posts.Post)
    modifies likes
    ensures likes.State() == LikeStore.Toggle(old(likes.State()), post.id, LikeSnapshot(post, old(likes.IsLiked(post.id))))
    ensures likes.IsLiked(post.id) == !old(likes.IsLiked(post.id))
    ensures old(likes.Valid()) ==> likes.Valid()
  {
    var currentlyLiked := likes.IsLiked(post.id);
    likes.ToggleLike(post.id, LikeSnapshot(post, currentlyLiked));
  }

  /** `isInSavedPosts`: the bookmark state, which looks at the saved posts only. */
  predicate IsInSavedPosts(saved: seq<SaveStore.SavedPost>, id: string)
    ensures IsInSavedPosts(saved, id) <==> SaveStore.HasId(saved, id)
  {
    Seqs.SomeMeansExists(saved, (e: SaveStore.SavedPost) => e.post.id == id);
    Seqs.Some(saved, (e: SaveStore.SavedPost) => e.post.id == id)
  }

  /** `handleSave()`: unsaves a bookmarked post, otherwise saves it permanently; the
      commute queue and the downloads are never touched. */
  method HandleSave(saves: SaveStore.SaveManager, post: Posts.Post, now: int)
    requires saves.Valid()
    modifies saves
    ensures saves.Valid()
    ensures SaveStore.HasId(old(saves.savedPosts), post.id) ==>
      saves.savedPosts == SaveStore.Without(old(saves.savedPosts), post.id)
    ensures !SaveStore.HasId(old(saves.savedPosts), post.id) ==>
      saves.savedPosts == SaveStore.Upsert(old(saves.savedPosts), SaveStore.SavedPost(post, true, now))
    ensures saves.commuteQueue == old(saves.commuteQueue)
    ensures saves.downloadingPosts == old(saves.downloadingPosts) && saves.downloadedPosts == old(saves.downloadedPosts)
  {
    if IsInSavedPosts(saves.savedPosts, post.id) {
      saves.UnsavePost(post.id);
    } else {
      saves.SavePost(post, now, true);
    }
  }

  /** `handleDownload()`: removes a finished download, otherwise starts one; a press
      while the post is downloading changes nothing. */
  method HandleDownload(saves: SaveStore.SaveManager, post: Posts.Post)
    requires saves.Valid()
    modifies saves
    ensures saves.Valid()
    ensures post.id in old(saves.downloadedPosts) ==>
      saves.downloadedPosts == old(saves.downloadedPosts) - {post.id} &&
      saves.commuteQueue == SaveStore.Without(old(saves.commuteQueue), post.id)
    ensures post.id in old(saves.downloadingPosts) && post.id !in old(saves.downloadedPosts) ==>
      saves.downloadingPosts == old(saves.downloadingPosts) &&
      saves.downloadedPosts == old(saves.downloadedPosts) &&
      saves.commuteQueue == old(saves.commuteQueue) &&
      saves.pendingDownloads == old(saves.pendingDownloads)
    ensures post.id !in old(saves.downloadingPosts) && post.id !in old(saves.downloadedPosts) ==>
      saves.downloadingPosts == old(saves.downloadingPosts) + {post.id} &&
      saves.pendingDownloads == old(saves.pendingDownloads) + [post]
    ensures saves.savedPosts == old(saves.savedPosts)
  {
    if saves.IsDownloaded(post.id) {
      saves.RemoveDownload(post.id);
    } else {
      saves.StartDownload(post);
    }
  }

  /** What the play button asks of the screen. */
  datatype PlayAction = Stop(postId: string) | Play(postId: string, duration: int)

  /** `handlePlay()`: stop the post that is playing, otherwise play this one. */
  function HandlePlay(currentlyPlaying: Option<string>, post: Posts.Post): (a: PlayAction)
    ensures a.postId == post.id
    ensures a.Stop? <==> currentlyPlaying == Some(post.id)
    ensures a.Play? ==> a.duration == post.duration
  {
    if currentlyPlaying == Some(post.id) then Stop(post.id) else Play(post.id, post.duration)
  }

  const MaxCardTags := 3
  const MaxReplyTags := 2

  /** The tags shown on a card: the first three. */
  function ShownTags(post: Posts.Post): (tags: seq<string>)
    ensures |tags| <= MaxCardTags && |tags| <= |post.tags| && tags == post.tags[..|tags|]
    ensures |post.tags| <= MaxCardTags ==> tags == post.tags
  {
    Seqs.Take(post.tags, MaxCardTags)
  }

  /** The tags shown on a reply: the first two. */
  function ReplyTags(reply: Posts.Post): (tags: seq<string>)
    ensures |tags| <= MaxReplyTags && |tags| <= |reply.tags| && tags == reply.tags[..|tags|]
    ensures |reply.tags| <= MaxReplyTags ==> tags == reply.tags
  {
    Seqs.Take(reply.tags, MaxReplyTags)
  }

  /** Every catalog post shows all of its tags. */
  lemma CatalogShowsAllTags(loadTime: int, i: nat)
    requires i < |Posts.Catalog(loadTime)|
    ensures ShownTags(Posts.Catalog(loadTime)[i]) == Posts.Catalog(loadTime)[i].tags
  {
    Posts.CatalogInvariant(loadTime);
  }

  /** The number beside the reply icon: the replies listed for a post with replies,
      its `replies` count otherwise. */
  function ReplyCount(post: Posts.Post): (n: int)
    ensures post.hasReplies ==> n == |post.replyPosts|
    ensures !post.hasReplies ==> n == post.replies
  {
    if post.hasReplies then |post.replyPosts| else post.replies
  }

  /** Liking through the card twice from an unliked state leaves the like store as
      it was. */
  method LikeTwice(likes: LikeStore.LikeManager, post: Posts.Post)
    requires likes.Valid() && !likes.IsLiked(post.id)
    modifies likes
    ensures likes.State() == old(likes.State())
  {
    ghost var s := likes.State();
    HandleLike(likes, post);
    ghost var d1 := LikeSnapshot(post, false);
    ghost var d2 := LikeSnapshot(post, true);
    HandleLike(likes, post);
    LikeStore.LikeThenUnlikeRestores(s, post.id, d1, d2);
  }

  /** A post only in the commute queue counts as saved for the store yet shows no
      bookmark, and pressing save then bookmarks it without leaving the queue. */
  method SaveQueuedPost(saves: SaveStore.SaveManager, post: Posts.Post, now: int)
    requires saves.Valid()
    requires !SaveStore.HasId(saves.savedPosts, post.id) && SaveStore.HasId(saves.commuteQueue, post.id)
    modifies saves
    ensures SaveStore.HasId(saves.savedPosts, post.id) && SaveStore.HasId(saves.commuteQueue, post.id)
  {
    HandleSave(saves, post, now);
    SaveStore.UpsertExactlyOnce(old(saves.savedPosts), SaveStore.SavedPost(post, true, now));
    assert saves.savedPosts[|saves.savedPosts| - 1].post.id == post.id;
  }
}
