/** The save and download manager (`SaveContext`): the permanently saved posts, the
    commute queue of temporarily saved posts, and the ids being downloaded and
    already downloaded. The download's two-second timer is split into
    `StartDownload`, which schedules a completion, and `CompleteDownload`, which
    runs one scheduled completion. */
module SaveStore {
  import opened Wrappers
  import Seqs
  import Posts

  /** A saved post: the post itself, whether it was saved permanently, and when (ms). */
  datatype SavedPost = SavedPost(post: Posts.Post, isPermanentlySaved: bool, savedAt: int)

  const SavedPostsKey := "@echo_saved_posts"
  const CommuteQueueKey := "@echo_commute_queue"
  const DownloadedPostsKey := "@echo_downloaded_posts"

  predicate HasId(xs: seq<SavedPost>, id: string)
  {
    exists i :: 0 <= i < |xs| && xs[i].post.id == id
  }

  function Ids(xs: seq<SavedPost>): (ids: set<string>)
    ensures forall id :: id in ids <==> HasId(xs, id)
  {
    set i | 0 <= i < |xs| :: xs[i].post.id
  }

  /** `xs.filter(p => p.id !== id)`. */
  function Without(xs: seq<SavedPost>, id: string): (r: seq<SavedPost>)
    ensures !HasId(r, id)
    ensures Seqs.Selects(r, xs, (e: SavedPost) => e.post.id != id)
  {
    Seqs.FilterSelects(xs, (e: SavedPost) => e.post.id != id);
    Seqs.Filter(xs, (e: SavedPost) => e.post.id != id)
  }

  /** `[...xs.filter(p => p.id !== entry.id), entry]`: savePost's update of a list. */
  function Upsert(xs: seq<SavedPost>, entry: SavedPost): (r: seq<SavedPost>)
    ensures |r| >= 1 && r[|r| - 1] == entry
    ensures forall i :: 0 <= i < |r| - 1 ==> r[i].post.id != entry.post.id
  {
    Without(xs, entry.post.id) + [entry]
  }

  /** After an upsert the list holds exactly one entry with that id, the new one,
      and it is last; the entries with other ids are kept in their order. */
  lemma UpsertExactlyOnce(xs: seq<SavedPost>, entry: SavedPost)
    ensures var r := Upsert(xs, entry);
      r[|r| - 1] == entry &&
      (forall i :: 0 <= i < |r| && r[i].post.id == entry.post.id ==> i == |r| - 1) &&
      Without(r, entry.post.id) == Without(xs, entry.post.id)
  {
    var id := entry.post.id;
    var w := Without(xs, id);
    var p := (e: SavedPost) => e.post.id != id;
    Seqs.FilterAppend(w, [entry], p);
    Seqs.FilterIdempotent(xs, p);
    assert Seqs.Filter([entry], p) == [];
  }

  /** Saving the same entry twice is saving it once. */
  lemma UpsertIdempotent(xs: seq<SavedPost>, entry: SavedPost)
    ensures Upsert(Upsert(xs, entry), entry) == Upsert(xs, entry)
  {
    UpsertExactlyOnce(xs, entry);
  }

  /** Upserting e leaves the entries of every other id as they were. */
  lemma UpsertKeepsOthers(xs: seq<SavedPost>, entry: SavedPost, other: string)
    requires other != entry.post.id
    ensures HasId(Upsert(xs, entry), other) <==> HasId(xs, other)
  {
    var r := Upsert(xs, entry);
    var w := Without(xs, entry.post.id);
    if HasId(xs, other) {
      var i :| 0 <= i < |xs| && xs[i].post.id == other;
      assert xs[i] in w;
      var j :| 0 <= j < |w| && w[j] == xs[i];
      assert r[j] == xs[i];
    }
    if HasId(r, other) {
      var i :| 0 <= i < |r| && r[i].post.id == other;
      assert i < |w|;
      assert w[i] in xs;
    }
  }

  lemma PendingIdsAppend(ps: seq<Posts.Post>, p: Posts.Post)
    ensures (set i | 0 <= i < |ps + [p]| :: (ps + [p])[i].id) == (set i | 0 <= i < |ps| :: ps[i].id) + {p.id}
  {
    var a := set i | 0 <= i < |ps + [p]| :: (ps + [p])[i].id;
    var b := set i | 0 <= i < |ps| :: ps[i].id;
    forall x | x in b ensures x in a {
      var i :| 0 <= i < |ps| && ps[i].id == x;
      assert (ps + [p])[i].id == x;
    }
    assert (ps + [p])[|ps|].id == p.id;
  }

  /** The manager's state: the four collections of `SaveContext` plus the scheduled
      download completions. */
  class SaveManager {
    var savedPosts: seq<SavedPost>
    var commuteQueue: seq<SavedPost>
    var downloadingPosts: set<string>
    var downloadedPosts: set<string>
    /** The download completions scheduled and not yet run, oldest first. */
    var pendingDownloads: seq<Posts.Post>

    /** The download bookkeeping: an id is never downloading and downloaded at once,
        and exactly the downloading ids have one scheduled completion each. */
    ghost predicate Valid()
      reads this
    {
      downloadingPosts !! downloadedPosts &&
      downloadingPosts == (set i | 0 <= i < |pendingDownloads| :: pendingDownloads[i].id) &&
      (forall i, j :: 0 <= i < j < |pendingDownloads| ==> pendingDownloads[i].id != pendingDownloads[j].id)
    }

    /** What the operations keep when the store starts empty: permanent entries are the
        saved ones, temporary entries the queued ones. */
    ghost predicate FlagsConsistent()
      reads this
    {
      (forall i :: 0 <= i < |savedPosts| ==> savedPosts[i].isPermanentlySaved) &&
      (forall i :: 0 <= i < |commuteQueue| ==> !commuteQueue[i].isPermanentlySaved)
    }

    constructor ()
      ensures savedPosts == [] && commuteQueue == []
      ensures downloadingPosts == {} && downloadedPosts == {} && pendingDownloads == []
      ensures Valid() && FlagsConsistent()
    {
      savedPosts, commuteQueue := [], [];
      downloadingPosts, downloadedPosts := {}, {};
      pendingDownloads := [];
    }

    /** `savePost(post, isPermanent)` at time now: upserts into the saved posts when
        permanent (the default), into the commute queue otherwise. */
    method SavePost(post: Posts.Post, now: int, isPermanent: bool := true)
      requires Valid()
      modifies this
      ensures Valid()
      ensures old(FlagsConsistent()) ==> FlagsConsistent()
      ensures isPermanent ==>
        savedPosts == Upsert(old(savedPosts), SavedPost(post, true, now)) &&
        commuteQueue == old(commuteQueue)
      ensures !isPermanent ==>
        commuteQueue == Upsert(old(commuteQueue), SavedPost(post, false, now)) &&
        savedPosts == old(savedPosts)
      ensures downloadingPosts == old(downloadingPosts) && downloadedPosts == old(downloadedPosts)
      ensures pendingDownloads == old(pendingDownloads)
    {
      var entry := SavedPost(post, isPermanent, now);
      if isPermanent {
        savedPosts := Upsert(savedPosts, entry);
      } else {
        commuteQueue := Upsert(commuteQueue, entry);
      }
    }

    /** `unsavePost(id)`: drops the id from the saved posts only. */
    method UnsavePost(id: string)
      requires Valid()
      modifies this
      ensures Valid()
      ensures old(FlagsConsistent()) ==> FlagsConsistent()
      ensures savedPosts == Without(old(savedPosts), id)
      ensures commuteQueue == old(commuteQueue)
      ensures downloadingPosts == old(downloadingPosts) && downloadedPosts == old(downloadedPosts)
      ensures pendingDownloads == old(pendingDownloads)
    {
      savedPosts := Without(savedPosts, id);
    }

    /** `moveToSaved(id)`: the first queue entry with the id, flagged permanent, is
        appended to the saved posts (without removing an existing saved entry) and
        every queue entry with the id is dropped. No entry, no change. */
    method MoveToSaved(id: string)
      requires Valid()
      modifies this
      ensures Valid()
      ensures old(FlagsConsistent()) ==> FlagsConsistent()
      ensures match Seqs.Find(old(commuteQueue), (e: SavedPost) => e.post.id == id)
        case None => savedPosts == old(savedPosts) && commuteQueue == old(commuteQueue)
        case Some(item) =>
          commuteQueue == Without(old(commuteQueue), id) &&
          savedPosts == old(savedPosts) + [item.(isPermanentlySaved := true)]
      ensures downloadingPosts == old(downloadingPosts) && downloadedPosts == old(downloadedPosts)
      ensures pendingDownloads == old(pendingDownloads)
    {
      var found := Seqs.Find(commuteQueue, (e: SavedPost) => e.post.id == id);
      if found.Some? {
        commuteQueue := Without(commuteQueue, id);
        savedPosts := savedPosts + [found.value.(isPermanentlySaved := true)];
      }
    }

    /** `moveToQueue(id)`: only a first saved entry with the id that is not flagged
        permanent moves, flagged temporary, to the end of the queue. */
    method MoveToQueue(id: string)
      requires Valid()
      modifies this
      ensures Valid()
      ensures old(FlagsConsistent()) ==> FlagsConsistent()
      ensures match Seqs.Find(old(savedPosts), (e: SavedPost) => e.post.id == id)
        case Some(item) =>
          if !item.isPermanentlySaved then
            savedPosts == Without(old(savedPosts), id) &&
            commuteQueue == old(commuteQueue) + [item.(isPermanentlySaved := false)]
          else savedPosts == old(savedPosts) && commuteQueue == old(commuteQueue)
        case None => savedPosts == old(savedPosts) && commuteQueue == old(commuteQueue)
      ensures old(FlagsConsistent()) ==> savedPosts == old(savedPosts) && commuteQueue == old(commuteQueue)
      ensures downloadingPosts == old(downloadingPosts) && downloadedPosts == old(downloadedPosts)
      ensures pendingDownloads == old(pendingDownloads)
    {
      var found := Seqs.Find(savedPosts, (e: SavedPost) => e.post.id == id);
      if found.Some? && !found.value.isPermanentlySaved {
        savedPosts := Without(savedPosts, id);
        commuteQueue := commuteQueue + [found.value.(isPermanentlySaved := false)];
      }
    }

    /** The first half of `downloadPost(post)`: unless the id is already downloading
        or downloaded, mark it downloading and schedule its completion. */
    method StartDownload(post: Posts.Post)
      requires Valid()
      modifies this
      ensures Valid()
      ensures old(FlagsConsistent()) ==> FlagsConsistent()
      ensures if post.id in old(downloadingPosts) || post.id in old(downloadedPosts) then
          downloadingPosts == old(downloadingPosts) && pendingDownloads == old(pendingDownloads)
        else
          downloadingPosts == old(downloadingPosts) + {post.id} &&
          pendingDownloads == old(pendingDownloads) + [post]
      ensures downloadedPosts == old(downloadedPosts)
      ensures savedPosts == old(savedPosts) && commuteQueue == old(commuteQueue)
    {
      if post.id in downloadingPosts || post.id in downloadedPosts {
        return;
      }
      PendingIdsAppend(pendingDownloads, post);
      downloadingPosts := downloadingPosts + {post.id};
      pendingDownloads := pendingDownloads + [post];
    }

    /** The timer callback of `downloadPost`, for the k-th scheduled completion, run
        at time now: the id moves from downloading to downloaded and the post is
        upserted into the commute queue as `savePost(post, false)` does. */
    method CompleteDownload(k: nat, now: int)
      requires Valid() && k < |pendingDownloads|
      modifies this
      ensures Valid()
      ensures old(FlagsConsistent()) ==> FlagsConsistent()
      ensures var post := old(pendingDownloads[k]);
        pendingDownloads == old(pendingDownloads[..k] + pendingDownloads[k + 1..]) &&
        downloadingPosts == old(downloadingPosts) - {post.id} &&
        downloadedPosts == old(downloadedPosts) + {post.id} &&
        commuteQueue == Upsert(old(commuteQueue), SavedPost(post, false, now)) &&
        savedPosts == old(savedPosts)
    {
      var post := pendingDownloads[k];
      ghost var before := pendingDownloads;
      pendingDownloads := pendingDownloads[..k] + pendingDownloads[k + 1..];
      forall i | 0 <= i < |pendingDownloads|
        ensures pendingDownloads[i] == before[if i < k then i else i + 1]
      {
      }
      downloadingPosts := downloadingPosts - {post.id};
      downloadedPosts := downloadedPosts + {post.id};
      assert downloadingPosts == (set i | 0 <= i < |pendingDownloads| :: pendingDownloads[i].id) by {
        forall x | x in downloadingPosts ensures exists i :: 0 <= i < |pendingDownloads| && pendingDownloads[i].id == x {
          var j :| 0 <= j < |before| && before[j].id == x;
          assert j != k;
          var i := if j < k then j else j - 1;
          assert pendingDownloads[i] == before[j];
        }
      }
      SavePost(post, now, false);
    }

    /** `removeDownload(id)`: forget the download and drop the id from the queue. A
        completion still scheduled for the id is not cancelled. */
    method RemoveDownload(id: string)
      requires Valid()
      modifies this
      ensures Valid()
      ensures old(FlagsConsistent()) ==> FlagsConsistent()
      ensures downloadedPosts == old(downloadedPosts) - {id}
      ensures commuteQueue == Without(old(commuteQueue), id)
      ensures savedPosts == old(savedPosts) && downloadingPosts == old(downloadingPosts)
      ensures pendingDownloads == old(pendingDownloads)
    {
      downloadedPosts := downloadedPosts - {id};
      commuteQueue := Without(commuteQueue, id);
    }

    /** `clearQueue()`: empties the queue and forgets the downloads of exactly the
        ids it held. */
    method ClearQueue()
      requires Valid()
      modifies this
      ensures Valid()
      ensures old(FlagsConsistent()) ==> FlagsConsistent()
      ensures commuteQueue == []
      ensures downloadedPosts == old(downloadedPosts) - Ids(old(commuteQueue))
      ensures savedPosts == old(savedPosts) && downloadingPosts == old(downloadingPosts)
      ensures pendingDownloads == old(pendingDownloads)
    {
      var q := commuteQueue;
      var queueIds := seq(|q|, i requires 0 <= i < |q| => q[i].post.id);
      commuteQueue := [];
      var remaining := downloadedPosts;
      for k := 0 to |queueIds|
        invariant remaining == old(downloadedPosts) - (set j | 0 <= j < k :: queueIds[j])
      {
        remaining := remaining - {queueIds[k]};
      }
      assert (set j | 0 <= j < |queueIds| :: queueIds[j]) == Ids(q) by {
        forall x | x in Ids(q) ensures x in (set j | 0 <= j < |queueIds| :: queueIds[j]) {
          var j :| 0 <= j < |q| && q[j].post.id == x;
          assert queueIds[j] == x;
        }
      }
      downloadedPosts := remaining;
    }

    /** `isSaved(id)`: the id is in the saved posts or in the queue. */
    predicate IsSaved(id: string)
      reads this
      ensures IsSaved(id) <==> HasId(savedPosts, id) || HasId(commuteQueue, id)
    {
      Seqs.SomeMeansExists(savedPosts, (e: SavedPost) => e.post.id == id);
      Seqs.SomeMeansExists(commuteQueue, (e: SavedPost) => e.post.id == id);
      Seqs.Some(savedPosts, (e: SavedPost) => e.post.id == id) ||
      Seqs.Some(commuteQueue, (e: SavedPost) => e.post.id == id)
    }

    /** `isDownloaded(id)`: a downloaded post is never also one being downloaded. */
    predicate IsDownloaded(id: string)
      reads this
      ensures Valid() && IsDownloaded(id) ==> id !in downloadingPosts
    {
      id in downloadedPosts
    }

    /** `isDownloading(id)`: exactly the posts with a pending download, none of them
        already downloaded. */
    predicate IsDownloading(id: string)
      reads this
      ensures Valid() ==> (IsDownloading(id) <==>
        exists i :: 0 <= i < |pendingDownloads| && pendingDownloads[i].id == id)
      ensures Valid() && IsDownloading(id) ==> id !in downloadedPosts
    {
      id in downloadingPosts
    }
  }

  /** Removing a download while it is still in flight does not stop it: the
      completion brings the id back into the downloaded set and the queue. */
  method RemoveWhileDownloading(post: Posts.Post, now: int) returns (downloaded: bool, queued: bool)
    ensures downloaded && queued
  {
    var m := new SaveManager();
    m.StartDownload(post);
    m.RemoveDownload(post.id);
    m.CompleteDownload(0, now);
    downloaded := m.IsDownloaded(post.id);
    assert m.commuteQueue == [SavedPost(post, false, now)];
    queued := m.IsSaved(post.id);
  }

  /** Download a post, save it, unsave it: it stays saved through the queue, and the
      save and the unsave leave the queue as the download made it. */
  method UnsaveKeepsDownloadQueued(post: Posts.Post, t1: int, t2: int)
    returns (savedAfterSave: bool, savedAfterUnsave: bool, queueLength: nat)
    ensures savedAfterSave && savedAfterUnsave && queueLength == 1
  {
    var m := new SaveManager();
    m.StartDownload(post);
    m.CompleteDownload(0, t1);
    assert m.commuteQueue == [SavedPost(post, false, t1)];
    m.SavePost(post, t2);
    savedAfterSave := m.IsSaved(post.id);
    m.UnsavePost(post.id);
    assert m.commuteQueue == [SavedPost(post, false, t1)];
    assert m.commuteQueue[0].post.id == post.id;
    savedAfterUnsave := m.IsSaved(post.id);
    queueLength := |m.commuteQueue|;
  }

  /** Two download presses before the first completes schedule one download. */
  method DoubleStartSchedulesOnce(post: Posts.Post) returns (scheduled: nat)
    ensures scheduled == 1
  {
    var m := new SaveManager();
    m.StartDownload(post);
    m.StartDownload(post);
    scheduled := |m.pendingDownloads|;
  }
  /** moveToSaved does not dedupe: a post saved permanently and also downloaded ends
      up twice in the saved posts once its queue entry is moved. */
  method MoveToSavedCanDuplicate(post: Posts.Post, t1: int, t2: int) returns (entries: seq<SavedPost>)
    ensures |entries| == 2 && entries[0].post == post && entries[1].post == post
    ensures entries[0].isPermanentlySaved && entries[1].isPermanentlySaved
  {
    var m := new SaveManager();
    m.SavePost(post, t1);
    m.StartDownload(post);
    m.CompleteDownload(0, t2);
    assert m.commuteQueue == [SavedPost(post, false, t2)];
    assert m.savedPosts == [SavedPost(post, true, t1)];
    m.MoveToSaved(post.id);
    entries := m.savedPosts;
  }

  /** A permanently saved post never moves to the queue. */
  method PermanentNeverMovesToQueue(post: Posts.Post, now: int) returns (saved: nat, queued: nat)
    ensures saved == 1 && queued == 0
  {
    var m := new SaveManager();
    m.SavePost(post, now);
    m.MoveToQueue(post.id);
    saved, queued := |m.savedPosts|, |m.commuteQueue|;
  }
}
