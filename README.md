# Echo: a verified model of the client core

Echo is a React Native app for short voice posts ("echoes"). This project models
the app's client-side core in Dafny. Three groups of code are modelled:

- **The four stores.**
  - The save/download manager keeps the saved posts, the commute queue and the downloading and downloaded sets.
  - The play tracker keeps play counts, a played set and a session history. Its guard against counting a post twice reads the played set of an earlier render.
  - The like store keeps a set of liked ids and a parallel list of like records.
  - The transcription preference is one persisted boolean.
- **The catalog and the queries.** This is the post catalog and the per-user mock posts, with the queries over them.
- **The rules of the profile screen.** These are the rules its components apply:
  - relative times and join dates;
  - e-mail masking and the bio preview;
  - avatar initials;
  - profile form validation;
  - the `m:ss` duration label;
  - the post card's button decisions;
  - the hashtag endpoint's fallback tags;
  - the friends, downloads, own-echoes and liked-echoes tabs, each with its sort, partition, header label and screen.

## How the code is modelled

- **Stores are classes.** Each store and each stateful hook is a `class` whose fields are the React state. The class
  methods update those fields as the state setters do. Each method's `ensures` gives the whole new state in terms of
  the old one. The store's invariants are ghost predicates that every method preserves:
  - `SaveManager.Valid`: no id is downloading and downloaded at once, and each downloading id has exactly one
    scheduled completion.
  - `PlayTracker.Valid`: the counted posts are the played posts, each count is the number of that post's sessions, and
    every session is the current user's and lasts 5 seconds. `PlayTracker.Consistent` adds that every count is 1;
    only the guard on the latest played set keeps it.
  - `LikeStore.InStep`: an id is in the liked set iff a record with that id exists.
- **The download timer is two methods.** The timer of `downloadPost` becomes an explicit list of pending completions.
  `StartDownload` schedules a completion and `CompleteDownload(k)` fires the k-th one. This keeps the dedup guard
  expressible, and also the case where a download removed while in flight is restored by its completion.
- **Render snapshots are fields.** A handler that reads state through its closure sees the state of the render that
  created it. The play tracker keeps that state in a `renderedPlayed` field, which `Render` refreshes. Two instances of
  one hook are two objects, so the downloads tab's own activity hook is a different object from its parent's.
- **Pure code is functions.** Queries, labels and rules are functions with named results. Lemmas state their
  properties: subsequence and selection, case insensitivity, injectivity of labels, round trips and bucket bounds.
- **Sorts are one reference function.** Every `Array.prototype.sort` call becomes `Sorting.Sort`, a stable insertion
  sort specified by a key. JavaScript's sort is stable, so a comparator is modelled by the key it orders by.
  - A lemma per comparator (`CompareIsRank`) ties the two together.
  - The in-place sort of the catalog is a method on an `array`, proved equal to that function.
- **JavaScript semantics are written out.**
  - `%` truncates toward zero (`Format.JsRem`).
  - A NaN comparator result counts as "equal".
  - `x && ...` uses truthiness.
  - `Math.floor` of a non-negative quotient is Dafny's `/`.
  - Dates are integer milliseconds.
- **Outside inputs are parameters.** The clock (`now`), the outcome of storage reads and writes, the model's answer,
  the `URL` parser and the save callback's result are all parameters. `Math.random` is a nondeterministic choice
  among the allowed tags.

## Model

| member | source | states |
|---|---|---|
| SaveStore.Without | contexts/SaveContext.tsx:94 | `filter(p => p.id !== id)` keeps, in order, exactly the entries with another id, and leaves none with that id |
| SaveStore.Upsert | contexts/SaveContext.tsx:92-99 | `[...filtered, savedPost]`: the new entry is last and no earlier entry has its id |
| SaveStore.UpsertExactlyOnce | contexts/SaveContext.tsx:92-99 | after the upsert the new entry is last, it is the only entry with its id, and every other entry is kept |
| SaveStore.UpsertIdempotent | contexts/SaveContext.tsx:92-109 | saving the same entry twice gives the same list as saving it once |
| SaveStore.UpsertKeepsOthers | contexts/SaveContext.tsx:92-109 | an upsert does not change which other ids are present |
| SaveStore.PendingIdsAppend | contexts/SaveContext.tsx:183-187 | scheduling one more download adds exactly its id to the downloading ids |
| SaveStore.SaveManager.constructor | contexts/SaveContext.tsx:36-39 | all four collections start empty, with nothing scheduled, and both invariants hold |
| SaveStore.SaveManager.SavePost | contexts/SaveContext.tsx:83-110 | a permanent save upserts a flagged-permanent entry into the saved posts only; a temporary save upserts a flagged-temporary entry into the queue only; the download sets never change |
| SaveStore.SaveManager.UnsavePost | contexts/SaveContext.tsx:112-127 | removes every entry with the id from the saved posts; the queue, both download sets and the scheduled completions stay as they were |
| SaveStore.SaveManager.MoveToSaved | contexts/SaveContext.tsx:129-150 | changes nothing when no queue entry has the id; otherwise it drops the id from the queue and appends a permanent copy of the first queue entry to the saved posts, without dedup |
| SaveStore.SaveManager.MoveToQueue | contexts/SaveContext.tsx:152-173 | moves the first saved entry with the id to the queue only when that entry is not permanent; otherwise changes nothing |
| SaveStore.SaveManager.StartDownload | contexts/SaveContext.tsx:175-188 | does nothing for an id already downloading or downloaded; otherwise adds the id to the downloading set and schedules one completion; the lists are untouched |
| SaveStore.SaveManager.CompleteDownload | contexts/SaveContext.tsx:190-211 | a completion moves its id from downloading to downloaded and upserts the post into the queue as temporary; no id is ever in both sets |
| SaveStore.SaveManager.RemoveDownload | contexts/SaveContext.tsx:214-236 | drops the id from the downloaded set and the queue; the saved posts, the downloading set and the scheduled completions stay |
| SaveStore.SaveManager.ClearQueue | contexts/SaveContext.tsx:238-259 | empties the queue and removes from the downloaded set exactly the ids the queue held |
| SaveStore.SaveManager.IsSaved | contexts/SaveContext.tsx:261-265 | true exactly when the id is in the saved posts or in the queue |
| SaveStore.SaveManager.IsDownloaded | contexts/SaveContext.tsx:267-269 | under the invariant, a downloaded post is never also downloading |
| SaveStore.SaveManager.IsDownloading | contexts/SaveContext.tsx:271-273 | under the invariant, true exactly when a completion is pending for the post, which is then not yet downloaded |
| SaveStore.RemoveWhileDownloading | contexts/SaveContext.tsx:190-236 | removing a download while it is in flight does not cancel it: the completion makes the post downloaded and queued again |
| SaveStore.UnsaveKeepsDownloadQueued | contexts/SaveContext.tsx:112-127 | a downloaded post that is saved and then unsaved remains saved through its one queue entry |
| SaveStore.DoubleStartSchedulesOnce | contexts/SaveContext.tsx:178-181 | two download presses before completion schedule a single download |
| SaveStore.MoveToSavedCanDuplicate | contexts/SaveContext.tsx:129-150 | a post both saved and downloaded ends up twice in the saved posts, both permanent, after moveToSaved |
| SaveStore.PermanentNeverMovesToQueue | contexts/SaveContext.tsx:88-89 | a post saved with the default `isPermanent` is never moved to the queue by moveToQueue |
| PlayStore.TotalDuration | contexts/PlayContext.tsx:123-125 | the `reduce` of the durations: 0 for an empty history, and never negative when no session is |
| PlayStore.TotalOfUniformSessions | contexts/PlayContext.tsx:104 | a history whose sessions all last 5 seconds totals 5 seconds per session |
| PlayStore.TotalDurationAppend | contexts/PlayContext.tsx:123-125 | appending a session adds its duration to the total |
| PlayStore.Listeners | contexts/PlayContext.tsx:127-134 | the distinct listeners of a post are never more than its sessions |
| PlayStore.SingleListener | contexts/PlayContext.tsx:33 | when every session is the current user's, a post has at most that one listener |
| PlayStore.SessionCountAppend | contexts/PlayContext.tsx:106-110 | one more session adds one to its post's session count and nothing to another's |
| PlayStore.SessionCountAbsent | contexts/PlayContext.tsx:106-110 | a post with no session in the history has a session count of 0 |
| PlayStore.PlayTracker.constructor | contexts/PlayContext.tsx:36-39 | nothing playing, nothing played, no counts and no history; both invariants hold |
| PlayStore.PlayTracker.Render | contexts/PlayContext.tsx:37 | a new render sees the latest played set |
| PlayStore.PlayTracker.SetCurrentlyPlaying | contexts/PlayContext.tsx:36 | sets the post now playing |
| PlayStore.PlayTracker.CountPlay | contexts/PlayContext.tsx:83-112 | the three state updates: the post's count (0 if absent) plus one, the post joins the played set, one session of `user_123` lasting 5 seconds is appended; `Valid` is preserved, and `Consistent` too when the post was unplayed |
| PlayStore.PlayTracker.IncrementPlayCount | contexts/PlayContext.tsx:79-113 | as written: the guard reads the played set of the render that made the handler; a post in it changes nothing, any other post is counted again even when already played; `Valid` is preserved, `Consistent` only when that render was the latest |
| PlayStore.PlayTracker.IncrementPlayCountOnLatest | contexts/PlayContext.tsx:79-113 | corrected: the guard reads the latest played set, so a played post changes nothing and `Consistent` is preserved |
| PlayStore.PlayTracker.GetPlayCount | contexts/PlayContext.tsx:115-117 | 0 for a post without a count; under `Valid` the number of the post's sessions, positive exactly for the played posts; under `Consistent` 1 for the played posts and 0 otherwise |
| PlayStore.PlayTracker.HasPlayed | contexts/PlayContext.tsx:119-121 | membership in the played set of the render that made the caller; such a post is played under `Valid` |
| PlayStore.PlayTracker.GetTotalPlayTime | contexts/PlayContext.tsx:123-125 | under `Valid`, 5 seconds per session in the history |
| PlayStore.PlayTracker.GetUniqueListeners | contexts/PlayContext.tsx:127-134 | never more than the post's sessions, and at most one under `Valid` |
| PlayStore.PlayTick | contexts/PlayContext.tsx:79-121 | one tick of the discover screen's play timer, which calls `hasPlayed` and `incrementPlayCount`: before 5 seconds, or for a post the snapshot shows played, nothing changes; otherwise the play is counted; `Valid` is preserved |
| PlayStore.PlayWithoutRender | contexts/PlayContext.tsx:79-121 | as written: N ticks of the discover timer's handler with no render in between give count N, N sessions and 5 seconds per tick |
| PlayStore.PlayRepeatedly | contexts/PlayContext.tsx:79-113 | corrected: playing a post N >= 1 times from fresh gives count 1, one session and 5 seconds in total |
| PlayStore.PlayTwiceWithRender | contexts/PlayContext.tsx:79-120 | two plays with a render between them count the post once, with one session |
| LikeStore.WithoutId | contexts/LikeContext.tsx:36 | keeps, in order, exactly the records with another id |
| LikeStore.Toggle | contexts/LikeContext.tsx:30-52 | a liked id leaves the set together with all its records; an unliked id joins the set and one record, the snapshot with `isLiked` true, is appended; other ids keep their membership |
| LikeStore.ToggleKeepsInStep | contexts/LikeContext.tsx:30-52 | toggling preserves "an id is liked iff some record has it" when the snapshot carries the toggled id |
| LikeStore.LikeThenUnlikeRestores | contexts/LikeContext.tsx:30-52 | liking and then unliking an unliked post restores both the set and the records |
| LikeStore.UnlikeThenLikeMovesRecord | contexts/LikeContext.tsx:30-52 | unliking and re-liking a liked post keeps the set and moves its record to the end, with the new snapshot |
| LikeStore.ToggleKeepsOtherRecords | contexts/LikeContext.tsx:32-36 | toggling one post leaves every other post's records as they were |
| LikeStore.LikeManager.constructor | contexts/LikeContext.tsx:27-28 | no likes and no records; the invariant holds |
| LikeStore.LikeManager.ToggleLike | contexts/LikeContext.tsx:30-52 | the new state is `Toggle` of the old, and the invariant is preserved |
| LikeStore.LikeManager.IsLiked | contexts/LikeContext.tsx:54-56 | set membership, which under the invariant means some record has the id |
| LikeStore.LikeThenUnlike | contexts/LikeContext.tsx:30-56 | from fresh, a like makes the post liked and a second toggle leaves it unliked with no records |
| TranscriptionStore.ParseBool | contexts/TranscriptionContext.tsx:27 | `JSON.parse` reads "true" as true and "false" as false |
| TranscriptionStore.StringifyBool | contexts/TranscriptionContext.tsx:40 | the written text reads back as the value written |
| TranscriptionStore.Loaded | contexts/TranscriptionContext.tsx:23-34 | a failed read or a missing key keeps the flag; a stored boolean replaces it |
| TranscriptionStore.TranscriptionSetting.constructor | contexts/TranscriptionContext.tsx:15-16 | transcriptions enabled and loading |
| TranscriptionStore.TranscriptionSetting.LoadTranscriptionSetting | contexts/TranscriptionContext.tsx:23-34 | loading ends whether or not the read failed, and the flag becomes `Loaded` of the old flag |
| TranscriptionStore.TranscriptionSetting.ToggleTranscriptions | contexts/TranscriptionContext.tsx:36-44 | the flag is negated and, unless the write fails, that same value is stored under the key |
| TranscriptionStore.ToggleThenRestart | contexts/TranscriptionContext.tsx:23-44 | after a toggle, a restart loads the toggled value back |
| TranscriptionStore.ToggleTwice | contexts/TranscriptionContext.tsx:36-44 | two toggles restore the flag, and the last value stored is the original |
| TranscriptionStore.FirstLaunch | contexts/TranscriptionContext.tsx:25-28 | with nothing stored, loading ends with transcriptions enabled |
| TagGenerator.TagsOf | app/api/generate-tags+api.ts:98 | the tags of a list of categories, position by position |
| TagGenerator.MatchedIn | app/api/generate-tags+api.ts:98-103 | the matched tags are never more than the categories |
| TagGenerator.MatchedInIsFilter | app/api/generate-tags+api.ts:98-103 | the matched tags are the tags of the triggered categories, in `tagMap` order |
| TagGenerator.MatchedIff | app/api/generate-tags+api.ts:99 | a tag is matched iff some category with that tag has a keyword occurring in the text |
| TagGenerator.MatchedPrefix | app/api/generate-tags+api.ts:98-103 | the matches among the first n categories are a prefix of all the matches |
| TagGenerator.MatchedDistinct | app/api/generate-tags+api.ts:84-95 | categories with distinct tags give distinct matched tags |
| TagGenerator.MatchedCaseInsensitive | app/api/generate-tags+api.ts:80 | the text is matched lowercased, so its case does not matter |
| TagGenerator.TagMapTagsDistinct | app/api/generate-tags+api.ts:84-95 | the ten `tagMap` tags are pairwise distinct |
| TagGenerator.ConstantTagsAreWords | app/api/generate-tags+api.ts:84-106 | every `tagMap` and generic tag is a non-empty lowercase word without `#` |
| TagGenerator.FallbackTagsAreWords | app/api/generate-tags+api.ts:106-114 | every fallback tag is such a word |
| TagGenerator.GenericTagAvailable | app/api/generate-tags+api.ts:106-111 | with fewer than three tags chosen, some generic tag is still unused, so the fill loop ends |
| TagGenerator.CollectMatches | app/api/generate-tags+api.ts:98-103 | the `for` loop pushes the first `limit` matched tags and stops |
| TagGenerator.FillFrom | app/api/generate-tags+api.ts:107-112 | the `while` loop keeps the tags it starts from and adds unused pool tags until there are n distinct ones |
| TagGenerator.GenerateFallbackTags | app/api/generate-tags+api.ts:79-114 | exactly three distinct tags: the matched category tags first, in `tagMap` order and at most three, then generic tags |
| TagGenerator.TrimEach | app/api/generate-tags+api.ts:58 | `.map(tag => tag.trim())` trims every piece and keeps their number |
| TagGenerator.ParseCompletion | app/api/generate-tags+api.ts:58-60 | one to three tags, each the trimmed piece at its position of the trimmed answer split on commas |
| TagGenerator.TrimAddsNothing | app/api/generate-tags+api.ts:58 | trimming never introduces a character |
| TagGenerator.ParsedTagsAreClean | app/api/generate-tags+api.ts:58-60 | each parsed tag has no comma and is empty or has no surrounding whitespace |
| TagGenerator.TrimOfTrimmed | app/api/generate-tags+api.ts:58 | a string without surrounding whitespace is its own trim |
| TagGenerator.JoinIsTrimmed | app/api/generate-tags+api.ts:58 | clean tags joined by commas have no surrounding whitespace |
| TagGenerator.ParseCompletionOfList | app/api/generate-tags+api.ts:58-60 | an answer that is one to three clean tags joined by commas parses back to those tags |
| TagGenerator.Request.constructor | app/api/generate-tags+api.ts:1 | a request whose body has not been read yet |
| TagGenerator.Request.Json | app/api/generate-tags+api.ts:3 | `request.json()`: the parsed body on the first read, a rejection on every later one; the body is used afterwards |
| TagGenerator.Recover | app/api/generate-tags+api.ts:62-76 | the catch branch reads the body again: with the body already used it answers the three fixed tags; on an unused body with a `text` it gives that text's fallback tags, and the three fixed tags otherwise |
| TagGenerator.HandleRequest | app/api/generate-tags+api.ts:1-77 | missing or empty text gives 400 "Text is required"; no key or the placeholder key gives fallback tags; an answer gives its parsed tags; an unreadable body or a failed call answers the three fixed tags, because the catch branch's second read rejects |
| TagGenerator.Post | app/api/generate-tags+api.ts:1-77 | the handler on a fresh request: the same four cases, stated of the body without reference to the old state |
| Posts.Ids | data/postsDatabase.ts:3 | the ids of the posts, position by position |
| Posts.ForYouPosts | data/postsDatabase.ts:429-433 | exactly the posts with one of the four For You ids, in catalog order |
| Posts.FriendsPosts | data/postsDatabase.ts:435-439 | exactly the posts with one of the two friends ids, in catalog order |
| Posts.FeaturedPosts | data/postsDatabase.ts:441-445 | exactly the posts with one of the four featured ids, in catalog order |
| Posts.EchoHqPosts | data/postsDatabase.ts:453-457 | exactly the posts whose username is `@EchoHQ`, compared case-sensitively, in order |
| Posts.ComedyPosts | data/postsDatabase.ts:485-488 | exactly the posts with the tag `comedy`, compared case-sensitively, in order |
| Posts.UserPosts | data/postsDatabase.ts:447-451 | exactly the posts whose lowercased username contains the lowercased argument, in order |
| Posts.SearchPosts | data/postsDatabase.ts:463-471 | exactly the posts whose content, a tag, display name or username contains the query, case-insensitively, in order |
| Posts.PostsByTag | data/postsDatabase.ts:473-477 | exactly the posts with a tag equal to the argument ignoring case (equality, not substring), in order |
| Posts.PostById | data/postsDatabase.ts:459-461 | none iff no post has the id; otherwise the first post of the catalog with that id |
| Posts.EmptyQueryMatchesAll | data/postsDatabase.ts:447-471 | the empty query and the empty username select the whole catalog |
| Posts.SearchIgnoresCase | data/postsDatabase.ts:447-477 | queries equal up to case give the same search, user and tag results |
| Posts.UserPostsWithinSearch | data/postsDatabase.ts:447-471 | a username match is also a search match |
| Posts.TagPostsWithinSearch | data/postsDatabase.ts:463-477 | a tag match is also a search match |
| Posts.ComedyWithinTag | data/postsDatabase.ts:473-488 | the comedy posts are among the posts tagged `comedy` ignoring case |
| Posts.EchoHqWithinUserQuery | data/postsDatabase.ts:447-457 | the `@EchoHQ` posts are among the user query `echohq` |
| Posts.PostByIdFindsEach | data/postsDatabase.ts:459-461 | with distinct ids, looking up a post's id finds that post |
| Posts.Trending | data/postsDatabase.ts:479-483 | the corrected trending list: min(10, n) posts, each from the catalog |
| Posts.TrendingIsTopTen | data/postsDatabase.ts:479-483 | the corrected trending list has min(10, n) posts of the catalog in non-increasing likes, and no post left out has more likes than one taken |
| Posts.PostsDatabase.constructor | data/postsDatabase.ts:96 | the shared array holds the catalog |
| Posts.PostsDatabase.GetTrendingPosts | data/postsDatabase.ts:479-483 | as written: the shared array is left sorted by likes, and the result is its first ten posts |
| Posts.PostsDatabase.TrendingPostsOnCopy | data/postsDatabase.ts:479-483 | the same ten posts, computed on a copy so that the catalog keeps its order |
| Posts.QueriesAfterTrendingSorted | data/postsDatabase.ts:429-488 | after the in-place sort, every filter query returns its posts by likes |
| Posts.TrendingReordersForYou | data/postsDatabase.ts:429-433 | after getTrendingPosts the For You feed comes out in a different order than before |
| Posts.CatalogInvariant | data/postsDatabase.ts:8-14 | 24 posts, each with at most 3 tags, a duration between 1 and 59 seconds and a creation time no later than load time; the ids are distinct |
| Posts.RelativeCatalogShape | data/postsDatabase.ts:96-426 | the same shape facts for the catalog written relative to load time |
| Posts.CatalogIdsDistinct | data/postsDatabase.ts:96-426 | no two catalog posts share an id |
| Posts.CatalogForYou | data/postsDatabase.ts:429-433 | the For You feed is the first four catalog posts |
| Posts.CatalogForYouLikes | data/postsDatabase.ts:96-426 | the second and third posts have 89 and 256 likes, so the likes order differs from the catalog order |
| Posts.ForYouIdsInCatalog | data/postsDatabase.ts:429-433 | exactly the first four catalog ids are For You ids |
| Posts.CatalogEchoHq | data/postsDatabase.ts:453-457 | the `@EchoHQ` posts are catalog positions 15 to 19 |
| Posts.CatalogUsernames | data/postsDatabase.ts:96-426 | exactly positions 15 to 19 have the username `@EchoHQ` |
| Posts.EchoHqInRelativeCatalog | data/postsDatabase.ts:96-426 | the same, for the catalog written relative to load time |
| Posts.AtLoadTime | data/postsDatabase.ts:16 | shifting a post to load time changes only its creation time |
| Posts.Catalog | data/postsDatabase.ts:96-426 | the catalog is the relative catalog shifted to load time |
| MockData.NataliesPosts | data/mockData.ts:19-100 | five posts, 2, 4, 6, 8 and 10 hours old at load time |
| MockData.AllUsers | data/mockData.ts:102-109 | one user, `natalie`, with Natalie's five posts |
| MockData.UserPosts | data/mockData.ts:111-114 | no posts when no user's name matches ignoring case; otherwise the posts of the first match |
| MockData.SearchUserPosts | data/mockData.ts:116-122 | exactly that user's posts whose content or a tag contains the topic ignoring case, in order |
| MockData.TodaysPosts | data/mockData.ts:124-129 | exactly that user's posts created at or after the start of the day, in order |
| MockData.UserPostsIgnoresCase | data/mockData.ts:112 | user names equal up to case give the same posts |
| MockData.NatalieLookup | data/mockData.ts:102-114 | "Natalie" finds her five posts; her handle `@natalie_morning` finds nothing |
| MockData.EmptyTopicMatchesAll | data/mockData.ts:116-122 | the empty topic keeps every post of the user |
| MockData.TodaysPostsMonotone | data/mockData.ts:124-129 | a later start of day keeps a subsequence of the posts an earlier one keeps |
| MockData.NatalieToday | data/mockData.ts:124-129 | all five posts count as today when the day began at least 10 hours before load time, and none when it began under 2 hours before |
| Time.LocalMidnight | data/mockData.ts:126-127 | `setHours(0, 0, 0, 0)` gives the last local midnight at or before now |
| UserActivity.EchoIds | types/user.ts:33-44 | the ids of the echoes, position by position |
| UserActivity.VoiceStyleOr | hooks/useUserActivity.ts:100 | `voiceStyle \|\| 'Original'`: never empty, and a non-empty style is kept |
| UserActivity.UserEchoes | hooks/useUserActivity.ts:82-93 | one echo per `@EchoHQ` post, in order and with its id; all public and dated |
| UserActivity.SavedEchoes | hooks/useUserActivity.ts:95-106 | one echo per saved post, in order, with its id, date and likes; public; never an empty voice style |
| UserActivity.LikedEchoes | hooks/useUserActivity.ts:108-119 | one echo per like record, in order, with its id and likes; public; no date, since records carry none; never an empty voice style |
| UserActivity.LikedEchoesMatchStore | hooks/useUserActivity.ts:108-119 | with the like store in step, the liked echoes' ids are exactly the liked ids |
| UserActivity.CatalogUserEchoes | hooks/useUserActivity.ts:82-93 | in the catalog the user's echoes are `echohq_1` to `echohq_5` |
| UserActivity.MockDownloads | hooks/useUserActivity.ts:8-35 | the three demo downloads, each with its fields as listed and its download time placed relative to now and its expiry, when it has one, placed relative to now |
| UserActivity.MockFriends | hooks/useUserActivity.ts:37-66 | the three demo friends, each with its fields as listed and its last-seen time, when it has one, placed relative to now |
| UserActivity.WithoutDownload | hooks/useUserActivity.ts:143 | keeps, in order, exactly the downloads with another id |
| UserActivity.WithoutAbsentDownload | hooks/useUserActivity.ts:143 | removing an id no download has changes nothing |
| UserActivity.BuildActivity | hooks/useUserActivity.ts:80-127 | one saved echo per saved post and one liked echo per like record, with their ids in order; the own echoes are the `@EchoHQ` posts by id; three downloads and three friends; saved and own echoes are public |
| UserActivity.ActivityHook.constructor | hooks/useUserActivity.ts:69-71 | no activity, loading, no error |
| UserActivity.ActivityHook.LoadActivity | hooks/useUserActivity.ts:76-136 | the activity is built from the catalog, the saved posts, the like records and the clock, and loading ends. The effect runs again whenever the like records or the saved posts change (line 136) |
| UserActivity.RemovedDownloadReturns | hooks/useUserActivity.ts:76-145 | a download removed after one load is back after the next, since each load generates the demo downloads afresh |
| UserActivity.ActivityHook.RemoveDownload | hooks/useUserActivity.ts:138-145 | no activity stays none; otherwise only the downloads list changes, losing exactly the entries with that id |
| UserActivity.DiffInSeconds | hooks/useUserActivity.ts:157 | the whole seconds elapsed, rounded down, also for negative differences |
| UserActivity.UnitFor | hooks/useUserActivity.ts:160-164 | for at least a minute, a unit of at least a second and at most the difference |
| UserActivity.RelativeTime | hooks/useUserActivity.ts:159-164 | "Just now" exactly for differences under 60 seconds |
| UserActivity.RelativeTimeCount | hooks/useUserActivity.ts:160-164 | from a minute on, the label is `n` and a unit ("m", "h", "d", "mo", "y") and " ago"; `n` reads back, is at least 1 and is the whole number of units; minutes stay under 60, hours under 24, days under 30 and months at most 12 |
| UserActivity.GetRelativeTime | hooks/useUserActivity.ts:155-165 | "Just now" exactly when the date is under a minute in the past, which includes every future date |
| UserHook.Merge | hooks/useUser.ts:56 | a shallow merge: a display name, bio or preferences the update carries replaces the profile's, preferences as a whole object, and one it leaves out is kept |
| UserHook.MergeNothing | hooks/useUser.ts:56 | the empty update changes nothing |
| UserHook.MergeIdempotent | hooks/useUser.ts:56 | applying an update twice is applying it once |
| UserHook.MergeThen | hooks/useUser.ts:56 | two updates in a row are one combined update, the later field winning |
| UserHook.PreferencesReplacedWhole | hooks/useUser.ts:56 | a preferences update replaces the whole preferences object and leaves the display name |
| UserHook.UserSession.constructor | hooks/useUser.ts:29-31 | no user, loading, no error |
| UserHook.UserSession.IsAuthenticated | hooks/useUser.ts:71 | `!!user`: authenticated exactly when a profile is loaded; loading makes it true and an update never changes it |
| UserHook.UserSession.LoadUser | hooks/useUser.ts:35-46 | the mock profile is loaded and loading ends |
| UserHook.UserSession.UpdateProfile | hooks/useUser.ts:51-64 | reports success and ends loading; no user stays none, otherwise the user becomes the merge |
| UserHook.LoadThenRename | hooks/useUser.ts:35-71 | after loading and renaming, the user is the mock profile with the new name and is authenticated |
| UserHook.UpdateBeforeLoad | hooks/useUser.ts:51-71 | an update before the load reports success but leaves nobody authenticated |
| ProfileHeader.MonthsSince | components/UserProfile/ProfileHeader.tsx:29-31 | the whole 30-day months elapsed |
| ProfileHeader.JoinLabel | components/UserProfile/ProfileHeader.tsx:33-38 | "Joined this month" exactly for fewer than one month |
| ProfileHeader.FormatJoinDate | components/UserProfile/ProfileHeader.tsx:27-39 | "Joined this month" exactly when under 30 days have elapsed |
| ProfileHeader.JoinDateBuckets | components/UserProfile/ProfileHeader.tsx:33-38 | one month reads "1 month ago", 2 to 11 read "m months ago", 12 to 23 read "1 year ago", and later ones read whole years |
| ProfileHeader.MonthLabelsDiffer | components/UserProfile/ProfileHeader.tsx:35 | within 2 to 11 months, equal labels mean equal month counts |
| ProfileHeader.MaskLocal | components/UserProfile/ProfileHeader.tsx:49-51 | keeps the length; a part of at most 2 characters is unchanged; otherwise the first two stay and the rest are `*` |
| ProfileHeader.MaskEmail | components/UserProfile/ProfileHeader.tsx:47-53 | an address without `@` is masked and followed by "@undefined" |
| ProfileHeader.MaskEmailOf | components/UserProfile/ProfileHeader.tsx:47-53 | `local@domain...` masks to the masked local part, `@` and the second field only |
| ProfileHeader.EmailShown | components/UserProfile/ProfileHeader.tsx:121 | the raw address when `showEmail`, the masked one otherwise |
| ProfileHeader.BioPreview | components/UserProfile/ProfileHeader.tsx:56-58 | up to 100 characters unchanged; longer ones become their first 100 characters and "..." |
| ProfileHeader.ShowsBio | components/UserProfile/ProfileHeader.tsx:55 | `shouldShowBio`: a present, non-empty bio; every bio long enough for the Show more control is shown |
| ProfileHeader.BioText | components/UserProfile/ProfileHeader.tsx:133-137 | a bio appears iff it is non-empty; expanded it is the full bio; collapsed it is never longer than the bio unless it is the 103-character preview |
| ProfileHeader.NoToggleShowsAll | components/UserProfile/ProfileHeader.tsx:138 | without the toggle, collapsed and expanded bios are the same |
| ProfileHeader.ToggleHidesRest | components/UserProfile/ProfileHeader.tsx:138 | with the toggle, the collapsed bio is the first 100 characters and "..." |
| ProfileHeader.Firsts | components/UserProfile/ProfileHeader.tsx:97 | `map(n => n[0])` gives at most one character per word, an empty word giving none |
| ProfileHeader.Initials | components/UserProfile/ProfileHeader.tsx:97 | at most one initial per space-separated word |
| ProfileHeader.FirstsOfWords | components/UserProfile/ProfileHeader.tsx:97 | words that are all non-empty give exactly their first characters |
| ProfileHeader.InitialsOfWords | components/UserProfile/ProfileHeader.tsx:97 | names of non-empty words joined by single spaces give the uppercased first letters |
| EditProfile.UrlCandidate | components/UserProfile/EditProfileModal.tsx:65 | the address as typed when it starts with `http`, else behind `https://`; always starting with `http` |
| EditProfile.IsValidUrl | components/UserProfile/EditProfileModal.tsx:63-70 | `isValidUrl`: an address starting with `http` is valid iff it parses as typed; any other iff it parses with `https://` prefixed |
| EditProfile.UrlCandidateIdempotent | components/UserProfile/EditProfileModal.tsx:65 | a candidate is its own candidate |
| EditProfile.Validate | components/UserProfile/EditProfileModal.tsx:42-58 | the name error is either "required" or "too long", and "required" exactly when the trimmed name is empty; a bio error is the length error; no website error for an empty website |
| EditProfile.ValidIff | components/UserProfile/EditProfileModal.tsx:59-60 | no error is set iff the name is not blank and at most 30 characters, the bio at most 250, and the website empty or parsing |
| EditProfile.PaddedNameTooLong | components/UserProfile/EditProfileModal.tsx:45-48 | the name's length is measured untrimmed, so a padded name can be too long |
| EditProfile.OrEmpty | components/UserProfile/EditProfileModal.tsx:34-36 | `x \|\| ''` for an optional text |
| EditProfile.FormOf | components/UserProfile/EditProfileModal.tsx:32-38 | the form starts from the user's values, with missing texts empty |
| EditProfile.FailureAlert | components/UserProfile/EditProfileModal.tsx:82 | an "Error" alert with the callback's message, or the default one |
| EditProfile.WithText | components/UserProfile/EditProfileModal.tsx:145-207 | typing into one field changes that field alone |
| EditProfile.ProfileForm.constructor | components/UserProfile/EditProfileModal.tsx:32-40 | the form of the user, no errors, not loading |
| EditProfile.ProfileForm.ChangeText | components/UserProfile/EditProfileModal.tsx:145-207 | the form becomes `WithText` of the old one |
| EditProfile.ProfileForm.ChangePreferences | components/UserProfile/EditProfileModal.tsx:232-270 | only the preferences of the form change |
| EditProfile.ProfileForm.ValidateForm | components/UserProfile/EditProfileModal.tsx:42-61 | the errors become `Validate` of the form, and the answer is whether none is set |
| EditProfile.ProfileForm.HandleSave | components/UserProfile/EditProfileModal.tsx:72-89 | an invalid form is neither submitted nor closed and raises no alert; a valid one is submitted as it is and loading ends; success closes with the success alert, a failure or a rejection keeps it open with its alert |
| EditProfile.ProfileForm.HandleClose | components/UserProfile/EditProfileModal.tsx:91-102 | the form returns to the user's values, the errors clear, and the editor closes |
| EditProfile.EditThenClose | components/UserProfile/EditProfileModal.tsx:91-102 | whatever was typed, closing gives a fresh form |
| EditProfile.BlankNameBlocksSave | components/UserProfile/EditProfileModal.tsx:45-46 | a blank name blocks the save with the required error, whatever the callback would do |
| Format.FormatDuration | components/PostCard.tsx:102-106 | `formatDuration`: for a non-negative duration, the whole minutes, a colon, and two digits reading the remaining seconds |
| Format.JsRem | components/PostCard.tsx:104 | the remainder with the sign of the dividend and smaller than the divisor, equal to Dafny's for non-negative dividends |
| Format.SecondsDigits | components/PostCard.tsx:105 | the padded seconds field is two digits that read back as the seconds |
| Format.FormatDurationReadsBack | components/PostCard.tsx:102-106 | split at the colon, a non-negative duration's label is the minutes and a two-digit seconds field that give back the duration |
| Format.FormatDurationInjective | components/UserProfile/EchoListItem.tsx:29-33 | different non-negative durations have different labels |
| EchoItems.DurationText | components/UserProfile/EchoListItem.tsx:52-56 | a label iff the duration is present and non-zero, and then the `m:ss` label |
| EchoItems.ListTags | components/UserProfile/EchoListItem.tsx:83 | the first three tags at most |
| EchoItems.GridTags | components/UserProfile/EchoGridItem.tsx:69 | the first two tags at most |
| EchoItems.GridTagsWithinList | components/UserProfile/EchoGridItem.tsx:69 | the grid's tags are a prefix of the list's |
| EchoItems.ListIndicators | components/UserProfile/EchoListItem.tsx:60-69 | the heart iff the tab asks for it; the lock iff the tab asks for it and the echo is private |
| EchoItems.NoLockOnOwnEchoes | components/UserProfile/EchoGridItem.tsx:55 | the user's own echoes never show the lock |
| EchoItems.AccessibilityLabel | components/UserProfile/EchoListItem.tsx:39 | "Echo: ", at most the first 50 characters and "...", which is appended whatever the length |
| EchoItems.LabelNamesPrefix | components/UserProfile/EchoGridItem.tsx:43 | equal labels mean equal contents up to 50 characters, and equal contents when one is shorter |
| EchoItems.DateCellAsWritten | components/UserProfile/EchoListItem.tsx:70-72 | as written: the relative time of a dated echo, and a TypeError for an undated one |
| EchoItems.LikedRowsThrow | components/UserProfile/EchoListItem.tsx:71 | every row of the liked tab throws when it renders its date |
| EchoItems.DateText | components/UserProfile/EchoListItem.tsx:70-72 | corrected: no date label iff the echo has no date, the relative time otherwise |
| EchoItems.DateCellAgrees | components/UserProfile/EchoListItem.tsx:71 | the corrected cell shows the written label wherever the written one renders |
| PostCard.LikeSnapshot | components/PostCard.tsx:58-74 | the record carries the post's identity and the count after the toggle, one less when liked and one more otherwise |
| PostCard.HandleLike | components/PostCard.tsx:58-74 | toggles the post in the like store with that snapshot; its like flips |
| PostCard.IsInSavedPosts | components/PostCard.tsx:77 | the bookmark looks at the saved posts only, not the queue |
| PostCard.HandleSave | components/PostCard.tsx:76-84 | unsaves a bookmarked post, otherwise saves it permanently; the queue and downloads stay |
| PostCard.HandleDownload | components/PostCard.tsx:86-92 | removes a finished download, otherwise starts one; a press while downloading changes nothing; saved posts stay |
| PostCard.HandlePlay | components/PostCard.tsx:94-100 | stop iff this post is playing, otherwise play it with its duration |
| PostCard.ShownTags | components/PostCard.tsx:190 | the first three tags at most, all of them if there are no more |
| PostCard.ReplyTags | components/PostCard.tsx:396 | the first two tags of a reply at most |
| PostCard.CatalogShowsAllTags | components/PostCard.tsx:190 | every catalog post shows all of its tags |
| PostCard.ReplyCount | components/PostCard.tsx:231 | the listed replies for a post with replies, its `replies` count otherwise |
| PostCard.LikeTwice | components/PostCard.tsx:58-74 | two like presses from unliked leave the like store as it was |
| PostCard.SaveQueuedPost | components/PostCard.tsx:76-84 | a queued-only post shows no bookmark; pressing save bookmarks it and it stays queued |
| Sorting.SortedCopy | components/UserProfile/tabs/DownloadsTab.tsx:50-52 | `[...xs].sort(...)` returns the stable sort by key and leaves the input alone |
| Sorting.SortDescending | data/postsDatabase.ts:480-481 | the in-place sort leaves the array holding the stable sort of its old contents |
| Sorting.SortPermutes | data/postsDatabase.ts:481 | sorting is a permutation |
| Sorting.SortIsSorted | data/postsDatabase.ts:481 | the result has non-increasing keys |
| Sorting.SortOfSorted | data/postsDatabase.ts:481 | sorting a sorted list changes nothing |
| Sorting.EqualKeysSorted | components/UserProfile/tabs/LikedEchoesTab.tsx:29-31 | a stable sort of elements with equal keys keeps their order |
| Sorting.FilterOfSorted | components/UserProfile/tabs/UserEchoesTab.tsx:27-28 | filtering a sorted list keeps it sorted |
| FriendsTab.Compare | components/UserProfile/tabs/FriendsTab.tsx:40-44 | negative, a first, iff a alone is online or both are alike and a's friendship is more recent; positive in the mirror cases |
| FriendsTab.CompareIsRank | components/UserProfile/tabs/FriendsTab.tsx:40-44 | the comparator puts a first iff a is online and b not, or both have the same status and a's friendship is no older; it calls them equal iff the keys are equal |
| FriendsTab.SortFriends | components/UserProfile/tabs/FriendsTab.tsx:40-44 | a permutation of the friends; no offline friend comes before an online one; within one status the friendships run from the most recent |
| FriendsTab.OnlineFriends | components/UserProfile/tabs/FriendsTab.tsx:46 | exactly the online friends, in the input order |
| FriendsTab.OnlineLeadAll | components/UserProfile/tabs/FriendsTab.tsx:46-105 | the sorted list opens with the friends of the Online Now section, as a multiset, and everyone after them is offline |
| FriendsTab.SortedLeadsOnline | components/UserProfile/tabs/FriendsTab.tsx:40-44 | in a list sorted by the key, online friends come first |
| FriendsTab.Pressed | components/UserProfile/tabs/FriendsTab.tsx:81-83 | pressing the selected card clears the selection; pressing any other card selects it |
| FriendsTab.PressTwice | components/UserProfile/tabs/FriendsTab.tsx:100-102 | two presses of one card restore the selection iff nothing or that card was selected |
| FriendsTab.Selection.constructor | components/UserProfile/tabs/FriendsTab.tsx:20 | nothing is selected |
| FriendsTab.Selection.Press | components/UserProfile/tabs/FriendsTab.tsx:81-83 | the selection becomes `Pressed` of the old one |
| FriendsTab.PressTwoCards | components/UserProfile/tabs/FriendsTab.tsx:99-102 | pressing one card and then another leaves only the second selected |
| FriendsTab.LastSeenText | components/UserProfile/tabs/FriendsTab.tsx:146-150 | a "Last seen" line iff the friend is offline with a last-seen time, reading "Last seen " and the relative time |
| FriendsTab.NoLastSeenWhenOnline | components/UserProfile/tabs/FriendsTab.tsx:146 | an online friend never shows one |
| FriendsTab.MockLastSeen | hooks/useUserActivity.ts:37-66 | of the demo friends built at a time, only the offline one has a last-seen line, reading "Last seen 30m ago" |
| FriendsTab.Render | components/UserProfile/tabs/FriendsTab.tsx:23-110 | the empty state iff there are no friends; otherwise the total, the unsorted online section and the sorted list; the section shows only when someone is online |
| DownloadsTab.Compare | components/UserProfile/tabs/DownloadsTab.tsx:50-52 | negative iff a was downloaded later, zero iff at the same time |
| DownloadsTab.CompareIsRank | components/UserProfile/tabs/DownloadsTab.tsx:50-52 | the comparator keeps a first iff a was downloaded no earlier |
| DownloadsTab.SortDownloads | components/UserProfile/tabs/DownloadsTab.tsx:50-52 | a permutation of the downloads, from the most recent |
| DownloadsTab.TotalSize | components/UserProfile/tabs/DownloadsTab.tsx:54 | the sum of the sizes, never negative when no size is |
| DownloadsTab.TotalSizeAppend | components/UserProfile/tabs/DownloadsTab.tsx:54 | one more download adds its size |
| DownloadsTab.TotalSizeInsert | components/UserProfile/tabs/DownloadsTab.tsx:54 | inserting a download anywhere adds its size |
| DownloadsTab.TotalSizeOfSorted | components/UserProfile/tabs/DownloadsTab.tsx:50-54 | the header total, taken on the unsorted list, is the total of the table's rows |
| DownloadsTab.MockTotalSize | hooks/useUserActivity.ts:14-31 | the demo downloads total 7815744 bytes |
| DownloadsTab.StripesAlternate | components/UserProfile/tabs/DownloadsTab.tsx:92 | the first row is striped and neighbouring rows differ |
| DownloadsTab.ExpiryLabelAsWritten | components/UserProfile/tabs/DownloadsTab.tsx:100-104 | as written: a line iff the download expires, reading "Expires " and the relative time of the expiry |
| DownloadsTab.FutureExpiryReadsJustNow | components/UserProfile/tabs/DownloadsTab.tsx:104 | every expiry later than a minute ago reads "Expires Just now" |
| DownloadsTab.MockExpiries | hooks/useUserActivity.ts:16-33 | the demo downloads built at a time expire 7 days later, never, and 4 days later |
| DownloadsTab.MockExpiriesAlike | hooks/useUserActivity.ts:16-33 | as written, the first and third demo downloads both read "Expires Just now" |
| DownloadsTab.ExpiryLabel | components/UserProfile/tabs/DownloadsTab.tsx:100-104 | corrected: a line iff the download expires; under a minute ahead it is the written line |
| DownloadsTab.ExpiryLabelCounts | components/UserProfile/tabs/DownloadsTab.tsx:104 | from a minute ahead, the line is "Expires in " and `n` whole units left, with `n` at least 1 |
| DownloadsTab.ExpiryNamesDays | components/UserProfile/tabs/DownloadsTab.tsx:104 | between 1 and 30 days ahead, equal lines mean the same number of days left |
| DownloadsTab.MockExpiryLabels | hooks/useUserActivity.ts:16-33 | corrected, the demo downloads read "Expires in 7d", no line, and "Expires in 4d" |
| DownloadsTab.DaysLeftLabel | components/UserProfile/tabs/DownloadsTab.tsx:104 | 1 to 9 days ahead reads "Expires in Nd" |
| DownloadsTab.DeletePrompt | components/UserProfile/tabs/DownloadsTab.tsx:23-25 | asks "Delete Download" about the download by title |
| DownloadsTab.HandleDelete | components/UserProfile/tabs/DownloadsTab.tsx:20-35 | shows the prompt; Delete removes that download's id from the activity of the tab's own hook instance and Cancel changes nothing |
| DownloadsTab.DeleteAsWritten | components/UserProfile/tabs/DownloadsTab.tsx:20-35 | as written: the table rendered from the parent's activity is the same before and after Delete, and still shows the row |
| DownloadsTab.DeleteThroughParent | hooks/useUserActivity.ts:138-145 | corrected: Delete through the hook instance that feeds the table filters that id out of its downloads; the new table shows no row with the id and keeps every other download |
| DownloadsTab.Render | components/UserProfile/tabs/DownloadsTab.tsx:37-92 | the empty state iff there are no downloads; otherwise the count, the total, which equals the rows' total, and the rows from the most recent |
| UserEchoesTab.Compare | components/UserProfile/tabs/UserEchoesTab.tsx:23-25 | NaN, meaning "equal" to the sort, exactly when either echo is undated |
| UserEchoesTab.CompareIsRank | components/UserProfile/tabs/UserEchoesTab.tsx:23-25 | between dated echoes the comparator keeps the more recent first; undated echoes share one key |
| UserEchoesTab.SortEchoes | components/UserProfile/tabs/UserEchoesTab.tsx:23-25 | a permutation; dated echoes run from the most recent, each before every undated echo |
| UserEchoesTab.PublicEchoes | components/UserProfile/tabs/UserEchoesTab.tsx:27 | exactly the public echoes, in sorted order |
| UserEchoesTab.PrivateEchoes | components/UserProfile/tabs/UserEchoesTab.tsx:28 | exactly the private echoes, in sorted order |
| UserEchoesTab.PartitionOfSorted | components/UserProfile/tabs/UserEchoesTab.tsx:27-28 | the public and private counts add up to the total, the two parts together are the echoes, and each keeps the sort |
| UserEchoesTab.NoPrivateOwnEchoes | components/UserProfile/tabs/UserEchoesTab.tsx:54 | the user's own echoes count 0 private |
| UserEchoesTab.CountLabel | components/UserProfile/tabs/UserEchoesTab.tsx:51 | "1" and the noun for one; otherwise the count, the noun and "s" |
| UserEchoesTab.CountLabelInjective | components/UserProfile/tabs/UserEchoesTab.tsx:51 | for a noun not ending in "s", different counts give different labels |
| UserEchoesTab.EchoCountLabel | components/UserProfile/tabs/UserEchoesTab.tsx:51 | "1 Echo", "2 Echos", …; the label determines the count |
| UserEchoesTab.ViewToggle.constructor | components/UserProfile/tabs/UserEchoesTab.tsx:20 | the grid comes first |
| UserEchoesTab.ViewToggle.Choose | components/UserProfile/tabs/UserEchoesTab.tsx:63-73 | a toggle button sets its mode |
| UserEchoesTab.Render | components/UserProfile/tabs/UserEchoesTab.tsx:19-110 | the empty state iff there are no echoes; otherwise the title, the public and private counts adding up to the total, and the sorted echoes in the chosen mode |
| LikedEchoesTab.LikedCountLabel | components/UserProfile/tabs/LikedEchoesTab.tsx:37 | "1 Liked Echo", "2 Liked Echos", …; the label determines the count |
| LikedEchoesTab.LikedOrderKept | components/UserProfile/tabs/LikedEchoesTab.tsx:29-31 | the liked echoes are undated, so the sort keeps them in like order |
| LikedEchoesTab.LikedRowsMarked | components/UserProfile/tabs/LikedEchoesTab.tsx:49-56 | each liked row shows the heart and never the lock |
| LikedEchoesTab.Render | components/UserProfile/tabs/LikedEchoesTab.tsx:16-61 | the empty state iff there are no liked echoes; otherwise the title and the sorted rows, a permutation of the echoes |

## Left out

- The persistence of the save, play and like stores. AsyncStorage reads and writes are I/O, and their `console` logging is output only. The transcription preference's storage is modelled as a map.
- The save, play and like stores' load from storage on mount. This is I/O plus `JSON.parse` of arbitrary stored data.
- TranscriptionStore.Loaded: a stored value that parses to something other than a boolean is not modelled, because `JSON.parse` of arbitrary JSON is out of scope.
- The two-second timer of `downloadPost`. It is replaced by explicit completions; the delay and the interleaving with React's batching are concurrency.
- The network call to the language model. Its outcome is a parameter of `TagGenerator.HandleRequest`. The request body built for it is output only.
- TagGenerator.GenerateFallbackTags: `Math.random` is a nondeterministic choice among the unused generic tags. The model does not capture that the loop may draw repeated tags before finding a new one.
- The `URL` constructor. Whether a candidate parses is the parameter `urlParses`.
- `Date.now()` and `new Date()`. Both are a `now` parameter in milliseconds. `Time.LocalMidnight` takes the time zone offset as a parameter.
- `String.prototype.toLowerCase`/`toUpperCase`. These are modelled on ASCII letters only, because Unicode case mapping is out of scope.
- `trim`. It is modelled on a fixed set of whitespace characters.
- `formatNumber` in the profile header and `formatFileSize` in the activity hook. Both do floating-point arithmetic (`toFixed`, `Math.log`). The total size is modelled as the integer the tab passes to `formatFileSize`.
- `formatCurrentTime` in the post card. It multiplies a floating-point progress.
- EchoItems.DurationText: a duration of 0 is treated as showing nothing. As written, `{0 && ...}` renders the number 0 (React Native would reject it as bare text), and that rendering error is not modelled.
- UserEchoesTab.SortEchoes: the order of a list mixing dated and undated echoes is implementation-defined in JavaScript, because such a comparator is inconsistent. The model fixes one order: undated after dated. All-dated and all-undated lists are exact.
- UserHook.UserSession.UpdateProfile and LoadUser: the `catch` branches are not modelled. Nothing in their `try` blocks can throw (a timer and a state setter), so the branches are unreachable.
- UserActivity.ActivityHook.LoadActivity: the `catch` branch is not modelled, for the same reason. React's scheduling of the effect is not modelled either: each run is a call of `LoadActivity`.
- EditProfile.Validate: the `TextInput` `maxLength` limits of 30 and 250 stop typing beyond the limit. The length errors can therefore arise only from a profile loaded with longer values. The model does not apply the limits to `ChangeText`.
- EditProfile.Validate: the limits of 30 and 250 count characters of a Dafny string. JavaScript's `length` counts UTF-16 code units, so a character outside the Basic Multilingual Plane counts 2 there and 1 here.
- EditProfile.ValidIff: states its limits of 30 and 250 in characters, not in UTF-16 code units, as `Validate` does.
- ProfileHeader.BioPreview: the 100-character cut counts characters. JavaScript's `substring` counts UTF-16 code units and can cut a surrogate pair in half.
- ProfileHeader.MaskLocal: the length it keeps and the two characters it shows are characters, not UTF-16 code units.
- ProfileHeader.Firsts: `n[0]` is one character here. In JavaScript it is one UTF-16 code unit, which is half of a character outside the Basic Multilingual Plane.
- ProfileHeader.Initials: built on `Firsts`, so it takes whole characters where JavaScript takes code units.
- EchoItems.AccessibilityLabel: the 50-character cut counts characters, not UTF-16 code units.
- TagGenerator.HandleRequest: the request's `text` is a string or absent. A `text` that is present but not a string (a number, an object) is not modelled; in the source a truthy one passes the `!text` check; on the fallback path `toLowerCase` then throws, the `catch` branch cannot read the body again, and the three fixed tags are returned.
- SaveStore.SaveManager.MoveToSaved: reads the latest queue. The source reads `commuteQueue` from the render that made the handler (contexts/SaveContext.tsx:132), so two calls within one render both see the old queue.
- SaveStore.SaveManager.MoveToQueue: reads the latest saved posts. The source reads `savedPosts` from the render that made the handler (contexts/SaveContext.tsx:155).
- SaveStore.SaveManager.StartDownload: reads the latest download sets. The source's guard reads the render's `downloadingPosts` and `downloadedPosts` (contexts/SaveContext.tsx:178), so two presses within one render both schedule a download. `DoubleStartSchedulesOnce` assumes a render between the presses.
- PostCard.HandleSave: reads the latest saved posts. The source's `savedPosts.some(...)` reads the render's list (components/PostCard.tsx:77), so two presses within one render both save, and the post stays saved, where the model saves and then unsaves.
- PostCard.HandleDownload: reads the latest downloaded set. The source's `isDownloaded(post.id)` is the render's function over the render's set (components/PostCard.tsx:87), so two presses within one render both take the same branch.
- SaveStore.SaveManager.ClearQueue: reads the latest queue. The source takes `queueIds` from the render's `commuteQueue` (contexts/SaveContext.tsx:241).
- TranscriptionStore.TranscriptionSetting.ToggleTranscriptions: negates the latest flag. The source negates the render's `transcriptionsEnabled`, so two toggles within one render both write the same value.
- PlayStore.PlayTick: the elapsed time is a whole number of seconds. The source's `(Date.now() - startTime) / 1000` is a fraction, and the 100 ms interval and the progress bar are not modelled.
- The mock profile's e-mail and bio texts are not spelled out in the mock profile constant beyond what the lemmas use. Long literal strings are costly to reason about.
- The rendering-only components have no rule worth a contract: SavedEchoesTab, ActivityTabs, AudioPost, VoiceRecorder, VoiceStylePicker, BoltBadge, UserProfileInterface and the app screens.
- The friend card's accessibility label and its "Friends since" line. Both are plain text rendering over `getRelativeTime`, which is modelled.
- Styles (`styles/globalStyles.ts`) and icons. These are presentation only.

## Findings

| source | as written | input that shows it | evidently intended | confidence | as-written member | corrected member |
|---|---|---|---|---|---|---|
| data/postsDatabase.ts:479-483 | `getTrendingPosts` sorts the shared `postsDatabase` array in place, so every later query returns its posts by likes, not in catalog order; no screen of this repository calls it, so the reorder is latent | the unmodified catalog: before the call the For You feed is post_1, post_2, post_3, post_4; after it, post_3 (256 likes) comes before post_2 (89 likes) | sort a copy (`[...postsDatabase].sort`) and leave the catalog's order alone | not executed | Posts.PostsDatabase.GetTrendingPosts, Posts.TrendingReordersForYou | Posts.PostsDatabase.TrendingPostsOnCopy, Posts.TrendingIsTopTen |
| components/UserProfile/EchoListItem.tsx:71 | the date cell calls `getRelativeTime(echo.createdAt)`, but liked echoes are built from like records, which carry no `createdAt` (hooks/useUserActivity.ts:116), so `date.getTime()` throws a TypeError | any liked post: like one post, then open the liked tab | render no date, or a date of the like, for an echo without one | not executed | EchoItems.DateCellAsWritten, EchoItems.LikedRowsThrow | EchoItems.DateText, EchoItems.DateCellAgrees |
| contexts/PlayContext.tsx:81 | the once-per-post guard reads `playedPosts` from the render that created `incrementPlayCount`; the 100 ms timer of the discover tab's `handlePlay` keeps calling the handler of the render where playback started, so every tick after 5 seconds counts the post again | one play of a 10-second post: about 50 ticks from 5 to 10 seconds, each adding one to the count and one 5-second session | count a post once: guard on the latest played set (inside the state updater) | not executed | PlayStore.PlayTracker.IncrementPlayCount, PlayStore.PlayWithoutRender | PlayStore.PlayTracker.IncrementPlayCountOnLatest, PlayStore.PlayRepeatedly, PlayStore.PlayTwiceWithRender |
| components/UserProfile/tabs/DownloadsTab.tsx:20-31 | the tab calls `useUserActivity()` itself, so `removeDownload` filters the tab's own copy of the activity; the table is drawn from the `downloads` prop, the parent's copy (components/UserProfile/ActivityTabs.tsx:111), which never changes | open the downloads tab, press Delete on "Coffee Shop Philosophy" and confirm: the row stays | remove the download from the activity that feeds the table (pass the parent's `removeDownload` down) | not executed | DownloadsTab.HandleDelete, DownloadsTab.DeleteAsWritten | DownloadsTab.DeleteThroughParent |
| components/UserProfile/tabs/DownloadsTab.tsx:100-104 | the expiry line is "Expires " followed by `getRelativeTime(expiresAt)`, which measures time in the past, so every future expiry reads "Expires Just now" | the demo downloads expiring in 7 and in 4 days both read "Expires Just now" | count the time left: "Expires in 7d", "Expires in 4d" | not executed | DownloadsTab.ExpiryLabelAsWritten, DownloadsTab.FutureExpiryReadsJustNow, DownloadsTab.MockExpiriesAlike | DownloadsTab.ExpiryLabel, DownloadsTab.ExpiryNamesDays, DownloadsTab.MockExpiryLabels |

The liked tab's subtitle reads "Sorted by most recent", but its echoes are undated and the sort keeps them in the order they were liked (`LikedEchoesTab.LikedOrderKept`): oldest like first.
