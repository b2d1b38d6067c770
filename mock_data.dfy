/** The per-user mock posts behind the profile search (`data/mockData.ts`): one user,
    "natalie", with five posts, and the lookups over them. */
module MockData {
  import opened Wrappers
  import opened Time
  import Seqs
  import Strings

  /** A user's post; `createdAt` in milliseconds since the epoch. */
  datatype UserPost = UserPost(
    id: string, username: string, displayName: string, avatar: string, audioUrl: string,
    duration: int, voiceStyle: string, likes: int, replies: int, timestamp: string,
    isLiked: bool, tags: seq<string>, content: string, createdAt: int)

  datatype MockUser = MockUser(username: string, displayName: string, posts: seq<UserPost>)

  /** `nataliesPosts` as built when the module loads at loadTime: 2, 4, 6, 8 and 10
      hours old. */
  function NataliesPosts(loadTime: int): (r: seq<UserPost>)
    ensures |r| == 5
    ensures forall i :: 0 <= i < 5 ==>
      r[i] == NatalieRelative[i].(createdAt := loadTime - (2 * i + 2) * Hour)
  {
    seq(5, i requires 0 <= i < 5 => NatalieRelative[i].(createdAt := NatalieRelative[i].createdAt + loadTime))
  }

  /** `allUsers`. */
  function AllUsers(loadTime: int): (r: seq<MockUser>)
    ensures |r| == 1 && r[0].username == "natalie" && r[0].posts == NataliesPosts(loadTime)
    ensures forall i :: 0 <= i < |r| ==> |r[i].posts| == 5
  {
    [MockUser("natalie", "Natalie Chen", NataliesPosts(loadTime))]
  }

  predicate NameMatches(u: MockUser, username: string)
  {
    Strings.ToLower(u.username) == Strings.ToLower(username)
  }

  /** `getUserPosts(username)`: the posts of the first user whose name equals the
      argument ignoring case, and no posts when there is none. */
  function UserPosts(users: seq<MockUser>, username: string): (r: seq<UserPost>)
    ensures (forall i :: 0 <= i < |users| ==> !NameMatches(users[i], username)) ==> r == []
    ensures forall i :: 0 <= i < |users| && NameMatches(users[i], username) &&
                        (forall j :: 0 <= j < i ==> !NameMatches(users[j], username)) ==>
                        r == users[i].posts
  {
    match Seqs.Find(users, (u: MockUser) => NameMatches(u, username))
    case None => []
    case Some(u) => u.posts
  }

  /** The content or a tag contains the topic, ignoring case. */
  predicate TopicMatches(p: UserPost, topic: string)
  {
    Strings.Contains(Strings.ToLower(p.content), Strings.ToLower(topic)) ||
    Seqs.Some(p.tags, (t: string) => Strings.Contains(Strings.ToLower(t), Strings.ToLower(topic)))
  }

  /** `searchUserPosts(username, topic)`: that user's posts about the topic, in order. */
  function SearchUserPosts(users: seq<MockUser>, username: string, topic: string): (r: seq<UserPost>)
    ensures Seqs.Selects(r, UserPosts(users, username), p => TopicMatches(p, topic))
  {
    Seqs.FilterSelects(UserPosts(users, username), p => TopicMatches(p, topic));
    Seqs.Filter(UserPosts(users, username), p => TopicMatches(p, topic))
  }

  /** `getTodaysPosts(username)`: that user's posts created since todayStart, the
      local midnight the source computes with `setHours(0, 0, 0, 0)`
      (see `Time.LocalMidnight`). */
  function TodaysPosts(users: seq<MockUser>, username: string, todayStart: int): (r: seq<UserPost>)
    ensures Seqs.Selects(r, UserPosts(users, username), (p: UserPost) => p.createdAt >= todayStart)
  {
    Seqs.FilterSelects(UserPosts(users, username), (p: UserPost) => p.createdAt >= todayStart);
    Seqs.Filter(UserPosts(users, username), (p: UserPost) => p.createdAt >= todayStart)
  }

  /** The user lookup ignores case. */
  lemma UserPostsIgnoresCase(users: seq<MockUser>, a: string, b: string)
    requires Strings.ToLower(a) == Strings.ToLower(b)
    ensures UserPosts(users, a) == UserPosts(users, b)
  {
    Seqs.FindCongruent(users, (u: MockUser) => NameMatches(u, a), (u: MockUser) => NameMatches(u, b));
  }

  /** "Natalie" finds Natalie's posts; her handle "@natalie_morning" finds nothing,
      since users are looked up by profile name. */
  lemma NatalieLookup(loadTime: int)
    ensures UserPosts(AllUsers(loadTime), "Natalie") == NataliesPosts(loadTime)
    ensures UserPosts(AllUsers(loadTime), "@natalie_morning") == []
  {
    var users := AllUsers(loadTime);
    assert Strings.ToLower("Natalie") == "natalie";
    assert NameMatches(users[0], "Natalie");
    assert Strings.ToLower("@natalie_morning") != "natalie" by {
      assert |Strings.ToLower("@natalie_morning")| != |"natalie"|;
    }
  }

  /** An empty topic matches every post. */
  lemma EmptyTopicMatchesAll(users: seq<MockUser>, username: string)
    ensures SearchUserPosts(users, username, "") == UserPosts(users, username)
  {
    var ps := UserPosts(users, username);
    assert Strings.ToLower("") == "";
    forall i | 0 <= i < |ps| ensures TopicMatches(ps[i], "") {
      Strings.ContainsSelfAndEmpty(Strings.ToLower(ps[i].content));
    }
    Seqs.FilterAll(ps, p => TopicMatches(p, ""));
  }

  /** An earlier start of the day keeps every post a later one keeps. */
  lemma TodaysPostsMonotone(users: seq<MockUser>, username: string, earlier: int, later: int)
    requires earlier <= later
    ensures Seqs.IsSubsequence(TodaysPosts(users, username, later), TodaysPosts(users, username, earlier))
  {
    Seqs.FilterMonotone(UserPosts(users, username), (p: UserPost) => p.createdAt >= later, (p: UserPost) => p.createdAt >= earlier);
  }

  /** Whether Natalie's posts count as today's depends on the hour the module was
      loaded: all five when the day began at least ten hours before, none when it
      began less than two hours before. */
  lemma NatalieToday(loadTime: int, todayStart: int)
    ensures todayStart <= loadTime - 10 * Hour ==>
      TodaysPosts(AllUsers(loadTime), "natalie", todayStart) == NataliesPosts(loadTime)
    ensures todayStart > loadTime - 2 * Hour ==>
      TodaysPosts(AllUsers(loadTime), "natalie", todayStart) == []
  {
    var users := AllUsers(loadTime);
    assert NameMatches(users[0], "natalie");
    var ps := NataliesPosts(loadTime);
    assert UserPosts(users, "natalie") == ps;
    if todayStart <= loadTime - 10 * Hour {
      Seqs.FilterAll(ps, (p: UserPost) => p.createdAt >= todayStart);
    }
    if todayStart > loadTime - 2 * Hour {
      Seqs.FilterNone(ps, (p: UserPost) => p.createdAt >= todayStart);
    }
  }

  // ---------------------------------------------------------------- the data

  const Natalie1: UserPost :=
    UserPost(
      id := "natalie_1", username := "@natalie_morning", displayName := "Natalie Chen",
      avatar := "https://images.pexels.com/photos/1181686/pexels-photo-1181686.jpeg?auto=compress&cs=tinysrgb&w=150&h=150&fit=crop",
      audioUrl := "https://www.soundjay.com/misc/sounds/bell-ringing-05.wav",
      duration := 42, voiceStyle := "Warm Morning Voice", likes := 234, replies := 45,
      timestamp := "2h", isLiked := false, tags := ["morning", "coffee", "thoughts", "gratitude"],
      content := "Good morning everyone! Just had my first cup of coffee and I'm feeling so grateful for this beautiful day. There's something magical about morning light streaming through the windows.",
      createdAt := -2 * Hour)

  const Natalie2: UserPost :=
    UserPost(
      id := "natalie_2", username := "@natalie_morning", displayName := "Natalie Chen",
      avatar := "https://images.pexels.com/photos/1181686/pexels-photo-1181686.jpeg?auto=compress&cs=tinysrgb&w=150&h=150&fit=crop",
      audioUrl := "https://www.soundjay.com/misc/sounds/bell-ringing-05.wav",
      duration := 38, voiceStyle := "Thoughtful Narrator", likes := 189, replies := 32,
      timestamp := "4h", isLiked := true, tags := ["productivity", "mindfulness", "work"],
      content := "I've been thinking about how we measure productivity. Is it really about how much we get done, or is it about how present we are in each moment? Today I'm choosing presence over pressure.",
      createdAt := -4 * Hour)

  const Natalie3: UserPost :=
    UserPost(
      id := "natalie_3", username := "@natalie_morning", displayName := "Natalie Chen",
      avatar := "https://images.pexels.com/photos/1181686/pexels-photo-1181686.jpeg?auto=compress&cs=tinysrgb&w=150&h=150&fit=crop",
      audioUrl := "https://www.soundjay.com/misc/sounds/bell-ringing-05.wav",
      duration := 51, voiceStyle := "Cozy Storyteller", likes := 312, replies := 67,
      timestamp := "6h", isLiked := false, tags := ["coffee", "ritual", "slowliving", "morning"],
      content := "My coffee ritual has become sacred to me. It's not just about the caffeine - it's about those five minutes of stillness before the world demands my attention. What rituals ground you?",
      createdAt := -6 * Hour)

  const Natalie4: UserPost :=
    UserPost(
      id := "natalie_4", username := "@natalie_morning", displayName := "Natalie Chen",
      avatar := "https://images.pexels.com/photos/1181686/pexels-photo-1181686.jpeg?auto=compress&cs=tinysrgb&w=150&h=150&fit=crop",
      audioUrl := "https://www.soundjay.com/misc/sounds/bell-ringing-05.wav",
      duration := 29, voiceStyle := "Gentle Wisdom", likes := 156, replies := 28,
      timestamp := "8h", isLiked := false, tags := ["reflection", "growth", "journey"],
      content := "Sometimes the best conversations happen with yourself. I spent some time journaling this morning and realized how much I've grown in the past year. Growth isn't always loud.",
      createdAt := -8 * Hour)

  const Natalie5: UserPost :=
    UserPost(
      id := "natalie_5", username := "@natalie_morning", displayName := "Natalie Chen",
      avatar := "https://images.pexels.com/photos/1181686/pexels-photo-1181686.jpeg?auto=compress&cs=tinysrgb&w=150&h=150&fit=crop",
      audioUrl := "https://www.soundjay.com/misc/sounds/bell-ringing-05.wav",
      duration := 35, voiceStyle := "Inspiring Guide", likes := 278, replies := 41,
      timestamp := "10h", isLiked := true, tags := ["motivation", "dreams", "courage"],
      content := "I used to think courage meant not being afraid. Now I know it means being afraid and doing it anyway. What's one thing you've been afraid to try? Maybe today is the day.",
      createdAt := -10 * Hour)

  /** Natalie's posts with creation times relative to the module's load time. */
  const NatalieRelative: seq<UserPost> := [Natalie1, Natalie2, Natalie3, Natalie4, Natalie5]
}
