/** The signed-in user (`useUser`): the mock profile that loading yields, and the
    shallow merge `updateProfile` applies. Times are milliseconds since the epoch. */
module UserHook {
  import opened Wrappers

  datatype Preferences = Preferences(
    isPrivate: bool,
    allowDirectMessages: bool,
    showEmail: bool,
    showBirthDate: bool)

  datatype UserProfile = UserProfile(
    id: string,
    username: string,
    displayName: string,
    email: string,
    avatar: Option<string>,
    bio: Option<string>,
    joinDate: int,
    isVerified: bool,
    isOwner: bool,
    followerCount: int,
    followingCount: int,
    echoCount: int,
    location: Option<string>,
    website: Option<string>,
    birthDate: Option<int>,
    preferences: Preferences)

  /** A `Partial<UserProfile>`: None for a key the update does not have. An optional
      field's update may itself be None, the key present with `undefined`. */
  datatype ProfileUpdate = ProfileUpdate(
    id: Option<string> := None,
    username: Option<string> := None,
    displayName: Option<string> := None,
    email: Option<string> := None,
    avatar: Option<Option<string>> := None,
    bio: Option<Option<string>> := None,
    joinDate: Option<int> := None,
    isVerified: Option<bool> := None,
    isOwner: Option<bool> := None,
    followerCount: Option<int> := None,
    followingCount: Option<int> := None,
    echoCount: Option<int> := None,
    location: Option<Option<string>> := None,
    website: Option<Option<string>> := None,
    birthDate: Option<Option<int>> := None,
    preferences: Option<Preferences> := None)

  /** The update with no keys. */
  const NoUpdate := ProfileUpdate()

  /** The demo profile; it joined on 2024-01-15 (midnight UTC). */
  const MockProfile := UserProfile(
    "user_123", "@EchoHQ", "EchoHQ", "hello@echohq.com",
    Some("https://images.pexels.com/photos/1181686/pexels-photo-1181686.jpeg?auto=compress&cs=tinysrgb&w=150&h=150&fit=crop"),
    Some("Sharing thoughts through the power of voice ✨ Building the future of audio social media."),
    1705276800000, true, true, 2400, 892, 156,
    Some("London, UK"), Some("https://echohq.com"), None,
    Preferences(false, true, false, false))

  /** `{ ...prev, ...updates }`: each key the update has replaces the profile's value,
      `preferences` as a whole; every other field keeps its value. */
  function Merge(p: UserProfile, u: ProfileUpdate): (r: UserProfile)
    ensures u.displayName.None? ==> r.displayName == p.displayName
    ensures u.displayName.Some? ==> r.displayName == u.displayName.value
    ensures u.preferences.None? ==> r.preferences == p.preferences
    ensures u.preferences.Some? ==> r.preferences == u.preferences.value
    ensures u.bio.None? ==> r.bio == p.bio
    ensures u.bio.Some? ==> r.bio == u.bio.value
  {
    UserProfile(
      u.id.GetOr(p.id), u.username.GetOr(p.username), u.displayName.GetOr(p.displayName),
      u.email.GetOr(p.email), u.avatar.GetOr(p.avatar), u.bio.GetOr(p.bio),
      u.joinDate.GetOr(p.joinDate), u.isVerified.GetOr(p.isVerified), u.isOwner.GetOr(p.isOwner),
      u.followerCount.GetOr(p.followerCount), u.followingCount.GetOr(p.followingCount),
      u.echoCount.GetOr(p.echoCount), u.location.GetOr(p.location), u.website.GetOr(p.website),
      u.birthDate.GetOr(p.birthDate), u.preferences.GetOr(p.preferences))
  }

  /** The update whose keys are those of either, the second one winning: the object
      `{ ...first, ...second }`. */
  function Then(first: ProfileUpdate, second: ProfileUpdate): ProfileUpdate
  {
    ProfileUpdate(
      Or(second.id, first.id), Or(second.username, first.username),
      Or(second.displayName, first.displayName), Or(second.email, first.email),
      Or(second.avatar, first.avatar), Or(second.bio, first.bio),
      Or(second.joinDate, first.joinDate), Or(second.isVerified, first.isVerified),
      Or(second.isOwner, first.isOwner), Or(second.followerCount, first.followerCount),
      Or(second.followingCount, first.followingCount), Or(second.echoCount, first.echoCount),
      Or(second.location, first.location), Or(second.website, first.website),
      Or(second.birthDate, first.birthDate), Or(second.preferences, first.preferences))
  }

  function Or<T>(a: Option<T>, b: Option<T>): (r: Option<T>)
    ensures r.Some? <==> a.Some? || b.Some?
  {
    if a.Some? then a else b
  }

  /** An update with no keys changes nothing. */
  lemma MergeNothing(p: UserProfile)
    ensures Merge(p, NoUpdate) == p
  {
  }

  /** Applying the same update twice is applying it once. */
  lemma MergeIdempotent(p: UserProfile, u: ProfileUpdate)
    ensures Merge(Merge(p, u), u) == Merge(p, u)
  {
  }

  /** Two updates in a row are one update with the keys of both, the later winning. */
  lemma MergeThen(p: UserProfile, u1: ProfileUpdate, u2: ProfileUpdate)
    ensures Merge(Merge(p, u1), u2) == Merge(p, Then(u1, u2))
  {
  }

  /** An update carrying only some preferences still replaces all four: the merge is
      shallow, so a preference the update leaves at its default is overwritten. */
  lemma PreferencesReplacedWhole(p: UserProfile, prefs: Preferences)
    requires p.preferences.showEmail && !prefs.showEmail
    ensures !Merge(p, ProfileUpdate(preferences := Some(prefs))).preferences.showEmail
    ensures Merge(p, ProfileUpdate(preferences := Some(prefs))).displayName == p.displayName
  {
  }

  /** The hook's state. The simulated delays become the calls themselves; the catch
      branches cannot be reached, since waiting on a timer never fails. */
  class UserSession {
    var user: Option<UserProfile>
    var loading: bool
    var error: Option<string>

    constructor ()
      ensures user == None && loading && error == None
    {
      user := None;
      loading := true;
      error := None;
    }

    /** `loadUser()`: the mock profile, and loading ends. */
    method LoadUser()
      modifies this`user, this`loading
      ensures user == Some(MockProfile) && !loading
      ensures IsAuthenticated()
    {
      loading := true;
      user := Some(MockProfile);
      loading := false;
    }

    /** `updateProfile(updates)`: the profile, when there is one, gets the update;
        no profile stays no profile; it reports success and loading ends. */
    method UpdateProfile(updates: ProfileUpdate) returns (success: bool)
      modifies this`user, this`loading
      ensures success && !loading
      ensures old(user).None? ==> user.None?
      ensures old(user).Some? ==> user == Some(Merge(old(user).value, updates))
      ensures IsAuthenticated() == old(IsAuthenticated())
    {
      loading := true;
      if user.Some? {
        user := Some(Merge(user.value, updates));
      }
      loading := false;
      success := true;
    }

    /** `isAuthenticated`: `!!user`, true once a profile is loaded. */
    predicate IsAuthenticated()
      reads this
      ensures IsAuthenticated() <==> user.Some?
    {
      user.Some?
    }
  }

  /** Loading and then renaming: the profile has the new display name, keeps every
      other field, and the session is authenticated. */
  method LoadThenRename(name: string) returns (profile: Option<UserProfile>, authenticated: bool, success: bool)
    ensures profile == Some(MockProfile.(displayName := name))
    ensures authenticated && success
  {
    var session := new UserSession();
    session.LoadUser();
    success := session.UpdateProfile(ProfileUpdate(displayName := Some(name)));
    profile := session.user;
    authenticated := session.IsAuthenticated();
  }

  /** Updating before anything has loaded leaves the session unauthenticated. */
  method UpdateBeforeLoad(updates: ProfileUpdate) returns (authenticated: bool, success: bool)
    ensures !authenticated && success
  {
    var session := new UserSession();
    success := session.UpdateProfile(updates);
    authenticated := session.IsAuthenticated();
  }
}
