/** The friends tab (`FriendsTab`): the sorted list of all friends, the section of
    friends online now, the card selection, and the last-seen line. */
module FriendsTab {
  import opened Wrappers
  import Seqs
  import Sorting
  import UserActivity
  import Strings

  type UserFriend = UserActivity.UserFriend

  /** The sort comparator as written: negative puts a first, positive puts b first. */
  function Compare(a: UserFriend, b: UserFriend): (c: int)
    ensures c < 0 <==> (a.isOnline && !b.isOnline) ||
                       (a.isOnline == b.isOnline && a.friendshipDate > b.friendshipDate)
    ensures c > 0 <==> (!a.isOnline && b.isOnline) ||
                       (a.isOnline == b.isOnline && a.friendshipDate < b.friendshipDate)
  {
    if a.isOnline && !b.isOnline then -1
    else if !a.isOnline && b.isOnline then 1
    else b.friendshipDate - a.friendshipDate
  }

  /** The key the comparator orders by, highest first: online before offline, then
      the most recent friendship. */
  function FriendRank(f: UserFriend): Sorting.Rank
  {
    (if f.isOnline then 1 else 0, f.friendshipDate)
  }

  /** The comparator keeps a before b exactly when a's key ranks at least as high, so
      a stable sort by the comparator is the stable sort by the key. */
  lemma CompareIsRank(a: UserFriend, b: UserFriend)
    ensures Compare(a, b) <= 0 <==> Sorting.RankGe(FriendRank(a), FriendRank(b))
    ensures Compare(a, b) == 0 <==> FriendRank(a) == FriendRank(b)
  {
  }

  /** `[...friends].sort(...)`: the friends reordered, online ones first, each group
      from the most recent friendship; the list passed in is left as it was. */
  method SortFriends(friends: seq<UserFriend>) returns (sorted: seq<UserFriend>)
    ensures sorted == Sorting.Sort(friends, FriendRank)
    ensures multiset(sorted) == multiset(friends)
    ensures forall i, j :: 0 <= i < j < |sorted| && !sorted[i].isOnline ==> !sorted[j].isOnline
    ensures forall i, j :: 0 <= i < j < |sorted| && sorted[i].isOnline == sorted[j].isOnline ==>
      sorted[i].friendshipDate >= sorted[j].friendshipDate
  {
    sorted := Sorting.SortedCopy(friends, FriendRank);
    Sorting.SortPermutes(friends, FriendRank);
    Sorting.SortIsSorted(friends, FriendRank);
  }

  predicate IsOnline(f: UserFriend)
  {
    f.isOnline
  }

  /** `friends.filter(f => f.isOnline)`, in the order of the input, not the sorted one. */
  function OnlineFriends(friends: seq<UserFriend>): (online: seq<UserFriend>)
    ensures Seqs.Selects(online, friends, IsOnline)
    ensures |online| <= |friends|
  {
    Seqs.FilterSelects(friends, IsOnline);
    Seqs.Filter(friends, IsOnline)
  }

  /** The full list opens with exactly the friends of the Online Now section, and
      every friend after them is offline. */
  lemma OnlineLeadAll(friends: seq<UserFriend>)
    ensures var sorted := Sorting.Sort(friends, FriendRank);
      var online := OnlineFriends(friends);
      |online| <= |sorted| &&
      multiset(sorted[..|online|]) == multiset(online) &&
      forall i :: |online| <= i < |sorted| ==> !sorted[i].isOnline
  {
    var sorted := Sorting.Sort(friends, FriendRank);
    Sorting.SortIsSorted(friends, FriendRank);
    Sorting.SortPermutes(friends, FriendRank);
    SortedLeadsOnline(sorted);
    Seqs.FilterOfLeads(sorted, IsOnline);
    Seqs.LeadsRest(sorted, IsOnline);
    Seqs.FilterPermutation(sorted, friends, IsOnline);
  }

  /** A list sorted by FriendRank has its online friends first. */
  lemma SortedLeadsOnline(s: seq<UserFriend>)
    requires Sorting.SortedDesc(s, FriendRank)
    ensures Seqs.Leads(s, IsOnline)
  {
    forall i, j | 0 <= i < j < |s| && !IsOnline(s[i]) ensures !IsOnline(s[j]) {
      assert Sorting.RankGe(FriendRank(s[i]), FriendRank(s[j]));
    }
  }

  /** Pressing a card: pressing the selected friend clears the selection, pressing any
      other friend selects that one. */
  function Pressed(selected: Option<string>, id: string): (r: Option<string>)
    ensures r == None <==> selected == Some(id)
    ensures r != None ==> r == Some(id)
  {
    if selected == Some(id) then None else Some(id)
  }

  /** Pressing the same card twice restores the selection exactly when nothing or that
      card was selected; a press after another card's selection loses it. */
  lemma PressTwice(selected: Option<string>, id: string)
    ensures Pressed(Pressed(selected, id), id) == selected <==> selected == None || selected == Some(id)
  {
  }

  /** The tab's `selectedFriend` state. */
  class Selection {
    var selected: Option<string>

    constructor ()
      ensures selected == None
    {
      selected := None;
    }

    /** The `onPress` of a card, in either section. */
    method Press(id: string)
      modifies this
      ensures selected == Pressed(old(selected), id)
    {
      selected := if selected == Some(id) then None else Some(id);
    }

    /** `isSelected` for a card. */
    predicate IsSelected(id: string)
      reads this
    {
      selected == Some(id)
    }
  }

  /** Pressing one card and then another leaves just the second selected. */
  method PressTwoCards(first: string, second: string) returns (firstSelected: bool, secondSelected: bool)
    requires first != second
    ensures !firstSelected && secondSelected
  {
    var selection := new Selection();
    selection.Press(first);
    selection.Press(second);
    firstSelected, secondSelected := selection.IsSelected(first), selection.IsSelected(second);
  }

  /** The "Last seen" line appears for an offline friend with a last-seen time. */
  function LastSeenText(now: int, f: UserFriend): (r: Option<string>)
    ensures r.Some? <==> !f.isOnline && f.lastSeen.Some?
    ensures r.Some? ==> r.value == "Last seen " + UserActivity.GetRelativeTime(now, f.lastSeen.value)
  {
    if !f.isOnline && f.lastSeen.Some? then
      Some("Last seen " + UserActivity.GetRelativeTime(now, f.lastSeen.value))
    else None
  }

  /** In the demo friends built at time now, only Sarah, offline, has a last-seen
      line, and it reads "Last seen 30m ago". */
  lemma MockLastSeen(now: int)
    ensures var m := UserActivity.MockFriends(now);
      LastSeenText(now, m[0]) == None && LastSeenText(now, m[2]) == None &&
      LastSeenText(now, m[1]) == Some("Last seen 30m ago")
  {
    var m := UserActivity.MockFriends(now);
    assert m[1].lastSeen == Some(UserActivity.FriendsRelative[1].lastSeen.value + now);
    assert UserActivity.DiffInSeconds(now, m[1].lastSeen.value) == 1800;
    assert UserActivity.UnitFor(1800) == ("m", 60);
    assert Strings.NatToString(30) == "30" by {
      assert Strings.NatToString(3) == "3";
      assert Strings.DigitChar(0) == '0' && Strings.DigitChar(3) == '3';
    }
    assert UserActivity.RelativeTime(1800) == "30m ago";
    assert UserActivity.GetRelativeTime(now, m[1].lastSeen.value) == "30m ago";
    assert m[1].(lastSeen := None) == UserActivity.FriendsRelative[1].(lastSeen := None);
    assert !m[1].isOnline;
    assert "Last seen " + "30m ago" == "Last seen 30m ago";
  }

  /** An online friend never shows a last-seen line, whatever the record holds. */
  lemma NoLastSeenWhenOnline(now: int, f: UserFriend)
    requires f.isOnline
    ensures LastSeenText(now, f) == None
  {
  }

  /** What the tab renders. */
  datatype Screen =
    | NoFriends
    | FriendsList(total: nat, online: seq<UserFriend>, all: seq<UserFriend>)
  {
    /** The Online Now section appears only when someone is online. */
    predicate ShowsOnlineSection()
    {
      FriendsList? && |online| > 0
    }
  }

  /** The tab for a list of friends: the empty state for none; otherwise the counts,
      the online section in the original order and the sorted full list. */
  method Render(friends: seq<UserFriend>) returns (screen: Screen)
    ensures screen.NoFriends? <==> friends == []
    ensures screen.FriendsList? ==>
      screen.total == |friends| && screen.online == OnlineFriends(friends) &&
      screen.all == Sorting.Sort(friends, FriendRank)
    ensures screen.ShowsOnlineSection() ==> exists i :: 0 <= i < |friends| && friends[i].isOnline
  {
    if |friends| == 0 {
      return NoFriends;
    }
    var sorted := SortFriends(friends);
    var online := OnlineFriends(friends);
    screen := FriendsList(|friends|, online, sorted);
    if screen.ShowsOnlineSection() {
      assert online[0] in friends;
    }
  }
}
