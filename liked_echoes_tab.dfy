/** The liked tab (`LikedEchoesTab`): the liked echoes under the same date sort as the
    user's own echoes, with a pluralised header. */
module LikedEchoesTab {
  import Sorting
  import LikeStore
  import UserActivity
  import UserEchoesTab
  import EchoItems

  type UserEcho = UserActivity.UserEcho

  const LikedNoun := " Liked Echo"

  /** The header title for n liked echoes. */
  function LikedCountLabel(n: nat): (s: string)
    ensures n == 1 ==> s == "1 Liked Echo"
    ensures n == 2 ==> s == "2 Liked Echos"
    ensures forall m: nat :: UserEchoesTab.CountLabel(m, LikedNoun) == s ==> m == n
  {
    forall m: nat | UserEchoesTab.CountLabel(m, LikedNoun) == UserEchoesTab.CountLabel(n, LikedNoun) ensures m == n {
      UserEchoesTab.CountLabelInjective(m, n, LikedNoun);
    }
    UserEchoesTab.CountLabel(n, LikedNoun)
  }

  /** No liked echo carries a date, so every pair compares as NaN and the stable sort
      keeps the order of the like records: the tab is not "sorted by most recent" but
      by the order in which the likes were stored. */
  lemma LikedOrderKept(liked: seq<LikeStore.LikedPost>)
    ensures Sorting.Sort(UserActivity.LikedEchoes(liked), UserEchoesTab.EchoRank) == UserActivity.LikedEchoes(liked)
  {
    var echoes := UserActivity.LikedEchoes(liked);
    Sorting.EqualKeysSorted(echoes, UserEchoesTab.EchoRank);
  }

  /** The liked tab asks for the heart and not for the lock, so every row shows the
      heart and no row shows the lock. */
  lemma LikedRowsMarked(liked: seq<LikeStore.LikedPost>, i: nat)
    requires i < |UserActivity.LikedEchoes(liked)|
    ensures EchoItems.ListIndicators(true, false, UserActivity.LikedEchoes(liked)[i]) == (true, false)
  {
  }

  /** What the tab renders. */
  datatype Screen =
    | NoLikedEchoes
    | LikedList(title: string, rows: seq<UserEcho>)

  /** The tab for a list of liked echoes: the empty state for none; otherwise the
      title and the sorted echoes, each row with the liked marker. */
  method Render(echoes: seq<UserEcho>) returns (screen: Screen)
    ensures screen.NoLikedEchoes? <==> echoes == []
    ensures screen.LikedList? ==>
      screen.title == LikedCountLabel(|echoes|) &&
      screen.rows == Sorting.Sort(echoes, UserEchoesTab.EchoRank) &&
      multiset(screen.rows) == multiset(echoes)
  {
    if |echoes| == 0 {
      return NoLikedEchoes;
    }
    var sorted := UserEchoesTab.SortEchoes(echoes);
    screen := LikedList(LikedCountLabel(|echoes|), sorted);
  }
}
