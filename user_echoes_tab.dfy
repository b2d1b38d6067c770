/** The tab of the user's own echoes (`UserEchoesTab`): the echoes from the most
    recent, split into public and private for the header, in a grid or a list. The
    echo sort and the pluralised count label are shared with the liked tab. */
module UserEchoesTab {
  import opened Wrappers
  import Seqs
  import Strings
  import Sorting
  import Posts
  import UserActivity

  type UserEcho = UserActivity.UserEcho

  /** The sort comparator as written, `new Date(b.createdAt) - new Date(a.createdAt)`:
      None stands for NaN, which a missing date produces and which the sort treats as
      "equal". */
  function Compare(a: UserEcho, b: UserEcho): (c: Option<int>)
    ensures c.None? <==> a.createdAt.None? || b.createdAt.None?
  {
    if a.createdAt.Some? && b.createdAt.Some? then Some(b.createdAt.value - a.createdAt.value) else None
  }

  /** The key the sort orders by, highest first: a dated echo by its date, and an
      undated one after every dated one. */
  function EchoRank(e: UserEcho): Sorting.Rank
  {
    if e.createdAt.Some? then (1, e.createdAt.value) else (0, 0)
  }

  /** Between dated echoes the key orders as the comparator does, and undated echoes,
      which the comparator calls equal, share one key. */
  lemma CompareIsRank(a: UserEcho, b: UserEcho)
    ensures a.createdAt.Some? && b.createdAt.Some? ==>
      (Compare(a, b).value <= 0 <==> Sorting.RankGe(EchoRank(a), EchoRank(b)))
    ensures a.createdAt.None? && b.createdAt.None? ==> EchoRank(a) == EchoRank(b)
  {
  }

  /** `[...echoes].sort(...)`: the echoes reordered, every dated echo from the most
      recent and before the undated ones; the list passed in is left as it was. */
  method SortEchoes(echoes: seq<UserEcho>) returns (sorted: seq<UserEcho>)
    ensures sorted == Sorting.Sort(echoes, EchoRank)
    ensures multiset(sorted) == multiset(echoes)
    ensures forall i, j :: 0 <= i < j < |sorted| && sorted[j].createdAt.Some? ==>
      sorted[i].createdAt.Some? && sorted[i].createdAt.value >= sorted[j].createdAt.value
  {
    sorted := Sorting.SortedCopy(echoes, EchoRank);
    Sorting.SortPermutes(echoes, EchoRank);
    Sorting.SortIsSorted(echoes, EchoRank);
  }

  predicate IsPublic(e: UserEcho)
  {
    e.isPublic
  }

  predicate IsPrivate(e: UserEcho)
  {
    !e.isPublic
  }

  /** `sortedEchoes.filter(echo => echo.isPublic)`. */
  function PublicEchoes(sorted: seq<UserEcho>): (r: seq<UserEcho>)
    ensures Seqs.Selects(r, sorted, IsPublic)
  {
    Seqs.FilterSelects(sorted, IsPublic);
    Seqs.Filter(sorted, IsPublic)
  }

  /** `sortedEchoes.filter(echo => !echo.isPublic)`. */
  function PrivateEchoes(sorted: seq<UserEcho>): (r: seq<UserEcho>)
    ensures Seqs.Selects(r, sorted, IsPrivate)
  {
    Seqs.FilterSelects(sorted, IsPrivate);
    Seqs.Filter(sorted, IsPrivate)
  }

  /** The public and the private echoes split the sorted echoes between them: the
      counts in the header add up to the total, no echo is lost or doubled, and each
      part keeps the sorted order. */
  lemma PartitionOfSorted(echoes: seq<UserEcho>)
    ensures var sorted := Sorting.Sort(echoes, EchoRank);
      var pub := PublicEchoes(sorted); var priv := PrivateEchoes(sorted);
      |pub| + |priv| == |echoes| &&
      multiset(pub) + multiset(priv) == multiset(echoes) &&
      Sorting.SortedDesc(pub, EchoRank) && Sorting.SortedDesc(priv, EchoRank)
  {
    var sorted := Sorting.Sort(echoes, EchoRank);
    Sorting.SortPermutes(echoes, EchoRank);
    Sorting.SortIsSorted(echoes, EchoRank);
    Seqs.FilterPartition(sorted, IsPublic, IsPrivate);
    Seqs.FilterPartitionSize(sorted, IsPublic, IsPrivate);
    Sorting.FilterOfSorted(sorted, IsPublic, EchoRank);
    Sorting.FilterOfSorted(sorted, IsPrivate, EchoRank);
  }

  /** The user's own echoes are all public, so the header always reads "0 private". */
  lemma NoPrivateOwnEchoes(db: seq<Posts.Post>)
    ensures PrivateEchoes(Sorting.Sort(UserActivity.UserEchoes(db), EchoRank)) == []
  {
    var own := UserActivity.UserEchoes(db);
    var sorted := Sorting.Sort(own, EchoRank);
    Sorting.SortPermutes(own, EchoRank);
    forall i | 0 <= i < |sorted| ensures !IsPrivate(sorted[i]) {
      assert sorted[i] in multiset(own);
    }
    Seqs.FilterNone(sorted, IsPrivate);
  }

  // ---------------------------------------------------------------- header

  /** `{n} {noun}{n !== 1 ? 's' : ''}`. */
  function CountLabel(n: nat, noun: string): (s: string)
    ensures n == 1 ==> s == "1" + noun
    ensures n != 1 ==> s == Strings.NatToString(n) + noun + "s"
  {
    Strings.NatToString(n) + noun + (if n != 1 then "s" else "")
  }

  /** The count label names its count: for a noun not ending in `s`, two different
      counts give two different labels. */
  lemma CountLabelInjective(n1: nat, n2: nat, noun: string)
    requires noun != [] && noun[|noun| - 1] != 's'
    requires CountLabel(n1, noun) == CountLabel(n2, noun)
    ensures n1 == n2
  {
    var a, b := Strings.NatToString(n1), Strings.NatToString(n2);
    if n1 != 1 && n2 != 1 {
      assert "" + a + (noun + "s") == CountLabel(n1, noun);
      assert "" + b + (noun + "s") == CountLabel(n2, noun);
      Strings.StripAround("", a, b, noun + "s");
      Strings.NatToStringInjective(n1, n2);
    }
  }

  const EchoNoun := " Echo"

  /** The header title for n echoes. */
  function EchoCountLabel(n: nat): (s: string)
    ensures n == 1 ==> s == "1 Echo"
    ensures n == 2 ==> s == "2 Echos"
    ensures forall m: nat :: CountLabel(m, EchoNoun) == s ==> m == n
  {
    forall m: nat | CountLabel(m, EchoNoun) == CountLabel(n, EchoNoun) ensures m == n {
      CountLabelInjective(m, n, EchoNoun);
    }
    CountLabel(n, EchoNoun)
  }

  // ---------------------------------------------------------------- screen

  datatype ViewMode = Grid | List

  /** The tab's `viewMode` state: the grid first, switched by the two buttons. */
  class ViewToggle {
    var mode: ViewMode

    constructor ()
      ensures mode == Grid
    {
      mode := Grid;
    }

    method Choose(m: ViewMode)
      modifies this
      ensures mode == m
    {
      mode := m;
    }
  }

  /** What the tab renders. Both view modes show the same echoes in the same order. */
  datatype Screen =
    | NoEchoes
    | EchoesPage(title: string, publicCount: nat, privateCount: nat, rows: seq<UserEcho>, mode: ViewMode)

  /** The tab for a list of echoes: the empty state for none; otherwise the title, the
      public and private counts and the sorted echoes in the chosen mode. */
  method Render(echoes: seq<UserEcho>, mode: ViewMode) returns (screen: Screen)
    ensures screen.NoEchoes? <==> echoes == []
    ensures screen.EchoesPage? ==>
      screen.title == EchoCountLabel(|echoes|) &&
      screen.rows == Sorting.Sort(echoes, EchoRank) &&
      screen.publicCount == |PublicEchoes(screen.rows)| &&
      screen.privateCount == |PrivateEchoes(screen.rows)| &&
      screen.publicCount + screen.privateCount == |echoes| &&
      screen.mode == mode
  {
    var sorted := SortEchoes(echoes);
    var pub := PublicEchoes(sorted);
    var priv := PrivateEchoes(sorted);
    if |echoes| == 0 {
      return NoEchoes;
    }
    PartitionOfSorted(echoes);
    screen := EchoesPage(EchoCountLabel(|echoes|), |pub|, |priv|, sorted, mode);
  }
}
