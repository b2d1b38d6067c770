/** The `m:ss` duration label that the post card, the list item and the grid item
    each define as `formatDuration`. */
module Format {
  import Strings

  /** JavaScript's `%` for a positive divisor: the remainder takes the sign of the
      dividend, unlike Dafny's, which is never negative. */
  function JsRem(a: int, b: int): (r: int)
    requires b > 0
    ensures -b < r < b
    ensures a >= 0 ==> r == a % b
    ensures a < 0 ==> r <= 0 && -r == (-a) % b
  {
    if a >= 0 then a % b else -((-a) % b)
  }

  /** The seconds field: the remainder padded to two characters with `0`. */
  function Seconds(r: int): string
  {
    Strings.PadStart(Strings.IntToString(r), 2, '0')
  }

  /** `formatDuration(seconds)`: `Math.floor(seconds / 60)`, `:`, and the remainder
      `seconds % 60` padded to two characters. Dafny's `/` by a positive divisor
      rounds down as `Math.floor` does. */
  function FormatDuration(seconds: int): (r: string)
    ensures seconds >= 0 ==>
      |r| >= 4 && r[|r| - 3] == ':' && r[..|r| - 3] == Strings.NatToString(seconds / 60) &&
      (forall i :: |r| - 2 <= i < |r| ==> Strings.IsDigit(r[i])) &&
      Strings.ParseNat(r[|r| - 2..]) == seconds % 60
  {
    if seconds >= 0 then
      var mins := Strings.IntToString(seconds / 60);
      var secs := Seconds(JsRem(seconds, 60));
      assert secs == Seconds(seconds % 60) && mins == Strings.NatToString(seconds / 60);
      SecondsDigits(seconds % 60);
      ColonJoin(mins, secs);
      mins + ":" + secs
    else
      Strings.IntToString(seconds / 60) + ":" + Seconds(JsRem(seconds, 60))
  }

  /** Where the fields of a `minutes:ss` label sit in the joined string. */
  lemma ColonJoin(mins: string, secs: string)
    requires |secs| == 2
    ensures var r := mins + ":" + secs;
      |r| == |mins| + 3 && r[..|r| - 3] == mins && r[|r| - 3] == ':' && r[|r| - 2..] == secs &&
      forall i :: |r| - 2 <= i < |r| ==> r[i] == secs[i - (|r| - 2)]
  {
    var r := mins + ":" + secs;
    assert r[..|r| - 3] == mins;
    assert r[|r| - 2..] == secs;
  }

  /** The seconds field of a duration is its two digits. */
  lemma SecondsDigits(r: nat)
    requires r < 60
    ensures |Seconds(r)| == 2
    ensures forall i :: 0 <= i < 2 ==> Strings.IsDigit(Seconds(r)[i])
    ensures Strings.ParseNat(Seconds(r)) == r
  {
    Strings.NatToStringLength(r);
    Strings.ParseNatToString(r);
    var d := Strings.NatToString(r);
    if r < 10 {
      var t := Seconds(r);
      assert t == "0" + d;
      assert t[..1] == "0";
      assert Strings.ParseNat(t[..1]) == 0 by {
        assert t[..1][..0] == [];
      }
      assert [t[1]] == d;
      assert Strings.ParseNat(d) == Strings.DigitValue(d[0]) by {
        assert d[..0] == [];
      }
    } else {
      assert |d| >= 2;
      assert r < 100;
      assert |d| == 2;
    }
  }

  /** For a duration of at least zero seconds the label is the minutes, a colon and
      the seconds field. */
  lemma FormatDurationFields(seconds: nat)
    ensures FormatDuration(seconds) ==
      Strings.NatToString(seconds / 60) + [':'] + Seconds(seconds % 60)
  {
    assert JsRem(seconds, 60) == seconds % 60;
    assert Strings.IntToString(seconds / 60) == Strings.NatToString(seconds / 60);
  }

  /** A label of a duration of at least zero seconds reads back: split at the colon
      it is the minutes and a two-digit seconds field whose values give the
      duration again. */
  lemma FormatDurationReadsBack(seconds: nat)
    ensures var parts := Strings.Split(FormatDuration(seconds), ':');
      |parts| == 2 && |parts[1]| == 2 &&
      (forall k, i :: 0 <= k < 2 && 0 <= i < |parts[k]| ==> Strings.IsDigit(parts[k][i])) &&
      Strings.ParseNat(parts[0]) * 60 + Strings.ParseNat(parts[1]) == seconds
  {
    var m, r := seconds / 60, seconds % 60;
    FormatDurationFields(seconds);
    SecondsDigits(r);
    Strings.ParseNatToString(m);
    FieldsSplit(Strings.NatToString(m), Seconds(r));
    assert m * 60 + r == seconds;
  }

  /** Two digit fields joined by a colon split back into those fields. */
  lemma FieldsSplit(mins: string, secs: string)
    requires forall i :: 0 <= i < |mins| ==> Strings.IsDigit(mins[i])
    requires forall i :: 0 <= i < |secs| ==> Strings.IsDigit(secs[i])
    ensures var parts := Strings.Split(mins + [':'] + secs, ':');
      parts == [mins, secs] &&
      forall k, i :: 0 <= k < 2 && 0 <= i < |parts[k]| ==> Strings.IsDigit(parts[k][i])
  {
    NoColonInDigits(mins);
    NoColonInDigits(secs);
    SplitAtColon(mins, secs);
    var parts := [mins, secs];
    forall k, i | 0 <= k < 2 && 0 <= i < |parts[k]| ensures Strings.IsDigit(parts[k][i]) {
      if k == 0 {
        assert parts[k][i] == mins[i];
      } else {
        assert parts[k][i] == secs[i];
      }
    }
  }

  /** Two colon-free fields joined by a colon split back into those two fields. */
  lemma SplitAtColon(a: string, b: string)
    requires ':' !in a && ':' !in b
    ensures Strings.Split(a + [':'] + b, ':') == [a, b]
  {
    Strings.SplitAfter(a, ':', b);
    Strings.SplitWithoutSep(b, ':');
  }

  lemma NoColonInDigits(s: string)
    requires forall i :: 0 <= i < |s| ==> Strings.IsDigit(s[i])
    ensures ':' !in s
  {
  }

  /** Two different durations of at least zero seconds get different labels. */
  lemma FormatDurationInjective(s1: nat, s2: nat)
    requires FormatDuration(s1) == FormatDuration(s2)
    ensures s1 == s2
  {
    FormatDurationReadsBack(s1);
    FormatDurationReadsBack(s2);
  }
}
