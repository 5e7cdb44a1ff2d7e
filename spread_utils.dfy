/**
 * `getSpreadColor`: how evenly a list of due dates is spread, as a traffic-light
 * colour, from the number of whole days between the earliest and the latest.
 * Dates are given as millisecond timestamps (what `new Date(d).getTime()` gives).
 */
module SpreadUtils {
  import opened Wrappers

  const MillisPerDay: int := 1000 * 60 * 60 * 24

  /** `Math.min(...s)`. */
  function Min(s: seq<int>): (m: int)
    requires s != []
    ensures m in s && forall x :: x in s ==> m <= x
  {
    if |s| == 1 then s[0]
    else
      var rest := Min(s[1..]);
      assert forall x :: x in s ==> x == s[0] || x in s[1..];
      if s[0] <= rest then s[0] else rest
  }

  /** `Math.max(...s)`. */
  function Max(s: seq<int>): (m: int)
    requires s != []
    ensures m in s && forall x :: x in s ==> x <= m
  {
    if |s| == 1 then s[0]
    else
      var rest := Max(s[1..]);
      assert forall x :: x in s ==> x == s[0] || x in s[1..];
      if s[0] >= rest then s[0] else rest
  }

  /** `Math.floor((max - min) / MillisPerDay)`: whole days between the earliest and the latest date. */
  function DiffDays(timestamps: seq<int>): (d: int)
    requires timestamps != []
    ensures d >= 0
    ensures d * MillisPerDay <= Max(timestamps) - Min(timestamps) < (d + 1) * MillisPerDay
  {
    (Max(timestamps) - Min(timestamps)) / MillisPerDay
  }

  /** `getSpreadColor(dates)`; `None` stands for a missing list. */
  function GetSpreadColor(dates: Option<seq<int>>): (color: string)
    ensures color == "red" || color == "yellow" || color == "green"
    ensures dates.None? || dates.value == [] ==> color == "green"
    ensures dates.Some? && dates.value != [] ==>
      && (color == "red" <==> DiffDays(dates.value) <= 10)
      && (color == "yellow" <==> 10 < DiffDays(dates.value) <= 20)
      && (color == "green" <==> DiffDays(dates.value) > 20)
  {
    if dates.None? || dates.value == [] then "green"
    else
      var diffDays := DiffDays(dates.value);
      if diffDays <= 10 then "red"
      else if diffDays <= 20 then "yellow"
      else "green"
  }

  /** A single date, or dates that are all the same instant, are "clumped". */
  lemma EqualDatesAreRed(timestamps: seq<int>)
    requires timestamps != []
    requires forall i :: 0 <= i < |timestamps| ==> timestamps[i] == timestamps[0]
    ensures GetSpreadColor(Some(timestamps)) == "red"
  {
    assert Min(timestamps) == Max(timestamps);
  }

  /**
   * The colour depends only on which instants occur, so reordering the list
   * or repeating a date does not change it.
   */
  lemma ColorDependsOnlyOnInstants(a: seq<int>, b: seq<int>)
    requires forall x :: x in a <==> x in b
    ensures GetSpreadColor(Some(a)) == GetSpreadColor(Some(b))
  {
    assert a == [] <==> b == [] by {
      if a != [] { assert a[0] in b; }
      if b != [] { assert b[0] in a; }
    }
    if a != [] {
      SameExtremes(a, b);
      assert DiffDays(a) == DiffDays(b);
    }
  }

  /** Lists holding the same values have the same least and greatest value. */
  lemma SameExtremes(a: seq<int>, b: seq<int>)
    requires a != [] && b != [] && forall x :: x in a <==> x in b
    ensures Min(a) == Min(b) && Max(a) == Max(b)
  {
    var mina, minb, maxa, maxb := Min(a), Min(b), Max(a), Max(b);
    assert mina in b && minb in a && maxa in b && maxb in a;
  }
}
