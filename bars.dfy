/** One quote record of a price series, as every quote source and the
    engine's current-bar cache build it. A missing (NaN) price is `None`. */
module Bars {
  import opened Common
  import opened Clock

  datatype Bar = Bar(
    time: int,
    price: Option<real>,
    open: Option<real>,
    high: Option<real>,
    low: Option<real>,
    close: Option<real>,
    volume: int)

  /** Every price field is NaN. */
  predicate IsNaNBar(b: Bar) {
    b.price.None? && b.open.None? && b.high.None? && b.low.None? && b.close.None?
  }

  /** The bar the sources fall back on when they have nothing: all prices
      NaN, volume 0, stamped with the current minute. */
  function Placeholder(now: int): (b: Bar)
    ensures IsNaNBar(b) && b.volume == 0 && b.time == FloorMinute(now)
  {
    Bar(FloorMinute(now), None, None, None, None, None, 0)
  }

  /** Ordered by timestamp, not decreasing. */
  predicate SortedByTime(s: seq<Bar>) {
    forall i, j :: 0 <= i < j < |s| ==> s[i].time <= s[j].time
  }

  lemma SortedCons(x: Bar, rest: seq<Bar>)
    requires SortedByTime(rest)
    requires forall j :: 0 <= j < |rest| ==> x.time <= rest[j].time
    ensures SortedByTime([x] + rest)
  {
    var r := [x] + rest;
    forall i, j | 0 <= i < j < |r| ensures r[i].time <= r[j].time {
      assert r[j] == rest[j - 1];
      if i > 0 { assert r[i] == rest[i - 1]; }
    }
  }

  /** A suffix of a sorted sequence is sorted. */
  lemma SortedSuffix(s: seq<Bar>, k: int)
    requires SortedByTime(s) && 0 <= k <= |s|
    ensures SortedByTime(s[k..])
  {
    forall i, j | 0 <= i < j < |s| - k ensures s[k..][i].time <= s[k..][j].time {
      assert s[k..][i] == s[k + i] && s[k..][j] == s[k + j];
    }
  }

  /** In a sorted sequence every bar before position `k` is no later than
      every bar from `k` on. */
  lemma SortedSplit(s: seq<Bar>, k: int)
    requires SortedByTime(s) && 0 <= k <= |s|
    ensures forall i, j :: 0 <= i < k <= j < |s| ==> s[i].time <= s[j].time
  {
  }

  /** `b` placed in front of the first bar of `s` that is not earlier. */
  function InsertByTime(b: Bar, s: seq<Bar>): (r: seq<Bar>)
    requires SortedByTime(s)
    ensures SortedByTime(r)
    ensures multiset(r) == multiset(s) + multiset{b}
    ensures |r| == |s| + 1
  {
    if s == [] then [b]
    else if b.time <= s[0].time then
      SortedCons(b, s);
      [b] + s
    else
      var rest := InsertByTime(b, s[1..]);
      assert s == [s[0]] + s[1..];
      assert forall j :: 0 <= j < |rest| ==> s[0].time <= rest[j].time by {
        forall j | 0 <= j < |rest| ensures s[0].time <= rest[j].time {
          assert rest[j] in multiset(rest);
          if rest[j] != b {
            assert rest[j] in multiset(s[1..]);
            var k :| 0 <= k < |s[1..]| && s[1..][k] == rest[j];
            assert s[k + 1] == rest[j];
          }
        }
      }
      SortedCons(s[0], rest);
      [s[0]] + rest
  }

  /** `sort_index()`: the bars in ascending time order, none lost or
      added. */
  function SortByTime(s: seq<Bar>): (r: seq<Bar>)
    ensures SortedByTime(r)
    ensures multiset(r) == multiset(s)
    ensures |r| == |s|
  {
    if s == [] then []
    else
      assert s == [s[0]] + s[1..];
      InsertByTime(s[0], SortByTime(s[1..]))
  }
}
