/** Nearest-rank percentiles of measured latencies (evaluation/graders.py), with the percentage as
    an exact rational. */
module Percentile {
  import opened Domain

  function Insert(ordered: seq<int>, x: int): seq<int> {
    if ordered == [] || ordered[|ordered| - 1] <= x then ordered + [x]
    else Insert(ordered[..|ordered| - 1], x) + [ordered[|ordered| - 1]]
  }

  /** `sorted`. */
  function Sort(values: seq<int>): seq<int> {
    if values == [] then [] else Insert(Sort(values[..|values| - 1]), values[|values| - 1])
  }

  /** `ceil(p * n)`. */
  function Rank(percent: nat, n: nat): nat {
    (percent * n + 99) / 100
  }

  lemma RankFits(percent: nat, n: nat)
    requires 1 <= percent <= 100 && n >= 1
    ensures 1 <= Rank(percent, n) <= n
  {
    assert percent * n >= 1 * n;
    assert percent * n <= 100 * n;
  }

  /** `nearest_rank_percentile`; None where it raises. */
  function NearestRank(values: seq<int>, percent: int): Option<int> {
    if values == [] then Some(0)
    else if percent <= 0 || percent > 100 then None
    else
      RankFits(percent, |values|);
      SortCounts(values, 0);
      Some(Sort(values)[Rank(percent, |values|) - 1])
  }

  // ---------------------------------------------------------------- what the value is

  function AtMost(values: seq<int>, v: int): nat {
    if values == [] then 0 else AtMost(values[..|values| - 1], v) + (if values[|values| - 1] <= v then 1 else 0)
  }

  function Below(values: seq<int>, v: int): nat {
    AtMost(values, v - 1)
  }

  predicate Ordered(s: seq<int>) {
    forall i, j :: 0 <= i < j < |s| ==> s[i] <= s[j]
  }

  lemma {:induction false} InsertCounts(ordered: seq<int>, x: int, v: int)
    ensures |Insert(ordered, x)| == |ordered| + 1
    ensures AtMost(Insert(ordered, x), v) == AtMost(ordered, v) + (if x <= v then 1 else 0)
  {
    if ordered == [] || ordered[|ordered| - 1] <= x {
      assert (ordered + [x])[..|ordered|] == ordered;
    } else {
      var rest, last := ordered[..|ordered| - 1], ordered[|ordered| - 1];
      InsertCounts(rest, x, v);
      assert (Insert(rest, x) + [last])[..|ordered|] == Insert(rest, x);
    }
  }

  lemma {:induction false} InsertMembers(ordered: seq<int>, x: int)
    ensures multiset(Insert(ordered, x)) == multiset(ordered) + multiset{x}
  {
    if ordered != [] && ordered[|ordered| - 1] > x {
      var rest, last := ordered[..|ordered| - 1], ordered[|ordered| - 1];
      InsertMembers(rest, x);
      assert ordered == rest + [last];
    }
  }

  lemma {:induction false} InsertOrders(ordered: seq<int>, x: int)
    requires Ordered(ordered)
    ensures Ordered(Insert(ordered, x))
  {
    if ordered != [] && ordered[|ordered| - 1] > x {
      var rest, last := ordered[..|ordered| - 1], ordered[|ordered| - 1];
      InsertOrders(rest, x);
      InsertMembers(rest, x);
      forall i | 0 <= i < |Insert(rest, x)|
        ensures Insert(rest, x)[i] <= last
      {
        assert Insert(rest, x)[i] in multiset(Insert(rest, x));
      }
    }
  }

  lemma {:induction false} SortCounts(values: seq<int>, v: int)
    ensures |Sort(values)| == |values| && AtMost(Sort(values), v) == AtMost(values, v)
  {
    hide Insert;
    if values != [] {
      var rest := values[..|values| - 1];
      SortCounts(rest, v);
      InsertCounts(Sort(rest), values[|values| - 1], v);
    }
  }

  lemma {:induction false} SortOrders(values: seq<int>)
    ensures Ordered(Sort(values))
  {
    hide Insert, Ordered;
    if values == [] {
      Alone();
    } else {
      SortOrders(values[..|values| - 1]);
      InsertOrders(Sort(values[..|values| - 1]), values[|values| - 1]);
    }
  }

  lemma Alone()
    ensures Ordered([])
  {
  }

  /** Sorting permutes. */
  lemma {:induction false} SortPermutes(values: seq<int>)
    ensures multiset(Sort(values)) == multiset(values)
  {
    hide Insert;
    if values != [] {
      var rest, last := values[..|values| - 1], values[|values| - 1];
      SortPermutes(rest);
      InsertMembers(Sort(rest), last);
      assert values == rest + [last];
    }
  }

  lemma {:induction false} PrefixAtMost(s: seq<int>, v: int, n: nat)
    requires n <= |s| && forall i :: 0 <= i < n ==> s[i] <= v
    ensures AtMost(s, v) >= n
  {
    if n > 0 && s != [] {
      PrefixAtMost(s[..|s| - 1], v, if n == |s| then n - 1 else n);
    }
  }

  lemma {:induction false} SuffixBelow(s: seq<int>, v: int, n: nat)
    requires n <= |s| && forall i :: n <= i < |s| ==> s[i] >= v
    ensures Below(s, v) <= n
  {
    if s != [] {
      SuffixBelow(s[..|s| - 1], v, if n == |s| then n - 1 else n);
    }
  }

  /** Fewer values than the rank lie below this one, and at least that many do not lie above it. */
  predicate Ranked(values: seq<int>, rank: nat, v: int) {
    v in values && Below(values, v) < rank <= AtMost(values, v)
  }

  lemma {:induction false} MoreAtMost(values: seq<int>, v: int, w: int)
    requires v <= w
    ensures AtMost(values, v) <= AtMost(values, w)
  {
    if values != [] {
      MoreAtMost(values[..|values| - 1], v, w);
    }
  }

  lemma {:induction false} SortedIsRanked(values: seq<int>, rank: nat)
    requires 1 <= rank <= |values|
    ensures |Sort(values)| == |values| && Ranked(values, rank, Sort(values)[rank - 1])
  {
    hide Sort, AtMost;
    SortCounts(values, 0);
    SortOrders(values);
    SortPermutes(values);
    var w := Sort(values)[rank - 1];
    SortCounts(values, w);
    SortCounts(values, w - 1);
    assert w in multiset(values);
    PrefixAtMost(Sort(values), w, rank);
    SuffixBelow(Sort(values), w, rank - 1);
  }

  lemma RankedOnce(values: seq<int>, rank: nat, v: int, w: int)
    requires Ranked(values, rank, v) && Ranked(values, rank, w)
    ensures v == w
  {
    hide AtMost;
    if v < w {
      MoreAtMost(values, v, w - 1);
    }
    if w < v {
      MoreAtMost(values, w, v - 1);
    }
  }

  /** The percentile is the one value of nearest rank, whatever the order of the values. */
  lemma NearestRankIsMet(values: seq<int>, percent: nat, v: int)
    requires values != [] && 1 <= percent <= 100
    ensures Ranked(values, Rank(percent, |values|), v) <==> NearestRank(values, percent) == Some(v)
  {
    RankFits(percent, |values|);
    var rank := Rank(percent, |values|);
    SortedIsRanked(values, rank);
    hide Rank, Sort, Ranked;
    var w := Sort(values)[rank - 1];
    assert NearestRank(values, percent) == Some(w);
    hide NearestRank;
    if Ranked(values, rank, v) {
      RankedOnce(values, rank, v, w);
    }
  }
}
