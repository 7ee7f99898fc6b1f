/** Grading of tool sequences (evaluation/graders.py; the mobile report repeats the loop). */
module Grader {
  import opened Domain

  // ---------------------------------------------------------------- common subsequences

  /** `at` places the elements of `c`, in order, at positions of `s`. */
  predicate Placed(c: seq<Tool>, s: seq<Tool>, at: seq<nat>) {
    && |at| == |c|
    && (forall i :: 0 <= i < |at| ==> at[i] < |s| && s[at[i]] == c[i])
    && (forall i, j :: 0 <= i < j < |at| ==> at[i] < at[j])
  }

  ghost predicate Subsequence(c: seq<Tool>, s: seq<Tool>) {
    exists at :: Placed(c, s, at)
  }

  ghost predicate Common(c: seq<Tool>, left: seq<Tool>, right: seq<Tool>) {
    Subsequence(c, left) && Subsequence(c, right)
  }

  function Init(s: seq<Tool>): seq<Tool>
    requires s != []
  {
    s[..|s| - 1]
  }

  function Last(s: seq<Tool>): Tool
    requires s != []
  {
    s[|s| - 1]
  }

  lemma EmptyIsSubsequence(s: seq<Tool>)
    ensures Subsequence([], s)
  {
    assert Placed([], s, []);
  }

  lemma NonEmpty(c: seq<Tool>, s: seq<Tool>)
    requires c != [] && Subsequence(c, s)
    ensures s != []
  {
    var at: seq<nat> :| Placed(c, s, at);
    assert at[0] < |s|;
  }

  lemma Widen(c: seq<Tool>, s: seq<Tool>, more: Tool)
    requires Subsequence(c, s)
    ensures Subsequence(c, s + [more]) && Subsequence(c + [more], s + [more])
  {
    var at: seq<nat> :| Placed(c, s, at);
    assert Placed(c, s + [more], at);
    assert Placed(c + [more], s + [more], at + [|s|]);
  }

  /** A subsequence avoids the last element, or ends in it. */
  lemma Narrow(c: seq<Tool>, s: seq<Tool>)
    requires s != [] && Subsequence(c, s)
    ensures Subsequence(c, Init(s)) || (c != [] && Last(c) == Last(s) && Subsequence(Init(c), Init(s)))
    ensures c != [] ==> Subsequence(Init(c), Init(s))
  {
    var at: seq<nat> :| Placed(c, s, at);
    if c == [] {
      EmptyIsSubsequence(Init(s));
    } else {
      assert at[..|at| - 1] == at[..|c| - 1];
      forall i | 0 <= i < |c| - 1
        ensures at[i] < |Init(s)|
      {
        assert at[i] < at[|c| - 1];
      }
      assert Placed(Init(c), Init(s), at[..|c| - 1]);
      if at[|c| - 1] < |s| - 1 {
        assert Placed(c, Init(s), at);
      }
    }
  }

  // ---------------------------------------------------------------- the longest

  /** The recurrence that the loop tabulates. */
  function Longest(left: seq<Tool>, right: seq<Tool>): nat
    decreases |left| + |right|
  {
    if left == [] || right == [] then 0
    else if Last(left) == Last(right) then Longest(Init(left), Init(right)) + 1
    else
      var without, within := Longest(Init(left), right), Longest(left, Init(right));
      if without > within then without else within
  }

  lemma {:induction false} NoneIsLonger(c: seq<Tool>, left: seq<Tool>, right: seq<Tool>)
    requires Common(c, left, right)
    ensures |c| <= Longest(left, right)
    decreases |left| + |right|
  {
    if c != [] {
      NonEmpty(c, left);
      NonEmpty(c, right);
      Narrow(c, left);
      Narrow(c, right);
      if Last(left) == Last(right) {
        NoneIsLonger(Init(c), Init(left), Init(right));
      } else if Subsequence(c, Init(left)) {
        NoneIsLonger(c, Init(left), right);
      } else {
        NoneIsLonger(c, left, Init(right));
      }
    }
  }

  lemma {:induction false} OneIsAsLong(left: seq<Tool>, right: seq<Tool>) returns (c: seq<Tool>)
    ensures Common(c, left, right) && |c| == Longest(left, right)
    decreases |left| + |right|
  {
    if left == [] || right == [] {
      c := [];
      EmptyIsSubsequence(left);
      EmptyIsSubsequence(right);
    } else {
      assert left == Init(left) + [Last(left)] && right == Init(right) + [Last(right)];
      if Last(left) == Last(right) {
        c := OneIsAsLong(Init(left), Init(right));
        Widen(c, Init(left), Last(left));
        Widen(c, Init(right), Last(right));
        c := c + [Last(left)];
      } else if Longest(Init(left), right) > Longest(left, Init(right)) {
        c := OneIsAsLong(Init(left), right);
        Widen(c, Init(left), Last(left));
      } else {
        c := OneIsAsLong(left, Init(right));
        Widen(c, Init(right), Last(right));
      }
    }
  }

  /** `n` is the greatest length of a common subsequence. */
  ghost predicate LongestCommon(n: nat, left: seq<Tool>, right: seq<Tool>) {
    && (exists c :: Common(c, left, right) && |c| == n)
    && (forall c :: Common(c, left, right) ==> |c| <= n)
  }

  lemma {:induction false} LongestIsLongestCommon(left: seq<Tool>, right: seq<Tool>)
    ensures LongestCommon(Longest(left, right), left, right)
  {
    var c := OneIsAsLong(left, right);
    forall d | Common(d, left, right)
      ensures |d| <= Longest(left, right)
    {
      NoneIsLonger(d, left, right);
    }
  }

  predicate IsRow(row: seq<nat>, left: seq<Tool>, right: seq<Tool>) {
    |row| <= |right| + 1 && forall j :: 0 <= j < |row| ==> row[j] == Longest(left, right[..j])
  }

  /** `_lcs_length`: two rolling rows. */
  method LcsLength(left: seq<Tool>, right: seq<Tool>) returns (length: nat)
    ensures LongestCommon(length, left, right)
  {
    var previous := seq(|right| + 1, _ => 0);
    for i := 0 to |left|
      invariant |previous| == |right| + 1 && IsRow(previous, left[..i], right)
    {
      var current := [0];
      var here := left[..i + 1];
      assert Init(here) == left[..i] && Last(here) == left[i];
      for index := 1 to |right| + 1
        invariant |current| == index && IsRow(current, here, right)
        invariant |previous| == |right| + 1 && IsRow(previous, left[..i], right)
      {
        assert Init(right[..index]) == right[..index - 1] && Last(right[..index]) == right[index - 1];
        if left[i] == right[index - 1] {
          current := current + [previous[index - 1] + 1];
        } else {
          current := current + [if previous[index] > current[index - 1] then previous[index] else current[index - 1]];
        }
      }
      previous := current;
    }
    assert left[..|left|] == left && right[..|right|] == right;
    length := previous[|previous| - 1];
    LongestIsLongestCommon(left, right);
  }

  // ---------------------------------------------------------------- what the grade means

  lemma {:induction false} OwnLength(s: seq<Tool>)
    ensures Longest(s, s) == |s|
  {
    if s != [] {
      OwnLength(Init(s));
    }
  }

  lemma SubsequenceFits(c: seq<Tool>, s: seq<Tool>)
    requires Subsequence(c, s)
    ensures |c| <= |s| && (|c| == |s| ==> c == s)
    decreases |s|
  {
    if c != [] {
      NonEmpty(c, s);
    }
    if s != [] {
      Narrow(c, s);
      if Subsequence(c, Init(s)) {
        SubsequenceFits(c, Init(s));
      } else {
        SubsequenceFits(Init(c), Init(s));
        assert c == Init(c) + [Last(c)] && s == Init(s) + [Last(s)];
      }
    }
  }

  /** The accuracy is at most one, and is one exactly for the expected sequence itself. */
  lemma FullMarksMeanEqual(n: nat, expected: seq<Tool>, actual: seq<Tool>)
    requires LongestCommon(n, expected, actual)
    ensures n <= |expected| && n <= |actual|
    ensures n == |expected| == |actual| <==> expected == actual
  {
    var c :| Common(c, expected, actual) && |c| == n;
    SubsequenceFits(c, expected);
    SubsequenceFits(c, actual);
    if expected == actual {
      OwnLength(expected);
      var d := OneIsAsLong(expected, actual);
    }
  }

  /** The names of a sequence in the order of their first appearance: the keys of a `Counter`. */
  function Names(s: seq<Tool>): (names: seq<Tool>)
    ensures forall i :: 0 <= i < |names| ==> names[i] in s
    ensures forall i :: 0 <= i < |s| ==> s[i] in names
    ensures forall i, j :: 0 <= i < j < |names| ==> names[i] != names[j]
  {
    if s == [] then []
    else
      var rest := Names(Init(s));
      assert s == Init(s) + [Last(s)];
      if Last(s) in Init(s) then rest else rest + [Last(s)]
  }

  function ExcessOf(names: seq<Tool>, expected: multiset<Tool>, actual: multiset<Tool>): nat {
    if names == [] then 0
    else
      var name := Last(names);
      ExcessOf(Init(names), expected, actual)
          + (if actual[name] > expected[name] then actual[name] - expected[name] else 0)
  }

  /** `unnecessary_call_count`: the excess of every called name, summed. */
  function UnnecessaryCalls(expected: seq<Tool>, actual: seq<Tool>): nat {
    ExcessOf(Names(actual), multiset(expected), multiset(actual))
  }

  function Only(m: multiset<Tool>, names: seq<Tool>): multiset<Tool> {
    if names == [] then multiset{} else Only(m, Init(names))[Last(names) := m[Last(names)]]
  }

  lemma {:induction false} ExcessIsDifference(names: seq<Tool>, expected: multiset<Tool>, actual: multiset<Tool>)
    requires forall i, j :: 0 <= i < j < |names| ==> names[i] != names[j]
    ensures ExcessOf(names, expected, actual) == |Only(actual - expected, names)|
    ensures forall x :: Only(actual - expected, names)[x] == if x in names then (actual - expected)[x] else 0
  {
    if names != [] {
      var before, name := Init(names), Last(names);
      ExcessIsDifference(before, expected, actual);
      var rest := Only(actual - expected, before);
      assert name !in before && rest[name] == 0;
      assert Only(actual - expected, names) == rest + multiset{}[name := (actual - expected)[name]];
      assert names == before + [name];
    }
  }

  /** Counting name by name gives the size of the multiset difference, which is how the mobile
      report counts. */
  lemma UnnecessaryIsDifference(expected: seq<Tool>, actual: seq<Tool>)
    ensures UnnecessaryCalls(expected, actual) == |multiset(actual) - multiset(expected)|
  {
    var difference := multiset(actual) - multiset(expected);
    ExcessIsDifference(Names(actual), multiset(expected), multiset(actual));
    assert Only(difference, Names(actual)) == difference;
  }

  lemma {:induction false} SubsequenceCounts(c: seq<Tool>, s: seq<Tool>)
    requires Subsequence(c, s)
    ensures multiset(c) <= multiset(s)
    decreases |s|
  {
    if s == [] {
      SubsequenceFits(c, s);
    } else {
      Narrow(c, s);
      hide Subsequence;
      assert s == Init(s) + [Last(s)];
      if Subsequence(c, Init(s)) {
        SubsequenceCounts(c, Init(s));
      } else {
        SubsequenceCounts(Init(c), Init(s));
        assert c == Init(c) + [Last(c)];
      }
    }
  }

  /** No call is both matched and unnecessary. */
  lemma MatchedAndUnnecessaryFit(n: nat, expected: seq<Tool>, actual: seq<Tool>)
    requires LongestCommon(n, expected, actual)
    ensures n + UnnecessaryCalls(expected, actual) <= |actual|
  {
    var c :| Common(c, expected, actual) && |c| == n;
    SubsequenceCounts(c, expected);
    SubsequenceCounts(c, actual);
    UnnecessaryIsDifference(expected, actual);
    var excess := multiset(actual) - multiset(expected);
    assert multiset(c) + excess <= multiset(actual);
    assert |multiset(c) + excess| <= |multiset(actual)| by { Fits(multiset(c) + excess, multiset(actual)); }
  }

  lemma Fits(a: multiset<Tool>, b: multiset<Tool>)
    requires a <= b
    ensures |a| <= |b|
  {
    assert b == a + (b - a);
  }
}
