/**
 Strictly ascending lists of distinct strings. pandas `groupby` (and the
 `unstack` that follows it) lists group keys in ascending order without
 repetition; `SortedDistinct` is that key list.
 */
module Ordered {
  import opened Strings

  predicate StrictlySorted(s: seq<string>) {
    forall i, j :: 0 <= i < j < |s| ==> LexLess(s[i], s[j])
  }

  function Elems(s: seq<string>): set<string> {
    set x | x in s
  }

  lemma {:induction false} ElemsCons(h: string, t: seq<string>)
    ensures Elems([h] + t) == {h} + Elems(t)
  {
  }

  /** A sorted list stays sorted under a head below all its entries. */
  lemma {:induction false} ConsSorted(h: string, t: seq<string>)
    requires StrictlySorted(t)
    requires forall y :: y in t ==> LexLess(h, y)
    ensures StrictlySorted([h] + t)
  {
    var r := [h] + t;
    forall i, j | 0 <= i < j < |r| ensures LexLess(r[i], r[j]) {
      assert r[j] == t[j - 1] && r[j] in t;
      if i > 0 {
        assert r[i] == t[i - 1];
      }
    }
  }

  /** Inserts `x` into its place in a sorted list, leaving the list as is when `x` is present. */
  function InsertSorted(x: string, s: seq<string>): (r: seq<string>)
    requires StrictlySorted(s)
    ensures StrictlySorted(r)
    ensures Elems(r) == Elems(s) + {x}
  {
    if |s| == 0 then [x]
    else if x == s[0] then s
    else if LexLess(x, s[0]) then
      forall y | y in s ensures LexLess(x, y) {
        var k :| 0 <= k < |s| && s[k] == y;
        if k > 0 {
          LexLessTransitive(x, s[0], s[k]);
        }
      }
      ConsSorted(x, s);
      ElemsCons(x, s);
      [x] + s
    else
      LexLessTotal(x, s[0]);
      var rest := s[1..];
      assert s == [s[0]] + rest;
      var tail := InsertSorted(x, rest);
      ElemsCons(s[0], rest);
      forall y | y in tail ensures LexLess(s[0], y) {
        assert y in Elems(tail);
        if y != x {
          var k :| 0 <= k < |rest| && rest[k] == y;
          assert s[k + 1] == y;
        }
      }
      ConsSorted(s[0], tail);
      ElemsCons(s[0], tail);
      [s[0]] + tail
  }

  /** The distinct values of `xs` in ascending order. */
  function SortedDistinct(xs: seq<string>): (r: seq<string>)
    ensures StrictlySorted(r)
    ensures Elems(r) == Elems(xs)
  {
    if |xs| == 0 then []
    else
      var r := InsertSorted(xs[|xs| - 1], SortedDistinct(xs[..|xs| - 1]));
      assert xs == xs[..|xs| - 1] + [xs[|xs| - 1]];
      assert Elems(xs) == Elems(xs[..|xs| - 1]) + {xs[|xs| - 1]};
      r
  }

  /** In a strictly sorted list equal entries sit at the same position. */
  lemma {:induction false} StrictlySortedInjective(s: seq<string>)
    requires StrictlySorted(s)
    ensures forall i, j :: 0 <= i < |s| && 0 <= j < |s| && s[i] == s[j] ==> i == j
  {
    forall i, j | 0 <= i < |s| && 0 <= j < |s| && s[i] == s[j] ensures i == j {
      LexLessIrreflexive(s[i]);
    }
  }

  /** The first entry of a strictly sorted list does not recur in the (still sorted) rest. */
  lemma {:induction false} SortedHeadNotInTail(s: seq<string>)
    requires StrictlySorted(s) && |s| > 0
    ensures s[0] !in s[1..] && StrictlySorted(s[1..])
  {
    var t := s[1..];
    forall k | 0 <= k < |t| ensures t[k] != s[0] {
      assert LexLess(s[0], s[k + 1]);
      LexLessIrreflexive(s[0]);
    }
  }

  /** A strictly sorted list repeats nothing, so its length is the number of its values. */
  lemma {:induction false} StrictlySortedDistinct(s: seq<string>)
    requires StrictlySorted(s)
    ensures |Elems(s)| == |s|
  {
    if |s| > 0 {
      var t := s[1..];
      SortedHeadNotInTail(s);
      StrictlySortedDistinct(t);
      assert Elems(s) == {s[0]} + Elems(t) by {
        assert s == [s[0]] + t;
      }
      assert s[0] !in Elems(t);
    }
  }

  /** The key list of `xs` is as long as `xs` has distinct values. */
  lemma {:induction false} SortedDistinctLength(xs: seq<string>)
    ensures |SortedDistinct(xs)| == |Elems(xs)|
  {
    StrictlySortedDistinct(SortedDistinct(xs));
  }
}
