/**
 Ranking of one team's candidate tools: a stable sort by confidence, then
 peer-adoption count, both descending, followed by pandas `head(n)`.
 */
module Ranking {
  import opened Strings

  datatype Candidate = Candidate(tool: string, teamCount: nat, confidence: real)

  /** `a` sorts strictly before `b`: higher confidence, or equal confidence and a higher count. */
  predicate Outranks(a: Candidate, b: Candidate) {
    a.confidence > b.confidence || (a.confidence == b.confidence && a.teamCount > b.teamCount)
  }

  /** No candidate is outranked by one listed after it. */
  predicate Ranked(s: seq<Candidate>) {
    forall i, j :: 0 <= i < j < |s| ==> !Outranks(s[j], s[i])
  }

  /** `a` is not outranked by `b` and `b` not by `c`, so `a` is not outranked by `c`. */
  lemma {:induction false} NotOutrankedTransitive(a: Candidate, b: Candidate, c: Candidate)
    requires !Outranks(b, a) && !Outranks(c, b)
    ensures !Outranks(c, a)
  {
  }

  /** A ranked list stays ranked with a new head that nothing in it outranks. */
  lemma {:induction false} ConsRanked(h: Candidate, t: seq<Candidate>)
    requires Ranked(t)
    requires forall y :: y in t ==> !Outranks(y, h)
    ensures Ranked([h] + t)
  {
    var r := [h] + t;
    forall i, j | 0 <= i < j < |r| ensures !Outranks(r[j], r[i]) {
      assert r[j] == t[j - 1] && r[j] in t;
      if i > 0 {
        assert r[i] == t[i - 1];
      }
    }
  }

  /** Nothing in a ranked list outranks its head. */
  lemma {:induction false} RankedHead(s: seq<Candidate>)
    requires Ranked(s) && |s| > 0
    ensures forall y :: y in s ==> !Outranks(y, s[0])
    ensures Ranked(s[1..])
  {
    forall y | y in s ensures !Outranks(y, s[0]) {
      var k :| 0 <= k < |s| && s[k] == y;
      if k > 0 {
        assert !Outranks(s[k], s[0]);
      }
    }
  }

  /** Places `x` before the first entry that does not outrank it, so that `x` stays ahead
      of entries with an equal key. */
  function Insert(x: Candidate, s: seq<Candidate>): (r: seq<Candidate>)
    ensures multiset(r) == multiset(s) + multiset{x}
  {
    if |s| == 0 then [x]
    else if Outranks(s[0], x) then
      assert s == [s[0]] + s[1..];
      [s[0]] + Insert(x, s[1..])
    else [x] + s
  }

  /** Inserting into a ranked list keeps it ranked. */
  lemma {:induction false} InsertRanked(x: Candidate, s: seq<Candidate>)
    requires Ranked(s)
    ensures Ranked(Insert(x, s))
  {
    if |s| > 0 {
      RankedHead(s);
      if Outranks(s[0], x) {
        InsertRanked(x, s[1..]);
        var tail := Insert(x, s[1..]);
        forall y | y in tail ensures !Outranks(y, s[0]) {
          assert y in multiset(tail);
          if y != x {
            assert y in multiset(s[1..]);
            assert y in s;
          }
        }
        ConsRanked(s[0], tail);
      } else {
        forall y | y in s ensures !Outranks(y, x) {
          NotOutrankedTransitive(x, s[0], y);
        }
        ConsRanked(x, s);
      }
    }
  }

  /** The candidates ordered by (confidence, team count) descending; a stable insertion sort. */
  function SortRanked(s: seq<Candidate>): (r: seq<Candidate>)
    ensures Ranked(r)
    ensures multiset(r) == multiset(s)
  {
    if |s| == 0 then []
    else
      assert s == [s[0]] + s[1..];
      var rest := SortRanked(s[1..]);
      InsertRanked(s[0], rest);
      Insert(s[0], rest)
  }

  /** How many rows pandas `head(n)` keeps of `len` rows: the first n, or for a negative n
      all but the last -n. */
  function HeadLength(len: nat, n: int): (k: nat)
    ensures k <= len
    ensures n >= 0 ==> k <= n
    ensures n >= 0 ==> k == n || k == len
    ensures n < 0 ==> k + -n >= len && (k == 0 || k == len + n)
  {
    if n >= 0 then (if n < len then n else len)
    else if len + n > 0 then len + n else 0
  }

  function Head<T>(s: seq<T>, n: int): (r: seq<T>)
    ensures |r| == HeadLength(|s|, n)
    ensures r == s[..|r|]
  {
    s[..HeadLength(|s|, n)]
  }

  /** Sorting only reorders: every sorted entry comes from the input, and every input
      entry appears in the output. */
  lemma {:induction false} SortRankedElements(s: seq<Candidate>)
    ensures |SortRanked(s)| == |s|
    ensures forall i :: 0 <= i < |SortRanked(s)| ==> SortRanked(s)[i] in s
    ensures forall x :: x in s ==> x in SortRanked(s)
  {
    var r := SortRanked(s);
    assert |multiset(r)| == |r| && |multiset(s)| == |s|;
    forall i | 0 <= i < |r| ensures r[i] in s {
      assert r[i] in multiset(r);
    }
    forall x | x in s ensures x in r {
      assert x in multiset(s);
    }
  }

  // ---------------------------------------------------------------- tie order

  /** `a` goes before `b` in the complete order: ranked higher, or ranked equally with the
      alphabetically smaller tool. */
  predicate Precedes(a: Candidate, b: Candidate) {
    Outranks(a, b) || (!Outranks(b, a) && LexLess(a.tool, b.tool))
  }

  predicate FullyRanked(s: seq<Candidate>) {
    forall i, j :: 0 <= i < j < |s| ==> Precedes(s[i], s[j])
  }

  predicate ToolsAscending(s: seq<Candidate>) {
    forall i, j :: 0 <= i < j < |s| ==> LexLess(s[i].tool, s[j].tool)
  }

  /** A fully ranked list stays so with a new head that precedes every entry. */
  lemma {:induction false} ConsFullyRanked(h: Candidate, t: seq<Candidate>)
    requires FullyRanked(t)
    requires forall y :: y in t ==> Precedes(h, y)
    ensures FullyRanked([h] + t)
  {
    var r := [h] + t;
    forall i, j | 0 <= i < j < |r| ensures Precedes(r[i], r[j]) {
      assert r[j] == t[j - 1] && r[j] in t;
      if i > 0 {
        assert r[i] == t[i - 1];
      }
    }
  }

  /** Every entry of `Insert(x, s)` is `x` or an entry of `s`. */
  lemma {:induction false} InsertElements(x: Candidate, s: seq<Candidate>)
    ensures forall y :: y in Insert(x, s) ==> y == x || y in s
  {
    forall y | y in Insert(x, s) ensures y == x || y in s {
      assert y in multiset(Insert(x, s));
    }
  }

  /** A head that outranks `x` precedes everything of the rest with `x` inserted. */
  lemma {:induction false} InsertBehindHead(x: Candidate, s: seq<Candidate>)
    requires FullyRanked(s) && |s| > 0 && Outranks(s[0], x)
    ensures forall y :: y in Insert(x, s[1..]) ==> Precedes(s[0], y)
  {
    InsertElements(x, s[1..]);
    forall y | y in s[1..] ensures Precedes(s[0], y) {
      var k :| 0 <= k < |s[1..]| && s[1..][k] == y;
      assert s[k + 1] == y;
    }
  }

  /** `x` precedes every entry when the head does not outrank it and its tool comes first. */
  lemma {:induction false} InsertAhead(x: Candidate, s: seq<Candidate>)
    requires FullyRanked(s) && |s| > 0 && !Outranks(s[0], x)
    requires forall y :: y in s ==> LexLess(x.tool, y.tool)
    ensures forall y :: y in s ==> Precedes(x, y)
  {
    forall y | y in s ensures Precedes(x, y) {
      var k :| 0 <= k < |s| && s[k] == y;
      if k > 0 {
        assert Precedes(s[0], s[k]);
        NotOutrankedTransitive(x, s[0], y);
      }
    }
  }

  lemma {:induction false} InsertFullyRanked(x: Candidate, s: seq<Candidate>)
    requires FullyRanked(s)
    requires forall y :: y in s ==> LexLess(x.tool, y.tool)
    ensures FullyRanked(Insert(x, s))
  {
    if |s| > 0 {
      var rest := s[1..];
      assert FullyRanked(rest);
      if Outranks(s[0], x) {
        InsertFullyRanked(x, rest);
        InsertBehindHead(x, s);
        ConsFullyRanked(s[0], Insert(x, rest));
      } else {
        InsertAhead(x, s);
        ConsFullyRanked(x, s);
      }
    }
  }

  /** The sort is stable: fed candidates in ascending tool order, it breaks every tie in
      (confidence, team count) by ascending tool name. */
  lemma {:induction false} SortBreaksTiesByTool(s: seq<Candidate>)
    requires ToolsAscending(s)
    ensures FullyRanked(SortRanked(s))
  {
    if |s| > 0 {
      var rest := s[1..];
      assert ToolsAscending(rest);
      SortBreaksTiesByTool(rest);
      var sorted := SortRanked(rest);
      forall y | y in sorted ensures LexLess(s[0].tool, y.tool) {
        assert y in multiset(rest);
        var k :| 0 <= k < |rest| && rest[k] == y;
        assert s[k + 1] == y;
      }
      InsertFullyRanked(s[0], sorted);
    }
  }

  /** Truncation keeps the best: a candidate left out of the first n is ranked no higher
      than any candidate kept. */
  lemma {:induction false} HeadKeepsBest(s: seq<Candidate>, n: int, c: Candidate)
    requires c in s
    requires c !in Head(SortRanked(s), n)
    ensures forall h :: h in Head(SortRanked(s), n) ==> !Outranks(c, h)
  {
    var sorted := SortRanked(s);
    var head := Head(sorted, n);
    assert c in multiset(sorted) by { assert c in multiset(s); }
    var p :| 0 <= p < |sorted| && sorted[p] == c;
    assert p >= |head|;
    forall h | h in head ensures !Outranks(c, h) {
      var q :| 0 <= q < |head| && head[q] == h;
      assert sorted[q] == h;
    }
  }
}
