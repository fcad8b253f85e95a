/** The ranker: the backend's entries reordered by score, highest first, by a stable sort
    (entries with equal scores keep their backend order), then renamed into the response shape.
    Nothing is dropped, duplicated or truncated. */
module Ranking {
  import opened Api

  /** Non-increasing by score. */
  predicate SortedByScore(s: seq<TEIRankResult>) {
    forall i, j :: 0 <= i < j < |s| ==> s[i].score >= s[j].score
  }

  /** The entries of `s` whose score is exactly `v`, in their order in `s`. */
  function WithScore(s: seq<TEIRankResult>, v: real): seq<TEIRankResult> {
    if s == [] then [] else (if s[0].score == v then [s[0]] else []) + WithScore(s[1..], v)
  }

  /** `output` lists every group of equally scored entries of `input` in the same order:
      what a stable sort by score guarantees. */
  ghost predicate KeepsTieOrder(input: seq<TEIRankResult>, output: seq<TEIRankResult>) {
    forall v :: WithScore(output, v) == WithScore(input, v)
  }

  lemma {:induction false} WithScoreAppend(a: seq<TEIRankResult>, b: seq<TEIRankResult>, v: real)
    ensures WithScore(a + b, v) == WithScore(a, v) + WithScore(b, v)
    decreases |a|
  {
    if a != [] {
      WithScoreAppend(a[1..], b, v);
      var ab := a + b;
      assert ab[0] == a[0];
      assert ab[1..] == a[1..] + b;
      assert WithScore(ab, v) == (if a[0].score == v then [a[0]] else []) + WithScore(a[1..] + b, v);
    } else {
      assert a + b == b;
    }
  }

  /** Places `x` into the sorted `t` ahead of every entry whose score is not above its own. */
  function Insert(x: TEIRankResult, t: seq<TEIRankResult>): (r: seq<TEIRankResult>)
    requires SortedByScore(t)
    ensures SortedByScore(r)
    ensures multiset(r) == multiset(t) + multiset{x}
    ensures |r| == |t| + 1
  {
    if t == [] || x.score >= t[0].score then
      [x] + t
    else
      var rest := Insert(x, t[1..]);
      BoundedByHead(t);
      ScoresBounded(rest, t[1..], x, t[0].score);
      PrependKeepsSorted(t[0], rest);
      assert t == [t[0]] + t[1..];
      assert multiset([t[0]] + rest) == multiset{t[0]} + multiset(rest);
      [t[0]] + rest
  }

  /** An entry scoring at least as high as everything in a sorted list can go in front. */
  lemma PrependKeepsSorted(h: TEIRankResult, s: seq<TEIRankResult>)
    requires SortedByScore(s)
    requires forall k :: 0 <= k < |s| ==> s[k].score <= h.score
    ensures SortedByScore([h] + s)
  {
    var r := [h] + s;
    forall i, j | 0 <= i < j < |r|
      ensures r[i].score >= r[j].score
    {
      assert r[j] == s[j - 1];
      if i > 0 {
        assert r[i] == s[i - 1];
      }
    }
  }

  /** In a sorted list no later score exceeds the first. */
  lemma BoundedByHead(t: seq<TEIRankResult>)
    requires SortedByScore(t) && t != []
    ensures forall k :: 0 <= k < |t[1..]| ==> t[1..][k].score <= t[0].score
  {
  }

  /** A list holding the entries of `t` and `x` has no score above a bound they all respect. */
  lemma ScoresBounded(r: seq<TEIRankResult>, t: seq<TEIRankResult>, x: TEIRankResult, bound: real)
    requires multiset(r) == multiset(t) + multiset{x}
    requires forall k :: 0 <= k < |t| ==> t[k].score <= bound
    requires x.score <= bound
    ensures forall k :: 0 <= k < |r| ==> r[k].score <= bound
  {
    forall k | 0 <= k < |r|
      ensures r[k].score <= bound
    {
      assert r[k] in multiset(r);
      if r[k] != x {
        assert r[k] in multiset(t);
        var j :| 0 <= j < |t| && t[j] == r[k];
      }
    }
  }

  /** Insertion sort by score, highest first. */
  function SortByScore(s: seq<TEIRankResult>): (r: seq<TEIRankResult>)
    ensures SortedByScore(r)
    ensures multiset(r) == multiset(s)
    ensures |r| == |s|
  {
    if s == [] then
      []
    else
      assert s == [s[0]] + s[1..];
      Insert(s[0], SortByScore(s[1..]))
  }

  /** Inserting `x` puts it ahead of its ties and behind every strictly higher score. */
  lemma {:induction false} InsertKeepsTieOrder(x: TEIRankResult, t: seq<TEIRankResult>, v: real)
    requires SortedByScore(t)
    ensures WithScore(Insert(x, t), v) == WithScore([x] + t, v)
    decreases |t|
  {
    if !(t == [] || x.score >= t[0].score) {
      var rest := Insert(x, t[1..]);
      InsertKeepsTieOrder(x, t[1..], v);
      WithScoreAppend([t[0]], rest, v);
      WithScoreAppend([x], t[1..], v);
      WithScoreAppend([x], t, v);
      assert t == [t[0]] + t[1..];
      WithScoreAppend([t[0]], t[1..], v);
    }
  }

  lemma {:induction false} SortKeepsTieOrderAt(s: seq<TEIRankResult>, v: real)
    ensures WithScore(SortByScore(s), v) == WithScore(s, v)
    decreases |s|
  {
    if s != [] {
      SortKeepsTieOrderAt(s[1..], v);
      InsertKeepsTieOrder(s[0], SortByScore(s[1..]), v);
      WithScoreAppend([s[0]], SortByScore(s[1..]), v);
      WithScoreAppend([s[0]], s[1..], v);
      assert s == [s[0]] + s[1..];
    }
  }

  /** The sort is stable: entries with equal scores keep their backend order. */
  lemma SortKeepsTieOrder(s: seq<TEIRankResult>)
    ensures KeepsTieOrder(s, SortByScore(s))
  {
    forall v {
      SortKeepsTieOrderAt(s, v);
    }
  }

  /** A sorted list with some entry of score `v` starts with a score of at least `v`. */
  lemma {:induction false} WithScoreBoundedByHead(s: seq<TEIRankResult>, v: real)
    requires SortedByScore(s)
    requires WithScore(s, v) != []
    ensures s != [] && s[0].score >= v
    decreases |s|
  {
    if s[0].score != v {
      WithScoreBoundedByHead(s[1..], v);
    }
  }

  /** The first entry of a non-empty list is among the entries with its score. */
  lemma HeadScorePresent(s: seq<TEIRankResult>)
    ensures s != [] ==> WithScore(s, s[0].score) != []
  {
  }

  /** Two score-sorted lists that agree on every group of equally scored entries are equal.
      So being sorted and keeping tie order determine the output of any stable sort by score
      completely. */
  lemma {:induction false} SortedTieOrderUnique(a: seq<TEIRankResult>, b: seq<TEIRankResult>)
    requires SortedByScore(a) && SortedByScore(b)
    requires forall v :: WithScore(a, v) == WithScore(b, v)
    ensures a == b
    decreases |a|
  {
    if a == [] || b == [] {
      if a != b {
        HeadScorePresent(if a == [] then b else a);
        assert false;
      }
    } else {
      assert WithScore(a, a[0].score) != [];
      WithScoreBoundedByHead(b, a[0].score);
      assert WithScore(b, b[0].score) != [];
      WithScoreBoundedByHead(a, b[0].score);
      var m := a[0].score;
      assert b[0].score == m;
      assert WithScore(a, m) == [a[0]] + WithScore(a[1..], m);
      assert WithScore(b, m) == [b[0]] + WithScore(b[1..], m);
      assert WithScore(a, m) == WithScore(b, m);
      assert WithScore(a, m)[0] == a[0] && WithScore(b, m)[0] == b[0];
      forall v
        ensures WithScore(a[1..], v) == WithScore(b[1..], v)
      {
        if v == m {
          assert WithScore(a, m)[1..] == WithScore(a[1..], m);
          assert WithScore(b, m)[1..] == WithScore(b[1..], m);
        } else {
          assert WithScore(a, v) == WithScore(a[1..], v);
          assert WithScore(b, v) == WithScore(b[1..], v);
        }
      }
      SortedTieOrderUnique(a[1..], b[1..]);
      assert a == [a[0]] + a[1..];
      assert b == [b[0]] + b[1..];
    }
  }

  /** Any score-sorted arrangement of `s` that keeps tie order is exactly `SortByScore(s)`. */
  lemma StableSortCharacterized(s: seq<TEIRankResult>, out: seq<TEIRankResult>)
    ensures SortedByScore(out) && KeepsTieOrder(s, out) <==> out == SortByScore(s)
  {
    SortKeepsTieOrder(s);
    if SortedByScore(out) && KeepsTieOrder(s, out) {
      SortedTieOrderUnique(out, SortByScore(s));
    }
  }

  /** The response entries, field for field: `score` becomes `relevance_score`. */
  function ToRankResults(s: seq<TEIRankResult>): (r: seq<RankResult>)
    ensures |r| == |s|
    ensures forall k :: 0 <= k < |s| ==> r[k].index == s[k].index && r[k].relevanceScore == s[k].score
  {
    seq(|s|, k requires 0 <= k < |s| => RankResult(s[k].index, s[k].score))
  }

  /** Reads a response entry back as the backend entry it came from. */
  function AsScored(r: seq<RankResult>): (s: seq<TEIRankResult>)
    ensures |s| == |r|
    ensures forall k :: 0 <= k < |r| ==> s[k].index == r[k].index && s[k].score == r[k].relevanceScore
  {
    seq(|r|, k requires 0 <= k < |r| => TEIRankResult(r[k].index, r[k].relevanceScore))
  }

  /** Renaming the fields loses nothing. */
  lemma RankResultsRoundTrip(s: seq<TEIRankResult>)
    ensures AsScored(ToRankResults(s)) == s
  {
  }

  /** The ranker. Its output has the backend's entries, each index with its own score, exactly
      as often as the backend sent them; it is non-increasing by score; and equally scored
      entries keep the backend's order. */
  function Rank(results: seq<TEIRankResult>): (r: seq<RankResult>)
    ensures |r| == |results|
    ensures forall i, j :: 0 <= i < j < |r| ==> r[i].relevanceScore >= r[j].relevanceScore
    ensures multiset(AsScored(r)) == multiset(results)
    ensures KeepsTieOrder(results, AsScored(r))
  {
    var sorted := SortByScore(results);
    SortKeepsTieOrder(results);
    RankResultsRoundTrip(sorted);
    ToRankResults(sorted)
  }
}
