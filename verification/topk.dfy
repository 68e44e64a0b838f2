/**
 Merging the results of several knowledge bases (knowledge.py, `retrieve`):
 each native engine returns its own k best hits, descending; the lists are
 concatenated, sorted by score and cut to k.
 */
module TopK {

  datatype Hit = Hit(kb: string, chunk: string, score: real)

  ghost predicate Descending(s: seq<Hit>) {
    forall i, j :: 0 <= i < j < |s| ==> s[i].score >= s[j].score
  }

  // ---- The stable descending sort

  /** Behind every hit that scores at least as much. */
  function Insert(s: seq<Hit>, h: Hit): seq<Hit> {
    if s != [] && s[|s| - 1].score < h.score then Insert(s[..|s| - 1], h) + [s[|s| - 1]] else s + [h]
  }

  /** `sort(key=score, reverse=True)`: descending, equal scores in their original order. */
  function Sort(s: seq<Hit>): seq<Hit> {
    if s == [] then [] else Insert(Sort(s[..|s| - 1]), s[|s| - 1])
  }

  /** The hits of one score, in order. */
  function OfScore(s: seq<Hit>, score: real): seq<Hit> {
    if s == [] then []
    else OfScore(s[..|s| - 1], score) + (if s[|s| - 1].score == score then [s[|s| - 1]] else [])
  }

  /** How many hits score at least `score`. */
  function AtLeast(s: seq<Hit>, score: real): nat {
    if s == [] then 0 else AtLeast(s[..|s| - 1], score) + (if s[|s| - 1].score >= score then 1 else 0)
  }

  lemma LastSplit(s: seq<Hit>, h: Hit)
    ensures (s + [h])[..|s|] == s && (s + [h])[|s|] == h
  {
  }

  lemma {:induction false} InsertOrders(s: seq<Hit>, h: Hit)
    requires Descending(s)
    ensures Descending(Insert(s, h))
    ensures forall x :: x in Insert(s, h) ==> x in s || x == h
  {
    if s != [] && s[|s| - 1].score < h.score {
      var n := |s| - 1;
      InsertOrders(s[..n], h);
      var front := Insert(s[..n], h);
      forall i | 0 <= i < |front|
        ensures front[i].score >= s[n].score
      {
        assert front[i] in front;
      }
    }
  }

  lemma {:induction false} InsertPermutes(s: seq<Hit>, h: Hit)
    ensures multiset(Insert(s, h)) == multiset(s) + multiset{h} && |Insert(s, h)| == |s| + 1
  {
    if s != [] && s[|s| - 1].score < h.score {
      InsertPermutes(s[..|s| - 1], h);
      assert s == s[..|s| - 1] + [s[|s| - 1]];
    }
  }

  lemma {:induction false} InsertCounts(s: seq<Hit>, h: Hit, score: real)
    ensures AtLeast(Insert(s, h), score) == AtLeast(s, score) + (if h.score >= score then 1 else 0)
  {
    if s != [] && s[|s| - 1].score < h.score {
      InsertCounts(s[..|s| - 1], h, score);
      LastSplit(Insert(s[..|s| - 1], h), s[|s| - 1]);
    } else {
      LastSplit(s, h);
    }
  }

  /** An insertion passes only hits with a smaller score. */
  lemma {:induction false} InsertIsStable(s: seq<Hit>, h: Hit, score: real)
    ensures OfScore(Insert(s, h), score) == OfScore(s, score) + (if h.score == score then [h] else [])
  {
    if s != [] && s[|s| - 1].score < h.score {
      InsertIsStable(s[..|s| - 1], h, score);
      LastSplit(Insert(s[..|s| - 1], h), s[|s| - 1]);
    } else {
      LastSplit(s, h);
    }
  }

  /** The sort is a permutation, descending, and stable. */
  lemma {:induction false} SortIsStable(s: seq<Hit>, score: real)
    ensures Descending(Sort(s))
    ensures multiset(Sort(s)) == multiset(s) && |Sort(s)| == |s|
    ensures OfScore(Sort(s), score) == OfScore(s, score)
    ensures AtLeast(Sort(s), score) == AtLeast(s, score)
  {
    if s != [] {
      var n := |s| - 1;
      assert s == s[..n] + [s[n]];
      SortIsStable(s[..n], score);
      InsertOrders(Sort(s[..n]), s[n]);
      InsertPermutes(Sort(s[..n]), s[n]);
      InsertCounts(Sort(s[..n]), s[n], score);
      InsertIsStable(Sort(s[..n]), s[n], score);
    }
  }

  // ---- Top k

  function Min(a: nat, b: nat): nat {
    if a < b then a else b
  }

  /** `best` are k best hits of `all` (all of them if there are fewer), descending. */
  ghost predicate IsTopK(best: seq<Hit>, all: multiset<Hit>, k: nat) {
    && Descending(best)
    && multiset(best) <= all
    && |best| == Min(k, |all|)
    && forall x, y :: x in all - multiset(best) && y in best ==> x.score <= y.score
  }

  function Concat(lists: seq<seq<Hit>>): seq<Hit> {
    if lists == [] then [] else Concat(lists[..|lists| - 1]) + lists[|lists| - 1]
  }

  function Total(alls: seq<multiset<Hit>>): multiset<Hit> {
    if alls == [] then multiset{} else Total(alls[..|alls| - 1]) + alls[|alls| - 1]
  }

  /** The lists are joined in their order. */
  lemma {:induction false} ConcatBoth(lists: seq<seq<Hit>>, more: seq<seq<Hit>>)
    ensures Concat(lists + more) == Concat(lists) + Concat(more)
  {
    if more == [] {
      assert lists + more == lists;
    } else {
      assert (lists + more)[..|lists + more| - 1] == lists + more[..|more| - 1];
      ConcatBoth(lists, more[..|more| - 1]);
    }
  }

  lemma ConcatOne(list: seq<Hit>)
    ensures Concat([list]) == list
  {
    assert [list][..0] == [] && Concat([]) == [];
  }

  /** Every base's hits count as often as they occur. */
  lemma {:induction false} TotalCounts(alls: seq<multiset<Hit>>, more: seq<multiset<Hit>>)
    ensures Total(alls + more) == Total(alls) + Total(more)
  {
    if more == [] {
      assert alls + more == alls;
    } else {
      assert (alls + more)[..|alls + more| - 1] == alls + more[..|more| - 1];
      TotalCounts(alls, more[..|more| - 1]);
    }
  }

  lemma TotalOne(all: multiset<Hit>)
    ensures Total([all]) == all
  {
    assert [all][..0] == [] && Total([]) == multiset{};
  }

  /** A descending list starts with the hits that score at least `score`. */
  lemma {:induction false} GoodOnesFirst(s: seq<Hit>, score: real, j: nat)
    requires Descending(s) && j < AtLeast(s, score)
    ensures AtLeast(s, score) <= |s| && s[j].score >= score
  {
    AtLeastBound(s, score);
    var n := |s| - 1;
    if s[n].score >= score {
      assert j < n ==> s[j].score >= s[n].score;
    } else {
      GoodOnesFirst(s[..n], score, j);
    }
  }

  lemma {:induction false} AtLeastBound(s: seq<Hit>, score: real)
    ensures AtLeast(s, score) <= |s|
    ensures (forall x :: x in s ==> x.score >= score) ==> AtLeast(s, score) == |s|
  {
    if s != [] {
      AtLeastBound(s[..|s| - 1], score);
      assert s[|s| - 1] in s;
    }
  }

  lemma {:induction false} AtLeastAppend(a: seq<Hit>, b: seq<Hit>, score: real)
    ensures AtLeast(a + b, score) == AtLeast(a, score) + AtLeast(b, score)
  {
    if b == [] {
      assert a + b == a;
    } else {
      assert (a + b)[..|a + b| - 1] == a + b[..|b| - 1];
      AtLeastAppend(a, b[..|b| - 1], score);
    }
  }

  /** A list among others contributes its good hits to the whole. */
  lemma {:induction false} AtLeastConcat(lists: seq<seq<Hit>>, i: nat, score: real)
    requires i < |lists|
    ensures AtLeast(Concat(lists), score) >= AtLeast(lists[i], score)
  {
    var n := |lists| - 1;
    AtLeastAppend(Concat(lists[..n]), lists[n], score);
    if i < n {
      AtLeastConcat(lists[..n], i, score);
    }
  }

  /** A hit missing from the union is missing from one of the lists. */
  lemma {:induction false} MissingSomewhere(tops: seq<seq<Hit>>, alls: seq<multiset<Hit>>, x: Hit) returns (i: nat)
    requires |tops| == |alls|
    requires Total(alls)[x] > multiset(Concat(tops))[x]
    ensures i < |alls| && alls[i][x] > multiset(tops[i])[x]
  {
    var n := |alls| - 1;
    if alls[n][x] > multiset(tops[n])[x] {
      i := n;
    } else {
      i := MissingSomewhere(tops[..n], alls[..n], x);
    }
  }

  lemma {:induction false} UnionBounds(tops: seq<seq<Hit>>, alls: seq<multiset<Hit>>, k: nat)
    requires |tops| == |alls| && forall i :: 0 <= i < |alls| ==> IsTopK(tops[i], alls[i], k)
    ensures multiset(Concat(tops)) <= Total(alls)
    ensures Min(k, |Concat(tops)|) == Min(k, |Total(alls)|)
  {
    if alls != [] {
      var n := |alls| - 1;
      UnionBounds(tops[..n], alls[..n], k);
      assert multiset(tops[n]) <= alls[n];
    }
  }

  /** What the sort puts behind position k scores no more than what it keeps. */
  lemma CutIsBest(s: seq<Hit>, k: nat)
    requires Descending(s) && k <= |s|
    ensures forall x, y :: x in multiset(s) - multiset(s[..k]) && y in s[..k] ==> x.score <= y.score
  {
    assert s == s[..k] + s[k..];
    forall x, y | x in multiset(s) - multiset(s[..k]) && y in s[..k]
      ensures x.score <= y.score
    {
      assert x in s[k..];
    }
  }

  /** A hit that its own base already left out cannot beat a hit of the merged cut. */
  lemma BestBeatMissing(tops: seq<seq<Hit>>, alls: seq<multiset<Hit>>, k: nat, i: nat, x: Hit, y: Hit)
    requires |tops| == |alls| && i < |alls| && IsTopK(tops[i], alls[i], k)
    requires alls[i][x] > multiset(tops[i])[x]
    requires var sorted := Sort(Concat(tops)); y in sorted[..Min(k, |sorted|)]
    ensures x.score <= y.score
  {
    var sorted := Sort(Concat(tops));
    SortIsStable(Concat(tops), x.score);
    assert x in alls[i] - multiset(tops[i]);
    assert |alls[i]| > |tops[i]| by {
      assert |alls[i] - multiset(tops[i])| > 0;
    }
    AtLeastBound(tops[i], x.score);
    AtLeastConcat(tops, i, x.score);
    var j :| 0 <= j < Min(k, |sorted|) && sorted[j] == y;
    GoodOnesFirst(sorted, x.score, j);
  }

  lemma CutWithin(s: seq<Hit>, n: nat)
    requires n <= |s|
    ensures multiset(s[..n]) <= multiset(s)
    ensures Descending(s) ==> Descending(s[..n])
  {
    assert s == s[..n] + s[n..];
  }

  /** The hits of the cut beat everything that is left out. */
  lemma CutBeatsTheRest(tops: seq<seq<Hit>>, alls: seq<multiset<Hit>>, k: nat, x: Hit, y: Hit)
    requires |tops| == |alls| && forall i :: 0 <= i < |alls| ==> IsTopK(tops[i], alls[i], k)
    requires var sorted := Sort(Concat(tops));
             var best := sorted[..Min(k, |sorted|)];
             Total(alls)[x] > multiset(best)[x] && y in best
    ensures x.score <= y.score
  {
    var sorted := Sort(Concat(tops));
    var n := Min(k, |sorted|);
    SortIsStable(Concat(tops), x.score);
    if multiset(sorted)[x] > multiset(sorted[..n])[x] {
      CutIsBest(sorted, n);
      assert x in multiset(sorted) - multiset(sorted[..n]);
    } else {
      var i := MissingSomewhere(tops, alls, x);
      BestBeatMissing(tops, alls, k, i, x, y);
    }
  }

  /** Sorting the union of the per-base top-k lists and cutting to k gives the top k of everything. */
  lemma MergedTopK(tops: seq<seq<Hit>>, alls: seq<multiset<Hit>>, k: nat)
    requires |tops| == |alls| && forall i :: 0 <= i < |alls| ==> IsTopK(tops[i], alls[i], k)
    ensures var sorted := Sort(Concat(tops));
            IsTopK(sorted[..Min(k, |sorted|)], Total(alls), k)
  {
    var sorted := Sort(Concat(tops));
    SortIsStable(Concat(tops), 0.0);
    UnionBounds(tops, alls, k);
    var best := sorted[..Min(k, |sorted|)];
    CutWithin(sorted, Min(k, |sorted|));
    forall x, y | x in Total(alls) - multiset(best) && y in best
      ensures x.score <= y.score
    {
      CutBeatsTheRest(tops, alls, k, x, y);
    }
  }

  /** `retrieve` for native engines: extend, sort, cut. */
  method Retrieve(tops: seq<seq<Hit>>, ghost alls: seq<multiset<Hit>>, k: nat) returns (best: seq<Hit>)
    requires |tops| == |alls| && forall i :: 0 <= i < |alls| ==> IsTopK(tops[i], alls[i], k)
    ensures IsTopK(best, Total(alls), k)
    ensures best <= Sort(Concat(tops))
  {
    var merged := [];
    for i := 0 to |tops|
      invariant merged == Concat(tops[..i])
    {
      assert tops[..i + 1][..i] == tops[..i];
      merged := merged + tops[i];
    }
    assert tops[..|tops|] == tops;
    var sorted := Sort(merged);
    MergedTopK(tops, alls, k);
    best := sorted[..Min(k, |sorted|)];
  }
}
