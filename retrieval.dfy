/** Top-K retrieval over a precomputed similarity vector, as every pipeline
    variant does it with `np.argsort(sims)[::-1][:k]` and then pairs each chosen
    index with the index's id and text. The order among equal scores is not
    specified by the scripts; `TopIndices` picks the lowest index first, and every
    property proved elsewhere is stated for any ranking that satisfies
    `IsTopK`. */
module Retrieval {

  function MinNat(a: nat, b: nat): nat {
    if a <= b then a else b
  }

  predicate Distinct(xs: seq<nat>) {
    forall i, j :: 0 <= i < j < |xs| ==> xs[i] != xs[j]
  }

  predicate InRange(xs: seq<nat>, n: nat) {
    forall i :: 0 <= i < |xs| ==> xs[i] < n
  }

  /** Scores along `idx` never increase. */
  predicate NonIncreasing(sims: seq<real>, idx: seq<nat>)
    requires InRange(idx, |sims|)
  {
    forall i, j :: 0 <= i < j < |idx| ==> sims[idx[i]] >= sims[idx[j]]
  }

  /** Every index of `cand` left out of `idx` scores at most what each chosen one does. */
  predicate Dominates(sims: seq<real>, idx: seq<nat>, cand: seq<nat>)
    requires InRange(idx, |sims|) && InRange(cand, |sims|)
  {
    forall i, c :: 0 <= i < |idx| && c in cand && c !in idx ==> sims[c] <= sims[idx[i]]
  }

  /** `idx` is what `np.argsort(sims)[::-1][:k]` can return: min(k, n) distinct
      indices of `sims`, best first, none of the left-out ones better. */
  predicate IsTopK(sims: seq<real>, k: nat, idx: seq<nat>) {
    && |idx| == MinNat(k, |sims|)
    && InRange(idx, |sims|)
    && Distinct(idx)
    && NonIncreasing(sims, idx)
    && Dominates(sims, idx, AllIndices(|sims|))
  }

  function AllIndices(n: nat): (r: seq<nat>)
    ensures |r| == n && Distinct(r) && InRange(r, n)
    ensures forall i :: 0 <= i < n ==> r[i] == i
  {
    seq(n, i requires 0 <= i < n => i)
  }

  /** The first index among `cand` with the largest score. */
  function ArgMax(sims: seq<real>, cand: seq<nat>): (m: nat)
    requires cand != [] && InRange(cand, |sims|)
    ensures m in cand
    ensures forall c :: c in cand ==> sims[c] <= sims[m]
  {
    if |cand| == 1 then cand[0]
    else
      var m' := ArgMax(sims, cand[1..]);
      if sims[cand[0]] >= sims[m'] then cand[0] else m'
  }

  function Without(cand: seq<nat>, m: nat): (r: seq<nat>)
    ensures forall c :: c in r <==> c in cand && c != m
    ensures Distinct(cand) && m in cand ==> |r| == |cand| - 1
    ensures Distinct(cand) ==> Distinct(r)
    ensures m !in cand ==> r == cand
  {
    if cand == [] then []
    else
      assert cand == [cand[0]] + cand[1..];
      assert Distinct(cand) ==> Distinct(cand[1..]) && cand[0] !in cand[1..];
      if cand[0] == m then Without(cand[1..], m)
      else [cand[0]] + Without(cand[1..], m)
  }

  /** The candidates left once the best one is taken. */
  function WithoutMax(sims: seq<real>, cand: seq<nat>): (rest: seq<nat>)
    requires cand != [] && InRange(cand, |sims|) && Distinct(cand)
    ensures InRange(rest, |sims|) && Distinct(rest) && |rest| == |cand| - 1
    ensures forall c :: c in rest <==> c in cand && c != ArgMax(sims, cand)
  {
    var rest := Without(cand, ArgMax(sims, cand));
    assert forall i :: 0 <= i < |rest| ==> rest[i] in rest && rest[i] in cand;
    rest
  }

  /** Selection of the best `k` of `cand`, best first: repeatedly take the
      first best remaining index. The result is ordered and beats every
      candidate it leaves out. */
  function Select(sims: seq<real>, cand: seq<nat>, k: nat): (idx: seq<nat>)
    requires InRange(cand, |sims|) && Distinct(cand)
    ensures |idx| == MinNat(k, |cand|)
    ensures forall i :: 0 <= i < |idx| ==> idx[i] in cand
    ensures InRange(idx, |sims|) && Distinct(idx)
    ensures NonIncreasing(sims, idx)
    ensures Dominates(sims, idx, cand)
    decreases k
  {
    if k == 0 || cand == [] then []
    else
      var m := ArgMax(sims, cand);
      var rest := WithoutMax(sims, cand);
      var tail := Select(sims, rest, k - 1);
      assert forall i :: 0 <= i < |tail| ==> tail[i] in rest;
      ConsNonIncreasing(sims, m, tail);
      ConsDistinct(m, tail);
      ConsDominates(sims, m, tail, cand, rest);
      [m] + tail
  }

  /** Putting an index that does not occur in a list of distinct indices in
      front of it keeps them distinct. */
  lemma ConsDistinct(m: nat, tail: seq<nat>)
    requires Distinct(tail) && forall i :: 0 <= i < |tail| ==> tail[i] != m
    ensures Distinct([m] + tail)
  {
    var idx := [m] + tail;
    forall i, j | 0 <= i < j < |idx|
      ensures idx[i] != idx[j]
    {
      assert idx[j] == tail[j - 1];
      if i > 0 {
        assert idx[i] == tail[i - 1];
      }
    }
  }

  /** Putting an index that scores at least every entry of an ordered list in
      front of it keeps the list ordered. */
  lemma ConsNonIncreasing(sims: seq<real>, m: nat, tail: seq<nat>)
    requires m < |sims| && InRange(tail, |sims|) && NonIncreasing(sims, tail)
    requires forall i :: 0 <= i < |tail| ==> sims[tail[i]] <= sims[m]
    ensures InRange([m] + tail, |sims|) && NonIncreasing(sims, [m] + tail)
  {
    var idx := [m] + tail;
    forall i, j | 0 <= i < j < |idx|
      ensures sims[idx[i]] >= sims[idx[j]]
    {
      assert idx[j] == tail[j - 1];
      if i > 0 {
        assert idx[i] == tail[i - 1];
      }
    }
  }

  /** If the best candidate heads the list and the rest of the list beats
      every other candidate it leaves out, the whole list beats every
      candidate it leaves out. */
  lemma ConsDominates(sims: seq<real>, m: nat, tail: seq<nat>, cand: seq<nat>, rest: seq<nat>)
    requires m < |sims| && InRange(tail, |sims|) && InRange(cand, |sims|) && InRange(rest, |sims|)
    requires forall c :: c in cand ==> sims[c] <= sims[m]
    requires forall c :: c in rest <==> c in cand && c != m
    requires Dominates(sims, tail, rest)
    ensures InRange([m] + tail, |sims|) && Dominates(sims, [m] + tail, cand)
  {
    var idx := [m] + tail;
    forall i, c | 0 <= i < |idx| && c in cand && c !in idx
      ensures sims[c] <= sims[idx[i]]
    {
      if i > 0 {
        assert idx[i] == tail[i - 1];
        assert c in rest && c !in tail;
      }
    }
  }

  function TopIndices(sims: seq<real>, k: nat): (idx: seq<nat>)
    ensures IsTopK(sims, k, idx)
  {
    Select(sims, AllIndices(|sims|), k)
  }

  /** The first entry of a ranking carries the largest score. */
  lemma TopIsMax(sims: seq<real>, k: nat, idx: seq<nat>, j: nat)
    requires IsTopK(sims, k, idx) && k > 0 && j < |sims|
    ensures |idx| > 0 && sims[j] <= sims[idx[0]]
  {
    if j !in idx {
      assert AllIndices(|sims|)[j] == j;
    } else {
      var p :| 0 <= p < |idx| && idx[p] == j;
      assert p == 0 || sims[idx[0]] >= sims[idx[p]];
    }
  }

  /** Any two rankings of the same scores agree on the score at every rank,
      whatever order they give to ties. */
  lemma RankScoresAgree(sims: seq<real>, k: nat, a: seq<nat>, b: seq<nat>, r: nat)
    requires IsTopK(sims, k, a) && IsTopK(sims, k, b) && r < |a|
    ensures sims[a[r]] == sims[b[r]]
  {
    RankNotBelow(sims, k, a, b, r);
    RankNotBelow(sims, k, b, a, r);
  }

  /** Rank r of one ranking scores at least rank r of another. Otherwise the
      r + 1 entries b[0..r] all score above a[r]; each of them is then chosen
      by `a` (the chosen dominate the rest) ahead of rank r, and a[0..r-1] has
      only r places. */
  lemma RankNotBelow(sims: seq<real>, k: nat, a: seq<nat>, b: seq<nat>, r: nat)
    requires IsTopK(sims, k, a) && IsTopK(sims, k, b) && r < |a|
    ensures sims[a[r]] >= sims[b[r]]
  {
    if sims[a[r]] < sims[b[r]] {
      var above := set i | 0 <= i < r + 1 :: b[i];
      var places := set i | 0 <= i < r :: a[i];
      forall x | x in above
        ensures x in places
      {
        var i :| 0 <= i < r + 1 && b[i] == x;
        assert sims[b[i]] >= sims[b[r]];
        assert x in a by {
          assert AllIndices(|sims|)[x] == x;
        }
        var p :| 0 <= p < |a| && a[p] == x;
        assert p < r;
      }
      DistinctImage(b, r + 1);
      SmallImage(a, r);
      SubsetCard(above, places);
    }
  }

  lemma DistinctImage(b: seq<nat>, n: nat)
    requires n <= |b| && Distinct(b)
    ensures |set i | 0 <= i < n :: b[i]| == n
  {
    if n > 0 {
      DistinctImage(b, n - 1);
      var s := set i | 0 <= i < n - 1 :: b[i];
      assert (set i | 0 <= i < n :: b[i]) == s + {b[n - 1]};
      assert b[n - 1] !in s;
    }
  }

  lemma SmallImage(a: seq<nat>, n: nat)
    requires n <= |a|
    ensures |set i | 0 <= i < n :: a[i]| <= n
  {
    if n > 0 {
      SmallImage(a, n - 1);
      assert (set i | 0 <= i < n :: a[i]) == (set i | 0 <= i < n - 1 :: a[i]) + {a[n - 1]};
    }
  }

  lemma SubsetCard(x: set<nat>, y: set<nat>)
    requires x <= y
    ensures |x| <= |y|
  {
    assert y == x + (y - x);
  }

  /** One entry of a top-K list: `{"id": ids[i], "similarity": sims[i], "text": texts[i]}`. */
  datatype Candidate = Candidate(id: string, sim: real, text: string)

  /** The precomputed ontology index: parallel id and text arrays. */
  datatype Index = Index(ids: seq<string>, texts: seq<string>)

  /** The score vector matches the index: one score per entry. */
  predicate Aligned(index: Index, sims: seq<real>) {
    |index.ids| == |sims| && |index.texts| == |sims|
  }

  /** `[{"id": ids[i], "similarity": float(sims[i]), "text": texts[i]} for i in idx]`. */
  function Candidates(index: Index, sims: seq<real>, idx: seq<nat>): (cs: seq<Candidate>)
    requires Aligned(index, sims) && InRange(idx, |sims|)
    ensures |cs| == |idx|
    ensures forall j :: 0 <= j < |idx| ==>
      cs[j] == Candidate(index.ids[idx[j]], sims[idx[j]], index.texts[idx[j]])
  {
    seq(|idx|, j requires 0 <= j < |idx| => Candidate(index.ids[idx[j]], sims[idx[j]], index.texts[idx[j]]))
  }

  /** The candidate list of a top-k ranking has at most k entries, best first,
      and each pairs the id and text stored at one index entry. */
  lemma RankedCandidates(index: Index, sims: seq<real>, k: nat, idx: seq<nat>)
    requires Aligned(index, sims) && IsTopK(sims, k, idx)
    ensures |Candidates(index, sims, idx)| <= k
    ensures forall i, j :: 0 <= i < j < |idx| ==>
      Candidates(index, sims, idx)[i].sim >= Candidates(index, sims, idx)[j].sim
    ensures forall j :: 0 <= j < |idx| ==> IsEntry(index, Candidates(index, sims, idx)[j])
  {
    var cs := Candidates(index, sims, idx);
    forall j | 0 <= j < |idx|
      ensures IsEntry(index, cs[j])
    {
      assert cs[j].id == index.ids[idx[j]] && cs[j].text == index.texts[idx[j]];
    }
  }

  /** The candidate's id and text come from the same entry of the index. */
  predicate IsEntry(index: Index, c: Candidate) {
    exists e :: 0 <= e < |index.ids| && e < |index.texts| && c.id == index.ids[e] && c.text == index.texts[e]
  }
}
