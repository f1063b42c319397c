// utils/barchart.go: the colours of the trend chart. Months are ranked by
// their "Total" amount, largest first, and the six best-ranked months get
// the six palette colours in order; the rest get no colour. The chart and
// its labels are rendering and are not modelled.
module Barchart {
  import Model
  import Response
  import Sorting

  const Palette: seq<string> := ["#d73027", "#f46d43", "#fee08b", "#abdda4", "#66c2a5", "#1a9850"]

  /** A month's position in the input and its "Total" amount. */
  datatype CostWithIndex = CostWithIndex(index: int, value: real)

  /** The rank a colour stands for: its place in the palette, or 6 for no colour. */
  function ColorRank(c: string): (r: nat)
    ensures r <= |Palette|
    ensures r < |Palette| ==> Palette[r] == c
    ensures r == |Palette| ==> c !in Palette
  {
    if c == Palette[0] then 0
    else if c == Palette[1] then 1
    else if c == Palette[2] then 2
    else if c == Palette[3] then 3
    else if c == Palette[4] then 4
    else if c == Palette[5] then 5
    else 6
  }

  /** The colour of the month at rank r. */
  function ColorAt(r: nat): (c: string)
    ensures ColorRank(c) == if r < |Palette| then r else |Palette|
  {
    if r < |Palette| then Palette[r] else ""
  }

  /** Month i has a place in the sorted slice. */
  ghost predicate Placed(sorted: seq<CostWithIndex>, i: int)
  {
    exists r :: 0 <= r < |sorted| && sorted[r].index == i
  }

  /** The rank of the month at input position i in the sorted slice. */
  ghost function RankIn(sorted: seq<CostWithIndex>, i: int): (r: nat)
    requires Placed(sorted, i)
    ensures r < |sorted| && sorted[r].index == i
  {
    var r :| 0 <= r < |sorted| && sorted[r].index == i; r
  }

  /** The slice built before sorting: position i holds month i and its total. */
  ghost predicate Indexed(allCosts: seq<Model.CostInfo>, s: seq<CostWithIndex>)
  {
    |s| == |allCosts| && forall i :: 0 <= i < |s| ==> s[i] == CostWithIndex(i, Response.MonthTotal(allCosts[i]))
  }

  /** The sorted slice holds every month exactly once, each with its own total. */
  ghost predicate Ranking(allCosts: seq<Model.CostInfo>, sorted: seq<CostWithIndex>)
  {
    var n := |allCosts|;
    |sorted| == n
    && (forall r :: 0 <= r < n ==>
          0 <= sorted[r].index < n && sorted[r].value == Response.MonthTotal(allCosts[sorted[r].index]))
    && (forall i :: 0 <= i < n ==> Placed(sorted, i))
    && (forall r1, r2 :: 0 <= r1 < r2 < n ==> sorted[r1].index != sorted[r2].index)
  }

  lemma {:induction false} IndexedCount(allCosts: seq<Model.CostInfo>, s: seq<CostWithIndex>, k: nat, x: CostWithIndex)
    requires Indexed(allCosts, s) && k <= |s|
    ensures multiset(s[..k])[x] == if 0 <= x.index < k && s[x.index] == x then 1 else 0
  {
    if k > 0 {
      IndexedCount(allCosts, s, k - 1, x);
      assert s[..k] == s[..k - 1] + [s[k - 1]];
    }
  }

  lemma RepeatCounts<T>(s: seq<T>, r1: nat, r2: nat)
    requires r1 < r2 < |s| && s[r1] == s[r2]
    ensures multiset(s)[s[r1]] >= 2
  {
    assert s == s[..r1] + [s[r1]] + s[r1 + 1..r2] + [s[r2]] + s[r2 + 1..];
  }

  /** A permutation of the indexed slice is a ranking of the months. */
  lemma PermutationRanks(allCosts: seq<Model.CostInfo>, original: seq<CostWithIndex>, sorted: seq<CostWithIndex>)
    requires Indexed(allCosts, original) && multiset(sorted) == multiset(original)
    ensures Ranking(allCosts, sorted)
  {
    var n := |allCosts|;
    assert |sorted| == |multiset(sorted)| == |multiset(original)| == n;
    assert original[..n] == original;
    forall r | 0 <= r < n
      ensures 0 <= sorted[r].index < n && sorted[r] == original[sorted[r].index]
    {
      assert sorted[r] in multiset(sorted);
      IndexedCount(allCosts, original, n, sorted[r]);
    }
    forall i | 0 <= i < n
      ensures Placed(sorted, i)
    {
      assert original[i] in multiset(original);
      assert original[i] in sorted;
    }
    forall r1, r2 | 0 <= r1 < r2 < n
      ensures sorted[r1].index != sorted[r2].index
    {
      if sorted[r1].index == sorted[r2].index {
        RepeatCounts(sorted, r1, r2);
        IndexedCount(allCosts, original, n, sorted[r1]);
      }
    }
  }

  /**
   * Colouring by rank meets what assignRankedColors promises: one slot per
   * month, each palette colour at most once, every colour up to the number
   * of months used, and a better colour only on a month with a total at
   * least as large.
   */
  lemma RankedColours(allCosts: seq<Model.CostInfo>, sorted: seq<CostWithIndex>, colors: seq<string>)
    requires Ranking(allCosts, sorted)
    requires Sorting.SortedBy(sorted, (c: CostWithIndex) => -c.value)
    requires |colors| == |allCosts|
    requires forall i :: 0 <= i < |colors| ==> colors[i] == ColorAt(RankIn(sorted, i))
    ensures forall i :: 0 <= i < |colors| ==> colors[i] == "" || colors[i] in Palette
    ensures forall i, j :: 0 <= i < |colors| && 0 <= j < |colors| && i != j && colors[i] != "" ==> colors[i] != colors[j]
    ensures forall r :: 0 <= r < |Palette| && r < |allCosts| ==> Palette[r] in colors
    ensures forall i, j :: 0 <= i < |colors| && 0 <= j < |colors| && ColorRank(colors[i]) < ColorRank(colors[j])
              ==> Response.MonthTotal(allCosts[i]) >= Response.MonthTotal(allCosts[j])
  {
    var n := |allCosts|;
    forall i, j | 0 <= i < n && 0 <= j < n && i != j && colors[i] != ""
      ensures colors[i] != colors[j]
    {
      var ri, rj := RankIn(sorted, i), RankIn(sorted, j);
      assert ri != rj;
    }
    forall r | 0 <= r < |Palette| && r < n
      ensures Palette[r] in colors
    {
      var i := sorted[r].index;
      assert RankIn(sorted, i) == r;
    }
    forall i, j | 0 <= i < n && 0 <= j < n && ColorRank(colors[i]) < ColorRank(colors[j])
      ensures Response.MonthTotal(allCosts[i]) >= Response.MonthTotal(allCosts[j])
    {
      var ri, rj := RankIn(sorted, i), RankIn(sorted, j);
      assert ri < rj;
      assert -sorted[ri].value <= -sorted[rj].value;
    }
  }

  /** assignRankedColors. */
  method AssignRankedColors(allCosts: seq<Model.CostInfo>) returns (colors: seq<string>)
    ensures |colors| == |allCosts|
    ensures forall i :: 0 <= i < |colors| ==> colors[i] == "" || colors[i] in Palette
    ensures forall i, j :: 0 <= i < |colors| && 0 <= j < |colors| && i != j && colors[i] != "" ==> colors[i] != colors[j]
    ensures forall r :: 0 <= r < |Palette| && r < |allCosts| ==> Palette[r] in colors
    ensures forall i, j :: 0 <= i < |colors| && 0 <= j < |colors| && ColorRank(colors[i]) < ColorRank(colors[j])
              ==> Response.MonthTotal(allCosts[i]) >= Response.MonthTotal(allCosts[j])
  {
    var n := |allCosts|;
    var costsToSort := new CostWithIndex[n](i requires 0 <= i < n => CostWithIndex(i, Response.MonthTotal(allCosts[i])));
    ghost var original := costsToSort[..];
    Sorting.SortByKey(costsToSort, (c: CostWithIndex) => -c.value);
    var sorted := costsToSort[..];
    PermutationRanks(allCosts, original, sorted);
    var resultColors := new string[n](_ => "");
    for rank := 0 to n
      invariant forall i :: 0 <= i < n ==>
        resultColors[i] == if RankIn(sorted, i) < rank then ColorAt(RankIn(sorted, i)) else ""
    {
      var originalIndex := sorted[rank].index;
      if rank < |Palette| {
        resultColors[originalIndex] := Palette[rank];
      }
      forall i | 0 <= i < n && i != originalIndex
        ensures RankIn(sorted, i) != rank
      {
      }
      assert RankIn(sorted, originalIndex) == rank by {
        var r := RankIn(sorted, originalIndex);
        assert sorted[r].index == sorted[rank].index;
      }
    }
    colors := resultColors[..];
    RankedColours(allCosts, sorted, colors);
  }
}
