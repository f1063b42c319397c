// The concurrent fan-out of app.go and cmd/mcp/tools/multicloud.go: one
// worker per configured provider appends its result to a shared list when it
// finishes. Each worker's result depends only on its own provider, so the
// model computes them first and then appends them in an arbitrary order.
module FanOut {
  import MultiCloudTables

  /** The finished workers' results, appended in whatever order they finish. */
  method Arrive<R>(finished: map<string, R>) returns (order: seq<string>, results: seq<R>)
    ensures |order| == |results|
    ensures forall i :: 0 <= i < |order| ==> order[i] in finished && results[i] == finished[order[i]]
    ensures forall p :: p in finished <==> p in order
    ensures forall i, j :: 0 <= i < j < |order| ==> order[i] != order[j]
  {
    order, results := [], [];
    var remaining := finished.Keys;
    while remaining != {}
      invariant remaining <= finished.Keys
      invariant |order| == |results|
      invariant forall i :: 0 <= i < |order| ==> order[i] in finished && results[i] == finished[order[i]]
      invariant forall p :: p in finished ==> (p in order <==> p !in remaining)
      invariant forall i, j :: 0 <= i < j < |order| ==> order[i] != order[j]
      decreases remaining
    {
      var p :| p in remaining;
      order, results := order + [p], results + [finished[p]];
      remaining := remaining - {p};
    }
  }

  /**
   * When every worker's result carries its own provider's name, the arrived
   * results have pairwise different providers, and their providers are
   * exactly the launched ones.
   */
  lemma ArrivedProviders<R>(finished: map<string, R>, order: seq<string>, results: seq<R>, provider: R -> string)
    requires |order| == |results|
    requires forall i :: 0 <= i < |order| ==> order[i] in finished && results[i] == finished[order[i]]
    requires forall p :: p in finished <==> p in order
    requires forall i, j :: 0 <= i < j < |order| ==> order[i] != order[j]
    requires forall p :: p in finished ==> provider(finished[p]) == p
    ensures forall i, j :: 0 <= i < j < |results| ==> provider(results[i]) != provider(results[j])
    ensures (set x | x in results :: provider(x)) == finished.Keys
  {
    forall p ensures p in (set x | x in results :: provider(x)) <==> p in finished {
      if p in finished {
        var i :| 0 <= i < |order| && order[i] == p;
        assert results[i] in results;
      }
      if p in (set x | x in results :: provider(x)) {
        var x :| x in results && provider(x) == p;
        var i :| 0 <= i < |results| && results[i] == x;
      }
    }
  }

  function Names<R>(s: seq<R>, provider: R -> string): (names: seq<string>)
    ensures |names| == |s|
    ensures forall i :: 0 <= i < |s| ==> names[i] == provider(s[i])
  {
    seq(|s|, i requires 0 <= i < |s| => provider(s[i]))
  }

  /** In a list whose elements have pairwise different providers, no element occurs twice. */
  lemma {:induction false} OccursAtMostOnce<R>(s: seq<R>, provider: R -> string)
    requires forall i, j :: 0 <= i < j < |s| ==> provider(s[i]) != provider(s[j])
    ensures forall x :: multiset(s)[x] <= 1
  {
    if |s| > 0 {
      var s' := s[..|s| - 1];
      var y := s[|s| - 1];
      assert s == s' + [y];
      OccursAtMostOnce(s', provider);
      assert forall k :: 0 <= k < |s'| ==> s'[k] != y by {
        forall k | 0 <= k < |s'| ensures s'[k] != y {
          assert provider(s[k]) != provider(s[|s| - 1]);
        }
      }
      assert y !in s';
    }
  }

  /** An element at two positions occurs twice. */
  lemma {:induction false} OccursTwice<R>(s: seq<R>, i: nat, j: nat)
    requires i < j < |s|
    ensures s[i] == s[j] ==> multiset(s)[s[i]] >= 2
  {
    assert s == s[..j] + [s[j]] + s[j + 1..];
    assert s[i] in s[..j];
  }

  /** A permutation has the same members. */
  lemma SameMembers<R>(a: seq<R>, b: seq<R>)
    requires multiset(a) == multiset(b)
    ensures forall x :: x in a <==> x in b
  {
    forall x ensures x in a <==> x in b {
      assert x in a <==> x in multiset(a);
      assert x in b <==> x in multiset(b);
    }
  }

  /** Permuting a list whose providers are pairwise different keeps them pairwise different. */
  lemma {:induction false} DistinctProvidersPermuted<R>(arrived: seq<R>, sorted: seq<R>, provider: R -> string)
    requires multiset(sorted) == multiset(arrived)
    requires forall i, j :: 0 <= i < j < |arrived| ==> provider(arrived[i]) != provider(arrived[j])
    ensures forall i, j :: 0 <= i < j < |sorted| ==> provider(sorted[i]) != provider(sorted[j])
  {
    SameMembers(sorted, arrived);
    OccursAtMostOnce(arrived, provider);
    forall i, j | 0 <= i < j < |sorted| ensures provider(sorted[i]) != provider(sorted[j]) {
      assert sorted[i] in sorted && sorted[j] in sorted;
      var a :| 0 <= a < |arrived| && arrived[a] == sorted[i];
      var b :| 0 <= b < |arrived| && arrived[b] == sorted[j];
      OccursTwice(sorted, i, j);
    }
  }

  /**
   * Sorting the arrived results by provider rank puts the providers in the
   * fixed display order, whatever order they arrived in.
   */
  lemma {:induction false} SortedArrivalIsCanonical<R>(arrived: seq<R>, sorted: seq<R>, provider: R -> string)
    requires multiset(sorted) == multiset(arrived)
    requires forall i, j :: 0 <= i < j < |arrived| ==> provider(arrived[i]) != provider(arrived[j])
    requires forall i :: 0 <= i < |arrived| ==> provider(arrived[i]) in {"aws", "gcp", "azure"}
    requires forall i, j :: 0 <= i < j < |sorted| ==>
      MultiCloudTables.Priority(provider(sorted[i])) <= MultiCloudTables.Priority(provider(sorted[j]))
    ensures forall x :: x in sorted <==> x in arrived
    ensures Names(sorted, provider) == MultiCloudTables.CanonicalOrder(set x | x in arrived :: provider(x))
  {
    SameMembers(sorted, arrived);
    DistinctProvidersPermuted(arrived, sorted, provider);
    var names := Names(sorted, provider);
    forall i | 0 <= i < |names| ensures names[i] in {"aws", "gcp", "azure"} {
      assert sorted[i] in sorted;
      var a :| 0 <= a < |arrived| && arrived[a] == sorted[i];
    }
    MultiCloudTables.SortedProvidersAreCanonical(names);
    NamesCoverArrived(arrived, sorted, provider);
  }

  lemma NamesCoverArrived<R>(arrived: seq<R>, sorted: seq<R>, provider: R -> string)
    requires forall x :: x in sorted <==> x in arrived
    ensures (set p | p in Names(sorted, provider)) == (set x | x in arrived :: provider(x))
  {
    var names := Names(sorted, provider);
    forall p ensures p in names <==> p in (set x | x in arrived :: provider(x)) {
      if p in names {
        var i :| 0 <= i < |names| && names[i] == p;
        assert sorted[i] in sorted;
      }
      if p in (set x | x in arrived :: provider(x)) {
        var x :| x in arrived && provider(x) == p;
        var i :| 0 <= i < |sorted| && sorted[i] == x;
        assert names[i] == p;
      }
    }
  }
}
