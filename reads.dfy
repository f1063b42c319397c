// The loops that drain an iterator or a pager: every read may fail, and the
// loop either stops at the first failure or (where the program swallows it)
// keeps what it had. Shared by the services that read rows and pages.
module Reads {
  import opened Wrappers

  /** The error that ends the row loop, if any: the first read that failed. */
  function FirstReadError<R>(yielded: seq<Read<R>>): (e: Option<string>)
    ensures e.None? <==> forall i :: 0 <= i < |yielded| ==> yielded[i].Item?
  {
    if yielded == [] then None
    else
      var init := yielded[..|yielded| - 1];
      var earlier := FirstReadError(init);
      assert forall i :: 0 <= i < |init| ==> init[i] == yielded[i];
      if earlier.Some? then earlier
      else if yielded[|yielded| - 1].ReadError? then Some(yielded[|yielded| - 1].error)
      else None
  }

  /** Once a read has failed, the reads after it do not matter. */
  lemma {:induction false} ReadErrorStops<R>(yielded: seq<Read<R>>, k: nat)
    requires k <= |yielded| && FirstReadError(yielded[..k]).Some?
    ensures FirstReadError(yielded) == FirstReadError(yielded[..k])
  {
    if k < |yielded| {
      var init := yielded[..|yielded| - 1];
      assert init[..k] == yielded[..k];
      ReadErrorStops(init, k);
    } else {
      assert yielded[..k] == yielded;
    }
  }

  /** The rows the iterator yielded. */
  function Items<R>(yielded: seq<Read<R>>): (rows: seq<R>)
    ensures |rows| <= |yielded|
  {
    if yielded == [] then []
    else
      var last := yielded[|yielded| - 1];
      Items(yielded[..|yielded| - 1]) + (if last.Item? then [last.value] else [])
  }

  /** When every read succeeds, the rows are exactly the items read, in order. */
  lemma {:induction false} ItemsOfCleanReads<R>(yielded: seq<Read<R>>)
    requires FirstReadError(yielded).None?
    ensures |Items(yielded)| == |yielded|
    ensures forall i :: 0 <= i < |yielded| ==> Items(yielded)[i] == yielded[i].value
  {
    if yielded != [] {
      var init := yielded[..|yielded| - 1];
      assert forall i :: 0 <= i < |init| ==> init[i] == yielded[i];
      ItemsOfCleanReads(init);
    }
  }

  /** A successful read extends the rows by its item. */
  lemma ItemStep<R>(yielded: seq<Read<R>>, i: nat)
    requires i < |yielded| && yielded[i].Item? && FirstReadError(yielded[..i]).None?
    ensures FirstReadError(yielded[..i + 1]).None?
    ensures Items(yielded[..i + 1]) == Items(yielded[..i]) + [yielded[i].value]
  {
    assert yielded[..i + 1][..i] == yielded[..i];
  }

  /** A failed read after clean ones is the error the loop ends with. */
  lemma ErrorStep<R>(yielded: seq<Read<R>>, i: nat)
    requires i < |yielded| && yielded[i].ReadError? && FirstReadError(yielded[..i]).None?
    ensures FirstReadError(yielded) == Some(yielded[i].error)
  {
    assert yielded[..i + 1][..i] == yielded[..i];
    ReadErrorStops(yielded, i + 1);
  }

  /** How many reads succeed before the first failure. */
  function CleanLength<R>(yielded: seq<Read<R>>): (n: nat)
    ensures n <= |yielded|
    ensures forall i :: 0 <= i < n ==> yielded[i].Item?
    ensures n < |yielded| ==> yielded[n].ReadError?
  {
    if yielded == [] || yielded[0].ReadError? then 0
    else 1 + CleanLength(yielded[1..])
  }

  /** The items of the pages, one after another. */
  function Flatten<T>(pages: seq<seq<T>>): seq<T>
  {
    if pages == [] then [] else Flatten(pages[..|pages| - 1]) + pages[|pages| - 1]
  }

  /** The items that pass `keep`, in their order. */
  function Filter<T>(s: seq<T>, keep: T -> bool): seq<T>
  {
    if s == [] then []
    else Filter(s[..|s| - 1], keep) + (if keep(s[|s| - 1]) then [s[|s| - 1]] else [])
  }

  /** Filtering two runs one after the other is filtering their concatenation. */
  lemma {:induction false} FilterAppend<T>(a: seq<T>, b: seq<T>, keep: T -> bool)
    ensures Filter(a + b, keep) == Filter(a, keep) + Filter(b, keep)
    decreases |b|
  {
    if b == [] {
      assert a + b == a;
    } else {
      var b' := b[..|b| - 1];
      assert (a + b)[..|a + b| - 1] == a + b';
      FilterAppend(a, b', keep);
    }
  }

  /** An item is kept exactly when it occurs and passes `keep`. */
  lemma {:induction false} FilterMembers<T>(s: seq<T>, keep: T -> bool, x: T)
    ensures x in Filter(s, keep) <==> x in s && keep(x)
  {
    if s != [] {
      var init := s[..|s| - 1];
      FilterMembers(init, keep, x);
      assert s == init + [s[|s| - 1]];
    }
  }

  /** A filter is no longer than its input, and keeps all of it when every item passes. */
  lemma {:induction false} FilterLength<T>(s: seq<T>, keep: T -> bool)
    ensures |Filter(s, keep)| <= |s|
    ensures (forall i :: 0 <= i < |s| ==> keep(s[i])) ==> Filter(s, keep) == s
  {
    if s != [] {
      var init := s[..|s| - 1];
      FilterLength(init, keep);
      if forall i :: 0 <= i < |s| ==> keep(s[i]) {
        assert forall i :: 0 <= i < |init| ==> keep(init[i]) by {
          forall i | 0 <= i < |init| ensures keep(init[i]) {
            assert init[i] == s[i];
          }
        }
        assert init + [s[|s| - 1]] == s;
      }
    }
  }

  /** The values of the answers that succeeded, in order; the failed ones are skipped. */
  function Successes<T>(answers: seq<Outcome<T>>): seq<T>
  {
    if answers == [] then []
    else
      var last := answers[|answers| - 1];
      Successes(answers[..|answers| - 1]) + (if last.Success? then [last.value] else [])
  }

  /** The items of every page before the first failed read (all of them when none failed). */
  lemma PageStep<T>(pages: seq<Read<seq<T>>>, i: nat)
    requires i < |pages| && pages[i].Item? && FirstReadError(pages[..i]).None?
    ensures FirstReadError(pages[..i + 1]).None?
    ensures Flatten(Items(pages[..i + 1])) == Flatten(Items(pages[..i])) + pages[i].value
  {
    ItemStep(pages, i);
    var before := Items(pages[..i]);
    assert (before + [pages[i].value])[..|before|] == before;
  }

  /** One more answer: a success adds its items, a failure adds nothing. */
  lemma SuccessStep<T>(answers: seq<Outcome<seq<T>>>, i: nat)
    requires i < |answers|
    ensures answers[i].Success? ==>
              Flatten(Successes(answers[..i + 1])) == Flatten(Successes(answers[..i])) + answers[i].value
    ensures answers[i].Failure? ==> Flatten(Successes(answers[..i + 1])) == Flatten(Successes(answers[..i]))
  {
    var before := Successes(answers[..i]);
    assert answers[..i + 1][..i] == answers[..i];
    if answers[i].Success? {
      assert Successes(answers[..i + 1]) == before + [answers[i].value];
      assert (before + [answers[i].value])[..|before|] == before;
    } else {
      assert Successes(answers[..i + 1]) == before;
    }
  }

  /** The loop that keeps one page's items passing `keep`, in order. */
  method KeepWhere<T>(page: seq<T>, keep: T -> bool) returns (kept: seq<T>)
    ensures kept == Filter(page, keep)
  {
    kept := [];
    for j := 0 to |page|
      invariant kept == Filter(page[..j], keep)
    {
      assert page[..j + 1][..j] == page[..j];
      if keep(page[j]) {
        kept := kept + [page[j]];
      }
    }
    assert page[..|page|] == page;
  }

  /**
   * The zone and region loops: the items passing `keep` of every listing that
   * answered, a listing that failed being skipped.
   */
  method KeepFromAnswers<T>(answers: seq<Outcome<seq<T>>>, keep: T -> bool) returns (kept: seq<T>)
    ensures kept == Filter(Flatten(Successes(answers)), keep)
  {
    kept := [];
    for i := 0 to |answers|
      invariant kept == Filter(Flatten(Successes(answers[..i])), keep)
    {
      SuccessStep(answers, i);
      if answers[i].Failure? {
        continue;
      }
      FilterAppend(Flatten(Successes(answers[..i])), answers[i].value, keep);
      var page := KeepWhere(answers[i].value, keep);
      kept := kept + page;
    }
    assert answers[..|answers|] == answers;
  }

  /** The zone and region loops that keep everything a listing answered, skipping failed listings. */
  method GatherAnswers<T>(answers: seq<Outcome<seq<T>>>) returns (all: seq<T>)
    ensures all == Flatten(Successes(answers))
  {
    all := [];
    for i := 0 to |answers|
      invariant all == Flatten(Successes(answers[..i]))
    {
      SuccessStep(answers, i);
      if answers[i].Failure? {
        continue;
      }
      all := all + answers[i].value;
    }
    assert answers[..|answers|] == answers;
  }
}
