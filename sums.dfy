// Column totals: a sum of per-item amounts over a sequence, and the fact that
// it does not depend on the order the items arrived in.
module Sums {
  function Sum<T>(s: seq<T>, amount: T -> real): real
  {
    if |s| == 0 then 0.0 else Sum(s[..|s| - 1], amount) + amount(s[|s| - 1])
  }

  /** Adding one more item at the end adds its amount. */
  lemma SumAppend<T>(s: seq<T>, x: T, amount: T -> real)
    ensures Sum(s + [x], amount) == Sum(s, amount) + amount(x)
  {
    assert (s + [x])[..|s|] == s;
  }

  /** Putting x in at position k adds exactly its amount. */
  lemma {:induction false} SumInsert<T>(s: seq<T>, k: nat, x: T, amount: T -> real)
    requires k <= |s|
    ensures Sum(s[..k] + [x] + s[k..], amount) == Sum(s, amount) + amount(x)
    decreases |s|
  {
    var t := s[..k] + [x] + s[k..];
    if k == |s| {
      assert t[..|t| - 1] == s;
    } else {
      var s' := s[..|s| - 1];
      SumInsert(s', k, x, amount);
      assert t[..|t| - 1] == s'[..k] + [x] + s'[k..];
      assert t[|t| - 1] == s[|s| - 1];
    }
  }

  /** Removing the item at position k from b and putting it back gives b, with the multisets to match. */
  lemma RemoveAt<T>(b: seq<T>, k: nat) returns (rest: seq<T>)
    requires k < |b|
    ensures |rest| == |b| - 1
    ensures rest[..k] + [b[k]] + rest[k..] == b
    ensures multiset(rest) == multiset(b) - multiset{b[k]}
  {
    rest := b[..k] + b[k + 1..];
    assert rest[..k] == b[..k] && rest[k..] == b[k + 1..];
    assert b[..k] + [b[k]] + b[k + 1..] == b;
    calc {
      multiset(b);
      multiset(b[..k] + [b[k]] + b[k + 1..]);
      multiset(b[..k]) + multiset{b[k]} + multiset(b[k + 1..]);
      multiset(b[..k] + b[k + 1..]) + multiset{b[k]};
    }
  }

  /** Sums do not depend on the order of the items. */
  lemma {:induction false} SumPermutation<T>(a: seq<T>, b: seq<T>, amount: T -> real)
    requires multiset(a) == multiset(b)
    ensures Sum(a, amount) == Sum(b, amount)
    decreases |a|
  {
    assert |a| == |multiset(a)| == |b|;
    if |a| > 0 {
      var x := a[|a| - 1];
      var a' := a[..|a| - 1];
      assert a == a' + [x];
      assert multiset(a') == multiset(a) - multiset{x};
      assert x in multiset(b);
      var k :| 0 <= k < |b| && b[k] == x;
      var b' := RemoveAt(b, k);
      assert multiset(a') == multiset(b');
      SumPermutation(a', b', amount);
      SumInsert(b', k, x, amount);
    }
  }
}
