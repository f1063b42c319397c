// sort.Slice, as the core uses it: an in-place sort of a slice by a numeric
// key. sort.Slice is not stable, so callers may rely only on the order of
// the keys and on the slice holding the same elements; the insertion sort
// below promises exactly that.
module Sorting {

  ghost predicate SortedBy<T>(s: seq<T>, key: T -> real)
  {
    forall i, j :: 0 <= i < j < |s| ==> key(s[i]) <= key(s[j])
  }

  /** s[..i+1] is in key order once position `j` is left out. */
  ghost predicate SortedExcept<T>(s: seq<T>, key: T -> real, j: int, i: int)
    requires i < |s|
  {
    forall p, q :: 0 <= p < q <= i && p != j && q != j ==> key(s[p]) <= key(s[q])
  }

  /** s[j] has the least key of s[j..i+1]. */
  ghost predicate LeastFrom<T>(s: seq<T>, key: T -> real, j: int, i: int)
    requires 0 <= j <= i < |s|
  {
    forall q :: j < q <= i ==> key(s[j]) <= key(s[q])
  }

  method SortByKey<T>(a: array<T>, key: T -> real)
    modifies a
    ensures SortedBy(a[..], key)
    ensures multiset(a[..]) == old(multiset(a[..]))
  {
    var i := 0;
    while i < a.Length
      invariant 0 <= i <= a.Length
      invariant SortedExcept(a[..], key, -1, i - 1)
      invariant multiset(a[..]) == old(multiset(a[..]))
    {
      Insert(a, i, key);
      i := i + 1;
    }
  }

  /** Moves a[i] left past every larger key, so that a[..i+1] becomes sorted. */
  method Insert<T>(a: array<T>, i: int, key: T -> real)
    requires 0 <= i < a.Length
    requires SortedExcept(a[..], key, -1, i - 1)
    modifies a
    ensures SortedExcept(a[..], key, -1, i)
    ensures multiset(a[..]) == old(multiset(a[..]))
  {
    var j := i;
    while 0 < j && key(a[j]) < key(a[j - 1])
      invariant 0 <= j <= i
      invariant SortedExcept(a[..], key, j, i) && LeastFrom(a[..], key, j, i)
      invariant multiset(a[..]) == old(multiset(a[..]))
    {
      ghost var s := a[..];
      a[j - 1], a[j] := a[j], a[j - 1];
      SwapStep(s, a[..], key, j, i);
      j := j - 1;
    }
    ghost var s := a[..];
    assert j == 0 || key(s[j - 1]) <= key(s[j]);
  }

  lemma SwapStep<T>(s: seq<T>, t: seq<T>, key: T -> real, j: int, i: int)
    requires 0 < j <= i < |s| == |t|
    requires SortedExcept(s, key, j, i) && LeastFrom(s, key, j, i)
    requires key(s[j]) < key(s[j - 1])
    requires t == s[j - 1 := s[j]][j := s[j - 1]]
    ensures SortedExcept(t, key, j - 1, i) && LeastFrom(t, key, j - 1, i)
    ensures multiset(t) == multiset(s)
  {
    assert s == s[..j - 1] + [s[j - 1], s[j]] + s[j + 1..];
    assert t == s[..j - 1] + [s[j], s[j - 1]] + s[j + 1..];
  }
}
