/** `Array.prototype.sort` with a comparator: an in-place sort by a strict weak
    order `lt` (`lt(x, y)` when the comparator puts x strictly before y). */
module Sorting {

  /** `lt` is asymmetric and its complement is transitive: a strict weak order. */
  ghost predicate StrictWeakOrder<T(!new)>(lt: (T, T) -> bool) {
    && (forall x, y :: lt(x, y) ==> !lt(y, x))
    && (forall x, y, z :: !lt(y, x) && !lt(z, y) ==> !lt(z, x))
  }

  /** No element is strictly before an element that precedes it. */
  ghost predicate SortedBy<T>(s: seq<T>, lt: (T, T) -> bool) {
    forall p, q :: 0 <= p < q < |s| ==> !lt(s[q], s[p])
  }

  method InsertionSort<T(!new)>(a: array<T>, lt: (T, T) -> bool)
    requires StrictWeakOrder(lt)
    modifies a
    ensures SortedBy(a[..], lt)
    ensures multiset(a[..]) == multiset(old(a[..]))
  {
    var i := 0;
    while i < a.Length
      invariant 0 <= i <= a.Length
      invariant SortedBy(a[..i], lt)
      invariant multiset(a[..]) == multiset(old(a[..]))
    {
      InsertLast(a, i, lt);
      i := i + 1;
    }
    assert a[..a.Length] == a[..];
  }

  /** Moves `a[i]` left past the elements it is strictly before; `a[..i]` was sorted. */
  method InsertLast<T(!new)>(a: array<T>, i: nat, lt: (T, T) -> bool)
    requires StrictWeakOrder(lt)
    requires i < a.Length && SortedBy(a[..i], lt)
    modifies a
    ensures SortedBy(a[..i + 1], lt)
    ensures multiset(a[..]) == multiset(old(a[..]))
  {
    var j := i;
    while j > 0 && lt(a[j], a[j - 1])
      invariant 0 <= j <= i
      invariant multiset(a[..]) == multiset(old(a[..]))
      invariant forall p, q :: 0 <= p < q < j ==> !lt(a[q], a[p])
      invariant forall p, q :: j < p < q <= i ==> !lt(a[q], a[p])
      invariant forall p, q :: 0 <= p < j < q <= i ==> !lt(a[q], a[p])
      invariant forall q :: j < q <= i ==> lt(a[j], a[q])
    {
      Swap(a, j - 1, j);
      j := j - 1;
    }
    forall p, q | 0 <= p < q <= i
      ensures !lt(a[q], a[p])
    {
      if q == j && p < j - 1 {
        NotBeforeTransitive(lt, a[p], a[j - 1], a[j]);
      } else if p == j {
        assert lt(a[p], a[q]);
      }
    }
  }

  method Swap<T>(a: array<T>, i: nat, j: nat)
    requires i < a.Length && j < a.Length
    modifies a
    ensures a[i] == old(a[j]) && a[j] == old(a[i])
    ensures forall k :: 0 <= k < a.Length && k != i && k != j ==> a[k] == old(a[k])
    ensures multiset(a[..]) == multiset(old(a[..]))
  {
    a[i], a[j] := a[j], a[i];
  }

  lemma NotBeforeTransitive<T(!new)>(lt: (T, T) -> bool, x: T, y: T, z: T)
    requires StrictWeakOrder(lt)
    requires !lt(y, x) && !lt(z, y)
    ensures !lt(z, x)
  {
  }
}
