/** In-place sorting of a slice by a `Less` comparator, as sort.Sort and sort.Slice do. Go's
    algorithms are not stable; all that the client relies on is that the result is ordered by
    the comparator and holds the same elements, which is what is proved here. */
module Sorting {

  /** A comparator fit for sorting: irreflexive, transitive, and with transitive
      incomparability (if neither x < y nor y < z then not x < z). */
  ghost predicate StrictWeakOrder<T(!new)>(less: (T, T) -> bool)
  {
    && (forall x :: !less(x, x))
    && (forall x, y, z :: less(x, y) && less(y, z) ==> less(x, z))
    && (forall x, y, z :: !less(x, y) && !less(y, z) ==> !less(x, z))
  }

  /** No element is strictly less than one before it. */
  ghost predicate SortedBy<T>(s: seq<T>, less: (T, T) -> bool)
  {
    forall i, j :: 0 <= i < j < |s| ==> !less(s[j], s[i])
  }

  /** Swap: exchanges the elements at `i` and `j` and leaves every other index as it was. */
  method Swap<T>(a: array<T>, i: nat, j: nat)
    requires i < a.Length && j < a.Length
    modifies a
    ensures a[i] == old(a[j]) && a[j] == old(a[i])
    ensures forall k :: 0 <= k < a.Length && k != i && k != j ==> a[k] == old(a[k])
    ensures multiset(a[..]) == multiset(old(a[..]))
  {
    a[i], a[j] := a[j], a[i];
  }

  /** Sorts `a` by `less`: afterwards no element is less than one before it, and `a` holds
      the same elements as before. */
  method Sort<T(!new)>(a: array<T>, less: (T, T) -> bool)
    requires StrictWeakOrder(less)
    modifies a
    ensures SortedBy(a[..], less)
    ensures multiset(a[..]) == multiset(old(a[..]))
  {
    if a.Length == 0 {
      return;
    }
    for i := 1 to a.Length
      invariant SortedBy(a[..i], less)
      invariant multiset(a[..]) == multiset(old(a[..]))
    {
      var j := i;
      while j > 0 && less(a[j], a[j - 1])
        invariant 0 <= j <= i
        invariant forall p, q :: 0 <= p < q <= i && p != j && q != j ==> !less(a[q], a[p])
        invariant forall q :: j < q <= i ==> less(a[j], a[q])
        invariant multiset(a[..]) == multiset(old(a[..]))
      {
        Swap(a, j - 1, j);
        j := j - 1;
      }
      InsertionDone(a[..], i, j, less);
    }
    assert a[..a.Length] == a[..];
  }

  /** Once the moving element is no longer less than its left neighbour, the prefix up to `i`
      is sorted. */
  lemma InsertionDone<T(!new)>(s: seq<T>, i: nat, j: nat, less: (T, T) -> bool)
    requires StrictWeakOrder(less)
    requires j <= i < |s|
    requires forall p, q :: 0 <= p < q <= i && p != j && q != j ==> !less(s[q], s[p])
    requires forall q :: j < q <= i ==> less(s[j], s[q])
    requires j == 0 || !less(s[j], s[j - 1])
    ensures SortedBy(s[..i + 1], less)
  {
    forall p, q | 0 <= p < q <= i
      ensures !less(s[q], s[p])
    {
      if q == j {
        if p < j - 1 {
          assert !less(s[j - 1], s[p]);
        }
      } else if p == j {
        assert less(s[j], s[q]);
      }
    }
  }
}
