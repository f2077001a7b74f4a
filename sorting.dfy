/** `array.sort((a, b) => key(b) - key(a))`: the in-place sort the history
    and the notes screens apply to their lists, newest first. */
module Sorting {

  /** No element is followed by one with a larger key. */
  ghost predicate SortedDescending<T>(s: seq<T>, key: T -> int)
  {
    forall i, j :: 0 <= i < j < |s| ==> key(s[i]) >= key(s[j])
  }

  /** An insertion sort: each element in turn is inserted into the sorted
      prefix before it. */
  method SortByKeyDescending<T>(a: array<T>, key: T -> int)
    modifies a
    ensures SortedDescending(a[..], key)
    ensures multiset(a[..]) == multiset(old(a[..]))
  {
    var i := 0;
    while i < a.Length
      invariant 0 <= i <= a.Length
      invariant SortedDescending(a[..i], key)
      invariant multiset(a[..]) == multiset(old(a[..]))
    {
      Insert(a, i, key);
      i := i + 1;
    }
    assert a[..i] == a[..];
  }

  /** Moves `a[i]` left past the elements with smaller keys, so that the
      first `i + 1` elements are sorted; the rest of the array is kept. */
  method Insert<T>(a: array<T>, i: nat, key: T -> int)
    requires i < a.Length && SortedDescending(a[..i], key)
    modifies a
    ensures SortedDescending(a[..i + 1], key)
    ensures multiset(a[..]) == multiset(old(a[..]))
    ensures a[i + 1..] == old(a[i + 1..])
  {
    InsertStart(a[..], i, key);
    var j := i;
    while j > 0 && key(a[j - 1]) < key(a[j])
      invariant 0 <= j <= i
      invariant Inserting(a[..], j, i, key)
      invariant multiset(a[..]) == multiset(old(a[..]))
      invariant forall k :: i < k < a.Length ==> a[k] == old(a[k])
    {
      ghost var before := a[..];
      Swap(a, j - 1, j);
      InsertStep(before, a[..], j, i, key);
      j := j - 1;
    }
    InsertDone(a[..], j, i, key);
    assert a[i + 1..] == old(a[i + 1..]);
  }

  /** While `s[j]` moves left through `s[..i + 1]`: every pair that does
      not involve it is in order, and it is above everything it passed. */
  ghost predicate Inserting<T>(s: seq<T>, j: nat, i: nat, key: T -> int)
  {
    j <= i < |s|
    && (forall m, n :: 0 <= m < n <= i && n != j ==> key(s[m]) >= key(s[n]))
    && (forall n :: j < n <= i ==> key(s[j]) > key(s[n]))
  }

  lemma InsertStart<T>(s: seq<T>, i: nat, key: T -> int)
    requires i < |s| && SortedDescending(s[..i], key)
    ensures Inserting(s, i, i, key)
  {
    var p := s[..i];
    forall m, n | 0 <= m < n < i
      ensures key(s[m]) >= key(s[n])
    {
      assert s[m] == p[m] && s[n] == p[n];
    }
  }

  /** Swapping the moving element with a smaller-keyed left neighbour
      keeps the order of every other pair and keeps the moving element
      above everything it has passed. */
  lemma InsertStep<T>(b: seq<T>, c: seq<T>, j: nat, i: nat, key: T -> int)
    requires 0 < j && Inserting(b, j, i, key) && |c| == |b|
    requires c[j - 1] == b[j] && c[j] == b[j - 1]
    requires forall k :: 0 <= k < |b| && k != j - 1 && k != j ==> c[k] == b[k]
    requires key(b[j - 1]) < key(b[j])
    ensures Inserting(c, j - 1, i, key)
  {
    forall m, n | 0 <= m < n <= i && n != j - 1
      ensures key(c[m]) >= key(c[n])
    {
      if n == j {
        assert key(b[m]) >= key(b[j - 1]);
      } else if m == j - 1 {
        assert key(b[j]) > key(b[n]);
      } else if m == j {
        assert key(b[j - 1]) >= key(b[n]);
      } else {
        assert key(b[m]) >= key(b[n]);
      }
    }
  }

  /** Once the moving element meets a neighbour with a key at least its
      own, or the front, the first `i + 1` elements are sorted. */
  lemma InsertDone<T>(s: seq<T>, j: nat, i: nat, key: T -> int)
    requires Inserting(s, j, i, key) && (j == 0 || key(s[j - 1]) >= key(s[j]))
    ensures SortedDescending(s[..i + 1], key)
  {
    var p := s[..i + 1];
    forall m, n | 0 <= m < n < |p|
      ensures key(p[m]) >= key(p[n])
    {
      if n == j && m < j - 1 {
        assert key(s[m]) >= key(s[j - 1]);
      }
    }
  }

  method Swap<T>(a: array<T>, p: nat, q: nat)
    requires p < q < a.Length
    modifies a
    ensures a[p] == old(a[q]) && a[q] == old(a[p])
    ensures forall k :: 0 <= k < a.Length && k != p && k != q ==> a[k] == old(a[k])
    ensures multiset(a[..]) == multiset(old(a[..]))
  {
    a[p], a[q] := a[q], a[p];
  }
}
