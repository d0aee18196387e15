/** `Array.prototype.sort` with a comparator of the form `(a, b) => key(b)
    - key(a)`, as the ride and driver lists use it: in place, largest key
    first. */
module Sorting {
  import opened Values

  /** Keys do not increase from left to right. */
  ghost predicate SortedDescending(s: seq<Record>, key: Record -> real) {
    forall i, j :: 0 <= i < j < |s| ==> key(s[i]) >= key(s[j])
  }

  /** Exchanges `a[j - 1]` and `a[j]`. */
  method SwapDown(a: array<Record>, j: int)
    requires 0 < j < a.Length
    modifies a
    ensures a[..] == old(a[..])[j - 1 := old(a[j])][j := old(a[j - 1])]
    ensures multiset(a[..]) == multiset(old(a[..]))
  {
    a[j - 1], a[j] := a[j], a[j - 1];
  }

  /** Halfway through inserting `s[i]` into the sorted prefix: the record
      being moved sits at `j`, the others in `s[..i + 1]` are in order, and
      it has a strictly larger key than every record after it. */
  ghost predicate Inserting(s: seq<Record>, j: int, i: int, key: Record -> real) {
    && 0 <= j <= i < |s|
    && (forall p, q :: 0 <= p < q <= i && p != j && q != j ==> key(s[p]) >= key(s[q]))
    && (forall p, q :: 0 <= p < j < q <= i ==> key(s[p]) >= key(s[q]))
    && (forall q :: j < q <= i ==> key(s[j]) > key(s[q]))
  }

  lemma StartInserting(s: seq<Record>, i: int, key: Record -> real)
    requires 0 <= i < |s| && SortedDescending(s[..i], key)
    ensures Inserting(s, i, i, key)
  {
    forall p, q | 0 <= p < q <= i && p != i && q != i ensures key(s[p]) >= key(s[q]) {
      assert s[p] == s[..i][p] && s[q] == s[..i][q];
    }
  }

  /** One exchange with a smaller left neighbour moves the record one place
      left and keeps the rest in order. */
  lemma SwapKeepsInserting(s: seq<Record>, j: int, i: int, key: Record -> real)
    requires Inserting(s, j, i, key) && 0 < j && key(s[j - 1]) < key(s[j])
    ensures Inserting(s[j - 1 := s[j]][j := s[j - 1]], j - 1, i, key)
  {
  }

  /** Once the left neighbour is not smaller, the prefix is sorted. */
  lemma DoneInserting(s: seq<Record>, j: int, i: int, key: Record -> real)
    requires Inserting(s, j, i, key) && (j == 0 || key(s[j - 1]) >= key(s[j]))
    ensures SortedDescending(s[..i + 1], key)
  {
    forall p, q | 0 <= p < q <= i ensures key(s[p]) >= key(s[q]) {
      if p == j && 0 < j {
        assert key(s[j - 1]) >= key(s[j]);
      } else if q == j && 0 < p {
        assert key(s[p]) >= key(s[j - 1]);
      }
    }
  }

  /** Moves `a[i]` left into the sorted prefix `a[..i]`, past every record
      with a strictly smaller key. */
  method InsertIntoPrefix(a: array<Record>, i: int, key: Record -> real)
    requires 0 <= i < a.Length
    requires SortedDescending(a[..i], key)
    modifies a
    ensures SortedDescending(a[..i + 1], key)
    ensures a[i + 1..] == old(a[i + 1..])
    ensures multiset(a[..]) == multiset(old(a[..]))
  {
    StartInserting(a[..], i, key);
    var j := i;
    while j > 0 && key(a[j - 1]) < key(a[j])
      invariant Inserting(a[..], j, i, key)
      invariant a[i + 1..] == old(a[i + 1..])
      invariant multiset(a[..]) == multiset(old(a[..]))
    {
      SwapKeepsInserting(a[..], j, i, key);
      SwapDown(a, j);
      j := j - 1;
    }
    DoneInserting(a[..], j, i, key);
  }

  /** Insertion sort, largest key first. */
  method SortDescending(a: array<Record>, key: Record -> real)
    modifies a
    ensures SortedDescending(a[..], key)
    ensures multiset(a[..]) == multiset(old(a[..]))
  {
    var i := 0;
    while i < a.Length
      invariant 0 <= i <= a.Length
      invariant SortedDescending(a[..i], key)
      invariant multiset(a[..]) == multiset(old(a[..]))
    {
      InsertIntoPrefix(a, i, key);
      i := i + 1;
    }
    assert a[..a.Length] == a[..];
  }
}
