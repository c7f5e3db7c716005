/** Sorting by an integer key. Callers may rely on order and contents, and not on how ties are broken. */
module Sorting {

  predicate SortedBy<T>(key: T -> int, s: seq<T>) {
    forall i, j | 0 <= i < j < |s| :: key(s[i]) <= key(s[j])
  }

  function InsertBy<T>(key: T -> int, x: T, s: seq<T>): seq<T> {
    if s == [] || key(x) <= key(s[0]) then [x] + s else [s[0]] + InsertBy(key, x, s[1..])
  }

  lemma {:induction false} InsertKeeps<T>(key: T -> int, x: T, s: seq<T>)
    ensures multiset(InsertBy(key, x, s)) == multiset(s) + multiset{x}
  {
    if s != [] && key(x) > key(s[0]) {
      InsertKeeps(key, x, s[1..]);
      assert s == [s[0]] + s[1..];
    }
  }

  lemma {:induction false} Inserted<T>(key: T -> int, x: T, s: seq<T>)
    ensures forall e <- InsertBy(key, x, s) :: e == x || e in s
  {
    if s != [] && key(x) > key(s[0]) {
      Inserted(key, x, s[1..]);
    }
  }

  lemma LeastFirst<T>(key: T -> int, x: T, s: seq<T>)
    requires SortedBy(key, s) && forall e <- s :: key(x) <= key(e)
    ensures SortedBy(key, [x] + s)
  {
    var all := [x] + s;
    forall i, j | 0 <= i < j < |all|
      ensures key(all[i]) <= key(all[j])
    {
      assert all[j] == s[j - 1] && s[j - 1] in s;
      if i > 0 {
        assert all[i] == s[i - 1];
      }
    }
  }

  lemma FirstIsLeast<T>(key: T -> int, s: seq<T>)
    requires SortedBy(key, s) && s != []
    ensures forall e <- s :: key(s[0]) <= key(e)
    ensures SortedBy(key, s[1..])
  {
  }

  lemma {:induction false} InsertSorted<T>(key: T -> int, x: T, s: seq<T>)
    requires SortedBy(key, s)
    ensures SortedBy(key, InsertBy(key, x, s))
  {
    hide SortedBy;
    if s != [] {
      FirstIsLeast(key, s);
    }
    if s == [] || key(x) <= key(s[0]) {
      LeastFirst(key, x, s);
    } else {
      InsertSorted(key, x, s[1..]);
      Inserted(key, x, s[1..]);
      LeastFirst(key, s[0], InsertBy(key, x, s[1..]));
    }
  }

  function SortBy<T>(key: T -> int, s: seq<T>): seq<T> {
    if s == [] then [] else InsertBy(key, s[0], SortBy(key, s[1..]))
  }

  lemma {:induction false} Sorted<T>(key: T -> int, s: seq<T>)
    ensures SortedBy(key, SortBy(key, s)) && multiset(SortBy(key, s)) == multiset(s)
  {
    if s != [] {
      Sorted(key, s[1..]);
      InsertSorted(key, s[0], SortBy(key, s[1..]));
      InsertKeeps(key, s[0], SortBy(key, s[1..]));
      assert s == [s[0]] + s[1..];
    }
  }

  /** Sorts a slice where it stands. */
  method SortInPlace<T>(key: T -> int, a: array<T>)
    modifies a
    ensures SortedBy(key, a[..]) && multiset(a[..]) == multiset(old(a[..]))
  {
    var sorted := SortBy(key, a[..]);
    Sorted(key, a[..]);
    assert |sorted| == |multiset(sorted)| == |multiset(a[..])| == a.Length;
    for i := 0 to a.Length
      invariant a[..i] == sorted[..i]
    {
      a[i] := sorted[i];
    }
    assert a[..] == a[..a.Length] == sorted;
  }
}
