/** A stable insertion sort by a total preorder, with the three facts a
    caller of Python's `list.sort` or pandas' `sort_values` relies on: the
    result is ordered, is a permutation of the input, and keeps elements with
    equal keys in their input order. */
module Sorting {

  ghost predicate TotalPreorder<T(!new)>(le: (T, T) -> bool) {
    && (forall a, b :: le(a, b) || le(b, a))
    && (forall a, b, c :: le(a, b) && le(b, c) ==> le(a, c))
  }

  ghost predicate SortedBy<T>(s: seq<T>, le: (T, T) -> bool) {
    forall i, j :: 0 <= i < j < |s| ==> le(s[i], s[j])
  }

  /** Inserts `x` before the first element it is `le` to. */
  function Insert<T>(x: T, s: seq<T>, le: (T, T) -> bool): (r: seq<T>)
    ensures |r| == |s| + 1
  {
    if s == [] || le(x, s[0]) then [x] + s
    else [s[0]] + Insert(x, s[1..], le)
  }

  /** Inserting adds `x` and keeps every other element. */
  lemma {:induction false} InsertPermutes<T>(x: T, s: seq<T>, le: (T, T) -> bool)
    ensures multiset(Insert(x, s, le)) == multiset(s) + multiset{x}
  {
    if s != [] && !le(x, s[0]) {
      InsertPermutes(x, s[1..], le);
      assert s == [s[0]] + s[1..];
    }
  }

  function SortBy<T>(s: seq<T>, le: (T, T) -> bool): (r: seq<T>)
    ensures |r| == |s|
    ensures multiset(r) == multiset(s)
  {
    if s == [] then []
    else
      assert s == [s[0]] + s[1..];
      InsertPermutes(s[0], SortBy(s[1..], le), le);
      Insert(s[0], SortBy(s[1..], le), le)
  }

  lemma {:induction false} InsertSorted<T(!new)>(x: T, s: seq<T>, le: (T, T) -> bool)
    requires TotalPreorder(le)
    requires SortedBy(s, le)
    ensures SortedBy(Insert(x, s, le), le)
  {
    if s != [] && !le(x, s[0]) {
      var tail := Insert(x, s[1..], le);
      InsertSorted(x, s[1..], le);
      InsertPermutes(x, s[1..], le);
      assert le(s[0], x);
      forall k | 0 <= k < |tail| ensures le(s[0], tail[k]) {
        assert tail[k] in multiset(tail);
        assert tail[k] == x || tail[k] in multiset(s[1..]);
        if tail[k] != x {
          var m :| 0 <= m < |s[1..]| && s[1..][m] == tail[k];
          assert s[m + 1] == tail[k];
        }
      }
    }
  }

  /** The result of `SortBy` is ordered by `le`. */
  lemma {:induction false} SortBySorted<T(!new)>(s: seq<T>, le: (T, T) -> bool)
    requires TotalPreorder(le)
    ensures SortedBy(SortBy(s, le), le)
  {
    if s != [] {
      SortBySorted(s[1..], le);
      InsertSorted(s[0], SortBy(s[1..], le), le);
    }
  }

  /** The elements of `s` whose key equals the key of `x`, in their order in `s`. */
  function Ties<T>(s: seq<T>, x: T, le: (T, T) -> bool): seq<T> {
    if s == [] then []
    else (if le(s[0], x) && le(x, s[0]) then [s[0]] else []) + Ties(s[1..], x, le)
  }

  lemma TiesCons<T>(y: T, t: seq<T>, z: T, le: (T, T) -> bool)
    ensures Ties([y] + t, z, le) == (if le(y, z) && le(z, y) then [y] else []) + Ties(t, z, le)
  {
    assert ([y] + t)[0] == y && ([y] + t)[1..] == t;
  }

  /** Any two elements tied with `z` are ordered both ways: the only
      consequence of transitivity that stability needs. */
  ghost predicate TiedOrdered<T(!new)>(le: (T, T) -> bool, z: T) {
    forall a, b :: le(a, z) && le(z, a) && le(b, z) && le(z, b) ==> le(a, b)
  }

  lemma PreorderTiesOrdered<T(!new)>(le: (T, T) -> bool, z: T)
    requires TotalPreorder(le)
    ensures TiedOrdered(le, z)
  {
  }

  lemma {:induction false} InsertTies<T(!new)>(x: T, s: seq<T>, z: T, le: (T, T) -> bool)
    requires TiedOrdered(le, z)
    ensures Ties(Insert(x, s, le), z, le) == (if le(x, z) && le(z, x) then [x] else []) + Ties(s, z, le)
  {
    if s == [] || le(x, s[0]) {
      TiesCons(x, s, z, le);
    } else {
      var s0, s1 := s[0], s[1..];
      var own := if le(x, z) && le(z, x) then [x] else [];
      var head := if le(s0, z) && le(z, s0) then [s0] else [];
      var tail := Ties(s1, z, le);
      InsertTies(x, s1, z, le);
      TiesCons(s0, Insert(x, s1, le), z, le);
      assert s == [s0] + s1;
      TiesCons(s0, s1, z, le);
      if own != [] {
        // x sorts after s0, so an element tied with x is not tied with s0.
        assert !(le(s0, z) && le(z, s0));
        assert head + (own + tail) == own + (head + tail);
      }
    }
  }

  /** `SortBy` is stable: for every key, the elements with that key come out in
      the order they went in. */
  lemma {:induction false} SortByStable<T(!new)>(s: seq<T>, z: T, le: (T, T) -> bool)
    requires TotalPreorder(le)
    ensures Ties(SortBy(s, le), z, le) == Ties(s, z, le)
  {
    if s != [] {
      SortByStable(s[1..], z, le);
      PreorderTiesOrdered(le, z);
      InsertTies(s[0], SortBy(s[1..], le), z, le);
    }
  }
}
