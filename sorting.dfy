/** Python's sorted() and the comprehension filters used by the read
    operations, on sequences. */
module Sorting {
  import opened Wrappers

  /** le is total and transitive: a sort key compared with <=. */
  ghost predicate TotalPreorder<T(!new)>(le: (T, T) -> bool) {
    && (forall a, b :: le(a, b) || le(b, a))
    && (forall a, b, c :: le(a, b) && le(b, c) ==> le(a, c))
  }

  /** Every element of s comes le-before every later element. */
  ghost predicate SortedBy<T>(s: seq<T>, le: (T, T) -> bool) {
    forall i, j :: 0 <= i < j < |s| ==> le(s[i], s[j])
  }

  /** No element occurs twice. */
  ghost predicate Distinct<T>(s: seq<T>) {
    forall i, j :: 0 <= i < j < |s| ==> s[i] != s[j]
  }

  /** Inserts x into s after every element that is le-before-or-equal x, so
      that among equal keys x, which came last, stays last. */
  function Insert<T>(x: T, s: seq<T>, le: (T, T) -> bool): (r: seq<T>)
    ensures |r| == |s| + 1
    ensures multiset(r) == multiset(s) + multiset{x}
  {
    if s == [] then [x]
    else if le(s[0], x) then
      var r := [s[0]] + Insert(x, s[1..], le);
      assert s == [s[0]] + s[1..];
      r
    else [x] + s
  }

  /** sorted(s) with the order le, as a stable insertion sort. */
  function SortBy<T>(s: seq<T>, le: (T, T) -> bool): (r: seq<T>)
    ensures |r| == |s|
    ensures multiset(r) == multiset(s)
  {
    if s == [] then []
    else
      assert s == s[..|s| - 1] + [s[|s| - 1]];
      Insert(s[|s| - 1], SortBy(s[..|s| - 1], le), le)
  }

  /** An element le-before x and every element of s is le-before every
      element of Insert(x, s). */
  lemma InsertBound<T>(x: T, s: seq<T>, le: (T, T) -> bool, y: T)
    requires le(y, x) && forall k :: 0 <= k < |s| ==> le(y, s[k])
    ensures forall k :: 0 <= k < |Insert(x, s, le)| ==> le(y, Insert(x, s, le)[k])
  {
    var r := Insert(x, s, le);
    forall k | 0 <= k < |r| ensures le(y, r[k]) {
      assert r[k] in multiset(r);
      if r[k] != x {
        assert r[k] in multiset(s);
        var j :| 0 <= j < |s| && s[j] == r[k];
      }
    }
  }

  lemma {:induction false} InsertSorted<T(!new)>(x: T, s: seq<T>, le: (T, T) -> bool)
    requires TotalPreorder(le)
    requires SortedBy(s, le)
    ensures SortedBy(Insert(x, s, le), le)
  {
    if s != [] {
      if le(s[0], x) {
        InsertSorted(x, s[1..], le);
        InsertBound(x, s[1..], le, s[0]);
        ConsSorted(s[0], Insert(x, s[1..], le), le);
      } else {
        InsertFront(x, s, le);
      }
    }
  }

  /** A head le-before every element of a sorted tail keeps it sorted. */
  lemma ConsSorted<T>(h: T, tail: seq<T>, le: (T, T) -> bool)
    requires SortedBy(tail, le) && forall k :: 0 <= k < |tail| ==> le(h, tail[k])
    ensures SortedBy([h] + tail, le)
  {
    var r := [h] + tail;
    forall i, j | 0 <= i < j < |r| ensures le(r[i], r[j]) {
      if i == 0 { assert r[j] == tail[j - 1]; } else { assert r[i] == tail[i - 1] && r[j] == tail[j - 1]; }
    }
  }

  lemma InsertFront<T(!new)>(x: T, s: seq<T>, le: (T, T) -> bool)
    requires TotalPreorder(le) && SortedBy(s, le)
    requires s != [] && !le(s[0], x)
    ensures SortedBy([x] + s, le)
  {
    var r := [x] + s;
    forall i, j | 0 <= i < j < |r| ensures le(r[i], r[j]) {
      if i == 0 {
        assert le(x, s[0]);
        if j > 1 { assert le(s[0], s[j - 1]); }
      } else {
        assert r[i] == s[i - 1] && r[j] == s[j - 1];
      }
    }
  }

  /** sorted() yields a permutation ordered by le. */
  lemma {:induction false} SortBySorted<T(!new)>(s: seq<T>, le: (T, T) -> bool)
    requires TotalPreorder(le)
    ensures SortedBy(SortBy(s, le), le)
  {
    if s != [] {
      SortBySorted(s[..|s| - 1], le);
      InsertSorted(s[|s| - 1], SortBy(s[..|s| - 1], le), le);
    }
  }

  /** The elements of s that satisfy p, in their order in s. */
  function Filter<T(!new)>(s: seq<T>, p: T -> bool): (r: seq<T>)
    ensures |r| <= |s|
    ensures forall i :: 0 <= i < |r| ==> p(r[i])
    ensures forall x :: x in r <==> x in s && p(x)
    ensures multiset(r) <= multiset(s)
  {
    if s == [] then []
    else
      var last := s[|s| - 1];
      assert s == s[..|s| - 1] + [last];
      Filter(s[..|s| - 1], p) + (if p(last) then [last] else [])
  }

  lemma {:induction false} FilterDistinct<T(!new)>(s: seq<T>, p: T -> bool)
    requires Distinct(s)
    ensures Distinct(Filter(s, p))
  {
    if s != [] {
      var init := s[..|s| - 1];
      assert Distinct(init);
      FilterDistinct(init, p);
    }
  }

  /** The elements whose key equals x's key under le. */
  function Tied<T>(le: (T, T) -> bool, x: T): T -> bool {
    (y: T) => le(x, y) && le(y, x)
  }

  lemma FilterSnoc<T(!new)>(s: seq<T>, x: T, p: T -> bool)
    ensures Filter(s + [x], p) == Filter(s, p) + (if p(x) then [x] else [])
  {
    var t := s + [x];
    assert t[..|t| - 1] == s && t[|t| - 1] == x;
  }

  lemma {:induction false} FilterConcat<T(!new)>(a: seq<T>, b: seq<T>, p: T -> bool)
    ensures Filter(a + b, p) == Filter(a, p) + Filter(b, p)
  {
    if b == [] {
      assert a + b == a;
    } else {
      var init, last := b[..|b| - 1], b[|b| - 1];
      SnocSplit(a, b);
      FilterSnoc(a + init, last, p);
      FilterSnoc(init, last, p);
      FilterConcat(a, init, p);
      Associative(Filter(a, p), Filter(init, p), if p(last) then [last] else []);
    }
  }

  lemma SnocSplit<T>(a: seq<T>, b: seq<T>)
    requires b != []
    ensures a + b == (a + b[..|b| - 1]) + [b[|b| - 1]]
    ensures b == b[..|b| - 1] + [b[|b| - 1]]
  {
  }

  lemma Associative<T>(a: seq<T>, b: seq<T>, c: seq<T>)
    ensures (a + b) + c == a + (b + c)
  {
  }

  /** Insert(x, s) puts x at the first position k whose element is not
      le-before x. */
  lemma {:induction false} InsertSplit<T>(x: T, s: seq<T>, le: (T, T) -> bool) returns (k: nat)
    ensures k <= |s| && Insert(x, s, le) == s[..k] + [x] + s[k..]
    ensures k < |s| ==> !le(s[k], x)
  {
    if s == [] {
      k := 0;
    } else if le(s[0], x) {
      var j := InsertSplit(x, s[1..], le);
      k := j + 1;
      ConsSplit(s, x, j);
    } else {
      k := 0;
    }
  }

  lemma ConsSplit<T>(s: seq<T>, x: T, j: nat)
    requires j < |s|
    ensures [s[0]] + (s[1..][..j] + [x] + s[1..][j..]) == s[..j + 1] + [x] + s[j + 1..]
  {
    assert s[..j + 1] == [s[0]] + s[1..][..j];
    assert s[j + 1..] == s[1..][j..];
  }

  /** Inserting x into a sorted s adds x behind the elements already tied
      with it and changes no other tie class. */
  lemma InsertTies<T(!new)>(x: T, s: seq<T>, le: (T, T) -> bool, y: T)
    requires TotalPreorder(le) && SortedBy(s, le)
    ensures Filter(Insert(x, s, le), Tied(le, y))
         == Filter(s, Tied(le, y)) + (if Tied(le, y)(x) then [x] else [])
  {
    var p := Tied(le, y);
    var k := InsertSplit(x, s, le);
    var front, back := s[..k], s[k..];
    var mid := if p(x) then [x] else [];
    Rejoin(s, k);
    FilterConcat(front, back, p);
    FilterAround(front, x, back, p);
    if p(x) {
      NoTiesAfter(x, s, le, k, y);
    }
    Regroup(Filter(front, p), mid, Filter(back, p));
  }

  /** Moves a middle part to the back past an empty one, or drops it. */
  lemma Regroup<T>(a: seq<T>, m: seq<T>, b: seq<T>)
    requires b == [] || m == []
    ensures a + m + b == (a + b) + m
  {
  }

  lemma Rejoin<T>(s: seq<T>, k: nat)
    requires k <= |s|
    ensures s == s[..k] + s[k..]
  {
  }

  /** Filter of a sequence with x in the middle. */
  lemma FilterAround<T(!new)>(front: seq<T>, x: T, back: seq<T>, p: T -> bool)
    ensures Filter(front + [x] + back, p)
         == Filter(front, p) + (if p(x) then [x] else []) + Filter(back, p)
  {
    FilterConcat(front + [x], back, p);
    FilterSnoc(front, x, p);
  }

  /** In a sorted s, nothing from the first element not le-before x on is
      tied with x. */
  lemma NoTiesAfter<T(!new)>(x: T, s: seq<T>, le: (T, T) -> bool, k: nat, y: T)
    requires TotalPreorder(le) && SortedBy(s, le)
    requires k <= |s| && (k < |s| ==> !le(s[k], x)) && Tied(le, y)(x)
    ensures Filter(s[k..], Tied(le, y)) == []
  {
    var back := s[k..];
    forall i | 0 <= i < |back| ensures !Tied(le, y)(back[i]) {
      if 0 < i { assert le(s[k], s[k + i]); }
    }
    FilterNone(back, Tied(le, y));
  }

  /** Filtering keeps nothing when no element passes. */
  lemma {:induction false} FilterNone<T(!new)>(s: seq<T>, p: T -> bool)
    requires forall i :: 0 <= i < |s| ==> !p(s[i])
    ensures Filter(s, p) == []
  {
    if s != [] {
      FilterNone(s[..|s| - 1], p);
    }
  }

  /** sorted() is stable: the elements with equal keys keep their order. */
  lemma {:induction false} SortByStable<T(!new)>(s: seq<T>, le: (T, T) -> bool, y: T)
    requires TotalPreorder(le)
    ensures Filter(SortBy(s, le), Tied(le, y)) == Filter(s, Tied(le, y))
  {
    if s != [] {
      var init := s[..|s| - 1];
      SortByStable(init, le, y);
      SortBySorted(init, le);
      InsertTies(s[|s| - 1], SortBy(init, le), le, y);
    }
  }

  /** The test `x not in xs`, as a function of x. */
  function NotIn<T(==)>(xs: seq<T>): T -> bool {
    (x: T) => x !in xs
  }

  lemma FilterNoneLeft<T(!new)>(s: seq<T>, xs: seq<T>)
    requires forall x :: x in s ==> x in xs
    ensures Filter(s, NotIn(xs)) == []
  {
  }

  lemma DistinctLastNotEarlier<T>(s: seq<T>, k: nat)
    requires Distinct(s) && k < |s|
    ensures s[|s| - 1] !in s[..k]
  {
    forall j | 0 <= j < k ensures s[..k][j] != s[|s| - 1] {
      assert s[..k][j] == s[j];
    }
  }

  /** Keeping the elements of a repetition-free s that are not among its
      first k leaves exactly the elements after them. */
  lemma {:induction false} FilterNotInPrefix<T(!new)>(s: seq<T>, xs: seq<T>, k: nat)
    requires Distinct(s) && k <= |s|
    requires xs == s[..k]
    ensures Filter(s, NotIn(xs)) == s[k..]
  {
    if |s| == k {
      assert s[..k] == s;
      FilterNoneLeft(s, xs);
    } else {
      var init := s[..|s| - 1];
      assert init[..k] == s[..k];
      assert Distinct(init);
      FilterNotInPrefix(init, xs, k);
      DistinctLastNotEarlier(s, k);
      FilterKeepLast(s, k, NotIn(xs));
    }
  }

  /** The inductive step: Filter keeps the elements after the first k of
      the shorter sequence and then the last one, which p accepts. */
  lemma FilterKeepLast<T(!new)>(s: seq<T>, k: nat, p: T -> bool)
    requires k < |s| && p(s[|s| - 1])
    requires Filter(s[..|s| - 1], p) == s[..|s| - 1][k..]
    ensures Filter(s, p) == s[k..]
  {
    var init, last := s[..|s| - 1], s[|s| - 1];
    assert Filter(s, p) == Filter(init, p) + [last];
    SuffixSnoc(s, k);
  }

  lemma SuffixSnoc<T>(s: seq<T>, k: nat)
    requires k < |s|
    ensures s[k..] == s[..|s| - 1][k..] + [s[|s| - 1]]
  {
  }

  /** The elements of s without repetitions, each at its first occurrence. */
  function Dedup<T(==,!new)>(s: seq<T>): (r: seq<T>)
    ensures forall x :: x in r <==> x in s
  {
    if s == [] then []
    else
      var d := Dedup(s[..|s| - 1]);
      var last := s[|s| - 1];
      assert s == s[..|s| - 1] + [last];
      if last in d then d else d + [last]
  }

  /** Dedup of s and one more element: that element is kept only when new. */
  lemma DedupSnoc<T(!new)>(s: seq<T>, x: T)
    ensures Dedup(s + [x]) == if x in s then Dedup(s) else Dedup(s) + [x]
  {
    var t := s + [x];
    assert t[..|t| - 1] == s;
  }

  lemma {:induction false} DedupDistinct<T(!new)>(s: seq<T>)
    ensures Distinct(Dedup(s))
  {
    if s != [] {
      DedupDistinct(s[..|s| - 1]);
    }
  }

  /** Appending an absent element keeps a sequence free of repetitions. */
  lemma DistinctSnoc<T>(s: seq<T>, y: T)
    requires Distinct(s) && y !in s
    ensures Distinct(s + [y])
  {
  }

  /** In a distinct sequence, multiset membership counts are at most one. */
  lemma DistinctPermutation<T>(s: seq<T>, t: seq<T>)
    requires multiset(s) == multiset(t) && Distinct(s)
    ensures Distinct(t)
  {
    forall i, j | 0 <= i < j < |t| ensures t[i] != t[j] {
      if t[i] == t[j] {
        assert t == t[..i] + [t[i]] + t[i + 1..];
        assert t[i + 1..] == t[i + 1..j] + [t[j]] + t[j + 1..];
        assert multiset(t)[t[i]] >= 2;
        DistinctCount(s, t[i]);
      }
    }
  }

  lemma {:induction false} DistinctCount<T>(s: seq<T>, x: T)
    requires Distinct(s)
    ensures multiset(s)[x] <= 1
  {
    if s != [] {
      var init := s[..|s| - 1];
      assert s == init + [s[|s| - 1]];
      assert Distinct(init);
      DistinctCount(init, x);
      if s[|s| - 1] == x {
        assert x !in init;
      }
    }
  }

  /** lt is a strict order. */
  ghost predicate StrictOrder<T(!new)>(lt: (T, T) -> bool) {
    && (forall a :: !lt(a, a))
    && (forall a, b :: lt(a, b) ==> !lt(b, a))
  }

  /** Every element of s comes strictly lt-before every later element. */
  ghost predicate StrictlySortedBy<T>(s: seq<T>, lt: (T, T) -> bool) {
    forall i, j :: 0 <= i < j < |s| ==> lt(s[i], s[j])
  }

  lemma SameElementsEmpty<T>(s: seq<T>, t: seq<T>)
    requires forall x :: x in s <==> x in t
    ensures s == [] <==> t == []
  {
    if s != [] { assert s[0] in t; }
    if t != [] { assert t[0] in s; }
  }

  /** Two strictly ordered sequences with the same elements are equal: a
      strict order leaves no choice of arrangement. */
  lemma {:induction false} StrictlySortedUnique<T(!new)>(s: seq<T>, t: seq<T>, lt: (T, T) -> bool)
    requires StrictOrder(lt)
    requires StrictlySortedBy(s, lt) && StrictlySortedBy(t, lt)
    requires forall x :: x in s <==> x in t
    ensures s == t
  {
    SameElementsEmpty(s, t);
    if s != [] {
      assert s[0] in t;
      var k :| 0 <= k < |t| && t[k] == s[0];
      assert t[0] in s;
      var m :| 0 <= m < |s| && s[m] == t[0];
      assert s[0] == t[0];
      forall x ensures x in s[1..] <==> x in t[1..] {
        if x in s[1..] {
          var i :| 1 <= i < |s| && s[i] == x;
          assert lt(s[0], x);
          assert x in t;
          assert x != t[0];
        }
        if x in t[1..] {
          var i :| 1 <= i < |t| && t[i] == x;
          assert lt(t[0], x);
          assert x in s;
          assert x != s[0];
        }
      }
      StrictlySortedUnique(s[1..], t[1..], lt);
      assert s == [s[0]] + s[1..] && t == [t[0]] + t[1..];
    }
  }
  /** The values read yields for the elements of s, in order, skipping
      the elements it yields nothing for: a loop with `continue`. */
  function Collect<T, U>(s: seq<T>, read: T -> Option<U>): (r: seq<U>)
    ensures |r| <= |s|
  {
    if s == [] then []
    else
      var v := read(s[|s| - 1]);
      Collect(s[..|s| - 1], read) + (if v.Some? then [v.value] else [])
  }

  /** One more element adds its value, if it has one, at the end. */
  lemma CollectSnoc<T, U>(s: seq<T>, read: T -> Option<U>, k: nat)
    requires k < |s|
    ensures Collect(s[..k + 1], read)
            == Collect(s[..k], read) + (if read(s[k]).Some? then [read(s[k]).value] else [])
  {
    assert s[..k + 1][..k] == s[..k];
  }

  /** A value is collected exactly when some element yields it. */
  lemma {:induction false} CollectMembers<T, U>(s: seq<T>, read: T -> Option<U>, u: U)
    ensures u in Collect(s, read) <==> exists i :: 0 <= i < |s| && read(s[i]) == Some(u)
  {
    if s != [] {
      var init := s[..|s| - 1];
      CollectMembers(init, read, u);
      if exists i :: 0 <= i < |s| && read(s[i]) == Some(u) {
        var i :| 0 <= i < |s| && read(s[i]) == Some(u);
        if i < |init| { assert init[i] == s[i]; }
      }
      if exists i :: 0 <= i < |init| && read(init[i]) == Some(u) {
        var i :| 0 <= i < |init| && read(init[i]) == Some(u);
        assert s[i] == init[i];
      }
    }
  }

  /** When every element yields itself, nothing is skipped or changed. */
  lemma {:induction false} CollectAllKept<T>(s: seq<T>, read: T -> Option<T>)
    requires forall i :: 0 <= i < |s| ==> read(s[i]) == Some(s[i])
    ensures Collect(s, read) == s
  {
    if s != [] {
      CollectAllKept(s[..|s| - 1], read);
    }
  }
}
