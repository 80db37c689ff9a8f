/** Sequence operations shared by the services and the pages: the array filter
    of the list pages, the stable sort of `Array.prototype.sort`, the row order of
    an SQL `ORDER BY`, and the enumeration of a table's keys in some order. */
module Seqs {

  /** `s.filter(p)`. */
  function Filter<T>(s: seq<T>, p: T -> bool): (r: seq<T>)
    ensures |r| <= |s|
    ensures forall i :: 0 <= i < |r| ==> r[i] in s && p(r[i])
    ensures forall i :: 0 <= i < |s| && p(s[i]) ==> s[i] in r
  {
    if s == [] then []
    else (if p(s[0]) then [s[0]] else []) + Filter(s[1..], p)
  }

  lemma {:induction false} FilterConcat<T>(a: seq<T>, b: seq<T>, p: T -> bool)
    ensures Filter(a + b, p) == Filter(a, p) + Filter(b, p)
  {
    if a != [] {
      var head := if p(a[0]) then [a[0]] else [];
      assert (a + b)[0] == a[0];
      assert (a + b)[1..] == a[1..] + b;
      FilterConcat(a[1..], b, p);
      calc {
        Filter(a + b, p);
        head + Filter(a[1..] + b, p);
        head + (Filter(a[1..], p) + Filter(b, p));
        (head + Filter(a[1..], p)) + Filter(b, p);
        Filter(a, p) + Filter(b, p);
      }
    } else {
      assert a + b == b;
    }
  }

  /** Filtering twice keeps exactly the elements that pass both tests, in order. */
  lemma {:induction false} FilterFilter<T>(s: seq<T>, p: T -> bool, q: T -> bool, both: T -> bool)
    requires forall x :: both(x) == (p(x) && q(x))
    ensures Filter(Filter(s, p), q) == Filter(s, both)
  {
    if s != [] {
      FilterFilter(s[1..], p, q, both);
      var head := if p(s[0]) then [s[0]] else [];
      FilterConcat(head, Filter(s[1..], p), q);
    }
  }

  /** Tests that agree on every element filter alike. */
  lemma {:induction false} FilterExt<T>(s: seq<T>, p: T -> bool, q: T -> bool)
    requires forall x :: x in s ==> p(x) == q(x)
    ensures Filter(s, p) == Filter(s, q)
  {
    if s != [] {
      FilterExt(s[1..], p, q);
    }
  }

  /** A filter that rejects nothing returns its input. */
  lemma {:induction false} FilterAll<T>(s: seq<T>, p: T -> bool)
    requires forall x :: x in s ==> p(x)
    ensures Filter(s, p) == s
  {
    if s != [] {
      FilterAll(s[1..], p);
    }
  }

  /** `le` orders every pair and is transitive. */
  ghost predicate TotalPreorder<T(!new)>(le: (T, T) -> bool) {
    (forall a, b :: le(a, b) || le(b, a))
    && (forall a, b, c :: le(a, b) && le(b, c) ==> le(a, c))
  }

  ghost predicate Sorted<T>(s: seq<T>, le: (T, T) -> bool) {
    forall i, j :: 0 <= i < j < |s| ==> le(s[i], s[j])
  }

  /** Put `x` after the last element of the sorted `t` that is `le` it. */
  function Insert<T>(t: seq<T>, x: T, le: (T, T) -> bool): (r: seq<T>)
    ensures multiset(r) == multiset(t) + multiset{x}
    ensures |r| == |t| + 1
  {
    if t == [] then [x]
    else if le(t[|t| - 1], x) then t + [x]
    else
      assert t == t[..|t| - 1] + [t[|t| - 1]];
      Insert(t[..|t| - 1], x, le) + [t[|t| - 1]]
  }

  /** Stable insertion sort, the ordering `Array.prototype.sort` guarantees. */
  function SortBy<T>(s: seq<T>, le: (T, T) -> bool): (r: seq<T>)
    ensures multiset(r) == multiset(s)
    ensures |r| == |s|
  {
    if s == [] then []
    else
      assert s == s[..|s| - 1] + [s[|s| - 1]];
      Insert(SortBy(s[..|s| - 1], le), s[|s| - 1], le)
  }

  /** Sorting keeps exactly the elements it was given. */
  lemma SortByMembers<T>(s: seq<T>, le: (T, T) -> bool)
    ensures forall x :: x in SortBy(s, le) <==> x in s
  {
    forall x ensures x in SortBy(s, le) <==> x in s {
      assert x in SortBy(s, le) <==> x in multiset(SortBy(s, le));
      assert x in s <==> x in multiset(s);
    }
  }

  lemma {:induction false} InsertSorted<T(!new)>(t: seq<T>, x: T, le: (T, T) -> bool)
    requires TotalPreorder(le) && Sorted(t, le)
    ensures Sorted(Insert(t, x, le), le)
  {
    if t != [] && !le(t[|t| - 1], x) {
      var init := t[..|t| - 1];
      var last := t[|t| - 1];
      assert Sorted(init, le);
      InsertSorted(init, x, le);
      var u := Insert(init, x, le);
      var r := u + [last];
      assert Insert(t, x, le) == r;
      forall i, j | 0 <= i < j < |r| ensures le(r[i], r[j]) {
        if j == |u| {
          BelowLast(t, x, le, u[i]);
        } else {
          assert r[i] == u[i] && r[j] == u[j];
        }
      }
    }
  }

  /** Everything inserted before the last element of `t` is `le` it. */
  lemma BelowLast<T(!new)>(t: seq<T>, x: T, le: (T, T) -> bool, y: T)
    requires TotalPreorder(le) && Sorted(t, le) && t != [] && !le(t[|t| - 1], x)
    requires y in Insert(t[..|t| - 1], x, le)
    ensures le(y, t[|t| - 1])
  {
    var init := t[..|t| - 1];
    assert y in multiset(Insert(init, x, le));
    if y != x {
      assert y in multiset(init);
      var k :| 0 <= k < |init| && init[k] == y;
      assert t[k] == y;
    }
  }

  /** The sort's output is ordered by `le`. */
  lemma {:induction false} SortBySorted<T(!new)>(s: seq<T>, le: (T, T) -> bool)
    requires TotalPreorder(le)
    ensures Sorted(SortBy(s, le), le)
  {
    if s != [] {
      SortBySorted(s[..|s| - 1], le);
      InsertSorted(SortBy(s[..|s| - 1], le), s[|s| - 1], le);
    }
  }

  /** The elements `le` cannot tell apart from `c`. */
  function EquivTo<T>(c: T, le: (T, T) -> bool): T -> bool {
    y => le(c, y) && le(y, c)
  }

  lemma {:induction false} InsertStable<T(!new)>(t: seq<T>, x: T, c: T, le: (T, T) -> bool)
    requires TotalPreorder(le)
    ensures Filter(Insert(t, x, le), EquivTo(c, le))
         == Filter(t, EquivTo(c, le)) + Filter([x], EquivTo(c, le))
  {
    var e := EquivTo(c, le);
    if t == [] {
      assert Insert(t, x, le) == [] + [x];
    } else if le(t[|t| - 1], x) {
      FilterConcat(t, [x], e);
    } else {
      var init := t[..|t| - 1];
      var last := t[|t| - 1];
      assert Insert(t, x, le) == Insert(init, x, le) + [last];
      assert t == init + [last];
      InsertStable(init, x, c, le);
      InsertStableStep(init, last, x, c, le);
    }
  }

  /** The step of `InsertStable` where `x` goes before the last element. */
  lemma InsertStableStep<T(!new)>(init: seq<T>, last: T, x: T, c: T, le: (T, T) -> bool)
    requires TotalPreorder(le) && !le(last, x)
    requires Filter(Insert(init, x, le), EquivTo(c, le)) == Filter(init, EquivTo(c, le)) + Filter([x], EquivTo(c, le))
    ensures Filter(Insert(init, x, le) + [last], EquivTo(c, le))
         == Filter(init + [last], EquivTo(c, le)) + Filter([x], EquivTo(c, le))
  {
    var e := EquivTo(c, le);
    FilterConcat(Insert(init, x, le), [last], e);
    FilterConcat(init, [last], e);
    NotBothEquiv(c, x, last, le);
    var a, xs, ls := Filter(init, e), Filter([x], e), Filter([last], e);
    assert xs == [] || ls == [];
    assert xs + ls == ls + xs;
    assert a + xs + ls == a + (xs + ls);
    assert a + ls + xs == a + (ls + xs);
  }

  /** An element that stays after `x` is not equivalent to `c` when `x` is. */
  lemma NotBothEquiv<T(!new)>(c: T, x: T, last: T, le: (T, T) -> bool)
    requires TotalPreorder(le) && !le(last, x)
    ensures !(EquivTo(c, le)(x) && EquivTo(c, le)(last))
  {
  }

  /** Stability: the elements equivalent to any `c` keep their relative order. */
  lemma {:induction false} SortByStable<T(!new)>(s: seq<T>, c: T, le: (T, T) -> bool)
    requires TotalPreorder(le)
    ensures Filter(SortBy(s, le), EquivTo(c, le)) == Filter(s, EquivTo(c, le))
  {
    if s != [] {
      var e := EquivTo(c, le);
      var init, last := s[..|s| - 1], s[|s| - 1];
      assert s == init + [last];
      calc {
        Filter(SortBy(s, le), e);
        Filter(Insert(SortBy(init, le), last, le), e);
        { InsertStable(SortBy(init, le), last, c, le); }
        Filter(SortBy(init, le), e) + Filter([last], e);
        { SortByStable(init, c, le); }
        Filter(init, e) + Filter([last], e);
        { FilterConcat(init, [last], e); }
        Filter(s, e);
      }
    }
  }

  /** Code-point lexicographic order on strings. */
  predicate LexLe(a: string, b: string) {
    a == [] || (b != [] && (a[0] < b[0] || (a[0] == b[0] && LexLe(a[1..], b[1..]))))
  }

  lemma {:induction false} LexLeTotal(a: string, b: string)
    ensures LexLe(a, b) || LexLe(b, a)
  {
    if a != [] && b != [] && a[0] == b[0] {
      LexLeTotal(a[1..], b[1..]);
    }
  }

  lemma {:induction false} LexLeTransitive(a: string, b: string, c: string)
    requires LexLe(a, b) && LexLe(b, c)
    ensures LexLe(a, c)
  {
    if a != [] && a[0] == b[0] && b[0] == c[0] {
      LexLeTransitive(a[1..], b[1..], c[1..]);
    }
  }

  lemma {:induction false} LexLeAntisymmetric(a: string, b: string)
    requires LexLe(a, b) && LexLe(b, a)
    ensures a == b
  {
    if a != [] {
      LexLeAntisymmetric(a[1..], b[1..]);
      assert a == [a[0]] + a[1..] && b == [b[0]] + b[1..];
    }
  }

  /** A non-empty finite set of integers has a least element. */
  lemma {:induction false} HasLeast(s: set<int>)
    requires s != {}
    ensures exists m :: m in s && forall x :: x in s ==> m <= x
  {
    assert exists y :: y in s by {
      if forall y :: y !in s {
        assert false;
      }
    }
    var y :| y in s;
    var rest := s - {y};
    assert forall x :: x in s ==> x == y || x in rest;
    if rest != {} {
      HasLeast(rest);
      var m :| m in rest && forall x :: x in rest ==> m <= x;
      var least := if y < m then y else m;
      assert forall x :: x in s ==> least <= x;
    }
  }

  /** The least element of a non-empty finite set of integers. */
  function Least(s: set<int>): (m: int)
    requires s != {}
    ensures m in s && forall x :: x in s ==> m <= x
  {
    HasLeast(s);
    var m :| m in s && forall x :: x in s ==> m <= x;
    m
  }

  /** The elements of a finite set of integers in ascending order: the row
      order of `ORDER BY` on an integer key. */
  function Ascending(s: set<int>): (r: seq<int>)
    ensures |r| == |s|
    ensures forall i :: 0 <= i < |r| ==> r[i] in s
    ensures forall k :: k in r <==> k in s
    ensures forall i, j :: 0 <= i < j < |r| ==> r[i] < r[j]
    decreases s
  {
    if s == {} then []
    else
      var m := Least(s);
      var rest := Ascending(s - {m});
      ConsAscending(m, rest, s);
      [m] + rest
  }

  /** Putting the least element in front of the others in ascending order
      gives all of them in ascending order. */
  lemma ConsAscending(m: int, rest: seq<int>, s: set<int>)
    requires m in s && forall x :: x in s ==> m <= x
    requires |rest| == |s - {m}|
    requires forall k :: k in rest <==> k in s - {m}
    requires forall i, j :: 0 <= i < j < |rest| ==> rest[i] < rest[j]
    ensures |[m] + rest| == |s|
    ensures forall k :: k in [m] + rest <==> k in s
    ensures forall i, j :: 0 <= i < j < |[m] + rest| ==> ([m] + rest)[i] < ([m] + rest)[j]
  {
    var r := [m] + rest;
    forall i, j | 0 <= i < j < |r| ensures r[i] < r[j] {
      if i == 0 {
        assert r[j] == rest[j - 1] && rest[j - 1] in rest;
      } else {
        assert r[i] == rest[i - 1] && r[j] == rest[j - 1];
      }
    }
  }

  /** Lists the elements of a finite set in some order, as a query returns the
      matching rows of a table; the order is chosen by the storage. */
  method Enumerate<K>(keys: set<K>) returns (r: seq<K>)
    ensures |r| == |keys|
    ensures forall i :: 0 <= i < |r| ==> r[i] in keys
    ensures forall k :: k in r <==> k in keys
    ensures forall i, j :: 0 <= i < j < |r| ==> r[i] != r[j]
  {
    r := [];
    var rest := keys;
    while rest != {}
      invariant rest !! set k | k in r
      invariant rest + (set k | k in r) == keys
      invariant |r| + |rest| == |keys|
      invariant forall i, j :: 0 <= i < j < |r| ==> r[i] != r[j]
      decreases |rest|
    {
      var k :| k in rest;
      ghost var seen := set x | x in r;
      assert k !in seen;
      r := r + [k];
      assert (set x | x in r) == seen + {k};
      rest := rest - {k};
    }
    assert forall k :: k in r ==> k in (set x | x in r);
  }
}
