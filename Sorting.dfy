/** A stable sort for a comparator that is a total preorder. Every sort
    modelled here is given such a comparator. `Array.prototype.sort` is
    stable, and a stable sort's output is determined by its input and its
    comparator (`SortStable`, `SortDetermined`), so this insertion sort
    gives the same result. */
module Sorting {
  import opened Seqs

  ghost predicate TotalPreorder<T(!new)>(le: (T, T) -> bool)
  {
    && (forall a, b :: le(a, b) || le(b, a))
    && (forall a, b, c :: le(a, b) && le(b, c) ==> le(a, c))
  }

  predicate SortedBy<T>(s: seq<T>, le: (T, T) -> bool)
  {
    forall i, j :: 0 <= i < j < |s| ==> le(s[i], s[j])
  }

  /** Inserts `x` before the first element it may precede, so that `x` stays
      in front of the elements equivalent to it. */
  function Insert<T>(x: T, s: seq<T>, le: (T, T) -> bool): (r: seq<T>)
    ensures multiset(r) == multiset(s) + multiset{x}
    ensures |r| == |s| + 1
  {
    if s == [] then [x]
    else if le(x, s[0]) then [x] + s
    else
      assert s == [s[0]] + s[1..];
      [s[0]] + Insert(x, s[1..], le)
  }

  lemma {:induction false} InsertSorted<T(!new)>(x: T, s: seq<T>, le: (T, T) -> bool)
    requires TotalPreorder(le) && SortedBy(s, le)
    ensures SortedBy(Insert(x, s, le), le)
  {
    if s != [] {
      if le(x, s[0]) {
        var r := [x] + s;
        forall i, j | 0 <= i < j < |r| ensures le(r[i], r[j]) {
          if i == 0 { assert le(x, s[0]) && (j == 1 || le(s[0], s[j - 1])); }
          else { assert r[i] == s[i - 1] && r[j] == s[j - 1]; }
        }
      } else {
        assert SortedBy(s[1..], le);
        InsertSorted(x, s[1..], le);
        var rest := Insert(x, s[1..], le);
        var r := [s[0]] + rest;
        forall k | 0 <= k < |rest| ensures le(s[0], rest[k]) {
          assert rest[k] in multiset(rest);
          if rest[k] == x {
          } else {
            assert rest[k] in multiset(s[1..]);
            var m :| 0 <= m < |s[1..]| && s[1..][m] == rest[k];
            assert s[m + 1] == rest[k];
          }
        }
        forall i, j | 0 <= i < j < |r| ensures le(r[i], r[j]) {
          if i == 0 { assert r[j] == rest[j - 1]; }
          else { assert r[i] == rest[i - 1] && r[j] == rest[j - 1]; }
        }
      }
    }
  }

  /** The stable sort of `s` by `le`. */
  function Sort<T>(s: seq<T>, le: (T, T) -> bool): (r: seq<T>)
    ensures multiset(r) == multiset(s)
    ensures |r| == |s|
  {
    if s == [] then []
    else
      assert s == [s[0]] + s[1..];
      Insert(s[0], Sort(s[1..], le), le)
  }

  /** The result is ordered by `le` and holds exactly the input elements. */
  lemma {:induction false} SortSorted<T(!new)>(s: seq<T>, le: (T, T) -> bool)
    requires TotalPreorder(le)
    ensures SortedBy(Sort(s, le), le)
  {
    if s != [] {
      SortSorted(s[1..], le);
      InsertSorted(s[0], Sort(s[1..], le), le);
    }
  }

  lemma SortMembers<T(!new)>(s: seq<T>, le: (T, T) -> bool)
    ensures forall x :: x in Sort(s, le) <==> x in s
  {
    var r := Sort(s, le);
    forall x ensures x in r <==> x in s {
      assert x in r <==> x in multiset(r);
      assert x in s <==> x in multiset(s);
    }
  }

  predicate DistinctBy<T, K(==)>(s: seq<T>, key: T -> K)
  {
    forall i, j :: 0 <= i < j < |s| ==> key(s[i]) != key(s[j])
  }

  lemma ConsDistinct<T(!new), K>(h: T, rest: seq<T>, key: T -> K)
    requires DistinctBy(rest, key) && forall y :: y in rest ==> key(y) != key(h)
    ensures DistinctBy([h] + rest, key)
  {
    var r := [h] + rest;
    forall i, j | 0 <= i < j < |r| ensures key(r[i]) != key(r[j]) {
      if i == 0 { assert r[j] == rest[j - 1] && rest[j - 1] in rest; }
      else { assert r[i] == rest[i - 1] && r[j] == rest[j - 1]; }
    }
  }

  lemma InsertMembers<T(!new)>(x: T, s: seq<T>, le: (T, T) -> bool)
    ensures forall y :: y in Insert(x, s, le) <==> y == x || y in s
  {
    var r := Insert(x, s, le);
    forall y ensures y in r <==> y == x || y in s {
      assert y in r <==> y in multiset(r);
      assert y in s <==> y in multiset(s);
    }
  }

  lemma HeadKeyFresh<T(!new), K>(s: seq<T>, key: T -> K, y: T)
    requires s != [] && DistinctBy(s, key) && y in s[1..]
    ensures key(y) != key(s[0])
  {
    var m :| 0 <= m < |s[1..]| && s[1..][m] == y;
    assert s[m + 1] == y;
  }

  lemma {:induction false} InsertDistinct<T(!new), K>(x: T, s: seq<T>, le: (T, T) -> bool, key: T -> K)
    requires DistinctBy(s, key) && forall y :: y in s ==> key(y) != key(x)
    ensures DistinctBy(Insert(x, s, le), key)
  {
    if s == [] || le(x, s[0]) {
      ConsDistinct(x, s, key);
    } else {
      assert DistinctBy(s[1..], key);
      InsertDistinct(x, s[1..], le, key);
      var rest := Insert(x, s[1..], le);
      InsertMembers(x, s[1..], le);
      forall y | y in rest ensures key(y) != key(s[0]) {
        if y != x { HeadKeyFresh(s, key, y); }
      }
      ConsDistinct(s[0], rest, key);
    }
  }

  /** Sorting keeps elements with distinct keys distinct. */
  lemma {:induction false} SortDistinct<T(!new), K>(s: seq<T>, le: (T, T) -> bool, key: T -> K)
    requires DistinctBy(s, key)
    ensures DistinctBy(Sort(s, le), key)
  {
    if s != [] {
      assert DistinctBy(s[1..], key);
      SortDistinct(s[1..], le, key);
      SortMembers(s[1..], le);
      forall y | y in Sort(s[1..], le) ensures key(y) != key(s[0]) {
        HeadKeyFresh(s, key, y);
      }
      InsertDistinct(s[0], Sort(s[1..], le), le, key);
    }
  }
  /** The elements equivalent to `e` under `le`. */
  function Tied<T>(le: (T, T) -> bool, e: T): T -> bool
  {
    y => le(y, e) && le(e, y)
  }

  lemma FilterCons<T(!new)>(h: T, t: seq<T>, p: T -> bool)
    ensures Filter([h] + t, p) == (if p(h) then [h] else []) + Filter(t, p)
  {
    assert ([h] + t)[0] == h && ([h] + t)[1..] == t;
  }

  /** Inserting an `x` that fails `p` leaves the elements satisfying `p`
      as they were. */
  lemma {:induction false} InsertFilterOut<T(!new)>(x: T, s: seq<T>, le: (T, T) -> bool, p: T -> bool)
    requires !p(x)
    ensures Filter(Insert(x, s, le), p) == Filter(s, p)
  {
    if s == [] {
      FilterCons(x, [], p);
    } else if le(x, s[0]) {
      FilterCons(x, s, p);
    } else {
      var rest := Insert(x, s[1..], le);
      InsertFilterOut(x, s[1..], le, p);
      FilterCons(s[0], rest, p);
    }
  }

  /** Inserting an `x` that satisfies `p` and may precede every element
      that does puts it in front of them. */
  lemma {:induction false} InsertFilterIn<T(!new)>(x: T, s: seq<T>, le: (T, T) -> bool, p: T -> bool)
    requires p(x) && forall y :: p(y) ==> le(x, y)
    ensures Filter(Insert(x, s, le), p) == [x] + Filter(s, p)
  {
    if s == [] {
      FilterCons(x, [], p);
    } else if le(x, s[0]) {
      FilterCons(x, s, p);
    } else {
      var rest := Insert(x, s[1..], le);
      InsertFilterIn(x, s[1..], le, p);
      assert !p(s[0]);
      FilterCons(s[0], rest, p);
      assert Filter(Insert(x, s, le), p) == Filter(rest, p);
      assert Filter(s, p) == Filter(s[1..], p);
    }
  }

  /** Inserting `x` keeps the elements satisfying `p` in order, and puts
      `x` in front of them when it satisfies `p` and may precede them all. */
  lemma InsertFilter<T(!new)>(x: T, s: seq<T>, le: (T, T) -> bool, p: T -> bool)
    requires p(x) ==> forall y :: p(y) ==> le(x, y)
    ensures Filter(Insert(x, s, le), p) == (if p(x) then [x] else []) + Filter(s, p)
  {
    if p(x) { InsertFilterIn(x, s, le, p); } else { InsertFilterOut(x, s, le, p); }
  }

  /** An element equivalent to `e` may precede every element that is. */
  lemma TiesOrdered<T(!new)>(le: (T, T) -> bool, e: T, x: T)
    requires TotalPreorder(le)
    ensures Tied(le, e)(x) ==> forall y :: Tied(le, e)(y) ==> le(x, y)
  {
  }

  /** The sort is stable: the elements equivalent to any `e` come out in
      their input order. */
  lemma {:induction false} SortStable<T(!new)>(s: seq<T>, le: (T, T) -> bool, e: T)
    ensures TotalPreorder(le) ==> Filter(Sort(s, le), Tied(le, e)) == Filter(s, Tied(le, e))
  {
    if s != [] && TotalPreorder(le) {
      SortStable(s[1..], le, e);
      TiesOrdered(le, e, s[0]);
      InsertFilter(s[0], Sort(s[1..], le), le, Tied(le, e));
    }
  }

  lemma HeadTied<T(!new)>(t: seq<T>, le: (T, T) -> bool, x: T)
    requires TotalPreorder(le) && SortedBy(t, le) && t != [] && x in t
    ensures le(t[0], x)
  {
    var k :| 0 <= k < |t| && t[k] == x;
    if k == 0 { assert le(x, x) || le(x, x); }
  }

  lemma SelfTied<T(!new)>(le: (T, T) -> bool, x: T)
    requires TotalPreorder(le)
    ensures Tied(le, x)(x)
  {
    assert le(x, x) || le(x, x);
  }

  /** Filters of two sequences with the same head agree on their tails when
      they agree on the whole. */
  lemma FilterTail<T(!new)>(t: seq<T>, r: seq<T>, p: T -> bool)
    requires t != [] && r != [] && t[0] == r[0] && Filter(t, p) == Filter(r, p)
    ensures Filter(t[1..], p) == Filter(r[1..], p)
  {
    var h := if p(t[0]) then [t[0]] else [];
    var ft, fr := Filter(t[1..], p), Filter(r[1..], p);
    assert Filter(t, p) == h + ft && Filter(r, p) == h + fr;
    assert ft == (h + ft)[|h|..] && fr == (h + fr)[|h|..];
  }

  /** Two ordered sequences with the same elements in each class of
      equivalent elements are equal. */
  lemma {:induction false} SortedTiesUnique<T(!new)>(t: seq<T>, r: seq<T>, le: (T, T) -> bool)
    requires TotalPreorder(le) && SortedBy(t, le) && SortedBy(r, le)
    requires forall e :: Filter(t, Tied(le, e)) == Filter(r, Tied(le, e))
    ensures t == r
  {
    if t == [] || r == [] {
      var u := if t == [] then r else t;
      if u != [] {
        var p := Tied(le, u[0]);
        SelfTied(le, u[0]);
        assert false;
      }
    } else {
      var p, q := Tied(le, t[0]), Tied(le, r[0]);
      SelfTied(le, t[0]);
      SelfTied(le, r[0]);
      assert Filter(t, q) == Filter(r, q);
      assert r[0] in Filter(r, q);
      HeadTied(t, le, r[0]);
      assert Filter(t, p) == Filter(r, p);
      assert t[0] in Filter(r, p);
      HeadTied(r, le, t[0]);
      assert p(r[0]);
      assert Filter(t, p)[0] == t[0] && Filter(r, p)[0] == r[0];
      forall e ensures Filter(t[1..], Tied(le, e)) == Filter(r[1..], Tied(le, e)) {
        assert Filter(t, Tied(le, e)) == Filter(r, Tied(le, e));
        FilterTail(t, r, Tied(le, e));
      }
      assert SortedBy(t[1..], le) && SortedBy(r[1..], le);
      SortedTiesUnique(t[1..], r[1..], le);
      assert t == [t[0]] + t[1..] && r == [r[0]] + r[1..];
    }
  }

  /** Any stable sort gives what `Sort` gives: an arrangement of `s` that is
      ordered by `le` and keeps each class of equivalent elements in its
      input order is `Sort(s, le)`. */
  lemma SortDetermined<T(!new)>(s: seq<T>, t: seq<T>, le: (T, T) -> bool)
    requires TotalPreorder(le) && SortedBy(t, le)
    requires forall e :: Filter(t, Tied(le, e)) == Filter(s, Tied(le, e))
    ensures t == Sort(s, le)
  {
    SortSorted(s, le);
    forall e ensures Filter(t, Tied(le, e)) == Filter(Sort(s, le), Tied(le, e)) {
      SortStable(s, le, e);
    }
    SortedTiesUnique(t, Sort(s, le), le);
  }
}
