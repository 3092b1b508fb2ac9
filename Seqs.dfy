/** `Array.prototype.filter`, subsequences, `includes`-based toggling and
    flattening, the list operations shared by the dashboard's modules. */
module Seqs {

  /** `xs.filter(p)`. */
  function Filter<T(==,!new)>(xs: seq<T>, p: T -> bool): (r: seq<T>)
    ensures |r| <= |xs|
    ensures forall x :: x in r <==> x in xs && p(x)
    ensures forall i :: 0 <= i < |r| ==> p(r[i])
  {
    if xs == [] then [] else (if p(xs[0]) then [xs[0]] else []) + Filter(xs[1..], p)
  }

  lemma {:induction false} FilterAppend<T(!new)>(xs: seq<T>, ys: seq<T>, p: T -> bool)
    ensures Filter(xs + ys, p) == Filter(xs, p) + Filter(ys, p)
  {
    if xs == [] {
      assert xs + ys == ys;
    } else {
      var h := if p(xs[0]) then [xs[0]] else [];
      assert (xs + ys)[0] == xs[0] && (xs + ys)[1..] == xs[1..] + ys;
      assert Filter(xs + ys, p) == h + Filter(xs[1..] + ys, p);
      FilterAppend(xs[1..], ys, p);
      assert h + (Filter(xs[1..], p) + Filter(ys, p)) == (h + Filter(xs[1..], p)) + Filter(ys, p);
    }
  }

  /** Filtering a list extended by one element. */
  lemma FilterSnoc<T(!new)>(xs: seq<T>, x: T, p: T -> bool)
    ensures Filter(xs + [x], p) == Filter(xs, p) + (if p(x) then [x] else [])
  {
    FilterAppend(xs, [x], p);
    assert [x][1..] == [];
  }

  /** One step of a loop over `xs` that keeps the elements satisfying `p`. */
  lemma FilterStep<T(!new)>(xs: seq<T>, i: nat, p: T -> bool)
    requires i < |xs|
    ensures Filter(xs[..i + 1], p) == Filter(xs[..i], p) + (if p(xs[i]) then [xs[i]] else [])
  {
    assert xs[..i + 1] == xs[..i] + [xs[i]];
    FilterSnoc(xs[..i], xs[i], p);
  }

  lemma {:induction false} FilterAll<T(!new)>(xs: seq<T>, p: T -> bool)
    requires forall x :: x in xs ==> p(x)
    ensures Filter(xs, p) == xs
  {
    if xs != [] { FilterAll(xs[1..], p); }
  }

  lemma {:induction false} FilterNone<T(!new)>(xs: seq<T>, p: T -> bool)
    requires forall x :: x in xs ==> !p(x)
    ensures Filter(xs, p) == []
  {
    if xs != [] { FilterNone(xs[1..], p); }
  }

  /** Filtering twice with the same predicate is filtering once. */
  lemma FilterIdempotent<T(!new)>(xs: seq<T>, p: T -> bool)
    ensures Filter(Filter(xs, p), p) == Filter(xs, p)
  {
    FilterAll(Filter(xs, p), p);
  }

  /** Two predicates that agree on the elements filter alike. */
  lemma {:induction false} FilterExt<T(!new)>(xs: seq<T>, p: T -> bool, q: T -> bool)
    requires forall x :: x in xs ==> p(x) == q(x)
    ensures Filter(xs, p) == Filter(xs, q)
  {
    if xs != [] { FilterExt(xs[1..], p, q); }
  }

  /** Filtering by `q` after `p` keeps the elements satisfying both. */
  lemma {:induction false} FilterFilter<T(!new)>(xs: seq<T>, p: T -> bool, q: T -> bool, pq: T -> bool)
    requires forall x :: x in xs ==> pq(x) == (p(x) && q(x))
    ensures Filter(Filter(xs, p), q) == Filter(xs, pq)
  {
    if xs != [] {
      FilterFilter(xs[1..], p, q, pq);
      FilterAppend(if p(xs[0]) then [xs[0]] else [], Filter(xs[1..], p), q);
    }
  }

  lemma {:induction false} FilterMultiset<T(!new)>(xs: seq<T>, p: T -> bool)
    ensures multiset(Filter(xs, p)) <= multiset(xs)
  {
    if xs != [] {
      FilterMultiset(xs[1..], p);
      assert xs == [xs[0]] + xs[1..];
    }
  }

  // ---------------------------------------------------------------------------
  // Subsequences

  /** `a` is `b` with some elements left out, the rest in their order. */
  predicate Subseq<T(==,!new)>(a: seq<T>, b: seq<T>)
    decreases |a| + |b|
  {
    if a == [] then true
    else if b == [] then false
    else (a[0] == b[0] && Subseq(a[1..], b[1..])) || Subseq(a, b[1..])
  }

  lemma {:induction false} SubseqRefl<T(!new)>(a: seq<T>)
    ensures Subseq(a, a)
  {
    if a != [] { SubseqRefl(a[1..]); }
  }

  lemma {:induction false} SubseqPrepend<T(!new)>(a: seq<T>, b: seq<T>, c: seq<T>)
    requires Subseq(a, b)
    ensures Subseq(a, c + b)
  {
    if c == [] {
      assert c + b == b;
    } else {
      SubseqPrepend(a, b, c[1..]);
      assert (c + b)[1..] == c[1..] + b;
    }
  }

  lemma {:induction false} SubseqAppend<T(!new)>(a1: seq<T>, b1: seq<T>, a2: seq<T>, b2: seq<T>)
    requires Subseq(a1, b1) && Subseq(a2, b2)
    ensures Subseq(a1 + a2, b1 + b2)
    decreases |a1| + |b1|
  {
    if a1 == [] {
      SubseqPrepend(a2, b2, b1);
      assert a1 + a2 == a2;
    } else {
      assert (b1 + b2)[1..] == b1[1..] + b2;
      if a1[0] == b1[0] && Subseq(a1[1..], b1[1..]) {
        SubseqAppend(a1[1..], b1[1..], a2, b2);
        assert (a1 + a2)[1..] == a1[1..] + a2;
      } else {
        SubseqAppend(a1, b1[1..], a2, b2);
      }
    }
  }

  lemma {:induction false} FilterSubseq<T(!new)>(xs: seq<T>, p: T -> bool)
    ensures Subseq(Filter(xs, p), xs)
  {
    if xs != [] {
      FilterSubseq(xs[1..], p);
      var head := if p(xs[0]) then [xs[0]] else [];
      if p(xs[0]) {
        assert Subseq(head, [xs[0]]);
      } else {
        assert Subseq(head, [xs[0]]);
      }
      SubseqAppend(head, [xs[0]], Filter(xs[1..], p), xs[1..]);
      assert [xs[0]] + xs[1..] == xs;
    }
  }

  lemma {:induction false} SubseqMembers<T(!new)>(a: seq<T>, b: seq<T>)
    requires Subseq(a, b)
    ensures forall x :: x in a ==> x in b
    decreases |a| + |b|
  {
    if a != [] {
      if a[0] == b[0] && Subseq(a[1..], b[1..]) {
        SubseqMembers(a[1..], b[1..]);
        assert a == [a[0]] + a[1..];
      } else {
        SubseqMembers(a, b[1..]);
      }
    }
  }

  // ---------------------------------------------------------------------------
  // Duplicates and toggling

  predicate NoDup<T(==,!new)>(xs: seq<T>)
  {
    forall i, j :: 0 <= i < j < |xs| ==> xs[i] != xs[j]
  }

  /** `xs.filter(e => e !== x)`. */
  function Remove<T(==,!new)>(xs: seq<T>, x: T): (r: seq<T>)
    ensures x !in r
  {
    Filter(xs, e => e != x)
  }

  /** The add-or-remove idiom `xs.includes(x) ? xs.filter(e => e !== x) :
      [...xs, x]` shared by the special-category and sidebar selections. */
  function Toggle<T(==,!new)>(xs: seq<T>, x: T): seq<T>
  {
    if x in xs then Remove(xs, x) else xs + [x]
  }

  /** Toggling an absent value appends it at the end. */
  lemma ToggleAbsent<T(!new)>(xs: seq<T>, x: T)
    requires x !in xs
    ensures Toggle(xs, x) == xs + [x]
  {
  }

  /** Toggling a present value removes every occurrence and nothing else. */
  lemma TogglePresent<T(!new)>(xs: seq<T>, x: T)
    requires x in xs
    ensures x !in Toggle(xs, x)
    ensures forall y :: y != x ==> (y in Toggle(xs, x) <==> y in xs)
    ensures Subseq(Toggle(xs, x), xs)
  {
    FilterSubseq(xs, e => e != x);
  }

  /** Two toggles of an absent value restore the list. */
  lemma ToggleTwice<T(!new)>(xs: seq<T>, x: T)
    requires x !in xs
    ensures Toggle(Toggle(xs, x), x) == xs
  {
    var p := e => e != x;
    FilterAppend(xs, [x], p);
    FilterAll(xs, p);
  }

  lemma {:induction false} FilterNoDup<T(!new)>(xs: seq<T>, p: T -> bool)
    requires NoDup(xs)
    ensures NoDup(Filter(xs, p))
  {
    if xs != [] {
      assert NoDup(xs[1..]) by {
        forall i, j | 0 <= i < j < |xs[1..]| ensures xs[1..][i] != xs[1..][j] {
          assert xs[1..][i] == xs[i + 1] && xs[1..][j] == xs[j + 1];
        }
      }
      FilterNoDup(xs[1..], p);
      assert xs[0] !in xs[1..] by {
        forall k | 0 <= k < |xs[1..]| ensures xs[1..][k] != xs[0] {
          assert xs[1..][k] == xs[k + 1];
        }
      }
    }
  }

  /** Toggling keeps a list free of duplicates. */
  lemma ToggleNoDup<T(!new)>(xs: seq<T>, x: T)
    requires NoDup(xs)
    ensures NoDup(Toggle(xs, x))
  {
    if x in xs { FilterNoDup(xs, e => e != x); }
  }

  // ---------------------------------------------------------------------------
  // Flattening

  /** `[].concat(...xss)`, the result of repeated `push(...items)`. */
  function Flatten<T(==,!new)>(xss: seq<seq<T>>): seq<T>
  {
    if xss == [] then [] else xss[0] + Flatten(xss[1..])
  }

  lemma {:induction false} FlattenAppend<T(!new)>(xss: seq<seq<T>>, yss: seq<seq<T>>)
    ensures Flatten(xss + yss) == Flatten(xss) + Flatten(yss)
  {
    if xss == [] {
      assert xss + yss == yss;
    } else {
      assert (xss + yss)[0] == xss[0] && (xss + yss)[1..] == xss[1..] + yss;
      FlattenAppend(xss[1..], yss);
    }
  }

  lemma {:induction false} FlattenMembers<T(!new)>(xss: seq<seq<T>>, x: T)
    ensures x in Flatten(xss) <==> exists k :: 0 <= k < |xss| && x in xss[k]
  {
    if xss != [] {
      FlattenMembers(xss[1..], x);
      if x in xss[0] {
      } else if x in Flatten(xss[1..]) {
        var k :| 0 <= k < |xss[1..]| && x in xss[1..][k];
        assert x in xss[k + 1];
      } else {
        forall k | 0 <= k < |xss| ensures x !in xss[k] {
          if k > 0 { assert xss[k] == xss[1..][k - 1]; }
        }
      }
    }
  }

  // ---------------------------------------------------------------------------
  // Keeping the first element per key

  /** The keys of the elements of `xs`. */
  function KeySet<T(==,!new), K(==)>(xs: seq<T>, key: T -> K): set<K>
  {
    set x | x in xs :: key(x)
  }

  lemma KeySetSnoc<T(!new), K>(xs: seq<T>, x: T, key: T -> K)
    ensures KeySet(xs + [x], key) == KeySet(xs, key) + {key(x)}
  {
    assert forall y :: y in xs + [x] <==> y in xs || y == x;
  }

  /** Sequences with the same members have the same keys. */
  lemma KeySetSameMembers<T(!new), K>(a: seq<T>, b: seq<T>, key: T -> K)
    requires forall x :: x in a <==> x in b
    ensures KeySet(a, key) == KeySet(b, key)
  {
  }

  /** The elements whose key no earlier element has: what a `seen` set or an
      insertion-ordered `Map`/`Set` keeps. */
  function FirstBy<T(==,!new), K(==)>(xs: seq<T>, key: T -> K): seq<T>
  {
    if xs == [] then []
    else
      var p, x := xs[..|xs| - 1], xs[|xs| - 1];
      if key(x) in KeySet(p, key) then FirstBy(p, key) else FirstBy(p, key) + [x]
  }

  /** One more element is kept exactly when its key is new. */
  lemma FirstByStep<T(!new), K>(xs: seq<T>, i: nat, key: T -> K)
    requires i < |xs|
    ensures KeySet(xs[..i + 1], key) == KeySet(xs[..i], key) + {key(xs[i])}
    ensures FirstBy(xs[..i + 1], key) ==
      if key(xs[i]) in KeySet(xs[..i], key) then FirstBy(xs[..i], key) else FirstBy(xs[..i], key) + [xs[i]]
  {
    var next := xs[..i + 1];
    assert next[..|next| - 1] == xs[..i] && next[|next| - 1] == xs[i];
    assert next == xs[..i] + [xs[i]];
    KeySetSnoc(xs[..i], xs[i], key);
  }

  /** The kept elements are the input with some elements left out. */
  lemma {:induction false} FirstBySubseq<T(!new), K>(xs: seq<T>, key: T -> K)
    ensures Subseq(FirstBy(xs, key), xs)
  {
    if xs == [] {
    } else {
      var p, x := xs[..|xs| - 1], xs[|xs| - 1];
      FirstBySubseq(p, key);
      assert xs == p + [x];
      SubseqRefl([x]);
      if key(x) in KeySet(p, key) {
        SubseqAppend(FirstBy(p, key), p, [], [x]);
        assert FirstBy(p, key) + [] == FirstBy(p, key);
      } else {
        SubseqAppend(FirstBy(p, key), p, [x], [x]);
      }
    }
  }

  /** Every key of the input is kept, and no other. */
  lemma {:induction false} FirstByKeys<T(!new), K>(xs: seq<T>, key: T -> K)
    ensures KeySet(FirstBy(xs, key), key) == KeySet(xs, key)
  {
    if xs != [] {
      var p, x := xs[..|xs| - 1], xs[|xs| - 1];
      FirstByKeys(p, key);
      assert xs == p + [x];
      KeySetSnoc(p, x, key);
      if key(x) !in KeySet(p, key) {
        KeySetSnoc(FirstBy(p, key), x, key);
      }
    }
  }

  /** No two kept elements share a key. */
  lemma {:induction false} FirstByDistinct<T(!new), K>(xs: seq<T>, key: T -> K)
    ensures var r := FirstBy(xs, key);
      forall i, j :: 0 <= i < j < |r| ==> key(r[i]) != key(r[j])
  {
    if xs != [] {
      var p, x := xs[..|xs| - 1], xs[|xs| - 1];
      FirstByDistinct(p, key);
      if key(x) !in KeySet(p, key) {
        FirstByKeys(p, key);
        var q := FirstBy(p, key);
        assert forall i :: 0 <= i < |q| ==> key(q[i]) in KeySet(q, key);
      }
    }
  }

  /** Every kept element is the first of the input with its key. */
  lemma {:induction false} FirstByFirst<T(!new), K>(xs: seq<T>, key: T -> K)
    ensures forall i :: 0 <= i < |FirstBy(xs, key)| ==>
      exists j :: 0 <= j < |xs| && xs[j] == FirstBy(xs, key)[i] && forall l :: 0 <= l < j ==> key(xs[l]) != key(xs[j])
  {
    if xs != [] {
      var n := |xs| - 1;
      var p, x := xs[..n], xs[n];
      FirstByFirst(p, key);
      var r, q := FirstBy(xs, key), FirstBy(p, key);
      assert |q| <= |r| && forall i :: 0 <= i < |q| ==> r[i] == q[i];
      forall i | 0 <= i < |r|
        ensures exists j :: 0 <= j < |xs| && xs[j] == r[i] && forall l :: 0 <= l < j ==> key(xs[l]) != key(xs[j])
      {
        if i < |q| {
          assert q[i] == r[i];
          var j :| 0 <= j < |p| && p[j] == q[i] && forall l :: 0 <= l < j ==> key(p[l]) != key(p[j]);
          assert xs[j] == r[i];
          assert forall l :: 0 <= l < j ==> xs[l] == p[l];
        } else {
          assert r[i] == x && key(x) !in KeySet(p, key);
          forall l | 0 <= l < n ensures key(xs[l]) != key(xs[n]) {
            assert xs[l] == p[l] && p[l] in p;
          }
          assert 0 <= n < |xs| && xs[n] == r[i];
        }
      }
    } else {
      assert FirstBy(xs, key) == [];
    }
  }
}

