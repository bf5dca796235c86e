/**
 * SQLite's `ORDER BY` on TEXT columns with the default BINARY collation:
 * strings compare character by character by code point (the order of their
 * UTF-8 bytes), a proper prefix first. Rows with equal keys may come in any
 * order; the sort below picks one of the allowed orders.
 */
module Ordering {

  /** `a <= b` in code-point order. */
  predicate LexLe(a: string, b: string) {
    a == [] || (b != [] && (a[0] < b[0] || (a[0] == b[0] && LexLe(a[1..], b[1..]))))
  }

  lemma {:induction false} LexLeRefl(a: string)
    ensures LexLe(a, a)
  {
    if a != [] {
      LexLeRefl(a[1..]);
    }
  }

  lemma {:induction false} LexLeTotal(a: string, b: string)
    ensures LexLe(a, b) || LexLe(b, a)
  {
    if a != [] && b != [] && a[0] == b[0] {
      LexLeTotal(a[1..], b[1..]);
    }
  }

  lemma {:induction false} LexLeAntisymmetric(a: string, b: string)
    requires LexLe(a, b) && LexLe(b, a)
    ensures a == b
  {
    if a != [] && b != [] {
      LexLeAntisymmetric(a[1..], b[1..]);
      assert a == [a[0]] + a[1..] && b == [b[0]] + b[1..];
    }
  }

  lemma {:induction false} LexLeTransitive(a: string, b: string, c: string)
    requires LexLe(a, b) && LexLe(b, c)
    ensures LexLe(a, c)
  {
    if a != [] && b != [] && c != [] && a[0] == b[0] && b[0] == c[0] {
      LexLeTransitive(a[1..], b[1..], c[1..]);
    }
  }

  /** A common prefix does not change the comparison. */
  lemma {:induction false} LexLeCommonPrefix(p: string, a: string, b: string)
    ensures LexLe(p + a, p + b) <==> LexLe(a, b)
  {
    if p != [] {
      assert (p + a)[1..] == p[1..] + a && (p + b)[1..] == p[1..] + b;
      LexLeCommonPrefix(p[1..], a, b);
    } else {
      assert p + a == a && p + b == b;
    }
  }

  /** Between texts of equal length, a common suffix does not change the order. */
  lemma {:induction false} LexLeCommonSuffix(a: string, b: string, z: string)
    requires |a| == |b|
    ensures LexLe(a + z, b + z) <==> LexLe(a, b)
  {
    if a == [] {
      assert a + z == z && b + z == z;
      LexLeRefl(z);
    } else {
      assert (a + z)[0] == a[0] && (b + z)[0] == b[0];
      assert (a + z)[1..] == a[1..] + z && (b + z)[1..] == b[1..] + z;
      LexLeCommonSuffix(a[1..], b[1..], z);
    }
  }

  /** At the first difference the smaller character decides, whatever follows. */
  lemma LexLtAtDifference(p: string, x: char, y: char, a: string, b: string)
    requires x < y
    ensures LexLe(p + [x] + a, p + [y] + b) && !LexLe(p + [y] + b, p + [x] + a)
  {
    assert p + [x] + a == p + ([x] + a) && p + [y] + b == p + ([y] + b);
    LexLeCommonPrefix(p, [x] + a, [y] + b);
    LexLeCommonPrefix(p, [y] + b, [x] + a);
  }

  // ---------------------------------------------------------------------
  // Sorting rows by a text key

  /** `x` may come before `y`: ascending or descending by the key. */
  predicate Before<T>(x: T, y: T, key: T -> string, ascending: bool) {
    if ascending then LexLe(key(x), key(y)) else LexLe(key(y), key(x))
  }

  predicate SortedBy<T>(xs: seq<T>, key: T -> string, ascending: bool) {
    forall i, j :: 0 <= i < j < |xs| ==> Before(xs[i], xs[j], key, ascending)
  }

  /** `x` put in place in a sorted sequence. */
  function Insert<T(==)>(x: T, xs: seq<T>, key: T -> string, ascending: bool): (r: seq<T>)
    requires SortedBy(xs, key, ascending)
    ensures multiset(r) == multiset(xs) + multiset{x}
    ensures SortedBy(r, key, ascending)
  {
    if xs == [] then [x]
    else if Before(x, xs[0], key, ascending) then
      BeforeAll(x, xs, key, ascending);
      [x] + xs
    else
      var rest := Insert(x, xs[1..], key, ascending);
      InsertStep(x, xs, rest, key, ascending);
      [xs[0]] + rest
  }

  /** `x` goes after the front: the front followed by `x` inserted into the rest is sorted and holds `x` besides `xs`. */
  lemma InsertStep<T>(x: T, xs: seq<T>, rest: seq<T>, key: T -> string, ascending: bool)
    requires SortedBy(xs, key, ascending) && xs != [] && !Before(x, xs[0], key, ascending)
    requires multiset(rest) == multiset(xs[1..]) + multiset{x} && SortedBy(rest, key, ascending)
    ensures multiset([xs[0]] + rest) == multiset(xs) + multiset{x}
    ensures SortedBy([xs[0]] + rest, key, ascending)
  {
    var tail := xs[1..];
    assert xs == [xs[0]] + tail;
    assert Before(xs[0], x, key, ascending) by {
      LexLeTotal(key(x), key(xs[0]));
    }
    forall k | 0 <= k < |tail| ensures Before(xs[0], tail[k], key, ascending) {
      assert tail[k] == xs[k + 1];
    }
    BeforeInserted(xs[0], x, tail, rest, key, ascending);
    var r := [xs[0]] + rest;
    forall i, j | 0 <= i < j < |r| ensures Before(r[i], r[j], key, ascending) {
      assert r[j] == rest[j - 1];
      if i > 0 {
        assert r[i] == rest[i - 1];
      }
    }
  }

  /** What may precede `x` and every element of `tail` may precede `tail` with `x` inserted. */
  lemma BeforeInserted<T>(y: T, x: T, tail: seq<T>, rest: seq<T>, key: T -> string, ascending: bool)
    requires Before(y, x, key, ascending) && multiset(rest) == multiset(tail) + multiset{x}
    requires forall k :: 0 <= k < |tail| ==> Before(y, tail[k], key, ascending)
    ensures forall k :: 0 <= k < |rest| ==> Before(y, rest[k], key, ascending)
  {
    forall k | 0 <= k < |rest| ensures Before(y, rest[k], key, ascending) {
      assert rest[k] in multiset(rest);
      if rest[k] != x {
        assert rest[k] in multiset(tail);
        var j :| 0 <= j < |tail| && tail[j] == rest[k];
      }
    }
  }

  /** Whatever may precede the front of a sorted sequence may precede all of it. */
  lemma BeforeAll<T>(x: T, xs: seq<T>, key: T -> string, ascending: bool)
    requires SortedBy(xs, key, ascending) && xs != [] && Before(x, xs[0], key, ascending)
    ensures forall j :: 0 <= j < |xs| ==> Before(x, xs[j], key, ascending)
  {
    forall j | 0 < j < |xs| ensures Before(x, xs[j], key, ascending) {
      if ascending {
        LexLeTransitive(key(x), key(xs[0]), key(xs[j]));
      } else {
        LexLeTransitive(key(xs[j]), key(xs[0]), key(x));
      }
    }
  }

  /** `ORDER BY key ASC` or `DESC`: the same rows, sorted. */
  function SortBy<T(==)>(xs: seq<T>, key: T -> string, ascending: bool): (r: seq<T>)
    ensures multiset(r) == multiset(xs)
    ensures |r| == |xs|
    ensures SortedBy(r, key, ascending)
  {
    if xs == [] then []
    else
      assert xs == [xs[0]] + xs[1..];
      var r := Insert(xs[0], SortBy(xs[1..], key, ascending), key, ascending);
      assert |r| == |multiset(r)|;
      r
  }

  /** Removing one element keeps a sequence sorted. */
  lemma SortedWithout<T>(ys: seq<T>, key: T -> string, ascending: bool, i: nat)
    requires SortedBy(ys, key, ascending) && i < |ys|
    ensures SortedBy(ys[..i] + ys[i + 1..], key, ascending)
  {
    var ys' := ys[..i] + ys[i + 1..];
    forall p, q | 0 <= p < q < |ys'| ensures Before(ys'[p], ys'[q], key, ascending) {
      var p', q' := if p < i then p else p + 1, if q < i then q else q + 1;
      assert ys'[p] == ys[p'] && ys'[q] == ys[q'];
    }
  }

  /** Taking the front of one sequence and position `i` of another out of equal multisets leaves equal multisets. */
  lemma MultisetWithout<T>(xs: seq<T>, ys: seq<T>, i: nat)
    requires multiset(xs) == multiset(ys) && xs != [] && i < |ys| && ys[i] == xs[0]
    ensures multiset(xs[1..]) == multiset(ys[..i] + ys[i + 1..])
  {
    var a, b, x := multiset(xs[1..]), multiset(ys[..i] + ys[i + 1..]), multiset{xs[0]};
    assert xs == [xs[0]] + xs[1..];
    assert multiset(xs) == x + a;
    assert ys == ys[..i] + [ys[i]] + ys[i + 1..];
    assert multiset(ys) == multiset(ys[..i]) + x + multiset(ys[i + 1..]);
    assert multiset(ys) == x + b;
    assert a == (x + a) - x == (x + b) - x == b;
  }

  /** Both sorted orders start with a key that is least (or greatest) among the same rows. */
  lemma SameFrontKey<T>(xs: seq<T>, ys: seq<T>, key: T -> string, ascending: bool, i: nat)
    requires SortedBy(xs, key, ascending) && SortedBy(ys, key, ascending)
    requires xs != [] && i < |ys| && ys[i] == xs[0] && ys[0] in xs
    ensures key(xs[0]) == key(ys[0])
  {
    var x := xs[0];
    var j :| 0 <= j < |xs| && xs[j] == ys[0];
    if i > 0 { assert Before(ys[0], ys[i], key, ascending); } else { LexLeRefl(key(x)); }
    if j > 0 { assert Before(xs[0], xs[j], key, ascending); } else { LexLeRefl(key(x)); }
    LexLeAntisymmetric(key(x), key(ys[0]));
  }

  /** Two sorted orders of the same rows agree on their keys, position by position. */
  lemma {:induction false} SortedKeysUnique<T>(xs: seq<T>, ys: seq<T>, key: T -> string, ascending: bool)
    requires multiset(xs) == multiset(ys)
    requires SortedBy(xs, key, ascending) && SortedBy(ys, key, ascending)
    ensures |xs| == |ys|
    ensures forall k :: 0 <= k < |xs| ==> key(xs[k]) == key(ys[k])
  {
    assert |xs| == |multiset(xs)| == |multiset(ys)| == |ys|;
    if xs != [] {
      var x := xs[0];
      assert x in multiset(ys) && ys[0] in multiset(xs);
      var i :| 0 <= i < |ys| && ys[i] == x;
      SameFrontKey(xs, ys, key, ascending, i);
      var ys' := ys[..i] + ys[i + 1..];
      MultisetWithout(xs, ys, i);
      SortedWithout(ys, key, ascending, i);
      SortedKeysUnique(xs[1..], ys', key, ascending);
      ShiftedKeys(xs, ys, key, ascending, i);
    }
  }

  /** The shifted comparison: after the front, `xs` matches `ys` with position `i` taken out. */
  lemma ShiftedKeys<T>(xs: seq<T>, ys: seq<T>, key: T -> string, ascending: bool, i: nat)
    requires SortedBy(ys, key, ascending)
    requires |xs| == |ys| && i < |ys| && key(ys[i]) == key(ys[0]) && key(xs[0]) == key(ys[0])
    requires forall k :: 0 <= k < |xs| - 1 ==> key(xs[1..][k]) == key((ys[..i] + ys[i + 1..])[k])
    ensures forall k :: 0 <= k < |xs| ==> key(xs[k]) == key(ys[k])
  {
    var ys' := ys[..i] + ys[i + 1..];
    forall k | 0 < k < |xs| ensures key(xs[k]) == key(ys[k]) {
      assert xs[k] == xs[1..][k - 1];
      if k <= i {
        assert ys'[k - 1] == ys[k - 1];
        FrontKey(ys, key, ascending, i, k - 1);
        FrontKey(ys, key, ascending, i, k);
      } else {
        assert ys'[k - 1] == ys[k];
      }
    }
  }

  /** In a sorted sequence, every key from the front up to a position holding the front's key is that key. */
  lemma FrontKey<T>(ys: seq<T>, key: T -> string, ascending: bool, i: nat, m: nat)
    requires SortedBy(ys, key, ascending)
    requires m <= i < |ys| && key(ys[i]) == key(ys[0])
    ensures key(ys[m]) == key(ys[0])
  {
    if 0 < m < i {
      assert Before(ys[0], ys[m], key, ascending) && Before(ys[m], ys[i], key, ascending);
      LexLeAntisymmetric(key(ys[m]), key(ys[0]));
    }
  }
}
