/**
 * The row filter shared by the table queries: a `WHERE` clause keeps the
 * rows that pass its test, each as often as it is stored, in table order.
 */
module Query {

  /** The rows of `rows` that pass `keep`, in their order. */
  function Where<T(==,!new)>(rows: seq<T>, keep: T -> bool): (r: seq<T>)
    ensures forall x :: x in r <==> x in rows && keep(x)
    ensures forall x :: multiset(r)[x] == if keep(x) then multiset(rows)[x] else 0
  {
    if rows == [] then []
    else
      var tail := rows[1..];
      assert rows == [rows[0]] + tail;
      (if keep(rows[0]) then [rows[0]] else []) + Where(tail, keep)
  }

  /** A single row is kept exactly when it passes. */
  lemma WhereOne<T(!new)>(x: T, keep: T -> bool)
    ensures Where([x], keep) == if keep(x) then [x] else []
  {
    assert [x][1..] == [];
  }

  /** The first row is kept or dropped on its own; the rest are filtered after it. */
  lemma WhereCons<T(!new)>(x: T, rest: seq<T>, keep: T -> bool)
    ensures Where([x] + rest, keep) == (if keep(x) then [x] else []) + Where(rest, keep)
  {
    assert ([x] + rest)[1..] == rest;
  }

  /** Filtering works block by block: the kept rows of each block stay in order, one block after the other. */
  lemma {:induction false} WhereAppend<T(!new)>(a: seq<T>, b: seq<T>, keep: T -> bool)
    ensures Where(a + b, keep) == Where(a, keep) + Where(b, keep)
  {
    if a == [] {
      assert a + b == b;
    } else {
      assert (a + b)[1..] == a[1..] + b;
      WhereAppend(a[1..], b, keep);
    }
  }

  /** The filter returns at most as many rows as it is given. */
  lemma {:induction false} WhereLength<T(!new)>(rows: seq<T>, keep: T -> bool)
    ensures |Where(rows, keep)| <= |rows|
  {
    if rows != [] {
      WhereLength(rows[1..], keep);
    }
  }

  /** When every row passes, all of them are returned as they are. */
  lemma {:induction false} WhereAll<T(!new)>(rows: seq<T>, keep: T -> bool)
    requires forall x :: x in rows ==> keep(x)
    ensures Where(rows, keep) == rows
  {
    if rows != [] {
      var tail := rows[1..];
      assert rows == [rows[0]] + tail;
      assert keep(rows[0]) by { assert rows[0] in rows; }
      forall x | x in tail ensures keep(x) { assert x in rows; }
      WhereAll(tail, keep);
    }
  }
}
