/** Small shared helpers: an optional value, a result with an error,
    truncation toward zero, and an order-preserving filter over sequences. */
module Util {

  datatype Option<+T> = None | Some(value: T)

  datatype Result<+T, +E> = Ok(value: T) | Err(error: E)

  /** Python's `int(x)` applied to a number: truncation toward zero. */
  function Trunc(x: real): (r: int)
    ensures 0.0 <= x ==> 0 <= r && r as real <= x < r as real + 1.0
    ensures x < 0.0 ==> r <= 0 && r as real - 1.0 < x <= r as real
  {
    if x >= 0.0 then x.Floor else -((-x).Floor)
  }

  /** The rows of `rows` that satisfy `keep`, in their original order
      (a boolean-mask selection `df[mask]`). */
  function Where<T(!new)>(rows: seq<T>, keep: T -> bool): (r: seq<T>)
    ensures |r| <= |rows|
    ensures forall x :: x in r <==> x in rows && keep(x)
    ensures |r| == |rows| <==> forall x :: x in rows ==> keep(x)
    ensures |r| == 0 <==> forall x :: x in rows ==> !keep(x)
  {
    if rows == [] then []
    else
      var tail := Where(rows[1..], keep);
      assert forall x :: x in rows <==> x == rows[0] || x in rows[1..];
      if keep(rows[0]) then [rows[0]] + tail else tail
  }

  /** The same selection without a contract, so that proofs about
      concatenation do not carry the contract of every selection along. */
  function Kept<T>(rows: seq<T>, keep: T -> bool): seq<T>
  {
    if rows == [] then []
    else (if keep(rows[0]) then [rows[0]] else []) + Kept(rows[1..], keep)
  }

  lemma {:induction false} WhereIsKept<T(!new)>(rows: seq<T>, keep: T -> bool)
    ensures Where(rows, keep) == Kept(rows, keep)
  {
    if rows != [] {
      WhereIsKept(rows[1..], keep);
    }
  }

  lemma {:induction false} KeptAppend<T>(a: seq<T>, b: seq<T>, keep: T -> bool)
    ensures Kept(a + b, keep) == Kept(a, keep) + Kept(b, keep)
  {
    if a == [] {
      assert a + b == b;
    } else {
      var head := if keep(a[0]) then [a[0]] else [];
      assert (a + b)[0] == a[0] && (a + b)[1..] == a[1..] + b;
      assert Kept(a + b, keep) == head + Kept(a[1..] + b, keep);
      assert Kept(a, keep) == head + Kept(a[1..], keep);
      KeptAppend(a[1..], b, keep);
      assert head + (Kept(a[1..], keep) + Kept(b, keep)) == (head + Kept(a[1..], keep)) + Kept(b, keep);
    }
  }

  lemma {:induction false} KeptCounts<T>(rows: seq<T>, keep: T -> bool)
    ensures forall x :: multiset(Kept(rows, keep))[x] == if keep(x) then multiset(rows)[x] else 0
  {
    if rows != [] {
      KeptCounts(rows[1..], keep);
      assert rows == [rows[0]] + rows[1..];
      var head := if keep(rows[0]) then [rows[0]] else [];
      assert Kept(rows, keep) == head + Kept(rows[1..], keep);
      assert multiset(Kept(rows, keep)) == multiset(head) + multiset(Kept(rows[1..], keep));
    }
  }

  /** A selection keeps each passing row as often as the table holds it and
      no failing row at all. */
  lemma WhereCounts<T(!new)>(rows: seq<T>, keep: T -> bool)
    ensures forall x :: multiset(Where(rows, keep))[x] == if keep(x) then multiset(rows)[x] else 0
  {
    WhereIsKept(rows, keep);
    KeptCounts(rows, keep);
  }

  /** Selecting from two tables one after the other keeps the kept rows of
      the first, in order, followed by those of the second. */
  lemma WhereAppend<T(!new)>(a: seq<T>, b: seq<T>, keep: T -> bool)
    ensures Where(a + b, keep) == Where(a, keep) + Where(b, keep)
  {
    KeptAppend(a, b, keep);
    WhereIsKept(a + b, keep);
    WhereIsKept(a, keep);
    WhereIsKept(b, keep);
  }

  /** A mask every row passes selects everything. */
  lemma {:induction false} WhereAll<T(!new)>(rows: seq<T>, keep: T -> bool)
    requires forall x :: x in rows ==> keep(x)
    ensures Where(rows, keep) == rows
  {
    if rows != [] {
      assert forall x :: x in rows[1..] ==> x in rows;
      WhereAll(rows[1..], keep);
    }
  }

  /** Two masks that agree on every row select the same rows. */
  lemma {:induction false} WhereExt<T(!new)>(rows: seq<T>, p: T -> bool, q: T -> bool)
    requires forall x :: x in rows ==> p(x) == q(x)
    ensures Where(rows, p) == Where(rows, q)
  {
    if rows != [] {
      assert forall x :: x in rows[1..] ==> x in rows;
      WhereExt(rows[1..], p, q);
    }
  }

  /** Selecting twice is selecting once by the conjunction of the masks. */
  lemma {:induction false} WhereWhere<T(!new)>(rows: seq<T>, p: T -> bool, q: T -> bool, pq: T -> bool)
    requires forall x :: x in rows ==> pq(x) == (p(x) && q(x))
    ensures Where(Where(rows, p), q) == Where(rows, pq)
  {
    if rows != [] {
      assert forall x :: x in rows[1..] ==> x in rows;
      WhereWhere(rows[1..], p, q, pq);
      if p(rows[0]) {
        assert ([rows[0]] + Where(rows[1..], p))[1..] == Where(rows[1..], p);
      }
    }
  }

  /** A mask and its negation split the rows: the two counts add up. */
  lemma {:induction false} WhereComplement<T(!new)>(rows: seq<T>, p: T -> bool, notP: T -> bool)
    requires forall x :: x in rows ==> notP(x) == !p(x)
    ensures |Where(rows, p)| + |Where(rows, notP)| == |rows|
  {
    if rows != [] {
      assert forall x :: x in rows[1..] ==> x in rows;
      WhereComplement(rows[1..], p, notP);
    }
  }
}
