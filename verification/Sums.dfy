/** Sums over the rows of a table and over the users of the platform. */
module Sums {

  function Sum<T>(rows: seq<T>, f: T -> int): (total: int)
  {
    if rows == [] then 0 else Sum(rows[..|rows| - 1], f) + f(rows[|rows| - 1])
  }

  lemma {:induction false} SumAppend<T>(rows: seq<T>, row: T, f: T -> int)
    ensures Sum(rows + [row], f) == Sum(rows, f) + f(row)
  {
    assert (rows + [row])[..|rows|] == rows;
  }

  lemma {:induction false} SumUpdate<T>(rows: seq<T>, at: nat, row: T, f: T -> int)
    requires at < |rows|
    ensures Sum(rows[at := row], f) == Sum(rows, f) - f(rows[at]) + f(row)
  {
    var n := |rows| - 1;
    if at == n {
      assert rows[at := row][..n] == rows[..n];
    } else {
      SumUpdate(rows[..n], at, row, f);
      assert rows[at := row][..n] == rows[..n][at := row];
    }
  }

  /** A sum of non-negative terms is at least each of them. */
  lemma {:induction false} SumAtLeast<T>(rows: seq<T>, at: nat, f: T -> int)
    requires at < |rows|
    requires forall i :: 0 <= i < |rows| ==> f(rows[i]) >= 0
    ensures Sum(rows, f) >= f(rows[at])
  {
    var n := |rows| - 1;
    SumNonNegative(rows[..n], f);
    if at < n {
      SumAtLeast(rows[..n], at, f);
    }
  }

  lemma {:induction false} SumNonNegative<T>(rows: seq<T>, f: T -> int)
    requires forall i :: 0 <= i < |rows| ==> f(rows[i]) >= 0
    ensures Sum(rows, f) >= 0
  {
    if rows != [] {
      SumNonNegative(rows[..|rows| - 1], f);
    }
  }

  lemma {:induction false} SumCongruent<T>(rows: seq<T>, f: T -> int, g: T -> int)
    requires forall i :: 0 <= i < |rows| ==> f(rows[i]) == g(rows[i])
    ensures Sum(rows, f) == Sum(rows, g)
  {
    if rows != [] {
      SumCongruent(rows[..|rows| - 1], f, g);
    }
  }

  lemma {:induction false} SumPlus<T>(rows: seq<T>, f: T -> int, g: T -> int, h: T -> int)
    requires forall i :: 0 <= i < |rows| ==> f(rows[i]) == g(rows[i]) + h(rows[i])
    ensures Sum(rows, f) == Sum(rows, g) + Sum(rows, h)
  {
    if rows != [] {
      SumPlus(rows[..|rows| - 1], f, g, h);
    }
  }

  lemma {:induction false} SumZero<T>(rows: seq<T>, f: T -> int)
    requires forall i :: 0 <= i < |rows| ==> f(rows[i]) == 0
    ensures Sum(rows, f) == 0
  {
    if rows != [] {
      SumZero(rows[..|rows| - 1], f);
    }
  }

  // ------------------------------------------------------------ table writes

  /** One write to a table whose rows are numbered from 0: an update or an insert. */
  datatype Put<T> = Keep | Put(at: nat, row: T)

  function Written<T>(rows: seq<T>, p: Put<T>): (after: seq<T>)
  {
    if p.Keep? then rows
    else if p.at < |rows| then rows[p.at := p.row]
    else rows + [p.row]
  }

  /** What the write adds to the sum of f. */
  function Change<T>(rows: seq<T>, p: Put<T>, f: T -> int): (delta: int)
  {
    if p.Keep? then 0
    else if p.at < |rows| then f(p.row) - f(rows[p.at])
    else f(p.row)
  }

  lemma ChangeOfUpdate<T>(rows: seq<T>, p: Put<T>, f: T -> int)
    requires p.Put? && p.at < |rows|
    ensures Change(rows, p, f) == f(p.row) - f(rows[p.at])
  {
  }

  lemma {:induction false} SumWritten<T>(rows: seq<T>, p: Put<T>, f: T -> int)
    ensures Sum(Written(rows, p), f) == Sum(rows, f) + Change(rows, p, f)
  {
    if p.Put? {
      if p.at < |rows| {
        SumUpdate(rows, p.at, p.row, f);
      } else {
        SumAppend(rows, p.row, f);
      }
    }
  }

  // ------------------------------------------------------------- user totals

  /** The sum of f over a finite set of ids. */
  ghost function Total(ids: set<nat>, f: nat -> int): int
  {
    if ids == {} then 0 else
      var x :| x in ids;
      f(x) + Total(ids - {x}, f)
  }

  lemma {:induction false} TotalRemove(ids: set<nat>, x: nat, f: nat -> int)
    requires x in ids
    ensures Total(ids, f) == f(x) + Total(ids - {x}, f)
  {
    var y :| y in ids && Total(ids, f) == f(y) + Total(ids - {y}, f);
    if y != x {
      TotalRemove(ids - {y}, x, f);
      TotalRemove(ids - {x}, y, f);
      assert ids - {y} - {x} == ids - {x} - {y};
    }
  }

  lemma {:induction false} TotalPlus(ids: set<nat>, f: nat -> int, g: nat -> int, h: nat -> int)
    requires forall x :: x in ids ==> f(x) == g(x) + h(x)
    ensures Total(ids, f) == Total(ids, g) + Total(ids, h)
  {
    if ids != {} {
      var x :| x in ids;
      TotalRemove(ids, x, f);
      TotalRemove(ids, x, g);
      TotalRemove(ids, x, h);
      TotalPlus(ids - {x}, f, g, h);
    }
  }

  lemma {:induction false} TotalCongruent(ids: set<nat>, f: nat -> int, g: nat -> int)
    requires forall x :: x in ids ==> f(x) == g(x)
    ensures Total(ids, f) == Total(ids, g)
  {
    if ids != {} {
      var x :| x in ids;
      TotalRemove(ids, x, f);
      TotalRemove(ids, x, g);
      TotalCongruent(ids - {x}, f, g);
    }
  }

  lemma {:induction false} TotalZero(ids: set<nat>, f: nat -> int)
    requires forall x :: x in ids ==> f(x) == 0
    ensures Total(ids, f) == 0
  {
    if ids != {} {
      var x :| x in ids;
      TotalRemove(ids, x, f);
      TotalZero(ids - {x}, f);
    }
  }

  /** A total of which only one id has a share. */
  lemma {:induction false} TotalOfOne(ids: set<nat>, x: nat, f: nat -> int)
    requires x in ids && forall y :: y in ids && y != x ==> f(y) == 0
    ensures Total(ids, f) == f(x)
  {
    TotalRemove(ids, x, f);
    TotalZero(ids - {x}, f);
  }

  lemma {:induction false} TotalOfTwo(ids: set<nat>, x: nat, y: nat, f: nat -> int)
    requires x in ids && y in ids && x != y && forall z :: z in ids && z != x && z != y ==> f(z) == 0
    ensures Total(ids, f) == f(x) + f(y)
  {
    TotalRemove(ids, x, f);
    TotalOfOne(ids - {x}, y, f);
  }

  /** The shares of all ids in one row. */
  function Shares<T>(f: nat -> T -> int, row: T): nat -> int
  {
    (x: nat) => f(x)(row)
  }

  /** The shares of each id in a whole table. */
  function TableShares<T>(rows: seq<T>, f: nat -> T -> int): nat -> int
  {
    (x: nat) => Sum(rows, f(x))
  }

  /** Adding up per id and then over ids is adding up row by row. */
  lemma {:induction false} TotalOfSums<T>(ids: set<nat>, rows: seq<T>, f: nat -> T -> int, g: T -> int)
    requires forall i :: 0 <= i < |rows| ==> Total(ids, Shares(f, rows[i])) == g(rows[i])
    ensures Total(ids, TableShares(rows, f)) == Sum(rows, g)
  {
    if rows == [] {
      TotalZero(ids, TableShares(rows, f));
    } else {
      var n := |rows| - 1;
      TotalOfSums(ids, rows[..n], f, g);
      TotalPlus(ids, TableShares(rows, f), TableShares(rows[..n], f), Shares(f, rows[n]));
    }
  }
}
