/**
 * A balance table, `CurrentAsset(account TEXT, deposit REAL)` or
 * `InvestmentAsset(account TEXT, deposit REAL)`, as the sequence of its rows in
 * insertion order. SQL puts no UNIQUE constraint on `account`, so "one row per
 * account" is the invariant `Unique`, kept by the guarded insert `SeedOnce`.
 */
module BalanceTable {
  import opened Optional

  datatype BalanceRow = BalanceRow(account: string, deposit: real)

  /** `SELECT 1 FROM t WHERE account = a` returns a row. */
  predicate HasRow(rows: seq<BalanceRow>, a: string)
  {
    exists i :: 0 <= i < |rows| && rows[i].account == a
  }

  /** At most one row per account name. */
  ghost predicate Unique(rows: seq<BalanceRow>)
  {
    forall i, j :: 0 <= i < j < |rows| ==> rows[i].account != rows[j].account
  }

  /**
   * `SELECT deposit FROM t WHERE account = a` followed by `fetchone()`:
   * the deposit of the first row of `a`, or `None` when there is none. The
   * query has no `ORDER BY`, so SQLite promises no particular row when several
   * match; the model takes table order. Under `Unique` there is only one
   * matching row and the order does not matter (`LookupUnique`).
   */
  function Lookup(rows: seq<BalanceRow>, a: string): (r: Option<real>)
    ensures r.Some? <==> HasRow(rows, a)
    ensures r.Some? ==> BalanceRow(a, r.value) in rows
  {
    if rows == [] then None
    else if rows[0].account == a then Some(rows[0].deposit)
    else
      assert HasRow(rows[1..], a) ==> HasRow(rows, a) by {
        if HasRow(rows[1..], a) {
          var k :| 0 <= k < |rows[1..]| && rows[1..][k].account == a;
          assert rows[k + 1].account == a;
        }
      }
      assert HasRow(rows, a) ==> HasRow(rows[1..], a) by {
        if HasRow(rows, a) {
          var k :| 0 <= k < |rows| && rows[k].account == a;
          assert k != 0 && rows[1..][k - 1].account == a;
        }
      }
      Lookup(rows[1..], a)
  }

  /** What the lookup returns is the deposit of the first row of `a`, in the model's table order. */
  lemma {:induction false} LookupFirst(rows: seq<BalanceRow>, a: string, i: int)
    requires 0 <= i < |rows| && rows[i].account == a
    requires forall j :: 0 <= j < i ==> rows[j].account != a
    ensures Lookup(rows, a) == Some(rows[i].deposit)
  {
    if i > 0 {
      assert forall j :: 0 <= j < i - 1 ==> rows[1..][j].account != a by {
        forall j | 0 <= j < i - 1 ensures rows[1..][j].account != a {
          assert rows[1..][j] == rows[j + 1];
        }
      }
      LookupFirst(rows[1..], a, i - 1);
    }
  }

  /** With one row per account, the lookup returns that row's deposit. */
  lemma LookupUnique(rows: seq<BalanceRow>, i: int)
    requires Unique(rows) && 0 <= i < |rows|
    ensures Lookup(rows, rows[i].account) == Some(rows[i].deposit)
  {
    LookupFirst(rows, rows[i].account, i);
  }

  /** A lookup over a table with one more row at its end. */
  lemma {:induction false} LookupAppend(rows: seq<BalanceRow>, x: BalanceRow, b: string)
    ensures Lookup(rows + [x], b) ==
            if HasRow(rows, b) then Lookup(rows, b)
            else if x.account == b then Some(x.deposit) else None
  {
    if rows != [] && rows[0].account != b {
      assert (rows + [x])[1..] == rows[1..] + [x];
      LookupAppend(rows[1..], x, b);
    }
  }

  /**
   * `UPDATE t SET deposit = deposit + amount WHERE account = a`: every row of
   * `a` is raised by `amount`, every other row is kept.
   */
  function Update(rows: seq<BalanceRow>, a: string, amount: real): seq<BalanceRow>
  {
    if rows == [] then []
    else [if rows[0].account == a then BalanceRow(a, rows[0].deposit + amount) else rows[0]]
         + Update(rows[1..], a, amount)
  }

  /** The update changes the deposit column of `a`'s rows only, by exactly `amount`. */
  lemma {:induction false} UpdateRows(rows: seq<BalanceRow>, a: string, amount: real)
    ensures |Update(rows, a, amount)| == |rows|
    ensures forall i :: 0 <= i < |rows| ==> Update(rows, a, amount)[i].account == rows[i].account
    ensures forall i :: 0 <= i < |rows| && rows[i].account != a ==> Update(rows, a, amount)[i] == rows[i]
    ensures forall i :: 0 <= i < |rows| && rows[i].account == a ==>
              Update(rows, a, amount)[i].deposit == rows[i].deposit + amount
  {
    if rows != [] {
      UpdateRows(rows[1..], a, amount);
      var u := Update(rows, a, amount);
      assert forall i :: 1 <= i < |rows| ==> u[i] == Update(rows[1..], a, amount)[i - 1];
    }
  }

  /** The update keeps "one row per account". */
  lemma UpdateUnique(rows: seq<BalanceRow>, a: string, amount: real)
    ensures Unique(rows) ==> Unique(Update(rows, a, amount))
  {
    UpdateRows(rows, a, amount);
  }

  /** The update keeps exactly the accounts that had rows. */
  lemma UpdateHasRow(rows: seq<BalanceRow>, a: string, amount: real, b: string)
    ensures HasRow(Update(rows, a, amount), b) == HasRow(rows, b)
  {
    UpdateRows(rows, a, amount);
    var u := Update(rows, a, amount);
    if HasRow(rows, b) {
      var k :| 0 <= k < |rows| && rows[k].account == b;
      assert u[k].account == b;
    }
    if HasRow(u, b) {
      var k :| 0 <= k < |u| && u[k].account == b;
      assert rows[k].account == b;
    }
  }

  /** A balance read back after adding `amount`; no row stays no row. */
  function Raised(r: Option<real>, amount: real): Option<real>
  {
    match r
    case None => None
    case Some(v) => Some(v + amount)
  }

  /** Reading after the update: `a`'s balance grew by `amount`, every other account reads as before. */
  lemma {:induction false} UpdateLookup(rows: seq<BalanceRow>, a: string, amount: real, b: string)
    ensures Lookup(Update(rows, a, amount), b) == if b == a then Raised(Lookup(rows, a), amount) else Lookup(rows, b)
  {
    if rows != [] {
      var u := Update(rows, a, amount);
      assert u[1..] == Update(rows[1..], a, amount);
      assert u[0].account == rows[0].account;
      if rows[0].account != b {
        UpdateLookup(rows[1..], a, amount, b);
      }
    }
  }

  /**
   * The deposit of an account that has a row: its balance grows by exactly
   * `amount` (a negative amount withdraws), every other account reads as before,
   * and the table keeps one row per account.
   */
  lemma Deposit(rows: seq<BalanceRow>, a: string, amount: real)
    requires HasRow(rows, a)
    ensures HasRow(Update(rows, a, amount), a)
    ensures Lookup(Update(rows, a, amount), a) == Some(Lookup(rows, a).value + amount)
    ensures forall b :: b != a ==> Lookup(Update(rows, a, amount), b) == Lookup(rows, b)
    ensures Unique(rows) ==> Unique(Update(rows, a, amount))
  {
    UpdateHasRow(rows, a, amount, a);
    UpdateLookup(rows, a, amount, a);
    forall b | b != a ensures Lookup(Update(rows, a, amount), b) == Lookup(rows, b) {
      UpdateLookup(rows, a, amount, b);
    }
    if Unique(rows) { UpdateUnique(rows, a, amount); }
  }

  /**
   * The constructor's guarded insert: a row `(a, v)` is appended only when
   * `a` has no row yet; otherwise the table is kept and `v` is ignored.
   */
  function SeedOnce(rows: seq<BalanceRow>, a: string, v: real): (r: seq<BalanceRow>)
    ensures |rows| <= |r| <= |rows| + 1
    ensures r[..|rows|] == rows
    ensures HasRow(r, a)
  {
    if HasRow(rows, a) then rows
    else
      var seeded := rows + [BalanceRow(a, v)];
      assert seeded[|rows|].account == a;
      seeded
  }

  /** Seeding adds at most one row, keeps every existing row, and gives `a` a row. */
  lemma SeedOnceRows(rows: seq<BalanceRow>, a: string, v: real)
    ensures |SeedOnce(rows, a, v)| == if HasRow(rows, a) then |rows| else |rows| + 1
    ensures SeedOnce(rows, a, v)[..|rows|] == rows
    ensures HasRow(SeedOnce(rows, a, v), a)
    ensures forall b :: HasRow(rows, b) ==> HasRow(SeedOnce(rows, a, v), b)
    ensures Unique(rows) ==> Unique(SeedOnce(rows, a, v))
  {
    if !HasRow(rows, a) {
      assert SeedOnce(rows, a, v)[|rows|].account == a;
    }
    forall b | HasRow(rows, b) ensures HasRow(SeedOnce(rows, a, v), b) {
      var k :| 0 <= k < |rows| && rows[k].account == b;
      assert SeedOnce(rows, a, v)[k].account == b;
    }
  }

  /** Reading after seeding: `a` reads its old balance if it had a row and `v` otherwise; others are untouched. */
  lemma SeedOnceLookup(rows: seq<BalanceRow>, a: string, v: real, b: string)
    ensures Lookup(SeedOnce(rows, a, v), b) ==
            if b != a || HasRow(rows, a) then Lookup(rows, b) else Some(v)
  {
    LookupAppend(rows, BalanceRow(a, v), b);
  }

  /** Opening an account a second time, with any seed, changes nothing. */
  lemma SeedOnceIdempotent(rows: seq<BalanceRow>, a: string, v: real, w: real)
    ensures SeedOnce(SeedOnce(rows, a, v), a, w) == SeedOnce(rows, a, v)
  {
    SeedOnceRows(rows, a, v);
  }
}
