/**
 * A per-account ledger table, named after the account. It keeps the schema it
 * was created with: `(date TEXT NOT NULL, deposit REAL, use TEXT)` for a Current
 * account (models/account.py:21-24), `(date TEXT NOT NULL, deposit INTEGER NOT NULL)`
 * for an Investment account (models/account.py:43-45).
 */
module LedgerTable {
  import opened Optional

  datatype CurrentEntry = CurrentEntry(date: string, deposit: real, use: Option<string>)
  datatype InvestmentEntry = InvestmentEntry(date: string, deposit: int)

  datatype Table =
    | CurrentTable(current: seq<CurrentEntry>)
    | InvestmentTable(investment: seq<InvestmentEntry>)

  /** An Investment row read as `(date, deposit, use)`: it has no `use` column. */
  function AsRow(e: InvestmentEntry): CurrentEntry
  {
    CurrentEntry(e.date, e.deposit as real, None)
  }

  /** Every row of the table, in insertion order, read as `(date, deposit, use)`. */
  function Rows(t: Table): seq<CurrentEntry>
  {
    match t
    case CurrentTable(es) => es
    case InvestmentTable(es) => AsRows(es)
  }

  function AsRows(es: seq<InvestmentEntry>): seq<CurrentEntry>
  {
    if es == [] then [] else [AsRow(es[0])] + AsRows(es[1..])
  }

  /** Reading Investment rows distributes over appending. */
  lemma {:induction false} AsRowsAppend(es: seq<InvestmentEntry>, fs: seq<InvestmentEntry>)
    ensures AsRows(es + fs) == AsRows(es) + AsRows(fs)
  {
    if es == [] {
      assert es + fs == fs;
    } else {
      assert (es + fs)[0] == es[0];
      assert (es + fs)[1..] == es[1..] + fs;
      AsRowsAppend(es[1..], fs);
    }
  }

  /**
   * `INSERT INTO t (date, deposit, use) VALUES (...)` (models/account.py:29): appends
   * `e`, and fails on a table that has no `use` column.
   */
  function InsertCurrent(t: Table, e: CurrentEntry): (r: Option<Table>)
    ensures r.Some? <==> t.CurrentTable?
    ensures r.Some? ==> r.value.CurrentTable? && Rows(r.value) == Rows(t) + [e]
  {
    match t
    case CurrentTable(es) => Some(CurrentTable(es + [e]))
    case InvestmentTable(_) => None
  }

  /**
   * `INSERT INTO t (date, deposit) VALUES (...)` (models/account.py:50): appends one
   * row with the entry's date and amount, whose `use` is NULL whatever the schema.
   */
  function InsertInvestment(t: Table, e: InvestmentEntry): (r: Table)
    ensures r.CurrentTable? == t.CurrentTable?
    ensures Rows(r) == Rows(t) + [CurrentEntry(e.date, e.deposit as real, None)]
  {
    match t
    case CurrentTable(es) => CurrentTable(es + [AsRow(e)])
    case InvestmentTable(es) =>
      AsRowsAppend(es, [e]);
      InvestmentTable(es + [e])
  }
}
