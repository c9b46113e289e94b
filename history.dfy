/**
 * What a run of deposits on one account adds up to. Each `add_deposit` call
 * replaces the category's balance table by `Update(rows, name, amount)` and
 * appends one ledger row; the functions here repeat those steps over a list of
 * deposits, and the lemmas say what the tables hold afterwards.
 */
module History {
  import opened Optional
  import opened BalanceTable
  import opened LedgerTable
  import opened Storage
  import opened Account

  function Sum(ds: seq<real>): real
  {
    if ds == [] then 0.0 else ds[0] + Sum(ds[1..])
  }

  /** A category's balance table after the UPDATEs of deposits `ds[0]`, `ds[1]`, ... on account `name`. */
  function UpdateAll(rows: seq<BalanceRow>, name: string, ds: seq<real>): seq<BalanceRow>
    decreases |ds|
  {
    if ds == [] then rows else UpdateAll(Update(rows, name, ds[0]), name, ds[1..])
  }

  /**
   * All balance tables after those deposits: each `add_deposit` replaces only
   * its own category's table, so the other category's table is untouched.
   */
  function AfterDeposits(balances: map<Kind, seq<BalanceRow>>, kind: Kind, name: string, ds: seq<real>): (r: map<Kind, seq<BalanceRow>>)
    requires kind in balances
    ensures r.Keys == balances.Keys
    ensures forall k :: k in balances && k != kind ==> r[k] == balances[k]
  {
    balances[kind := UpdateAll(balances[kind], name, ds)]
  }

  /** No deposit is lost or applied twice: the account's balance grows by the sum of the deposits. */
  lemma {:induction false} DepositsAddUp(rows: seq<BalanceRow>, name: string, ds: seq<real>)
    ensures Lookup(UpdateAll(rows, name, ds), name) == Raised(Lookup(rows, name), Sum(ds))
    decreases |ds|
  {
    if ds != [] {
      assert UpdateAll(rows, name, ds) == UpdateAll(Update(rows, name, ds[0]), name, ds[1..]);
      DepositsAddUp(Update(rows, name, ds[0]), name, ds[1..]);
      DepositThenRaise(rows, name, ds[0], Sum(ds[1..]));
      assert Sum(ds) == ds[0] + Sum(ds[1..]);
    } else {
      assert Raised(Lookup(rows, name), 0.0) == Lookup(rows, name);
    }
  }

  /** One deposit of `d` followed by a rise of `rest` is a rise of `d + rest`. */
  lemma DepositThenRaise(rows: seq<BalanceRow>, name: string, d: real, rest: real)
    ensures Raised(Lookup(Update(rows, name, d), name), rest) == Raised(Lookup(rows, name), d + rest)
  {
    UpdateLookup(rows, name, d, name);
    RaisedTwice(Lookup(rows, name), d, rest);
  }

  /** Raising by `x` and then by `y` is raising by `x + y`. */
  lemma RaisedTwice(r: Option<real>, x: real, y: real)
    ensures Raised(Raised(r, x), y) == Raised(r, x + y)
  {
  }

  /** Deposits on one account leave every other account of the category as it was. */
  lemma {:induction false} DepositsKeepAccounts(rows: seq<BalanceRow>, name: string, ds: seq<real>, b: string)
    requires b != name
    ensures Lookup(UpdateAll(rows, name, ds), b) == Lookup(rows, b)
    decreases |ds|
  {
    if ds != [] {
      DepositsKeepAccounts(Update(rows, name, ds[0]), name, ds[1..], b);
      UpdateLookup(rows, name, ds[0], b);
    }
  }

  /**
   * Seed plus sum of deltas: an account opened with seed `v` and then given the
   * deposits `ds` reads `v + Sum(ds)`, provided it was new; a reopened account
   * keeps its stored balance, so the seed is ignored.
   */
  lemma SeedPlusSum(balances: map<Kind, seq<BalanceRow>>, kind: Kind, name: string, v: real, ds: seq<real>)
    ensures kind in Opened(balances, kind, name, v)
    ensures Lookup(AfterDeposits(Opened(balances, kind, name, v), kind, name, ds)[kind], name) ==
            if kind in balances && HasRow(balances[kind], name)
            then Some(Lookup(balances[kind], name).value + Sum(ds))
            else Some(v + Sum(ds))
  {
    OpenedLookup(balances, kind, name, v);
    DepositsAddUp(Opened(balances, kind, name, v)[kind], name, ds);
  }

  /** The Current ledger after the INSERTs of `es[0]`, `es[1]`, ...; `None` once an insert fails. */
  function InsertAllCurrent(t: Table, es: seq<CurrentEntry>): Option<Table>
    decreases |es|
  {
    if es == [] then Some(t)
    else match InsertCurrent(t, es[0])
         case None => None
         case Some(t') => InsertAllCurrent(t', es[1..])
  }

  /**
   * Append-only history of a Current account: every insert succeeds on a table
   * of the Current schema, and the entries land at the end, in order, after the
   * untouched earlier ones. On a table of the Investment schema the first insert fails.
   */
  lemma {:induction false} CurrentHistory(t: Table, es: seq<CurrentEntry>)
    ensures t.CurrentTable? ==> InsertAllCurrent(t, es) == Some(CurrentTable(t.current + es))
    ensures t.InvestmentTable? && es != [] ==> InsertAllCurrent(t, es) == None
    decreases |es|
  {
    if es != [] && t.CurrentTable? {
      assert InsertCurrent(t, es[0]) == Some(CurrentTable(t.current + [es[0]]));
      assert InsertAllCurrent(t, es) == InsertAllCurrent(CurrentTable(t.current + [es[0]]), es[1..]);
      CurrentHistory(CurrentTable(t.current + [es[0]]), es[1..]);
      assert t.current + [es[0]] + es[1..] == t.current + es;
    } else if t.CurrentTable? {
      assert t.current + es == t.current;
    }
  }

  /** The ledger after the INSERTs of Investment entries `es[0]`, `es[1]`, ... */
  function InsertAllInvestment(t: Table, es: seq<InvestmentEntry>): Table
    decreases |es|
  {
    if es == [] then t else InsertAllInvestment(InsertInvestment(t, es[0]), es[1..])
  }

  /**
   * Append-only history of an Investment account: the table keeps its schema,
   * gains exactly one row per entry at its end, in order, and no row gains a `use`.
   */
  lemma {:induction false} InvestmentHistory(t: Table, es: seq<InvestmentEntry>)
    ensures InsertAllInvestment(t, es).CurrentTable? == t.CurrentTable?
    ensures Rows(InsertAllInvestment(t, es)) == Rows(t) + AsRows(es)
    decreases |es|
  {
    if es != [] {
      var t' := InsertInvestment(t, es[0]);
      InvestmentHistory(t', es[1..]);
      assert Rows(t) + AsRows(es) == Rows(t) + [AsRow(es[0])] + AsRows(es[1..]);
    } else {
      assert Rows(t) + AsRows(es) == Rows(t);
    }
  }

  /** On a table of the Investment schema the entries are stored exactly as given, after the earlier ones. */
  lemma {:induction false} InvestmentTableHistory(t: Table, es: seq<InvestmentEntry>)
    requires t.InvestmentTable?
    ensures InsertAllInvestment(t, es) == InvestmentTable(t.investment + es)
    decreases |es|
  {
    if es != [] {
      InvestmentTableHistory(InvestmentTable(t.investment + [es[0]]), es[1..]);
      assert t.investment + [es[0]] + es[1..] == t.investment + es;
    } else {
      assert t.investment + es == t.investment;
    }
  }
}
