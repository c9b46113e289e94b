/**
 * The script in test/test.py, on a database that starts empty: four Current
 * accounts and one Investment account are opened, 20 is withdrawn from cash
 * for a meal and 4000 is put into the stock account.
 */
module Scenario {
  import opened Optional
  import opened BalanceTable
  import opened LedgerTable
  import opened Storage
  import opened Account

  /** Opening an account the database has never seen: one new row, one new empty ledger. */
  method OpenNew(db: Database, kind: Kind, name: string, value: real) returns (asset: Asset)
    requires kind in db.balances ==> !HasRow(db.balances[kind], name)
    requires name !in db.ledgers
    modifies db
    ensures asset.Valid() && asset.db == db && asset.kind == kind && asset.name == name
    ensures kind !in old(db.balances) ==> db.balances == old(db.balances)[kind := [BalanceRow(name, value)]]
    ensures kind in old(db.balances) ==> db.balances == old(db.balances)[kind := old(db.balances[kind]) + [BalanceRow(name, value)]]
    ensures db.ledgers == old(db.ledgers)[name := EmptyLedger(kind)]
  {
    OpenedFresh(db.balances, kind, name, value);
    asset := new Asset(db, kind, name, value);
  }

  /** The four Current accounts of the script, in the order it opens them. */
  method OpenCurrentAccounts(db: Database) returns (cash: Asset)
    requires db.balances == map[] && db.ledgers == map[]
    modifies db
    ensures cash.Valid() && cash.db == db && cash.kind == Current && cash.name == "cash"
    ensures db.balances == map[Current := [BalanceRow("cash", 200.0), BalanceRow("wechat", 20.0),
                                           BalanceRow("alipay", 120.0), BalanceRow("icbc", 90.0)]]
    ensures db.ledgers == map["cash" := CurrentTable([]), "wechat" := CurrentTable([]),
                              "alipay" := CurrentTable([]), "icbc" := CurrentTable([])]
  {
    cash := OpenNew(db, Current, "cash", 200.0);
    var rows := [BalanceRow("cash", 200.0)];
    assert db.balances == map[Current := rows];
    assert db.ledgers["cash"] == CurrentTable([]) && "stock_000002SZ" !in db.ledgers;
    assert !HasRow(rows, "wechat");
    var wechat := OpenNew(db, Current, "wechat", 20.0);
    rows := rows + [BalanceRow("wechat", 20.0)];
    assert db.balances == map[Current := rows];
    assert db.ledgers["cash"] == CurrentTable([]) && "stock_000002SZ" !in db.ledgers;
    assert !HasRow(rows, "alipay");
    var alipay := OpenNew(db, Current, "alipay", 120.0);
    rows := rows + [BalanceRow("alipay", 120.0)];
    assert db.balances == map[Current := rows];
    assert db.ledgers["cash"] == CurrentTable([]) && "stock_000002SZ" !in db.ledgers;
    assert !HasRow(rows, "icbc");
    var icbc := OpenNew(db, Current, "icbc", 90.0);
    rows := rows + [BalanceRow("icbc", 90.0)];
    assert db.balances == map[Current := rows];
    assert db.ledgers["cash"] == CurrentTable([]) && "stock_000002SZ" !in db.ledgers;
    assert rows == [BalanceRow("cash", 200.0), BalanceRow("wechat", 20.0),
                    BalanceRow("alipay", 120.0), BalanceRow("icbc", 90.0)];
    assert rows[0].account == "cash";
  }

  /** Lines 13-17 of the script: the four Current accounts, then the stock account. */
  method OpenAccounts(db: Database) returns (cash: Asset, stock: Asset)
    requires db.balances == map[] && db.ledgers == map[]
    modifies db
    ensures cash.Valid() && cash.db == db && cash.kind == Current && cash.name == "cash"
    ensures stock.Valid() && stock.db == db && stock.kind == Investment && stock.name == "stock_000002SZ"
    ensures Lookup(db.balances[Current], "cash") == Some(200.0)
    ensures db.balances[Investment] == [BalanceRow("stock_000002SZ", 2000.0)]
    ensures db.ledgers["cash"] == CurrentTable([]) && db.ledgers["stock_000002SZ"] == InvestmentTable([])
  {
    cash := OpenCurrentAccounts(db);
    LookupFirst(db.balances[Current], "cash", 0);
    stock := OpenNew(db, Investment, "stock_000002SZ", 2000.0);
  }

  /** The whole script: cash ends at 200 - 20, the stock account at 2000 + 4000, each with one ledger row. */
  method TestScript(day: string) returns (cash: Option<real>, stock: Option<real>, cashLedger: Table, stockLedger: Table)
    ensures cash == Some(180.0) && stock == Some(6000.0)
    ensures cashLedger == CurrentTable([CurrentEntry(day, -20.0, Some("干饭"))])
    ensures stockLedger == InvestmentTable([InvestmentEntry(day, 4000)])
  {
    var db := new Database();
    var c, s := OpenAccounts(db);
    UpdateLookup(db.balances[Current], "cash", -20.0, "cash");
    var ok := c.AddDeposit(-20.0, day, Some("干饭"));
    cash := c.GetDeposit();
    cashLedger := db.ledgers["cash"];
    ghost var meal := CurrentEntry(day, -20.0, Some("干饭"));
    assert cashLedger == CurrentTable([] + [meal]);
    assert [] + [meal] == [meal];
    ok := s.AddInvestmentDeposit(4000, day);
    assert db.balances[Investment] == [BalanceRow("stock_000002SZ", 6000.0)];
    stock := s.GetDeposit();
    stockLedger := db.ledgers["stock_000002SZ"];
    ghost var purchase := InvestmentEntry(day, 4000);
    assert stockLedger == InsertInvestment(InvestmentTable([]), purchase);
    assert [] + [purchase] == [purchase];
  }
}
