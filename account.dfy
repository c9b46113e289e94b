/**
 * The account registry of models/account.py:56-173: `Assets` and its subclasses
 * `CurrentAsset` and `InvestmentAsset`, as one class whose category is the field
 * `kind` (the source reads it from the class name). An object is bound to one
 * account name and to the database it shares with every other account object.
 */
module Account {
  import opened Optional
  import opened BalanceTable
  import opened LedgerTable
  import opened Storage
  import opened Ledger

  /** `_change_database`: the ledger store that matches the category. */
  datatype ChangeDatabase =
    | ToCurrent(current: CurrentLedgerStore)
    | ToInvestment(investment: InvestmentLedgerStore)

  /** The ledger table a new account of category `kind` starts with. */
  function EmptyLedger(kind: Kind): Table
  {
    if kind == Current then CurrentTable([]) else InvestmentTable([])
  }

  /**
   * The balance tables after opening account `name` of category `kind` with
   * seed `value`: the category's table is created if absent, and `(name, value)`
   * is inserted only when `name` has no row in it.
   */
  function Opened(balances: map<Kind, seq<BalanceRow>>, kind: Kind, name: string, value: real): (r: map<Kind, seq<BalanceRow>>)
    ensures r.Keys == balances.Keys + {kind}
  {
    var created := CreateIfNotExists(balances, kind, []);
    created[kind := SeedOnce(created[kind], name, value)]
  }

  /**
   * Opening touches one category: the other category's table is kept, and
   * reopening an account that has a row leaves every table as it was.
   */
  lemma OpenedBalances(balances: map<Kind, seq<BalanceRow>>, kind: Kind, name: string, value: real)
    ensures forall k :: k in balances && k != kind ==> Opened(balances, kind, name, value)[k] == balances[k]
    ensures kind in balances && HasRow(balances[kind], name) ==> Opened(balances, kind, name, value) == balances
  {
    if kind in balances && HasRow(balances[kind], name) {
      assert Opened(balances, kind, name, value)[kind] == balances[kind];
    }
  }

  /**
   * Seed once: after opening, a new account reads `value` and a reopened one
   * keeps its stored deposit, ignoring `value`. Every other account of the
   * category reads as before (nothing, when the table is new).
   */
  lemma OpenedLookup(balances: map<Kind, seq<BalanceRow>>, kind: Kind, name: string, value: real)
    ensures Lookup(Opened(balances, kind, name, value)[kind], name) ==
            if kind in balances && HasRow(balances[kind], name) then Lookup(balances[kind], name) else Some(value)
    ensures forall b :: b != name ==>
              Lookup(Opened(balances, kind, name, value)[kind], b) == if kind in balances then Lookup(balances[kind], b) else None
  {
    var rows := if kind in balances then balances[kind] else [];
    assert Opened(balances, kind, name, value)[kind] == SeedOnce(rows, name, value);
    SeedOnceLookup(rows, name, value, name);
    forall b | b != name
      ensures Lookup(Opened(balances, kind, name, value)[kind], b) == if kind in balances then Lookup(balances[kind], b) else None
    {
      SeedOnceLookup(rows, name, value, b);
    }
  }

  /** Opening a new account appends its row, with the seed, to the category's table. */
  lemma OpenedFresh(balances: map<Kind, seq<BalanceRow>>, kind: Kind, name: string, value: real)
    requires !(kind in balances && HasRow(balances[kind], name))
    ensures kind !in balances ==> Opened(balances, kind, name, value) == balances[kind := [BalanceRow(name, value)]]
    ensures kind in balances ==> Opened(balances, kind, name, value) == balances[kind := balances[kind] + [BalanceRow(name, value)]]
  {
    if kind !in balances {
      assert SeedOnce([], name, value) == [BalanceRow(name, value)];
    }
  }

  class Asset {
    const db: Database
    /** `asset_name`: the account, and the name of its ledger table. */
    const name: string
    /** `table_name`: the category, and so the balance table. */
    const kind: Kind
    const changeDatabase: ChangeDatabase

    /** The object is ready: its ledger table exists and its balance row exists. */
    ghost predicate Valid()
      reads this, db
    {
      && name in db.ledgers
      && kind in db.balances
      && HasRow(db.balances[kind], name)
      && match changeDatabase
         case ToCurrent(s) => kind == Current && s.db == db && s.name == name
         case ToInvestment(s) => kind == Investment && s.db == db && s.name == name
    }

    /**
     * `CurrentAsset.__init__` (inherited by `InvestmentAsset`) with `Assets.__init__`:
     * ensure the ledger table, then the balance table, then insert `(name, value)`
     * unless the account already has a row.
     */
    constructor (db: Database, kind: Kind, name: string, value: real)
      modifies db
      ensures Valid()
      ensures this.db == db && this.kind == kind && this.name == name
      ensures db.ledgers == CreateIfNotExists(old(db.ledgers), name, EmptyLedger(kind))
      ensures db.balances == Opened(old(db.balances), kind, name, value)
      ensures old(db.Valid()) ==> db.Valid()
    {
      this.db := db;
      this.name := name;
      this.kind := kind;
      if kind == Current {
        var store := new CurrentLedgerStore(db, name);
        changeDatabase := ToCurrent(store);
      } else {
        var store := new InvestmentLedgerStore(db, name);
        changeDatabase := ToInvestment(store);
      }
      new;
      MakeBalanceTable();
      LoadAccount(value);
    }

    /** `_make_table` on the category's balance table: created empty unless it exists. */
    method MakeBalanceTable()
      modifies db`balances
      ensures db.balances == CreateIfNotExists(old(db.balances), kind, [])
      ensures old(db.Valid()) ==> db.Valid()
    {
      db.balances := CreateIfNotExists(db.balances, kind, []);
    }

    /**
     * The guarded insert of `CurrentAsset.__init__`: `(name, value)` goes into the
     * category's balance table only if `_account_exists` finds no row for `name`.
     */
    method LoadAccount(value: real)
      requires kind in db.balances
      modifies db`balances
      ensures db.balances == old(db.balances)[kind := SeedOnce(old(db.balances[kind]), name, value)]
      ensures HasRow(db.balances[kind], name)
      ensures old(db.Valid()) ==> db.Valid()
    {
      SeedOnceRows(db.balances[kind], name, value);
      if !AccountExists(name) {
        db.balances := db.balances[kind := db.balances[kind] + [BalanceRow(name, value)]];
      }
    }

    /** `_account_exists`: whether the category's balance table has a row for `account`. */
    function AccountExists(account: string): (b: bool)
      reads db`balances
      requires kind in db.balances
      ensures b <==> HasRow(db.balances[kind], account)
    {
      Lookup(db.balances[kind], account).Some?
    }

    /**
     * `get_deposit`: the deposit of this account's row, or `None` when it has
     * none. With one row per account that row is the only one (`LookupUnique`).
     */
    function GetDeposit(): (r: Option<real>)
      reads db`balances
      requires kind in db.balances
      ensures r.Some? <==> AccountExists(name)
      ensures r.Some? ==> BalanceRow(name, r.value) in db.balances[kind]
    {
      Lookup(db.balances[kind], name)
    }

    /**
     * `note`: appends one record to this account's ledger table through the
     * category's store; `use` is passed only for a Current account. An
     * Investment ledger holds whole amounts.
     */
    method Note(day: string, deposit: real, use: Option<string>) returns (ok: bool)
      requires Valid()
      requires kind == Investment ==> deposit == deposit.Floor as real
      modifies db
      ensures Valid()
      ensures db.balances == old(db.balances)
      ensures ok <==> kind == Investment || old(db.ledgers[name]).CurrentTable?
      ensures ok && kind == Current ==>
                db.ledgers == old(db.ledgers)[name := InsertCurrent(old(db.ledgers[name]), CurrentEntry(day, deposit, use)).value]
      ensures kind == Investment ==>
                db.ledgers == old(db.ledgers)[name := InsertInvestment(old(db.ledgers[name]), InvestmentEntry(day, deposit.Floor))]
      ensures ok ==> Rows(db.ledgers[name]) ==
                     Rows(old(db.ledgers[name])) + [CurrentEntry(day, deposit, if kind == Current then use else None)]
      ensures !ok ==> db.ledgers == old(db.ledgers)
    {
      if kind == Current {
        ok := changeDatabase.current.AddItem(day, deposit, use);
      } else {
        ok := changeDatabase.investment.AddItem(day, deposit.Floor);
      }
    }

    /**
     * `CurrentAsset.add_deposit`: adds `amount` (negative withdraws) to this
     * account's row of `CurrentAsset`, then notes `(day, amount, use)`. The two
     * statements are separate: when the note fails the balance has still changed.
     * A `use` of `None` is a caller passing `use=None`, stored as NULL.
     */
    method AddDeposit(amount: real, day: string, use: Option<string>) returns (ok: bool)
      requires Valid() && kind == Current
      modifies db
      ensures Valid()
      ensures db.balances == old(db.balances)[Current := Update(old(db.balances[Current]), name, amount)]
      ensures old(db.Valid()) ==> db.Valid()
      ensures ok <==> old(db.ledgers[name]).CurrentTable?
      ensures ok ==> db.ledgers == old(db.ledgers)[name := CurrentTable(old(db.ledgers[name]).current + [CurrentEntry(day, amount, use)])]
      ensures !ok ==> db.ledgers == old(db.ledgers)
    {
      var rows := db.balances[Current];
      UpdateHasRow(rows, name, amount, name);
      UpdateUnique(rows, name, amount);
      db.balances := db.balances[Current := Update(rows, name, amount)];
      ok := Note(day, amount, use);
    }

    /**
     * `InvestmentAsset.add_deposit`: adds the whole `amount` to this account's
     * row of `InvestmentAsset`, then notes `(day, amount)`.
     */
    method AddInvestmentDeposit(amount: int, day: string) returns (ok: bool)
      requires Valid() && kind == Investment
      modifies db
      ensures Valid()
      ensures db.balances == old(db.balances)[Investment := Update(old(db.balances[Investment]), name, amount as real)]
      ensures old(db.Valid()) ==> db.Valid()
      ensures ok
      ensures db.ledgers == old(db.ledgers)[name := InsertInvestment(old(db.ledgers[name]), InvestmentEntry(day, amount))]
    {
      var rows := db.balances[Investment];
      UpdateHasRow(rows, name, amount as real, name);
      UpdateUnique(rows, name, amount as real);
      db.balances := db.balances[Investment := Update(rows, name, amount as real)];
      ok := Note(day, amount as real, None);
    }
  }
}
