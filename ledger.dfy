/**
 * The ledger stores of models/account.py:13-53: `CurrentDatabase` and
 * `InvestmentCurrentDatabase`. Each is bound to one account name, makes sure
 * the ledger table of that name exists, and appends change records to it.
 */
module Ledger {
  import opened Optional
  import opened LedgerTable
  import opened Storage

  /** `CurrentDatabase`: ledger rows `(date, deposit, use)`. */
  class CurrentLedgerStore {
    const db: Database
    const name: string

    constructor (db: Database, name: string)
      modifies db`ledgers
      ensures this.db == db && this.name == name
      ensures db.ledgers == CreateIfNotExists(old(db.ledgers), name, CurrentTable([]))
      ensures db.balances == old(db.balances)
    {
      this.db := db;
      this.name := name;
      new;
      MakeTable();
    }

    /** `_make_table`: creates the account's ledger table, empty, unless it exists. */
    method MakeTable()
      modifies db`ledgers
      ensures db.ledgers == CreateIfNotExists(old(db.ledgers), name, CurrentTable([]))
    {
      db.ledgers := CreateIfNotExists(db.ledgers, name, CurrentTable([]));
    }

    /**
     * `add_item`: appends `(day, deposit, use)` to the account's ledger table.
     * It fails, changing nothing, when that table does not exist or was created
     * with the Investment schema, which has no `use` column.
     */
    method AddItem(day: string, deposit: real, use: Option<string>) returns (ok: bool)
      modifies db`ledgers
      ensures ok <==> name in old(db.ledgers) && old(db.ledgers[name]).CurrentTable?
      ensures ok ==> db.ledgers == old(db.ledgers)[name := CurrentTable(old(db.ledgers[name]).current + [CurrentEntry(day, deposit, use)])]
      ensures ok ==> Rows(db.ledgers[name]) == Rows(old(db.ledgers[name])) + [CurrentEntry(day, deposit, use)]
      ensures !ok ==> db.ledgers == old(db.ledgers)
    {
      ok := name in db.ledgers && db.ledgers[name].CurrentTable?;
      if ok {
        db.ledgers := db.ledgers[name := InsertCurrent(db.ledgers[name], CurrentEntry(day, deposit, use)).value];
      }
    }
  }

  /** `InvestmentCurrentDatabase`: ledger rows `(date, deposit)`, with whole-number deposits. */
  class InvestmentLedgerStore {
    const db: Database
    const name: string

    constructor (db: Database, name: string)
      modifies db`ledgers
      ensures this.db == db && this.name == name
      ensures db.ledgers == CreateIfNotExists(old(db.ledgers), name, InvestmentTable([]))
      ensures db.balances == old(db.balances)
    {
      this.db := db;
      this.name := name;
      new;
      MakeTable();
    }

    /** `_make_table`: creates the account's ledger table, empty, unless it exists. */
    method MakeTable()
      modifies db`ledgers
      ensures db.ledgers == CreateIfNotExists(old(db.ledgers), name, InvestmentTable([]))
    {
      db.ledgers := CreateIfNotExists(db.ledgers, name, InvestmentTable([]));
    }

    /**
     * `add_item`: appends `(day, deposit)` to the account's ledger table. A table
     * of the same name created with the Current schema gets the row with a NULL
     * `use`. It fails, changing nothing, only when the table does not exist.
     */
    method AddItem(day: string, deposit: int) returns (ok: bool)
      modifies db`ledgers
      ensures ok <==> name in old(db.ledgers)
      ensures ok ==> db.ledgers == old(db.ledgers)[name := InsertInvestment(old(db.ledgers[name]), InvestmentEntry(day, deposit))]
      ensures ok ==> Rows(db.ledgers[name]) == Rows(old(db.ledgers[name])) + [CurrentEntry(day, deposit as real, None)]
      ensures !ok ==> db.ledgers == old(db.ledgers)
    {
      ok := name in db.ledgers;
      if ok {
        db.ledgers := db.ledgers[name := InsertInvestment(db.ledgers[name], InvestmentEntry(day, deposit))];
      }
    }
  }
}
