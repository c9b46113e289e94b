/**
 * The SQLite file that every account object opens: all balance tables and all
 * per-account ledger tables, held in memory. Connections, cursors and commits
 * are not modelled; every statement takes effect at once.
 */
module Storage {
  import opened BalanceTable
  import opened LedgerTable

  /** The account category; it names the balance table (`CurrentAsset` or `InvestmentAsset`). */
  datatype Kind = Current | Investment

  /**
   * `CREATE TABLE IF NOT EXISTS k`: a table `k` that exists is kept as it is;
   * otherwise `k` is created holding `empty`.
   */
  function CreateIfNotExists<K, V>(tables: map<K, V>, k: K, empty: V): (r: map<K, V>)
    ensures r.Keys == tables.Keys + {k}
    ensures forall j :: j in tables ==> r[j] == tables[j]
    ensures k !in tables ==> r[k] == empty
  {
    if k in tables then tables else tables[k := empty]
  }

  class Database {
    /** The balance tables that exist, by category. */
    var balances: map<Kind, seq<BalanceRow>>
    /** The ledger tables that exist, by table name (the account name). */
    var ledgers: map<string, Table>

    /** Every balance table holds at most one row per account. */
    ghost predicate Valid()
      reads this`balances
    {
      forall k :: k in balances ==> Unique(balances[k])
    }

    /** A new, empty database file. */
    constructor ()
      ensures Valid()
      ensures balances == map[] && ledgers == map[]
    {
      balances := map[];
      ledgers := map[];
    }
  }
}
