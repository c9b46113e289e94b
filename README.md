# Personal asset ledger: a Dafny model

The program keeps a household's accounts in one SQLite file. An account is
either a Current account (cash, a bank card, a payment wallet), or an
Investment account (a stock or fund position).

- Each category has one balance table, `CurrentAsset` or `InvestmentAsset`,
  with one row `(account, deposit)` per account.
- Each account also has a ledger table named after it. Every change is
  appended to it as a row: `(date, deposit, use)` for a Current account,
  `(date, deposit)` for an Investment account.
- Opening an account creates the tables it needs. It inserts the seed balance
  only if the account has no row yet.
- `add_deposit` adds an amount to the balance row and then notes the change in
  the ledger.

The model keeps the imperative shape of `models/account.py`:

- `Storage.Database` is the database file. Its field `balances` holds the
  balance tables that exist, and its field `ledgers` holds the ledger tables
  that exist.
- `Ledger.CurrentLedgerStore` and `Ledger.InvestmentLedgerStore` are the two
  ledger stores, `CurrentDatabase` and `InvestmentCurrentDatabase`.
- `Account.Asset` is `Assets` together with its subclasses `CurrentAsset` and
  `InvestmentAsset`. The category is the field `kind`; the source reads it
  from the class name.

The methods change these fields and state the new contents in full. The SQL
statements they run are pure functions:

- `BalanceTable`: the seed-once insert, the `UPDATE`, and `fetchone`.
- `LedgerTable`: the two `INSERT`s.

Lemmas about these functions give the properties that matter:

- one row per account;
- seed once;
- a deposit moves only its own account;
- a balance equals the seed plus the sum of the deposits;
- a ledger is append-only;
- the script in `test/test.py`, worked through.

Modules:

- `optional.dfy`: `Option`.
- `balance_table.dfy`: balance rows and the statements on them.
- `ledger_table.dfy`: ledger tables and their inserts.
- `storage.dfy`: the database.
- `ledger.dfy`: the ledger stores.
- `account.dfy`: accounts.
- `history.dfy`: runs of deposits.
- `scenario.dfy`: the test script.

Both categories' balances are stored as `real`. `InvestmentAsset` inherits
`CurrentAsset.__init__`, so its balance table is created with `deposit REAL`
(models/account.py:131). Its ledger column, by contrast, is
`deposit INTEGER NOT NULL` (models/account.py:45), and the model stores those
ledger deposits as `int`.

## Model

| member | source | states |
|---|---|---|
| Storage.CreateIfNotExists | models/account.py:20-26 | `CREATE TABLE IF NOT EXISTS`: the table set gains exactly `k`; every existing table, `k` included, is kept unchanged; a new `k` starts as the given empty table |
| Storage.Database.constructor | models/account.py:60-61 | a fresh database file has no tables at all and meets the one-row-per-account invariant |
| BalanceTable.Lookup | models/account.py:95-97 | the `SELECT … WHERE account = ?` finds something exactly when the table has a row for the account, and what it returns is the deposit of a real row of that account |
| BalanceTable.LookupFirst | models/account.py:104-110 | `fetchone` returns the deposit of the first row that matches, taking table order as the scan order (SQLite does not promise one without `ORDER BY`) |
| BalanceTable.HasRow | models/account.py:95-97 | `SELECT 1 FROM t WHERE account = ?` returns a row: some row of the table has that account (the statement itself; `Lookup` and `Account.Asset.AccountExists` are stated against it) |
| BalanceTable.LookupUnique | models/account.py:104-110 | in a table with one row per account, `get_deposit` returns the deposit of the account's row |
| BalanceTable.LookupAppend | models/account.py:133-135 | appending a row changes the lookup only for an account that had no row, which now reads the new deposit |
| BalanceTable.Update | models/account.py:145-148 | `UPDATE … SET deposit = deposit + ? WHERE account = ?`, the statement itself, also run at models/account.py:168-171; what it does is stated by `UpdateRows`, `UpdateLookup` and `UpdateUnique` |
| BalanceTable.UpdateRows | models/account.py:145-148 | `UPDATE … SET deposit = deposit + ? WHERE account = ?` keeps the row count and every account column; it raises every row of the account by the amount and leaves all other rows equal |
| BalanceTable.UpdateUnique | models/account.py:145-148 | the UPDATE preserves one row per account |
| BalanceTable.UpdateHasRow | models/account.py:145-148 | the UPDATE creates and deletes no account's row |
| BalanceTable.UpdateLookup | models/account.py:145-148 | after the UPDATE, the account's lookup is raised by the amount (still none when it had no row), and every other account's lookup is unchanged |
| BalanceTable.Deposit | models/account.py:137-150 | a deposit on an existing account: its new balance is the old one plus `amount`, every other account reads the same, and one row per account is kept |
| BalanceTable.SeedOnce | models/account.py:133-135 | the guarded insert keeps every existing row as a prefix, adds at most one row, and leaves the account with a row |
| BalanceTable.SeedOnceRows | models/account.py:133-135 | the guarded insert adds at most one row, at the end, and keeps all existing rows; afterwards the account has a row; no other account gains or loses one; one row per account is preserved |
| BalanceTable.SeedOnceLookup | models/account.py:133-135 | seed once: a new account reads the seed, an existing account keeps its stored deposit and the seed is ignored, and no other account's reading changes |
| BalanceTable.SeedOnceIdempotent | models/account.py:133-135 | opening the same account a second time, with any seed, changes nothing |
| LedgerTable.AsRowsAppend | models/account.py:49-53 | reading Investment ledger rows as `(date, deposit, use)` distributes over appending |
| LedgerTable.InsertCurrent | models/account.py:28-32 | the `(date, deposit, use)` insert succeeds exactly on a table created with the Current schema, and appends exactly the given row and nothing else |
| LedgerTable.InsertInvestment | models/account.py:49-53 | the `(date, deposit)` insert keeps the table's schema and appends exactly one row holding the date and deposit, with `use` NULL |
| Ledger.CurrentLedgerStore.constructor | models/account.py:14-26 | binds to the database and account name; only the ledger tables change, by `CREATE TABLE IF NOT EXISTS` with the Current schema |
| Ledger.CurrentLedgerStore.MakeTable | models/account.py:20-26 | the account's ledger table exists afterwards; an existing one is kept as it is |
| Ledger.CurrentLedgerStore.AddItem | models/account.py:28-32 | succeeds exactly when the account's table exists with a `use` column; on success exactly that table changes, by one appended `(day, deposit, use)` row; on failure nothing changes |
| Ledger.InvestmentLedgerStore.constructor | models/account.py:36-47 | binds to the database and account name; only the ledger tables change, by `CREATE TABLE IF NOT EXISTS` with the Investment schema |
| Ledger.InvestmentLedgerStore.MakeTable | models/account.py:42-47 | the account's ledger table exists afterwards; an existing one is kept as it is |
| Ledger.InvestmentLedgerStore.AddItem | models/account.py:49-53 | succeeds exactly when the account's table exists; on success exactly that table changes, by one appended `(day, deposit)` row; on failure nothing changes |
| Account.Opened | models/account.py:131-135 | the balance tables after opening: exactly the category's table is added to the set of tables, if it was absent |
| Account.OpenedBalances | models/account.py:131-135 | opening leaves the other category's table untouched, and reopening an account that has a row leaves all tables as they were |
| Account.OpenedLookup | models/account.py:131-135 | seed once: after opening, a new account reads its seed, a reopened one keeps its stored deposit, and no other account's reading changes (none, when the table is new) |
| Account.OpenedFresh | models/account.py:131-135 | opening an account that has no row appends exactly `(name, value)` to the category's table, creating the table if needed |
| Account.Asset.constructor | models/account.py:56-135 | opening: builds the ledger store of the category, bound to the same database and name; the ledger table and then the balance table are created if absent and the account is seeded once; the object is then ready; the one-row-per-account invariant is kept |
| Account.Asset.MakeBalanceTable | models/account.py:131-132 | the category's balance table exists afterwards; existing tables are unchanged; the invariant is kept |
| Account.Asset.LoadAccount | models/account.py:133-135 | the category's table becomes its seed-once result; the account then has a row; the invariant is kept |
| Account.Asset.AccountExists | models/account.py:89-97 | `_account_exists` is true exactly when the category's table has a row for the account |
| Account.Asset.GetDeposit | models/account.py:99-110 | returns a value exactly when the account exists, and the value is the deposit of one of its rows |
| Account.Asset.Note | models/account.py:68-79 | dispatches on the category; leaves the balances alone; succeeds exactly for an Investment account or a Current ledger table; on success appends exactly one row to this account's ledger, with `use` only for a Current account; on failure changes nothing |
| Account.Asset.AddDeposit | models/account.py:137-150 | the Current table becomes the UPDATE's result (the balance moves even when the note fails); the invariant is kept; the ledger gains `(day, amount, use)` exactly when its table has the Current schema |
| Account.Asset.AddInvestmentDeposit | models/account.py:161-173 | the Investment table becomes the UPDATE's result; the invariant is kept; the ledger always gains `(day, amount)` |
| History.AfterDeposits | models/account.py:145-148 | repeated UPDATEs on one category create and drop no balance table and leave the other category's table equal |
| History.DepositsAddUp | models/account.py:145-150 | a run of UPDATEs on an account raises its balance by the sum of the amounts: none is lost or applied twice |
| History.DepositsKeepAccounts | models/account.py:145-148 | a run of UPDATEs on one account leaves every other account of the table unchanged |
| History.SeedPlusSum | models/account.py:133-135 | seed plus sum of deltas: after opening with seed `v` and deposits `d1..dn`, the balance is `v + d1 + … + dn`; for a reopened account it is the stored balance plus the sum |
| History.CurrentHistory | models/account.py:28-32 | a Current ledger holds its earlier rows followed by exactly the noted entries, in order; on an Investment-schema table the first note fails |
| History.InvestmentHistory | models/account.py:49-53 | an Investment run of notes keeps the schema, and the ledger's rows become the earlier rows followed by one row per entry, in order, with `use` NULL |
| History.InvestmentTableHistory | models/account.py:49-53 | on an Investment-schema table the entries are stored exactly as given, after the earlier ones |
| Scenario.OpenNew | models/account.py:128-135 | opening an account the database has never seen gives it one new balance row and an empty ledger table of its category |
| Scenario.OpenCurrentAccounts | test/test.py:13-16 | opening cash, wechat, alipay and icbc on an empty database gives four balance rows, in order, with their seeds and empty ledgers |
| Scenario.OpenAccounts | test/test.py:13-17 | after the script's five openings, cash reads 200, the stock account's table holds 2000, and both ledgers are empty |
| Scenario.TestScript | test/test.py:11-19 | after the whole script, cash reads 180 and the stock account 6000; each ledger holds exactly the one change row |

## Left out

- The SQLite connection, cursor, `commit` and `close` (models/account.py:60-61, 112-117) are not modelled. Each statement takes effect at once, and nothing is ever closed.
- Table names are interpolated into the SQL; the model keys tables by name instead. So it does not model:
  - a ledger named `CurrentAsset` or `InvestmentAsset`, in any letter case, colliding with a balance table;
  - accounts whose names differ only in ASCII letter case (`cash`, `Cash`): SQLite table names ignore ASCII case, so in the source both get their own balance row (`account = ?` compares exactly) but share one ledger table, and a note on `Cash` lands in `cash`'s table. The model gives them two separate ledger tables;
  - names that are SQL keywords or are not valid identifiers.
- Two ledger failures are modelled, each as `ok == false` with the ledger unchanged: the schema mismatch (a Current note on a table without a `use` column) and a missing ledger table (SQLite's "no such table"). The missing table cannot happen after construction, because `Account.Asset.Valid` requires the ledger table to exist. Other failures are not modelled: other SQLite errors, and the exception that Python raises where the model returns `ok == false`. `add_deposit` commits its UPDATE before noting, so the balance change stays either way; the model keeps that too.
- Floating point is not modelled: balances and Current ledger deposits are exact `real`s, not IEEE doubles. SQLite type affinity (text stored in a numeric column) is not modelled either.
- Account.Asset.Note: for an Investment account it requires a whole-number deposit. The ledger column is `INTEGER`, and SQLite would keep a fractional value as REAL; the model does not represent that value.
- The default `day = str(date.today())` is evaluated once, when the module is loaded. The model takes `day` as a parameter, so the clock is not part of it.
- Default arguments are not modelled as defaults: `value = 0` of `CurrentAsset.__init__` (models/account.py:121) and `use = "No"` of `CurrentAsset.add_deposit` (models/account.py:137) are passed explicitly. A caller passing `use=None`, stored as NULL, is `AddDeposit` with `use == None`.
- `table_name` is read from the class name (models/account.py:62, 129). The model replaces that with `kind`. A subclass with any other name, for which `Assets.note` does nothing, is not modelled.
- `Assets._make_table` and `Assets._make_item` (models/account.py:81-87) are inlined into `MakeBalanceTable` and `LoadAccount`.
- Account.Asset.AddDeposit and Account.Asset.AddInvestmentDeposit: they do not state the new `get_deposit` value themselves. It follows from their UPDATE equation together with `BalanceTable.Deposit` or `BalanceTable.UpdateLookup`, and `Scenario.TestScript` works this out for the test script.
- Account.Asset.GetDeposit: `if result:` is true for any fetched row. The model never stores a NULL balance, so the case where the row is present but the balance is NULL is not modelled.
- History: the deposit runs are stated over the functions that the methods' contracts name. They are not stated over a sequence of method calls.
- test/test.py is a demonstration script with no assertions. Its calls are modelled only as `Scenario.TestScript`, starting from an empty database file.
