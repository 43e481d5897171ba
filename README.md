# payguard: account store and transfer ledger

payguard is a personal banking dashboard. Its only server-side logic with
statable behaviour is a small account store (users keyed by email, each with a
name and a balance) plus an append-only transaction ledger. Three route handlers
drive it:

- `POST /api/transactions` moves money from the caller to a receiver. It does
  three writes inside one database transaction: it creates the ledger entry,
  decrements the sender's balance and increments the receiver's balance.
- `GET /api/transactions` lists the caller's entries, newest first.
- `GET /api/dashboard-stats` reports all-time income (the 1000 seed plus
  everything received), all-time expense (everything sent) and the stored
  balance, with a `|| 1000` fallback.
- `GET /api/user` returns the caller's name, email and balance. It answers 401
  without a session and 404 for an unknown account.

The model is in Dafny:

- `common.dfy` (module `Common`): the session, the two tables and the response
  shape. The caller identity is an `Option<string>`. An empty email counts as
  absent, as it does in the handlers' `!session.user?.email` test.
- `balances.dfy` (module `Balances`): the two balance writes of a transfer, and
  the sum of all balances. That sum is a ghost function over the map, with the
  lemmas that make it usable.
- `ledger.dfy` (module `Ledger`): the ledger queries:
  - the sender-or-receiver filter;
  - the ordering by `dateTime`, descending;
  - the `_sum` aggregate on amounts, `Ledger.SumAmount`. It is the sum of
    `amount` over the entries whose sender column (or receiver column) is the
    given email, and 0 over no rows. It models both `transaction.aggregate`
    calls together with their `|| 0` (app/api/dashboard-stats/route.ts:22-38,
    43-44).
- `transactions_route.dfy` (module `TransactionsRoute`):
  - the `Store` class (`accounts: map`, `ledger: seq`, `nextId`);
  - the POST handler, as the imperative method `Store.Transfer`;
  - the GET handler, as a function over the ledger.
- `dashboard_stats_route.dfy` (module `DashboardStatsRoute`): the statistics,
  and the linking invariant "balance = 1000 + received − sent".
- `user_route.dfy` (module `UserRoute`): the account lookup.

The read routes are functions over a snapshot of the store. They change nothing
by construction.

`Store.Transfer` runs the three writes on a working copy of the tables and
commits them only after all three have succeeded. An update of a missing account
throws in the source, rolls the transaction back and answers 500. The model
returns `Error(500)` with the store untouched.

The handler has no funds check, no sign check on the amount and no sender ≠
receiver check (app/api/transactions/route.ts:15-38). The model has none of them
either:
- `Balances.OverdraftAllowed` shows that a transfer can overdraw the sender.
- `Balances.Settle` shows that a self-transfer leaves the balance as it was.

The statistics have no reporting period. The stats route takes no period
parameter, sums over the whole ledger and always adds the 1000 seed
(app/api/dashboard-stats/route.ts:22-45). On the dashboard page the period
selector only logs the choice (app/dashboard/page.tsx:83-87).
`DashboardStatsRoute.StatsIgnoreTime` states that timestamps play no part.

## Model

| member | source | states |
|---|---|---|
| `Common.Caller` | app/api/transactions/route.ts:9 | There is a caller exactly when the session carries a non-empty email, and the caller is that email |
| `Balances.Adjust` | app/api/transactions/route.ts:29-38 | One `increment`/`decrement` update. It changes only the named account's balance, by exactly `delta`. It keeps the name and the set of accounts, and it changes the total of all balances by `delta` |
| `Balances.Settle` | app/api/transactions/route.ts:28-38 | The transfer's two balance writes. The sender's balance drops by `amount` and the receiver's rises by `amount`. In a self-transfer the balance is unchanged. All other accounts are unchanged, no account is added or removed, and the total of all balances is conserved for any amount |
| `Balances.OverdraftAllowed` | app/api/transactions/route.ts:15-38 | An amount larger than the sender's balance still settles, and it leaves the sender negative |
| `Balances.SumOverPick` | app/api/transactions/route.ts:29-38 | The sum of balances can be split at any account. This is the step that makes conservation provable |
| `Balances.TotalAfterUpdate` | app/api/transactions/route.ts:29-38 | Rewriting one account changes the total by exactly the change in its balance |
| `Ledger.Involving` | app/api/transactions/route.ts:57-60 | The `OR` filter. Each entry appears as often as in the ledger if the given email is its sender or receiver, and not at all otherwise |
| `Ledger.Insert` | app/api/transactions/route.ts:61-63 | Inserting into a newest-first sequence keeps it newest first and adds exactly that one entry |
| `Ledger.SortByDateDesc` | app/api/transactions/route.ts:61-63 | `orderBy dateTime desc`. The result is non-increasing in `dateTime` and is a permutation of the input |
| `Ledger.SumAmountConcat` | app/api/dashboard-stats/route.ts:22-38 | The amount aggregate over two ledgers laid end to end is the sum of the two aggregates |
| `Ledger.SumAmountAppend` | app/api/dashboard-stats/route.ts:22-38 | Appending one entry adds exactly its amount to the aggregate on its receiver side or sender side, and nothing otherwise |
| `Ledger.SumAmountNone` | app/api/dashboard-stats/route.ts:31-38 | With no matching rows the aggregate (null, then defaulted) is 0 |
| `Ledger.SumAmountPermutation` | app/api/dashboard-stats/route.ts:22-38 | The aggregate does not depend on the order of the rows |
| `Ledger.SumAmountInvolving` | app/api/dashboard-stats/route.ts:22-38 | Only rows naming the caller contribute, so the aggregate over the caller's filtered rows equals the aggregate over the whole ledger |
| `Ledger.SumAmountIgnoresTime` | app/api/dashboard-stats/route.ts:22-38 | The aggregate has no time window. Two ledgers that differ only in timestamps give the same sum |
| `DashboardStatsRoute.DashboardStats` | app/api/dashboard-stats/route.ts:6-50 | 401 exactly when there is no caller, and it never answers 404. `totalIncome` is 1000 plus the amounts received and `totalExpense` is the amounts sent, both over the whole ledger. `currentBalance` is the stored balance, or 1000 when the account is missing or its balance is 0 |
| `DashboardStatsRoute.NoExpenseWithoutSending` | app/api/dashboard-stats/route.ts:31-44 | `totalExpense` is 0 when the caller sent nothing |
| `DashboardStatsRoute.StatsIgnoreTime` | app/api/dashboard-stats/route.ts:22-38 | The statistics are the same for any timestamps on the entries: there is no reporting period |
| `DashboardStatsRoute.TransferKeepsSeeded` | app/api/transactions/route.ts:19-40 | A transfer's entry plus its two balance writes preserve "every balance = 1000 + received − sent" |
| `DashboardStatsRoute.RegisterKeepsSeeded` | app/api/dashboard-stats/route.ts:40 | Adding an account with the 1000 seed under an email that no entry names preserves the same invariant |
| `DashboardStatsRoute.StatsMatchBalance` | app/api/dashboard-stats/route.ts:40-45 | Under that invariant, the stored balance is `totalIncome − totalExpense`. The reported `currentBalance` equals that difference if and only if the stored balance is not 0 |
| `TransactionsRoute.Store.Transfer` | app/api/transactions/route.ts:6-46 | Without a caller: 401 and the store unchanged. Sender or receiver unknown: 500 and the store unchanged. Otherwise it appends exactly one entry (fresh id, sender = caller, the requested receiver and amount, the given time), returns that entry, leaves earlier entries in place, settles balances by `Settle`, conserves the total, and keeps `Valid` and the seeding invariant |
| `TransactionsRoute.ListTransactions` | app/api/transactions/route.ts:48-70 | 401 exactly when there is no caller. Otherwise the result is exactly the multiset of the caller's entries (as sender or receiver), ordered by `dateTime` non-increasing |
| `TransactionsRoute.ListingCarriesTotals` | app/api/transactions/route.ts:57-64 | The listed history adds up, on each side, to the same sum the dashboard aggregates |
| `TransactionsRoute.TransferShowsInListing` | app/api/transactions/route.ts:19-26 | An appended entry appears in the next listing of its sender and of its receiver |
| `UserRoute.LookupUser` | app/api/user/route.ts:6-23 | 401 without a caller, before any lookup. 404 when no account has the caller's email. Otherwise it returns exactly that account's name and balance, with the email equal to the session email |
| `UserRoute.LookupAgreesWithStats` | app/api/dashboard-stats/route.ts:45 | For a found account, the dashboard's `currentBalance` is the looked-up balance, or 1000 when that balance is 0 |
| `UserRoute.LookupAfterTransfer` | app/api/transactions/route.ts:28-32 | After a transfer between distinct accounts, the sender's lookup shows its balance lowered by exactly the amount |

## Left out

- Session resolution (`getServerSession`, next-auth) is not modelled. The caller is an `Option<string>` parameter.
- HTTP and JSON are not modelled: response construction, error-message strings, and parsing of the request body.
- A request body whose `receiverEmail` or `amount` is missing or of the wrong type makes Prisma throw, and the handler answers 500. The model takes a typed receiver and amount, so this path is not represented.
- Storage failures other than a missing account are not modelled: a lost connection, or a failure inside the `try` of the dashboard-stats and transactions GET handlers that leads to their 500 answer. The user GET handler has no `try`, so a throwing lookup there goes unhandled; that path is not modelled either. Only the missing-account failure of the POST is modelled.
- The `create` of the entry may already fail on a foreign key when either account is missing. The model reports every such case at the balance update. The outcome is the same: 500 with nothing written.
- Amounts and balances are JavaScript numbers (floating point) in the source. The model uses unbounded integers in minor units, so rounding and NaN are not represented.
- The database's `now()` default for `dateTime` is not modelled. The timestamp is a parameter of `Transfer`.
- How the database generates ids is not shown. The model issues increasing natural numbers.
- `ListTransactions`: the order among entries with equal `dateTime` is left unspecified, as the database leaves it. The model's contract fixes only the ordering by `dateTime` and the contents.
- Concurrent transfers and database isolation levels are not modelled. The model is one sequential store, and atomicity means all-or-nothing within one call.
- Registration, which creates accounts with the 1000 seed, is not modelled. `Store`'s constructor takes the registered accounts, and `RegisterKeepsSeeded` states what registration must preserve.
- The UI pages and dialogs, the mock chart data, the exchange-rate fetch and the currency formatting are not modelled. They have no server-side behaviour.
