# Smart finance state store — a Dafny model

This project models the core of a small personal-finance web application. It
keeps one application state: bank accounts, transactions, spending and earning
categories, a demo/formal mode flag and an optional signed-in user. Named
handlers update that state. A dashboard derives totals from it.

- `types.dfy` (module `Types`): the record and enumeration types (`services/types.ts`).
  They become datatypes: `TransactionType` and the account kind are sum types, and
  the possibly-null user is an `Option`.
- `seqs.dfy` (module `Seqs`): `Array.prototype.filter` and `find` as functions over
  sequences, with their contracts.
- `constants.dfy` (module `Constants`): the seed data (`constants.tsx`) and lemmas
  about its shape.
- `app.dfy` (module `App`): the store (`App.tsx`).
  - Each handler's transform is a pure function on `AppState`, such as
    `AddTransactionTo` or `DeleteTransactionFrom`.
  - For each of the five data handlers (add, update and delete an account; add
    and delete a transaction) an `...Effect` lemma states what the handler
    changes and that nothing else changes. The session handlers' functions
    (`LoggedIn`, `ToggledMode`, `SignedIn`, `SignedOut`, `AdoptedRemote`) carry
    that in their own `ensures`.
  - The class `Store` holds the state in fields. Its methods apply those
    transforms in place: each method's `ensures` ties the new `State()` to the
    transform of `old(State())`.
  - The store also carries the ledger invariant. A ghost map `opening` gives each
    account's opening balance, and `BalancesReconciled()` says that every
    account's balance equals its opening balance plus the signed sum of the
    transactions that reference it, with all transaction ids distinct. Every
    data handler preserves this invariant, under the conditions stated in its
    contract.
- `dashboard.dfy` (module `Dashboard`): the dashboard aggregations
  (`components/Dashboard.tsx`). These are the total balance, this month's income
  and expense (`MonthlyStats`, a loop over an accumulator), the expense breakdown
  by category name (`CategoryBreakdown`, a loop that fills a dictionary), and the
  five most recent records.

Parameters stand in for what the store cannot compute itself:
- `newId` is the random id the source draws for a new account or transaction.
- `backendEnabled` stands for "a remote backend is configured". That covers the
  configuration check, and the presence of the authentication and document-store
  handles.
- `loadedAt` is the clock reading stamped on the demo accounts (one reading for
  all three; see "## Left out").
- `inMonth` is the "date falls in the current month and year" test.

## Model

| member | source | states |
|---|---|---|
| Seqs.Filter | App.tsx:137-138 | the kept elements are exactly the input's elements that pass the test, and there are no more of them than the input had |
| Seqs.FilterConcat | App.tsx:178 | filtering keeps the relative order: it distributes over concatenation |
| Seqs.FilterKeepsAll | App.tsx:178 | a filter that rejects nothing returns its input unchanged |
| Seqs.Find | App.tsx:163 | a found element is in the input and passes the test; None means that no element passes; an element passing at the head is the one found |
| Seqs.FindIsFirst | App.tsx:163 | the element found is the first that passes the test: every element before it fails |
| Constants.DefaultCategoryIds | constants.tsx:4-15 | exactly ten default categories, with ids "1".."10" in order and no id twice |
| Constants.DefaultCategoryDirections | constants.tsx:5-14 | categories "1"-"3" are income, "4"-"10" expense |
| Constants.DemoAccountsShape | constants.tsx:17-21 | three demo accounts acc1, acc2, acc3 with balances 125000, 50000, -12500 |
| Constants.DemoTransactionsShape | constants.tsx:23-29 | five demo transactions t1..t5, ids distinct, every amount positive |
| Constants.DemoTransactionsWellFormed | constants.tsx:24-28 | every demo transaction names a demo account and a default category whose direction matches its own |
| App.Merge | App.tsx:130 | an empty update leaves the account as it is; an update without id or balance keeps both |
| App.MergeIdempotent | App.tsx:130 | spreading the same update twice is spreading it once |
| App.DemoState | App.tsx:28-34 | the demo fallback; its contract is in InitialState (demo data, demo mode, no user) and DemoStateReconcilable |
| App.AddAccountTo | App.tsx:122-125 | the addAccount transform; its contract is AddAccountEffect, AddAccountKeepsLedger and Dashboard.AddAccountRaisesTotal |
| App.UpdateAccountIn | App.tsx:127-132 | the updateAccount transform; its contract is UpdateAccountEffect and UpdateAccountKeepsLedger |
| App.DeleteAccountFrom | App.tsx:134-140 | the deleteAccount cascade; its contract is DeleteAccountEffect, DeleteAccountKeepsLedger and DeleteAccountLeavesNoOrphans |
| App.AddTransactionTo | App.tsx:142-160 | the addTransaction transform; its contract is AddTransactionEffect, AddTransactionKeepsLedger and AddThenDeleteRestores |
| App.DeleteTransactionFrom | App.tsx:162-181 | the deleteTransaction transform; its contract is DeleteTransactionEffect, DeleteTransactionKeepsLedger and AddThenDeleteRestores |
| App.AdjustBalances | App.tsx:145-153 | same length; each account keeps every field but the balance, and the balance moves by delta exactly when the id matches |
| App.UpdateAccounts | App.tsx:127-132 | same length; an account with the id becomes the update merged over it, and every other account is kept |
| App.InitialState | App.tsx:18-35 | a parsed snapshot is adopted field by field, and its mode is demo unless it says false; with no snapshot or an unparseable one, the state is the demo accounts, demo transactions and default categories, in demo mode, with no user |
| App.LocalPart | App.tsx:103 | the result is a prefix of the email with no '@' in it, ending at the first '@' or at the end |
| App.LoggedIn | App.tsx:99-106 | in demo mode the user becomes the demo identity for the email; in formal mode nothing changes |
| App.ToggledMode | App.tsx:113-120 | rejected exactly when formal mode is asked for without a backend; otherwise the mode flips, the user is cleared and nothing else changes |
| App.UserFromAuth | App.tsx:42-46 | the id is the uid; a missing email becomes ""; the display name is never empty; it is the given name when non-empty, else the email's local part when non-empty, else "User" |
| App.SignedIn | App.tsx:48 | the user is set and the mode becomes formal; nothing else changes |
| App.SignedOut | App.tsx:67-71 | the user is cleared only outside demo mode; nothing else changes |
| App.AdoptedRemote | App.tsx:57-61 | the document's arrays, or empty ones when absent, replace accounts and transactions; nothing else changes |
| App.SyncRequestFor | App.tsx:83-90 | a mirror write is issued exactly in formal mode, with a user and a backend, and it is keyed by the user's id |
| App.AddAccountEffect | App.tsx:122-125 | the new account is appended after the old ones, which are kept in order; nothing else changes |
| App.UpdateAccountEffect | App.tsx:127-132 | accounts with the id are merged and the others kept; an unknown id is a no-op; nothing else changes |
| App.DeleteAccountEffect | App.tsx:134-140 | afterwards no account has the id and no transaction references it; every other account and transaction is kept, in order |
| App.AddTransactionEffect | App.tsx:142-160 | only accounts with the record's account id change, by +amount for income and -amount for expense; the new record comes first, followed by the old records in order |
| App.DeleteTransactionEffect | App.tsx:162-181 | an unknown id is a no-op on the whole state; otherwise the found record's effect is reversed on its account (-amount for income, +amount for expense), and every record with the id is removed, keeping the rest in order |
| App.NetUnreferenced | App.tsx:122-125 | an account that no transaction references has a net of zero |
| App.NetWithoutAccount | App.tsx:138 | removing one account's transactions leaves every other account's net unchanged |
| App.NetWithoutTransaction | App.tsx:178 | with unique ids, removing a record's id takes exactly its signed amount out of its account's net |
| App.FilterKeepsDistinctIds | App.tsx:138 | filtering keeps transaction ids distinct |
| App.DistinctTail | App.tsx:157 | the tail of a list with unique ids has unique ids, none equal to the head's |
| App.DistinctCons | App.tsx:157 | prepending a record whose id is unused keeps the ids unique |
| App.RebaseReconciles | App.tsx:57-61 | a state whose accounts agree on balances per id, and whose transaction ids are distinct, is reconciled against the opening balances read back from it |
| App.DemoStateReconcilable | App.tsx:28-34 | the demo dataset can be reconciled and has no orphan transactions |
| App.AddTransactionKeepsLedger | App.tsx:142-160 | with a fresh id, adding a transaction keeps every balance equal to opening plus net, and ids distinct |
| App.DeleteTransactionKeepsLedger | App.tsx:162-181 | deleting a transaction keeps the ledger invariant |
| App.DeleteAccountKeepsLedger | App.tsx:134-140 | the cascade delete keeps the ledger invariant |
| App.AddAccountKeepsLedger | App.tsx:122-125 | with an unused id that no transaction references, a new account keeps the ledger, with its balance as its opening balance |
| App.UpdateAccountKeepsLedger | App.tsx:127-132 | an update that changes neither id nor balance keeps the ledger invariant |
| App.DeleteAccountLeavesNoOrphans | App.tsx:134-140 | the cascade leaves no transaction referencing a missing account |
| App.AdjustBalancesCancel | App.tsx:145-174 | adjusting by delta and then by -delta restores every account |
| App.FreshHead | App.tsx:157-178 | a record put in front of records with other ids is the one found by its id, and removing its id gives the old list back |
| App.AddThenDeleteRestores | App.tsx:142-181 | with a fresh id, add followed by delete of that id restores every balance and the transaction list, that is the whole state |
| App.SyncThenAdoptRestores | App.tsx:57-90 | adopting the document the store mirrors gives back exactly its accounts and transactions |
| App.DemoExpenseScenario | App.tsx:142-160 | from the demo data, a 500 expense on acc1 leaves acc1 at 124500 and the other accounts alone, with the new record first |
| App.DemoDeleteIncomeScenario | App.tsx:162-181 | from the demo data, deleting t1 (income 65000) takes acc1 down to 60000 and leaves t2..t5 |
| App.Store.constructor | App.tsx:18-35 | the held state is the initial state; a reconcilable start, and in particular the demo fallback, is reconciled; the fallback has no orphans |
| App.Store.Login | App.tsx:99-106 | the state becomes the handleLogin transform of the old state; the ledger is kept |
| App.Store.Logout | App.tsx:108-111 | only the user is cleared; the ledger is kept |
| App.Store.ToggleMode | App.tsx:113-120 | accepted exactly when the toggle transform accepts; then the state is the toggled one, otherwise it is unchanged |
| App.Store.SignIn | App.tsx:40-48 | the state becomes the signed-in transform; the ledger is kept |
| App.Store.SignOut | App.tsx:67-71 | the state becomes the signed-out transform; the ledger is kept |
| App.Store.AdoptRemote | App.tsx:57-61 | the state becomes the adoption transform; the opening balances are read back, so a reconcilable document is reconciled |
| App.Store.AddAccount | App.tsx:122-125 | the state becomes the add transform; the opening balances gain the new account; with a fresh id the ledger is kept; no orphan is created |
| App.Store.UpdateAccount | App.tsx:127-132 | the state becomes the update transform; without an id or balance change the ledger is kept |
| App.Store.DeleteAccount | App.tsx:134-140 | the state becomes the cascade transform; the ledger and the absence of orphans are kept |
| App.Store.AddTransaction | App.tsx:142-160 | the state becomes the add transform; with a fresh id the ledger is kept |
| App.Store.DeleteTransaction | App.tsx:162-181 | the state becomes the delete transform; the ledger is kept |
| App.AddThenDelete | App.tsx:142-181 | a client adding and then deleting a record with a fresh id leaves the store's state as it was |
| Dashboard.TotalBalance | components/Dashboard.tsx:13-14 | the sum of the balances, 0 for none; its contract is TotalBalanceConcat, TotalBalanceAfterAdjust and AddAccountRaisesTotal |
| Dashboard.TotalBalanceAfterAdjust | components/Dashboard.tsx:13-14 | a balance adjustment moves the total by delta for each account with the id |
| Dashboard.AddTransactionMovesTotal | components/Dashboard.tsx:13-14 | when the record's account id names exactly one account, the total moves by the record's signed amount; when it names none, the total is unchanged |
| Dashboard.TotalBalanceConcat | components/Dashboard.tsx:13-14 | the total of two lists of accounts is the sum of their totals |
| Dashboard.AddAccountRaisesTotal | components/Dashboard.tsx:13-14 | addAccount raises the total by the new balance |
| Dashboard.MonthSumConcat | components/Dashboard.tsx:21-28 | the month sum distributes over concatenation |
| Dashboard.MonthSumsPartition | components/Dashboard.tsx:21-28 | income plus expense equals the sum of all in-month amounts |
| Dashboard.OnlyCurrentMonthCounts | components/Dashboard.tsx:22-23 | records outside the month contribute to neither total |
| Dashboard.MonthlyStats | components/Dashboard.tsx:16-29 | the loop's income is the in-month income sum and its expense the in-month sum of the non-income records; together they equal the in-month total |
| Dashboard.CategoryLabel | components/Dashboard.tsx:36 | a label is never empty |
| Dashboard.CategoryLabelOrigin | components/Dashboard.tsx:36 | only the first category with the id decides: the label is its name, or the other-label when that name is empty; an id no category has gets the other-label |
| Dashboard.ExpenseLabelsMeaning | components/Dashboard.tsx:33-36 | a name is an expense label exactly when some expense record carries it |
| Dashboard.ExpenseLabelsConcat | components/Dashboard.tsx:33-36 | the labels of a concatenation are the union of the labels |
| Dashboard.CategoryTotalConcat | components/Dashboard.tsx:37 | a label's total distributes over concatenation |
| Dashboard.CategoryTotalOfUnseen | components/Dashboard.tsx:37 | a label that no expense record carries has total zero, so a new key starts from its first amount |
| Dashboard.OnlyExpensesCount | components/Dashboard.tsx:33-34 | income records change neither any label's total nor the set of labels |
| Dashboard.SumTotalsOfNothing | components/Dashboard.tsx:32-40 | with no records, every slice total is zero |
| Dashboard.SumTotalsStep | components/Dashboard.tsx:35-38 | over distinct names, one more record adds its amount exactly once when it is an expense whose label is among them |
| Dashboard.BreakdownSumsToTotalExpense | components/Dashboard.tsx:32-40 | over distinct names covering every expense label, the slice totals sum to the total expense |
| Dashboard.SliceSumIsSumTotals | components/Dashboard.tsx:40 | slices whose values are the label totals sum to the total over their names |
| Dashboard.GroupStep | components/Dashboard.tsx:35-38 | one more record adds its label if it is an expense, and adds its amount to its own label's total only |
| Dashboard.GroupedSkip | components/Dashboard.tsx:34 | an income record leaves the grouping correct unchanged |
| Dashboard.GroupedAdd | components/Dashboard.tsx:37 | an expense under a known label is added to that label's total |
| Dashboard.GroupedNew | components/Dashboard.tsx:37 | an expense under a new label appends the label, with its amount as the total |
| Dashboard.GroupExpenses | components/Dashboard.tsx:32-38 | the dictionary's keys are the expense labels, each once, and each key maps to its expense total over all months |
| Dashboard.CategoryBreakdown | components/Dashboard.tsx:31-41 | one slice per expense label, each name once, each value its label's expense total, and the values sum to the total expense |
| Dashboard.Recent | components/Dashboard.tsx:119 | the first min(5, n) records, in stored (newest-first) order |
| Dashboard.AddTransactionHeadsRecent | components/Dashboard.tsx:119 | after addTransaction, the new record heads the recent list, followed by the previous recent records |

## Left out

- Reading and writing the browser's local storage, and JSON parsing. The snapshot
  arrives already classified as `Missing`, `Unparseable` or `Parsed`, and the
  per-change write to local storage is not modelled.
- The document-store read and write, and their failures. Only the guard and the
  request (`SyncRequestFor`) and the adoption transform (`AdoptedRemote`) are
  modelled. The `merge: true` upsert semantics and the `updatedAt` timestamp of
  the write are outside the model.
- The authentication subscription and `signOut` call. The callback's two outcomes
  are `SignIn` and `SignOut`.
- Asynchrony. The remote read races with local changes, and the callback reads a
  captured `isDemoMode`. Adoption is one atomic step, and the callback reads the
  current state.
- The id generator. Ids are the parameter `newId`. The ledger guarantees of
  `Store.AddAccount` and `Store.AddTransaction` hold only when that id is unused,
  which a random id makes likely but not certain.
- Store.AddTransaction: the transaction form's guard against an empty account or
  category id is not a precondition, because the store accepts any record.
- Store.UpdateAccount: the ledger guarantee is stated only for updates without an
  `id` or `balance`, because the type allows a balance overwrite that breaks the
  invariant.
- Category/transaction direction agreement is not a store invariant: nothing in
  the store enforces it. It is proved only for the demo data.
- JavaScript number arithmetic (floating point, NaN amounts), formatting, and date
  parsing. Amounts are integers, and the month test is the parameter `inMonth`.
- Dashboard.CategoryBreakdown: slices come in the order their names were first
  met. `Object.entries` instead lists integer-like keys first in ascending order;
  category names are not expected to be integers. The dictionary is also modelled
  as an empty map without inherited keys, so a category name that is an
  `Object.prototype` property name (`__proto__`, `toString`, `constructor`, ...)
  is not handled as the source handles it: there such a name yields no slice or a
  non-numeric one, and the slices need not sum to the total expense, while the
  model's contract claims they do for every name.
- Dashboard.GroupExpenses: the source's dictionary is a plain object literal that
  inherits `Object.prototype`'s keys; the model's map starts truly empty, so for
  a category name that is an inherited property name the model adds the amount
  to 0 where the source reads the inherited value (a function or the prototype
  object) and stores a string or nothing.
- The rendering, routing, chart and page components; the AI-summary service; and
  the configuration parsing of the backend, which is reduced to `backendEnabled`.
- The source adopts a parsed snapshot as it is, only filling in a missing mode
  flag with demo mode. A stored formal mode is therefore kept even when no
  backend is configured, and the model follows the code, not a reading in which
  such a snapshot is forced back into demo mode.
- Constants.DemoAccounts: the source reads the clock once per demo account, so
  the three `lastUpdated` stamps may differ; the model stamps all three with the
  single reading `loadedAt`.
