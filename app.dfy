/**
 The application state store (App.tsx). The store holds one AppState; every
 handler replaces it with a new value computed from the old one. The module
 first gives each handler's transform as a function on AppState values, then
 the ledger invariant and the lemmas about it, and finally the class Store,
 whose methods apply those transforms to its fields.

 The store's central invariant: every account's balance equals an opening
 balance plus the signed sum of the transactions that reference it
 (income adds, expense subtracts).
 */
module App {
  import opened Types
  import opened Seqs
  import opened Constants

  /** What a caller passes to addAccount: a BankAccount without its id. */
  datatype AccountFields = AccountFields(name: string, kind: AccountType, balance: int, lastUpdated: string) {
    function WithId(id: string): Account {
      Account(id, name, kind, balance, lastUpdated)
    }
  }

  /** A partial account update: a field that is None is absent from the update. */
  datatype AccountUpdate = AccountUpdate(
    id: Option<string>,
    name: Option<string>,
    kind: Option<AccountType>,
    balance: Option<int>,
    lastUpdated: Option<string>)

  /** What a caller passes to addTransaction: a Transaction without its id. */
  datatype TransactionFields = TransactionFields(
    accountId: string,
    categoryId: string,
    amount: int,
    date: string,
    description: string,
    kind: TransactionType)
  {
    function WithId(id: string): Transaction {
      Transaction(id, accountId, categoryId, amount, date, description, kind)
    }
  }

  /**
   The outcome of reading the saved snapshot at start-up: nothing saved (or an
   empty string), text that does not parse, or a parsed snapshot whose
   `isDemoMode` field may be missing.
   */
  datatype Snapshot =
    | Missing
    | Unparseable
    | Parsed(accounts: seq<Account>, transactions: seq<Transaction>, categories: seq<Category>,
             isDemoMode: Option<bool>, user: Option<User>)

  /** The per-user document of the remote store; either array may be absent. */
  datatype RemoteDocument = RemoteDocument(accounts: Option<seq<Account>>, transactions: Option<seq<Transaction>>)

  /** An upsert of `document` into the remote document keyed by `userId`. */
  datatype SyncRequest = SyncRequest(userId: string, document: RemoteDocument)

  // ---------------------------------------------------------------------------
  // Queries over the collections

  function FindAccount(accounts: seq<Account>, id: string): Option<Account> {
    Find(accounts, (a: Account) => a.id == id)
  }

  function FindTransaction(transactions: seq<Transaction>, id: string): Option<Transaction> {
    Find(transactions, (t: Transaction) => t.id == id)
  }

  function AccountIds(accounts: seq<Account>): set<string> {
    set a | a in accounts :: a.id
  }

  function TransactionIds(transactions: seq<Transaction>): set<string> {
    set t | t in transactions :: t.id
  }

  /** The balance effect of a transaction on its account. */
  function Signed(t: Transaction): int {
    if t.kind == Income then t.amount else -t.amount
  }

  /** The signed sum of the transactions that reference account `accountId`. */
  function Net(transactions: seq<Transaction>, accountId: string): int {
    if transactions == [] then 0
    else (if transactions[0].accountId == accountId then Signed(transactions[0]) else 0)
         + Net(transactions[1..], accountId)
  }

  // ---------------------------------------------------------------------------
  // The per-step transforms the handlers are built from

  /** Adds `delta` to the balance of every account whose id is `accountId`, keeping the order. */
  function AdjustBalances(accounts: seq<Account>, accountId: string, delta: int): (r: seq<Account>)
    ensures |r| == |accounts|
    ensures forall i :: 0 <= i < |r| ==>
      && r[i].(balance := accounts[i].balance) == accounts[i]
      && r[i].balance == accounts[i].balance + (if accounts[i].id == accountId then delta else 0)
  {
    if accounts == [] then []
    else
      var a := accounts[0];
      [if a.id == accountId then a.(balance := a.balance + delta) else a]
      + AdjustBalances(accounts[1..], accountId, delta)
  }

  /** The spread of an update over an account: every field present in `u` overrides the account's. */
  function Merge(a: Account, u: AccountUpdate): (r: Account)
    ensures u == AccountUpdate(None, None, None, None, None) ==> r == a
    ensures u.id.None? && u.balance.None? ==> r.id == a.id && r.balance == a.balance
  {
    Account(u.id.GetOr(a.id), u.name.GetOr(a.name), u.kind.GetOr(a.kind),
            u.balance.GetOr(a.balance), u.lastUpdated.GetOr(a.lastUpdated))
  }

  /** Merging the same update twice is merging it once. */
  lemma MergeIdempotent(a: Account, u: AccountUpdate)
    ensures Merge(Merge(a, u), u) == Merge(a, u)
  {
  }

  /** Every account with the id gets the update merged over it; the others are kept, in order. */
  function UpdateAccounts(accounts: seq<Account>, id: string, u: AccountUpdate): (r: seq<Account>)
    ensures |r| == |accounts|
    ensures forall i :: 0 <= i < |r| ==>
      r[i] == if accounts[i].id == id then Merge(accounts[i], u) else accounts[i]
  {
    if accounts == [] then []
    else
      [if accounts[0].id == id then Merge(accounts[0], u) else accounts[0]]
      + UpdateAccounts(accounts[1..], id, u)
  }

  function WithoutAccount(accounts: seq<Account>, id: string): seq<Account> {
    Filter(accounts, (a: Account) => a.id != id)
  }

  function WithoutAccountTransactions(transactions: seq<Transaction>, accountId: string): seq<Transaction> {
    Filter(transactions, (t: Transaction) => t.accountId != accountId)
  }

  function WithoutTransaction(transactions: seq<Transaction>, id: string): seq<Transaction> {
    Filter(transactions, (t: Transaction) => t.id != id)
  }

  // ---------------------------------------------------------------------------
  // Start-up

  /** The built-in demo dataset used when no snapshot can be loaded. */
  function DemoState(loadedAt: string): AppState {
    AppState(DemoAccounts(loadedAt), DEMO_TRANSACTIONS, DEFAULT_CATEGORIES, true, None)
  }

  /**
   The initial state: a parsed snapshot is adopted as it is, with `isDemoMode`
   defaulting to true only when the field is missing; otherwise the demo dataset.
   */
  function InitialState(saved: Snapshot, loadedAt: string): (r: AppState)
    ensures saved.Parsed? ==>
      && r.accounts == saved.accounts && r.transactions == saved.transactions
      && r.categories == saved.categories && r.user == saved.user
      && (r.isDemoMode <==> saved.isDemoMode != Some(false))
    ensures !saved.Parsed? ==>
      && r.accounts == DemoAccounts(loadedAt) && r.transactions == DEMO_TRANSACTIONS
      && r.categories == DEFAULT_CATEGORIES && r.isDemoMode && r.user == None
  {
    match saved
    case Parsed(accounts, transactions, categories, isDemoMode, user) =>
      AppState(accounts, transactions, categories, isDemoMode.GetOr(true), user)
    case _ => DemoState(loadedAt)
  }

  // ---------------------------------------------------------------------------
  // Account handlers

  function AddAccountTo(s: AppState, fields: AccountFields, newId: string): AppState {
    s.(accounts := s.accounts + [fields.WithId(newId)])
  }

  function UpdateAccountIn(s: AppState, id: string, u: AccountUpdate): AppState {
    s.(accounts := UpdateAccounts(s.accounts, id, u))
  }

  /**
   Removes the account and, in the same step, every transaction that
   references it; everything else is kept, in order.
   */
  function DeleteAccountFrom(s: AppState, id: string): AppState {
    s.(accounts := WithoutAccount(s.accounts, id),
       transactions := WithoutAccountTransactions(s.transactions, id))
  }

  // ---------------------------------------------------------------------------
  // Transaction handlers

  /**
   Adjusts the referenced account (+amount for income, -amount for expense)
   and puts the new record in front of the old ones.
   */
  function AddTransactionTo(s: AppState, fields: TransactionFields, newId: string): AppState {
    var t := fields.WithId(newId);
    s.(accounts := AdjustBalances(s.accounts, t.accountId, Signed(t)),
       transactions := [t] + s.transactions)
  }

  /**
   Looks the record up; if there is none the state is returned unchanged.
   Otherwise reverses its effect on the referenced account and removes every
   record with that id, keeping the others in order.
   */
  function DeleteTransactionFrom(s: AppState, id: string): AppState {
    match FindTransaction(s.transactions, id)
    case None => s
    case Some(t) => Undone(s, t, id)
  }

  /** The found record `t`'s effect reversed on its account and the id `id` dropped. */
  function Undone(s: AppState, t: Transaction, id: string): AppState {
    s.(accounts := AdjustBalances(s.accounts, t.accountId, -Signed(t)),
       transactions := WithoutTransaction(s.transactions, id))
  }

  // ---------------------------------------------------------------------------
  // Session and mode handlers

  /** The first piece of the email split at '@': the text before the first '@', or all of it. */
  function LocalPart(email: string): (r: string)
    ensures r <= email
    ensures '@' !in r
    ensures |r| == |email| || email[|r|] == '@'
  {
    if email == [] || email[0] == '@' then []
    else [email[0]] + LocalPart(email[1..])
  }

  /** handleLogin: a demo identity is set only in demo mode; otherwise nothing changes. */
  function LoggedIn(s: AppState, email: string): (r: AppState)
    ensures s.isDemoMode ==> r == s.(user := Some(User("demo_user", email, LocalPart(email))))
    ensures !s.isDemoMode ==> r == s
  {
    if s.isDemoMode then s.(user := Some(User("demo_user", email, LocalPart(email)))) else s
  }

  /**
   handleToggleMode: None when formal mode is asked for and no backend is
   configured (the state stays as it is); otherwise the flipped state with the
   user cleared.
   */
  function ToggledMode(s: AppState, backendEnabled: bool): (r: Option<AppState>)
    ensures r.None? <==> s.isDemoMode && !backendEnabled
    ensures r.Some? ==> r.value.isDemoMode == !s.isDemoMode && r.value.user == None
    ensures r.Some? ==> r.value.(isDemoMode := s.isDemoMode, user := s.user) == s
  {
    var nextMode := !s.isDemoMode;
    if !nextMode && !backendEnabled then None
    else Some(s.(isDemoMode := nextMode, user := None))
  }

  /**
   The descriptor built from a signed-in authentication user: an absent email
   becomes "", and the display name falls back to the email's local part and
   then to "User", so it is never empty.
   */
  function UserFromAuth(uid: string, email: Option<string>, displayName: Option<string>): (u: User)
    ensures u.id == uid && u.email == email.GetOr("")
    ensures u.displayName != ""
    ensures displayName.Some? && displayName.value != "" ==> u.displayName == displayName.value
    ensures (displayName.None? || displayName.value == "") && email.Some? && LocalPart(email.value) != "" ==>
      u.displayName == LocalPart(email.value)
    ensures (displayName.None? || displayName.value == "") && (email.None? || LocalPart(email.value) == "") ==>
      u.displayName == "User"
  {
    var name :=
      if displayName.Some? && displayName.value != "" then displayName.value
      else if email.Some? && LocalPart(email.value) != "" then LocalPart(email.value)
      else "User";
    User(uid, email.GetOr(""), name)
  }

  /** The authentication callback for a signed-in user: adopt it and enter formal mode. */
  function SignedIn(s: AppState, u: User): (r: AppState)
    ensures r.user == Some(u) && !r.isDemoMode
    ensures r.(user := s.user, isDemoMode := s.isDemoMode) == s
  {
    s.(user := Some(u), isDemoMode := false)
  }

  /** The authentication callback for no user: clears the user unless in demo mode. */
  function SignedOut(s: AppState): (r: AppState)
    ensures s.isDemoMode ==> r == s
    ensures !s.isDemoMode ==> r == s.(user := None)
  {
    if !s.isDemoMode then s.(user := None) else s
  }

  /** Adoption of the remote document: its arrays (or empty ones) replace the local ones. */
  function AdoptedRemote(s: AppState, doc: RemoteDocument): (r: AppState)
    ensures r.accounts == (if doc.accounts.Some? then doc.accounts.value else [])
    ensures r.transactions == (if doc.transactions.Some? then doc.transactions.value else [])
    ensures r.(accounts := s.accounts, transactions := s.transactions) == s
  {
    s.(accounts := doc.accounts.GetOr([]), transactions := doc.transactions.GetOr([]))
  }

  /** The remote mirror is written only in formal mode, with a user, and a backend. */
  predicate ShouldSync(s: AppState, backendEnabled: bool) {
    !s.isDemoMode && s.user.Some? && backendEnabled
  }

  /** The upsert the persistence step issues for `s`, if any. */
  function SyncRequestFor(s: AppState, backendEnabled: bool): (r: Option<SyncRequest>)
    ensures r.Some? <==> ShouldSync(s, backendEnabled)
    ensures r.Some? ==> r.value.userId == s.user.value.id
  {
    if ShouldSync(s, backendEnabled) then
      Some(SyncRequest(s.user.value.id, RemoteDocument(Some(s.accounts), Some(s.transactions))))
    else None
  }

  // ---------------------------------------------------------------------------
  // What each data handler does, stated field by field

  /** addAccount appends the new account and changes nothing else. */
  lemma AddAccountEffect(s: AppState, fields: AccountFields, newId: string)
    ensures var r := AddAccountTo(s, fields, newId);
      && |r.accounts| == |s.accounts| + 1
      && r.accounts[..|s.accounts|] == s.accounts
      && r.accounts[|s.accounts|] == fields.WithId(newId)
      && r.(accounts := s.accounts) == s
  {
  }

  /**
   updateAccount merges the update into every account with that id, leaves
   the others alone, and is a no-op when no account has the id.
   */
  lemma UpdateAccountEffect(s: AppState, id: string, u: AccountUpdate)
    ensures var r := UpdateAccountIn(s, id, u);
      && |r.accounts| == |s.accounts|
      && (forall i :: 0 <= i < |s.accounts| && s.accounts[i].id != id ==> r.accounts[i] == s.accounts[i])
      && (forall i :: 0 <= i < |s.accounts| && s.accounts[i].id == id ==> r.accounts[i] == Merge(s.accounts[i], u))
      && (id !in AccountIds(s.accounts) ==> r == s)
      && r.(accounts := s.accounts) == s
  {
    var r := UpdateAccountIn(s, id, u);
    if id !in AccountIds(s.accounts) {
      forall i | 0 <= i < |s.accounts| ensures r.accounts[i] == s.accounts[i] {
        assert s.accounts[i] in s.accounts;
      }
    }
  }

  /**
   deleteAccount removes the account and, in the same step, every transaction
   that references it; every other account and transaction is kept, in order.
   */
  lemma DeleteAccountEffect(s: AppState, id: string)
    ensures var r := DeleteAccountFrom(s, id);
      && id !in AccountIds(r.accounts)
      && (forall t :: t in r.transactions ==> t.accountId != id)
      && (forall a :: a in r.accounts <==> a in s.accounts && a.id != id)
      && (forall t :: t in r.transactions <==> t in s.transactions && t.accountId != id)
      && r.accounts == WithoutAccount(s.accounts, id)
      && r.transactions == WithoutAccountTransactions(s.transactions, id)
      && r.(accounts := s.accounts, transactions := s.transactions) == s
  {
  }

  /**
   addTransaction changes only the accounts whose id is the record's account
   id (+amount for income, -amount for expense), puts the new record first and
   keeps the old records, in order, after it.
   */
  lemma AddTransactionEffect(s: AppState, fields: TransactionFields, newId: string)
    ensures var r := AddTransactionTo(s, fields, newId);
      && |r.accounts| == |s.accounts|
      && (forall i :: 0 <= i < |s.accounts| && s.accounts[i].id != fields.accountId ==>
            r.accounts[i] == s.accounts[i])
      && (forall i :: 0 <= i < |s.accounts| && s.accounts[i].id == fields.accountId ==>
            r.accounts[i] == s.accounts[i].(balance := if fields.kind == Income then s.accounts[i].balance + fields.amount
                                                       else s.accounts[i].balance - fields.amount))
      && |r.transactions| == |s.transactions| + 1
      && r.transactions[0] == fields.WithId(newId) && r.transactions[1..] == s.transactions
      && r.(accounts := s.accounts, transactions := s.transactions) == s
  {
  }

  /**
   deleteTransaction with an unknown id changes nothing. Otherwise it reverses
   the record's effect on its account (-amount for income, +amount for
   expense) and removes every record with that id, keeping the rest in order.
   */
  lemma DeleteTransactionEffect(s: AppState, id: string)
    ensures var r := DeleteTransactionFrom(s, id);
      && (id !in TransactionIds(s.transactions) ==> r == s)
      && (forall t :: t in r.transactions ==> t.id != id)
      && (forall t :: t in s.transactions && t.id != id ==> t in r.transactions)
      && |r.accounts| == |s.accounts|
      && r.(accounts := s.accounts, transactions := s.transactions) == s
    ensures id in TransactionIds(s.transactions) ==>
      var r := DeleteTransactionFrom(s, id);
      var t := FindTransaction(s.transactions, id).value;
      && t in s.transactions && t.id == id
      && r.transactions == WithoutTransaction(s.transactions, id)
      && forall i :: 0 <= i < |s.accounts| ==>
           r.accounts[i] == if s.accounts[i].id != t.accountId then s.accounts[i]
                            else s.accounts[i].(balance := if t.kind == Income then s.accounts[i].balance - t.amount
                                                           else s.accounts[i].balance + t.amount)
  {
    var found := FindTransaction(s.transactions, id);
    if id in TransactionIds(s.transactions) {
      var x :| x in s.transactions && x.id == id;
      assert found.Some?;
    }
    if found.Some? {
      DeleteTransactionFound(s, id, found.value);
    }
  }

  // ---------------------------------------------------------------------------
  // The ledger invariant

  ghost predicate DistinctTransactionIds(transactions: seq<Transaction>) {
    forall i, j :: 0 <= i < j < |transactions| ==> transactions[i].id != transactions[j].id
  }

  /**
   Transaction ids are unique, and every account's balance is its opening
   balance plus the signed sum of the transactions that reference it.
   */
  ghost predicate Reconciled(s: AppState, opening: map<string, int>) {
    && DistinctTransactionIds(s.transactions)
    && forall a :: a in s.accounts ==>
         a.id in opening && a.balance == opening[a.id] + Net(s.transactions, a.id)
  }

  /** A state for which some opening balances exist: accounts with one id agree on their balance. */
  ghost predicate Reconcilable(s: AppState) {
    && DistinctTransactionIds(s.transactions)
    && forall a, b :: a in s.accounts && b in s.accounts && a.id == b.id ==> a.balance == b.balance
  }

  /** Opening balances read back from a state: balance minus the net of its transactions. */
  ghost function Rebase(s: AppState): map<string, int> {
    map id | id in AccountIds(s.accounts) ::
      var found := FindAccount(s.accounts, id);
      if found.Some? then found.value.balance - Net(s.transactions, id) else 0
  }

  /** No transaction references an account that is not in the state. */
  ghost predicate NoOrphans(s: AppState) {
    forall t :: t in s.transactions ==> t.accountId in AccountIds(s.accounts)
  }

  lemma {:induction false} NetUnreferenced(transactions: seq<Transaction>, accountId: string)
    requires forall t :: t in transactions ==> t.accountId != accountId
    ensures Net(transactions, accountId) == 0
  {
    if transactions != [] {
      assert transactions[0] in transactions;
      NetUnreferenced(transactions[1..], accountId);
    }
  }

  /** Removing another account's transactions leaves an account's net unchanged. */
  lemma {:induction false} NetWithoutAccount(transactions: seq<Transaction>, removed: string, accountId: string)
    requires removed != accountId
    ensures Net(WithoutAccountTransactions(transactions, removed), accountId) == Net(transactions, accountId)
  {
    if transactions != [] {
      NetWithoutAccount(transactions[1..], removed, accountId);
      var t := transactions[0];
      var rest := WithoutAccountTransactions(transactions[1..], removed);
      if t.accountId != removed {
        assert WithoutAccountTransactions(transactions, removed) == [t] + rest;
        assert ([t] + rest)[1..] == rest;
      } else {
        assert WithoutAccountTransactions(transactions, removed) == rest;
      }
    }
  }

  /** Removing the one record with id `t.id` takes exactly its signed amount out of its account's net. */
  lemma {:induction false} NetWithoutTransaction(transactions: seq<Transaction>, t: Transaction, accountId: string)
    requires DistinctTransactionIds(transactions) && t in transactions
    ensures Net(WithoutTransaction(transactions, t.id), accountId)
         == Net(transactions, accountId) - (if t.accountId == accountId then Signed(t) else 0)
  {
    var head := transactions[0];
    var tail := transactions[1..];
    DistinctTail(transactions);
    if head == t {
      FilterKeepsAll(tail, (x: Transaction) => x.id != t.id);
      assert WithoutTransaction(transactions, t.id) == tail;
    } else {
      var k :| 0 <= k < |transactions| && transactions[k] == t;
      assert k != 0 && tail[k - 1] == t;
      assert head.id != t.id;
      NetWithoutTransaction(tail, t, accountId);
      var rest := WithoutTransaction(tail, t.id);
      assert WithoutTransaction(transactions, t.id) == [head] + rest;
      assert ([head] + rest)[1..] == rest;
    }
  }

  /** Unique ids: the tail has unique ids and none of them is the head's. */
  lemma DistinctTail(transactions: seq<Transaction>)
    requires DistinctTransactionIds(transactions) && transactions != []
    ensures DistinctTransactionIds(transactions[1..])
    ensures transactions[0].id !in TransactionIds(transactions[1..])
  {
    var tail := transactions[1..];
    forall i, j | 0 <= i < j < |tail| ensures tail[i].id != tail[j].id {
      assert tail[i] == transactions[i + 1] && tail[j] == transactions[j + 1];
    }
    forall x | x in tail ensures x.id != transactions[0].id {
      var k :| 0 <= k < |tail| && tail[k] == x;
      assert transactions[k + 1] == x;
    }
  }

  /** A record whose id no other record has, in front of records with unique ids, keeps ids unique. */
  lemma DistinctCons(head: Transaction, rest: seq<Transaction>)
    requires DistinctTransactionIds(rest) && head.id !in TransactionIds(rest)
    ensures DistinctTransactionIds([head] + rest)
  {
    var r := [head] + rest;
    forall i, j | 0 <= i < j < |r| ensures r[i].id != r[j].id {
      assert r[j] == rest[j - 1];
      if i == 0 {
        assert rest[j - 1] in rest;
      } else {
        assert r[i] == rest[i - 1];
      }
    }
  }

  lemma {:induction false} FilterKeepsDistinctIds(transactions: seq<Transaction>, keep: Transaction -> bool)
    requires DistinctTransactionIds(transactions)
    ensures DistinctTransactionIds(Filter(transactions, keep))
  {
    if transactions != [] {
      var head := transactions[0];
      var tail := transactions[1..];
      DistinctTail(transactions);
      FilterKeepsDistinctIds(tail, keep);
      var rest := Filter(tail, keep);
      if keep(head) {
        assert head.id !in TransactionIds(rest);
        DistinctCons(head, rest);
        assert Filter(transactions, keep) == [head] + rest;
      } else {
        assert Filter(transactions, keep) == rest;
      }
    }
  }

  lemma RebaseReconciles(s: AppState)
    requires Reconcilable(s)
    ensures Reconciled(s, Rebase(s))
  {
    forall a | a in s.accounts
      ensures a.id in Rebase(s) && a.balance == Rebase(s)[a.id] + Net(s.transactions, a.id)
    {
      assert a.id in AccountIds(s.accounts);
      var found := FindAccount(s.accounts, a.id);
      assert found.Some?;
    }
  }

  lemma DemoStateReconcilable(loadedAt: string)
    ensures Reconcilable(DemoState(loadedAt)) && NoOrphans(DemoState(loadedAt))
  {
    DemoTransactionsShape();
    var s := DemoState(loadedAt);
    assert AccountIds(s.accounts) == {"acc1", "acc2", "acc3"} by {
      assert s.accounts[0] in s.accounts && s.accounts[1] in s.accounts && s.accounts[2] in s.accounts;
    }
  }

  lemma AddTransactionKeepsLedger(s: AppState, opening: map<string, int>, fields: TransactionFields, newId: string)
    requires Reconciled(s, opening)
    requires newId !in TransactionIds(s.transactions)
    ensures Reconciled(AddTransactionTo(s, fields, newId), opening)
  {
    var r := AddTransactionTo(s, fields, newId);
    forall i, j | 0 <= i < j < |r.transactions| ensures r.transactions[i].id != r.transactions[j].id {
      assert r.transactions[j] == s.transactions[j - 1];
      if i == 0 {
        assert s.transactions[j - 1] in s.transactions;
      } else {
        assert r.transactions[i] == s.transactions[i - 1];
      }
    }
    forall a | a in r.accounts ensures a.id in opening && a.balance == opening[a.id] + Net(r.transactions, a.id) {
      var i :| 0 <= i < |r.accounts| && r.accounts[i] == a;
      assert s.accounts[i] in s.accounts;
    }
  }

  lemma DeleteTransactionKeepsLedger(s: AppState, opening: map<string, int>, id: string)
    requires Reconciled(s, opening)
    ensures Reconciled(DeleteTransactionFrom(s, id), opening)
  {
    var found := FindTransaction(s.transactions, id);
    if found.Some? {
      var t := found.value;
      var r := DeleteTransactionFrom(s, id);
      FilterKeepsDistinctIds(s.transactions, (x: Transaction) => x.id != id);
      forall a | a in r.accounts ensures a.id in opening && a.balance == opening[a.id] + Net(r.transactions, a.id) {
        var i :| 0 <= i < |r.accounts| && r.accounts[i] == a;
        assert s.accounts[i] in s.accounts;
        NetWithoutTransaction(s.transactions, t, a.id);
      }
    }
  }

  lemma DeleteAccountKeepsLedger(s: AppState, opening: map<string, int>, id: string)
    requires Reconciled(s, opening)
    ensures Reconciled(DeleteAccountFrom(s, id), opening)
  {
    var r := DeleteAccountFrom(s, id);
    FilterKeepsDistinctIds(s.transactions, (t: Transaction) => t.accountId != id);
    forall a | a in r.accounts ensures a.id in opening && a.balance == opening[a.id] + Net(r.transactions, a.id) {
      NetWithoutAccount(s.transactions, id, a.id);
    }
  }

  lemma AddAccountKeepsLedger(s: AppState, opening: map<string, int>, fields: AccountFields, newId: string)
    requires Reconciled(s, opening)
    requires newId !in AccountIds(s.accounts)
    requires forall t :: t in s.transactions ==> t.accountId != newId
    ensures Reconciled(AddAccountTo(s, fields, newId), opening[newId := fields.balance])
  {
    var r := AddAccountTo(s, fields, newId);
    NetUnreferenced(s.transactions, newId);
    forall a | a in r.accounts
      ensures a.id in opening[newId := fields.balance]
      ensures a.balance == opening[newId := fields.balance][a.id] + Net(r.transactions, a.id)
    {
      assert r.accounts == s.accounts + [fields.WithId(newId)];
      assert a in s.accounts || a == fields.WithId(newId);
    }
  }

  lemma UpdateAccountKeepsLedger(s: AppState, opening: map<string, int>, id: string, u: AccountUpdate)
    requires Reconciled(s, opening)
    requires u.id.None? && u.balance.None?
    ensures Reconciled(UpdateAccountIn(s, id, u), opening)
  {
    var r := UpdateAccountIn(s, id, u);
    forall a | a in r.accounts ensures a.id in opening && a.balance == opening[a.id] + Net(r.transactions, a.id) {
      var i :| 0 <= i < |r.accounts| && r.accounts[i] == a;
      assert s.accounts[i] in s.accounts;
    }
  }

  /** The cascade keeps referential integrity: no transaction is left without its account. */
  lemma DeleteAccountLeavesNoOrphans(s: AppState, id: string)
    requires NoOrphans(s)
    ensures NoOrphans(DeleteAccountFrom(s, id))
  {
    var r := DeleteAccountFrom(s, id);
    forall t | t in r.transactions ensures t.accountId in AccountIds(r.accounts) {
      var a :| a in s.accounts && a.id == t.accountId;
      assert a in r.accounts;
    }
  }

  // ---------------------------------------------------------------------------
  // Round trips and scenarios

  lemma {:induction false} AdjustBalancesCancel(accounts: seq<Account>, accountId: string, delta: int)
    ensures AdjustBalances(AdjustBalances(accounts, accountId, delta), accountId, -delta) == accounts
  {
    var once := AdjustBalances(accounts, accountId, delta);
    var twice := AdjustBalances(once, accountId, -delta);
    forall i | 0 <= i < |accounts| ensures twice[i] == accounts[i] {
      assert once[i].id == accounts[i].id;
    }
  }

  /** deleteTransaction once the record is found: reverse its effect, drop the id. */
  lemma DeleteTransactionFound(s: AppState, id: string, t: Transaction)
    requires FindTransaction(s.transactions, id) == Some(t)
    ensures DeleteTransactionFrom(s, id) == Undone(s, t, id)
  {
  }

  /** A record put in front of records with other ids is the one found by its id and the only one removed by it. */
  lemma FreshHead(t: Transaction, rest: seq<Transaction>)
    requires t.id !in TransactionIds(rest)
    ensures FindTransaction([t] + rest, t.id) == Some(t)
    ensures WithoutTransaction([t] + rest, t.id) == rest
  {
    var keep := (x: Transaction) => x.id != t.id;
    assert ([t] + rest)[0] == t && ([t] + rest)[1..] == rest;
    FilterKeepsAll(rest, keep);
  }

  /**
   Adding a transaction with a fresh id and then deleting that id gives back
   the state the add started from: every balance and the transaction list.
   */
  lemma AddThenDeleteRestores(s: AppState, fields: TransactionFields, newId: string)
    requires newId !in TransactionIds(s.transactions)
    ensures DeleteTransactionFrom(AddTransactionTo(s, fields, newId), newId) == s
  {
    var t := fields.WithId(newId);
    var added := AddTransactionTo(s, fields, newId);
    FreshHead(t, s.transactions);
    DeleteTransactionFound(added, newId, t);
    AdjustBalancesCancel(s.accounts, t.accountId, Signed(t));
  }

  /** Whatever the store mirrors to the remote document, adopting that document gives back. */
  lemma SyncThenAdoptRestores(s: AppState, backendEnabled: bool, later: AppState)
    requires ShouldSync(s, backendEnabled)
    ensures var doc := SyncRequestFor(s, backendEnabled).value.document;
      AdoptedRemote(later, doc) == later.(accounts := s.accounts, transactions := s.transactions)
  {
  }

  /** From the demo dataset, a 500 expense on acc1 leaves acc1 at 124500 and the record first. */
  lemma DemoExpenseScenario(loadedAt: string, newId: string, date: string, description: string)
    ensures var r := AddTransactionTo(DemoState(loadedAt), TransactionFields("acc1", "4", 500, date, description, Expense), newId);
      && r.accounts[0].balance == 124500
      && r.accounts[1..] == DemoAccounts(loadedAt)[1..]
      && r.transactions[0].id == newId && r.transactions[1..] == DEMO_TRANSACTIONS
  {
    var r := AddTransactionTo(DemoState(loadedAt), TransactionFields("acc1", "4", 500, date, description, Expense), newId);
    assert r.accounts[1] == DemoAccounts(loadedAt)[1] && r.accounts[2] == DemoAccounts(loadedAt)[2];
  }

  /** From the demo dataset, deleting t1 (income 65000 on acc1) takes acc1 down by 65000. */
  lemma DemoDeleteIncomeScenario(loadedAt: string)
    ensures var r := DeleteTransactionFrom(DemoState(loadedAt), "t1");
      && r.accounts[0].balance == 125000 - 65000
      && r.transactions == DEMO_TRANSACTIONS[1..]
  {
    var s := DemoState(loadedAt);
    var t1 := DEMO_TRANSACTIONS[0];
    var rest := DEMO_TRANSACTIONS[1..];
    assert DEMO_TRANSACTIONS == [t1] + rest;
    assert t1.id !in TransactionIds(rest);
    FreshHead(t1, rest);
    DeleteTransactionFound(s, "t1", t1);
  }

  // ---------------------------------------------------------------------------
  // The store object

  /**
   The single state holder. Each method models one handler: it replaces the
   held state by the transform above. `opening` is the ghost opening balance
   of every account, kept up to date so that `BalancesReconciled` is preserved.
   */
  class Store {
    var accounts: seq<Account>
    var transactions: seq<Transaction>
    var categories: seq<Category>
    var isDemoMode: bool
    var user: Option<User>
    /** Whether a remote backend (authentication and document store) is configured. */
    const backendEnabled: bool
    ghost var opening: map<string, int>

    function State(): AppState
      reads this
    {
      AppState(accounts, transactions, categories, isDemoMode, user)
    }

    ghost predicate BalancesReconciled()
      reads this
    {
      Reconciled(State(), opening)
    }

    /** Start-up: adopt the saved snapshot or fall back to the demo dataset. */
    constructor (saved: Snapshot, loadedAt: string, backendEnabled: bool)
      ensures State() == InitialState(saved, loadedAt) && this.backendEnabled == backendEnabled
      ensures Reconcilable(State()) ==> BalancesReconciled()
      ensures !saved.Parsed? ==> BalancesReconciled() && NoOrphans(State())
    {
      var s := InitialState(saved, loadedAt);
      accounts, transactions, categories := s.accounts, s.transactions, s.categories;
      isDemoMode, user := s.isDemoMode, s.user;
      this.backendEnabled := backendEnabled;
      opening := Rebase(s);
      new;
      if Reconcilable(s) {
        RebaseReconciles(s);
      }
      if !saved.Parsed? {
        DemoStateReconcilable(loadedAt);
        RebaseReconciles(s);
      }
    }

    /** The guard of the remote mirror write. */
    predicate ShouldSyncNow()
      reads this
    {
      ShouldSync(State(), backendEnabled)
    }

    method Login(email: string)
      modifies this
      ensures State() == LoggedIn(old(State()), email)
      ensures opening == old(opening)
      ensures old(BalancesReconciled()) ==> BalancesReconciled()
    {
      if isDemoMode {
        user := Some(User("demo_user", email, LocalPart(email)));
      }
    }

    /** The state part of handleLogout: the user is cleared. */
    method Logout()
      modifies this
      ensures State() == old(State()).(user := None)
      ensures opening == old(opening)
      ensures old(BalancesReconciled()) ==> BalancesReconciled()
    {
      user := None;
    }

    /** handleToggleMode; `accepted` is false exactly when the switch was rejected. */
    method ToggleMode() returns (accepted: bool)
      modifies this
      ensures accepted <==> ToggledMode(old(State()), backendEnabled).Some?
      ensures accepted ==> State() == ToggledMode(old(State()), backendEnabled).value
      ensures !accepted ==> State() == old(State())
      ensures opening == old(opening)
      ensures old(BalancesReconciled()) ==> BalancesReconciled()
    {
      var nextMode := !isDemoMode;
      if !nextMode && !backendEnabled {
        accepted := false;
        return;
      }
      isDemoMode, user := nextMode, None;
      accepted := true;
    }

    /** The authentication callback reporting a signed-in user. */
    method SignIn(u: User)
      modifies this
      ensures State() == SignedIn(old(State()), u)
      ensures opening == old(opening)
      ensures old(BalancesReconciled()) ==> BalancesReconciled()
    {
      user, isDemoMode := Some(u), false;
    }

    /** The authentication callback reporting no user. */
    method SignOut()
      modifies this
      ensures State() == SignedOut(old(State()))
      ensures opening == old(opening)
      ensures old(BalancesReconciled()) ==> BalancesReconciled()
    {
      if !isDemoMode {
        user := None;
      }
    }

    /** The remote document read after sign-in replaces accounts and transactions in one step. */
    method AdoptRemote(doc: RemoteDocument)
      modifies this
      ensures State() == AdoptedRemote(old(State()), doc)
      ensures Reconcilable(State()) ==> BalancesReconciled()
    {
      accounts := doc.accounts.GetOr([]);
      transactions := doc.transactions.GetOr([]);
      opening := Rebase(State());
      if Reconcilable(State()) {
        RebaseReconciles(State());
      }
    }

    /**
     addAccount. `newId` stands for the random id the source draws; the ledger
     is kept when that id is unused by every account and transaction.
     */
    method AddAccount(fields: AccountFields, newId: string)
      modifies this
      ensures State() == AddAccountTo(old(State()), fields, newId)
      ensures opening == old(opening)[newId := fields.balance]
      ensures && old(BalancesReconciled())
              && newId !in AccountIds(old(accounts))
              && (forall t :: t in old(transactions) ==> t.accountId != newId)
              ==> BalancesReconciled()
      ensures old(NoOrphans(State())) ==> NoOrphans(State())
    {
      accounts := accounts + [fields.WithId(newId)];
      opening := opening[newId := fields.balance];
      if old(BalancesReconciled()) && newId !in AccountIds(old(accounts)) && (forall t :: t in old(transactions) ==> t.accountId != newId) {
        AddAccountKeepsLedger(old(State()), old(opening), fields, newId);
      }
      forall x | x in old(accounts) ensures x in accounts {
        assert accounts[..|old(accounts)|] == old(accounts);
      }
    }

    /** updateAccount; the ledger is kept when the update leaves id and balance alone. */
    method UpdateAccount(id: string, u: AccountUpdate)
      modifies this
      ensures State() == UpdateAccountIn(old(State()), id, u)
      ensures opening == old(opening)
      ensures u.id.None? && u.balance.None? && old(BalancesReconciled()) ==> BalancesReconciled()
    {
      accounts := UpdateAccounts(accounts, id, u);
      if u.id.None? && u.balance.None? && old(BalancesReconciled()) {
        UpdateAccountKeepsLedger(old(State()), opening, id, u);
      }
    }

    /** deleteAccount with its cascade to the account's transactions. */
    method DeleteAccount(id: string)
      modifies this
      ensures State() == DeleteAccountFrom(old(State()), id)
      ensures opening == old(opening)
      ensures old(BalancesReconciled()) ==> BalancesReconciled()
      ensures old(NoOrphans(State())) ==> NoOrphans(State())
    {
      accounts, transactions := WithoutAccount(accounts, id), WithoutAccountTransactions(transactions, id);
      if old(BalancesReconciled()) {
        DeleteAccountKeepsLedger(old(State()), opening, id);
      }
      if old(NoOrphans(State())) {
        DeleteAccountLeavesNoOrphans(old(State()), id);
      }
    }

    /**
     addTransaction. `newId` stands for the random id the source draws; the
     ledger is kept when that id is unused by every transaction.
     */
    method AddTransaction(fields: TransactionFields, newId: string)
      modifies this
      ensures State() == AddTransactionTo(old(State()), fields, newId)
      ensures opening == old(opening)
      ensures old(BalancesReconciled()) && newId !in TransactionIds(old(transactions)) ==> BalancesReconciled()
    {
      var t := fields.WithId(newId);
      accounts := AdjustBalances(accounts, t.accountId, Signed(t));
      transactions := [t] + transactions;
      if old(BalancesReconciled()) && newId !in TransactionIds(old(transactions)) {
        AddTransactionKeepsLedger(old(State()), opening, fields, newId);
      }
    }

    method DeleteTransaction(id: string)
      modifies this
      ensures State() == DeleteTransactionFrom(old(State()), id)
      ensures opening == old(opening)
      ensures old(BalancesReconciled()) ==> BalancesReconciled()
    {
      var found := FindTransaction(transactions, id);
      if found.None? {
        return;
      }
      var t := found.value;
      accounts := AdjustBalances(accounts, t.accountId, -Signed(t));
      transactions := WithoutTransaction(transactions, id);
      assert State() == Undone(old(State()), t, id);
      DeleteTransactionFound(old(State()), id, t);
      if old(BalancesReconciled()) {
        DeleteTransactionKeepsLedger(old(State()), opening, id);
      }
    }
  }

  /** A client: with a fresh id, adding a transaction and deleting it leaves the store as it was. */
  method AddThenDelete(store: Store, fields: TransactionFields, newId: string)
    requires newId !in TransactionIds(store.transactions)
    modifies store
    ensures store.State() == old(store.State())
  {
    ghost var before := store.State();
    store.AddTransaction(fields, newId);
    store.DeleteTransaction(newId);
    AddThenDeleteRestores(before, fields, newId);
  }
}
