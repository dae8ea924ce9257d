/**
 Seed data of the store (constants.tsx): the ten default categories and the
 demo accounts and transactions the store falls back to on first start.
 */
module Constants {
  import opened Types

  const DEFAULT_CATEGORIES: seq<Category> := [
    Category("1", "薪資", "fa-money-bill-wave", "bg-green-500", Income),
    Category("2", "獎金", "fa-gift", "bg-emerald-500", Income),
    Category("3", "投資收益", "fa-chart-line", "bg-teal-500", Income),
    Category("4", "餐飲", "fa-utensils", "bg-orange-500", Expense),
    Category("5", "交通", "fa-bus", "bg-blue-500", Expense),
    Category("6", "購物", "fa-shopping-bag", "bg-pink-500", Expense),
    Category("7", "娛樂", "fa-gamepad", "bg-purple-500", Expense),
    Category("8", "住房", "fa-home", "bg-indigo-500", Expense),
    Category("9", "醫療", "fa-heartbeat", "bg-red-500", Expense),
    Category("10", "教育", "fa-book", "bg-cyan-500", Expense)
  ]

  /**
   The demo accounts. The source stamps each one's `lastUpdated` with its own
   clock reading, taken as the module loads; the single parameter `loadedAt`
   stands for those three readings.
   */
  function DemoAccounts(loadedAt: string): seq<Account> {
    [
      Account("acc1", "國泰世華 主帳戶", Checking, 125000, loadedAt),
      Account("acc2", "台新 Richart", Savings, 50000, loadedAt),
      Account("acc3", "玉山 Pi 卡", CreditCard, -12500, loadedAt)
    ]
  }

  const DEMO_TRANSACTIONS: seq<Transaction> := [
    Transaction("t1", "acc1", "1", 65000, "2024-03-01", "3月薪資", Income),
    Transaction("t2", "acc1", "4", 150, "2024-03-02", "午餐", Expense),
    Transaction("t3", "acc3", "6", 2500, "2024-03-03", "Uniqlo 衣物", Expense),
    Transaction("t4", "acc2", "3", 1200, "2024-03-05", "股息收入", Income),
    Transaction("t5", "acc1", "5", 1280, "2024-03-05", "定期票", Expense)
  ]

  /** The ten default categories have the ids "1" to "10", in order, and no id twice. */
  lemma DefaultCategoryIds()
    ensures |DEFAULT_CATEGORIES| == 10
    ensures forall i :: 0 <= i < 10 ==> DEFAULT_CATEGORIES[i].id == ["1", "2", "3", "4", "5", "6", "7", "8", "9", "10"][i]
    ensures forall i, j :: 0 <= i < j < 10 ==> DEFAULT_CATEGORIES[i].id != DEFAULT_CATEGORIES[j].id
  {
  }

  /** Categories "1" to "3" are income categories, "4" to "10" expense categories. */
  lemma DefaultCategoryDirections()
    ensures forall i :: 0 <= i < 3 ==> DEFAULT_CATEGORIES[i].kind == Income
    ensures forall i :: 3 <= i < 10 ==> DEFAULT_CATEGORIES[i].kind == Expense
  {
  }

  /** Three demo accounts acc1, acc2, acc3 with balances 125000, 50000 and -12500. */
  lemma DemoAccountsShape(loadedAt: string)
    ensures var accounts := DemoAccounts(loadedAt);
      && |accounts| == 3
      && accounts[0].id == "acc1" && accounts[0].balance == 125000
      && accounts[1].id == "acc2" && accounts[1].balance == 50000
      && accounts[2].id == "acc3" && accounts[2].balance == -12500
  {
  }

  /** Five demo transactions t1..t5, no id twice, every amount positive. */
  lemma DemoTransactionsShape()
    ensures |DEMO_TRANSACTIONS| == 5
    ensures forall i :: 0 <= i < 5 ==> DEMO_TRANSACTIONS[i].id == ["t1", "t2", "t3", "t4", "t5"][i]
    ensures forall i, j :: 0 <= i < j < 5 ==> DEMO_TRANSACTIONS[i].id != DEMO_TRANSACTIONS[j].id
    ensures forall t :: t in DEMO_TRANSACTIONS ==> t.amount > 0
  {
  }

  /**
   Every demo transaction names a demo account, and a default category whose
   direction is the transaction's own (category ids are unique, so that
   category is the one a lookup by id finds).
   */
  lemma DemoTransactionsWellFormed(loadedAt: string)
    ensures forall t :: t in DEMO_TRANSACTIONS ==>
      exists a :: a in DemoAccounts(loadedAt) && a.id == t.accountId
    ensures forall t :: t in DEMO_TRANSACTIONS ==>
      exists c :: c in DEFAULT_CATEGORIES && c.id == t.categoryId && c.kind == t.kind
  {
    var accounts := DemoAccounts(loadedAt);
    forall t | t in DEMO_TRANSACTIONS
      ensures exists a :: a in accounts && a.id == t.accountId
      ensures exists c :: c in DEFAULT_CATEGORIES && c.id == t.categoryId && c.kind == t.kind
    {
      var i :| 0 <= i < 5 && DEMO_TRANSACTIONS[i] == t;
      var a := accounts[[0, 0, 2, 1, 0][i]];
      var c := DEFAULT_CATEGORIES[[0, 3, 5, 2, 4][i]];
      assert a in accounts && a.id == t.accountId;
      assert c in DEFAULT_CATEGORIES && c.id == t.categoryId && c.kind == t.kind;
    }
  }
}
