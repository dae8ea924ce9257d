/**
 The aggregations the dashboard computes from the store's state
 (components/Dashboard.tsx): the total balance, this month's income and
 expense, the expense breakdown by category name, and the recent list.

 "Is in the current month and year" depends on date parsing and on the clock,
 so it is a parameter `inMonth` over the record's date text.
 */
module Dashboard {
  import opened Types
  import opened Seqs
  import App

  // ---------------------------------------------------------------------------
  // Total balance

  /** totalBalance: the sum of all account balances, 0 for none. */
  function TotalBalance(accounts: seq<Account>): int {
    if accounts == [] then 0 else accounts[0].balance + TotalBalance(accounts[1..])
  }

  /** The number of accounts with id `id`. */
  function CountWithId(accounts: seq<Account>, id: string): nat {
    if accounts == [] then 0
    else (if accounts[0].id == id then 1 else 0) + CountWithId(accounts[1..], id)
  }

  /** Adjusting the balances of the accounts with one id moves the total by delta per such account. */
  lemma {:induction false} TotalBalanceAfterAdjust(accounts: seq<Account>, id: string, delta: int)
    ensures TotalBalance(App.AdjustBalances(accounts, id, delta))
         == TotalBalance(accounts) + delta * CountWithId(accounts, id)
  {
    if accounts != [] {
      var adjusted := App.AdjustBalances(accounts, id, delta);
      TotalBalanceAfterAdjust(accounts[1..], id, delta);
      assert adjusted[1..] == App.AdjustBalances(accounts[1..], id, delta);
      var c := CountWithId(accounts[1..], id);
      if accounts[0].id == id {
        assert delta * (1 + c) == delta + delta * c;
      }
    }
  }

  /**
   When the transaction's account id names exactly one account, addTransaction
   moves the total balance by the record's signed amount; when it names none,
   the total is unchanged.
   */
  lemma AddTransactionMovesTotal(s: AppState, fields: App.TransactionFields, newId: string)
    ensures var total := TotalBalance(App.AddTransactionTo(s, fields, newId).accounts);
      && (CountWithId(s.accounts, fields.accountId) == 1 ==>
            total == TotalBalance(s.accounts) + (if fields.kind == Income then fields.amount else -fields.amount))
      && (CountWithId(s.accounts, fields.accountId) == 0 ==> total == TotalBalance(s.accounts))
  {
    var t := fields.WithId(newId);
    TotalBalanceAfterAdjust(s.accounts, t.accountId, App.Signed(t));
  }

  lemma {:induction false} TotalBalanceConcat(a: seq<Account>, b: seq<Account>)
    ensures TotalBalance(a + b) == TotalBalance(a) + TotalBalance(b)
  {
    if a == [] {
      assert a + b == b;
    } else {
      assert (a + b)[0] == a[0] && (a + b)[1..] == a[1..] + b;
      TotalBalanceConcat(a[1..], b);
    }
  }

  /** addAccount raises the total balance by the new account's balance. */
  lemma AddAccountRaisesTotal(s: AppState, fields: App.AccountFields, newId: string)
    ensures TotalBalance(App.AddAccountTo(s, fields, newId).accounts) == TotalBalance(s.accounts) + fields.balance
  {
    TotalBalanceConcat(s.accounts, [fields.WithId(newId)]);
  }

  // ---------------------------------------------------------------------------
  // This month's income and expense

  /** The total amount of the in-month records of direction `kind`. */
  function MonthSum(transactions: seq<Transaction>, inMonth: string -> bool, kind: TransactionType): int {
    if transactions == [] then 0
    else
      var t := transactions[0];
      (if inMonth(t.date) && t.kind == kind then t.amount else 0) + MonthSum(transactions[1..], inMonth, kind)
  }

  /** The total amount of all in-month records. */
  function MonthTotal(transactions: seq<Transaction>, inMonth: string -> bool): int {
    if transactions == [] then 0
    else (if inMonth(transactions[0].date) then transactions[0].amount else 0) + MonthTotal(transactions[1..], inMonth)
  }

  lemma {:induction false} MonthSumConcat(a: seq<Transaction>, b: seq<Transaction>, inMonth: string -> bool, kind: TransactionType)
    ensures MonthSum(a + b, inMonth, kind) == MonthSum(a, inMonth, kind) + MonthSum(b, inMonth, kind)
  {
    if a == [] {
      assert a + b == b;
    } else {
      assert (a + b)[0] == a[0] && (a + b)[1..] == a[1..] + b;
      MonthSumConcat(a[1..], b, inMonth, kind);
    }
  }

  /** Every in-month record lands in exactly one of the two totals. */
  lemma {:induction false} MonthSumsPartition(transactions: seq<Transaction>, inMonth: string -> bool)
    ensures MonthSum(transactions, inMonth, Income) + MonthSum(transactions, inMonth, Expense)
         == MonthTotal(transactions, inMonth)
  {
    if transactions != [] {
      MonthSumsPartition(transactions[1..], inMonth);
    }
  }

  function CurrentMonthOnly(transactions: seq<Transaction>, inMonth: string -> bool): seq<Transaction> {
    Filter(transactions, (t: Transaction) => inMonth(t.date))
  }

  /** Records outside the current month contribute to neither total. */
  lemma {:induction false} OnlyCurrentMonthCounts(transactions: seq<Transaction>, inMonth: string -> bool, kind: TransactionType)
    ensures MonthSum(transactions, inMonth, kind) == MonthSum(CurrentMonthOnly(transactions, inMonth), inMonth, kind)
  {
    if transactions != [] {
      var t := transactions[0];
      var rest := CurrentMonthOnly(transactions[1..], inMonth);
      OnlyCurrentMonthCounts(transactions[1..], inMonth, kind);
      if inMonth(t.date) {
        assert CurrentMonthOnly(transactions, inMonth) == [t] + rest;
        MonthSumConcat([t], rest, inMonth, kind);
      } else {
        assert CurrentMonthOnly(transactions, inMonth) == rest;
      }
    }
  }

  /**
   monthlyStats: one pass over the records; an in-month record's amount goes
   to `income` when it is INCOME and to `expense` otherwise.
   */
  method MonthlyStats(transactions: seq<Transaction>, inMonth: string -> bool) returns (income: int, expense: int)
    ensures income == MonthSum(transactions, inMonth, Income)
    ensures expense == MonthSum(transactions, inMonth, Expense)
    ensures income + expense == MonthTotal(transactions, inMonth)
  {
    income, expense := 0, 0;
    var i := 0;
    while i < |transactions|
      invariant 0 <= i <= |transactions|
      invariant income == MonthSum(transactions[..i], inMonth, Income)
      invariant expense == MonthSum(transactions[..i], inMonth, Expense)
    {
      var t := transactions[i];
      assert transactions[..i + 1] == transactions[..i] + [t];
      MonthSumConcat(transactions[..i], [t], inMonth, Income);
      MonthSumConcat(transactions[..i], [t], inMonth, Expense);
      if inMonth(t.date) {
        if t.kind == Income {
          income := income + t.amount;
        } else {
          expense := expense + t.amount;
        }
      }
      i := i + 1;
    }
    assert transactions[..|transactions|] == transactions;
    MonthSumsPartition(transactions, inMonth);
  }

  // ---------------------------------------------------------------------------
  // Expense breakdown by category

  /** The label records are grouped under when their category is unknown ("other"). */
  const OTHER_LABEL := "其他"

  /** One slice of the breakdown: a category name and the expense total under it. */
  datatype CategorySlice = CategorySlice(name: string, value: int)

  /**
   The name of the first category with this id; the "other" label when there
   is none or its name is empty.
   */
  function CategoryLabel(categories: seq<Category>, categoryId: string): (shown: string)
    ensures shown != ""
  {
    var found := Find(categories, (c: Category) => c.id == categoryId);
    if found.Some? && found.value.name != "" then found.value.name else OTHER_LABEL
  }

  /**
   Only the first category with the id decides the label: its name, or the
   "other" label when that name is empty; an id no category has gets the
   "other" label.
   */
  lemma CategoryLabelOrigin(categories: seq<Category>, categoryId: string)
    ensures (forall c :: c in categories ==> c.id != categoryId) ==> CategoryLabel(categories, categoryId) == OTHER_LABEL
    ensures forall i :: 0 <= i < |categories| && categories[i].id == categoryId
                        && (forall j :: 0 <= j < i ==> categories[j].id != categoryId) ==>
      CategoryLabel(categories, categoryId) == if categories[i].name == "" then OTHER_LABEL else categories[i].name
  {
    var p := (c: Category) => c.id == categoryId;
    FindIsFirst(categories, p);
    var found := Find(categories, p);
    forall i | 0 <= i < |categories| && categories[i].id == categoryId
               && (forall j :: 0 <= j < i ==> categories[j].id != categoryId)
      ensures found == Some(categories[i])
    {
      assert categories[i] in categories && p(categories[i]);
      var k :| 0 <= k < |categories| && categories[k] == found.value && p(categories[k])
               && forall j :: 0 <= j < k ==> !p(categories[j]);
      assert k == i;
    }
  }

  /** What one record adds to the slice `name`: its amount if it is an expense labelled `name`. */
  function ExpenseUnder(categories: seq<Category>, t: Transaction, name: string): int {
    if t.kind == Expense && CategoryLabel(categories, t.categoryId) == name then t.amount else 0
  }

  /** The total of the expense records labelled `name`, in every month. */
  function CategoryTotal(transactions: seq<Transaction>, categories: seq<Category>, name: string): int {
    if transactions == [] then 0
    else ExpenseUnder(categories, transactions[0], name) + CategoryTotal(transactions[1..], categories, name)
  }

  /** The labels of the expense records. */
  function ExpenseLabels(transactions: seq<Transaction>, categories: seq<Category>): set<string> {
    if transactions == [] then {}
    else
      var t := transactions[0];
      (if t.kind == Expense then {CategoryLabel(categories, t.categoryId)} else {}) + ExpenseLabels(transactions[1..], categories)
  }

  /** A label is among the expense labels exactly when some expense record carries it. */
  lemma {:induction false} ExpenseLabelsMeaning(transactions: seq<Transaction>, categories: seq<Category>, name: string)
    ensures name in ExpenseLabels(transactions, categories)
        <==> exists t :: t in transactions && t.kind == Expense && CategoryLabel(categories, t.categoryId) == name
  {
    if transactions != [] {
      var rest := transactions[1..];
      ExpenseLabelsMeaning(rest, categories, name);
      assert transactions == [transactions[0]] + rest;
      if exists t :: t in transactions && t.kind == Expense && CategoryLabel(categories, t.categoryId) == name {
        var t :| t in transactions && t.kind == Expense && CategoryLabel(categories, t.categoryId) == name;
        assert t == transactions[0] || t in rest;
      }
    }
  }

  lemma {:induction false} ExpenseLabelsConcat(a: seq<Transaction>, b: seq<Transaction>, categories: seq<Category>)
    ensures ExpenseLabels(a + b, categories) == ExpenseLabels(a, categories) + ExpenseLabels(b, categories)
  {
    if a == [] {
      assert a + b == b;
    } else {
      assert (a + b)[0] == a[0] && (a + b)[1..] == a[1..] + b;
      ExpenseLabelsConcat(a[1..], b, categories);
    }
  }

  /** The total of all expense records, in every month. */
  function TotalExpense(transactions: seq<Transaction>): int {
    if transactions == [] then 0
    else (if transactions[0].kind == Expense then transactions[0].amount else 0) + TotalExpense(transactions[1..])
  }

  /** The sum of the slice totals for the labels `names`. */
  function SumTotals(transactions: seq<Transaction>, categories: seq<Category>, names: seq<string>): int {
    if names == [] then 0
    else CategoryTotal(transactions, categories, names[0]) + SumTotals(transactions, categories, names[1..])
  }

  function SliceSum(slices: seq<CategorySlice>): int {
    if slices == [] then 0 else slices[0].value + SliceSum(slices[1..])
  }

  function SliceNames(slices: seq<CategorySlice>): seq<string> {
    seq(|slices|, k requires 0 <= k < |slices| => slices[k].name)
  }

  ghost predicate Distinct(names: seq<string>) {
    forall j, k :: 0 <= j < k < |names| ==> names[j] != names[k]
  }

  lemma {:induction false} CategoryTotalConcat(a: seq<Transaction>, b: seq<Transaction>, categories: seq<Category>, name: string)
    ensures CategoryTotal(a + b, categories, name) == CategoryTotal(a, categories, name) + CategoryTotal(b, categories, name)
  {
    if a == [] {
      assert a + b == b;
    } else {
      assert (a + b)[0] == a[0] && (a + b)[1..] == a[1..] + b;
      CategoryTotalConcat(a[1..], b, categories, name);
    }
  }

  /** A label no expense record carries has a zero total. */
  lemma {:induction false} CategoryTotalOfUnseen(transactions: seq<Transaction>, categories: seq<Category>, name: string)
    requires name !in ExpenseLabels(transactions, categories)
    ensures CategoryTotal(transactions, categories, name) == 0
  {
    if transactions != [] {
      CategoryTotalOfUnseen(transactions[1..], categories, name);
    }
  }

  function ExpensesOnly(transactions: seq<Transaction>): seq<Transaction> {
    Filter(transactions, (t: Transaction) => t.kind == Expense)
  }

  /** Income records contribute to no slice and to no label: the breakdown sees only the expense records. */
  lemma {:induction false} OnlyExpensesCount(transactions: seq<Transaction>, categories: seq<Category>, name: string)
    ensures CategoryTotal(transactions, categories, name) == CategoryTotal(ExpensesOnly(transactions), categories, name)
    ensures ExpenseLabels(transactions, categories) == ExpenseLabels(ExpensesOnly(transactions), categories)
  {
    if transactions != [] {
      var t := transactions[0];
      var rest := ExpensesOnly(transactions[1..]);
      OnlyExpensesCount(transactions[1..], categories, name);
      if t.kind == Expense {
        assert ExpensesOnly(transactions) == [t] + rest;
        assert ([t] + rest)[0] == t && ([t] + rest)[1..] == rest;
      } else {
        assert ExpensesOnly(transactions) == rest;
      }
    }
  }

  lemma {:induction false} SumTotalsOfNothing(categories: seq<Category>, names: seq<string>)
    ensures SumTotals([], categories, names) == 0
  {
    if names != [] {
      SumTotalsOfNothing(categories, names[1..]);
    }
  }

  /** Over distinct labels, one more record adds its amount once if its label is among them. */
  lemma {:induction false} SumTotalsStep(transactions: seq<Transaction>, t: Transaction, categories: seq<Category>, names: seq<string>)
    requires Distinct(names)
    ensures SumTotals([t] + transactions, categories, names)
         == SumTotals(transactions, categories, names)
            + (if t.kind == Expense && CategoryLabel(categories, t.categoryId) in names then t.amount else 0)
  {
    if names != [] {
      var tail := names[1..];
      assert Distinct(tail) by {
        forall j, k | 0 <= j < k < |tail| ensures tail[j] != tail[k] {
          assert tail[j] == names[j + 1] && tail[k] == names[k + 1];
        }
      }
      assert names[0] !in tail by {
        forall k | 0 <= k < |tail| ensures tail[k] != names[0] {
          assert tail[k] == names[k + 1];
        }
      }
      SumTotalsStep(transactions, t, categories, tail);
      assert ([t] + transactions)[0] == t && ([t] + transactions)[1..] == transactions;
      assert names == [names[0]] + tail;
    }
  }

  /** The breakdown over any distinct labels covering all expense labels sums to the total expense. */
  lemma {:induction false} BreakdownSumsToTotalExpense(transactions: seq<Transaction>, categories: seq<Category>, names: seq<string>)
    requires Distinct(names)
    requires forall n :: n in ExpenseLabels(transactions, categories) ==> n in names
    ensures SumTotals(transactions, categories, names) == TotalExpense(transactions)
  {
    if transactions == [] {
      SumTotalsOfNothing(categories, names);
    } else {
      var t := transactions[0];
      var rest := transactions[1..];
      assert transactions == [t] + rest;
      BreakdownSumsToTotalExpense(rest, categories, names);
      SumTotalsStep(rest, t, categories, names);
    }
  }

  lemma {:induction false} SliceSumIsSumTotals(slices: seq<CategorySlice>, transactions: seq<Transaction>, categories: seq<Category>)
    requires forall k :: 0 <= k < |slices| ==> slices[k].value == CategoryTotal(transactions, categories, slices[k].name)
    ensures SliceSum(slices) == SumTotals(transactions, categories, SliceNames(slices))
  {
    if slices != [] {
      SliceSumIsSumTotals(slices[1..], transactions, categories);
      assert SliceNames(slices)[1..] == SliceNames(slices[1..]);
    }
  }

  /** What appending one record does to the labels and to every label's total. */
  lemma GroupStep(done: seq<Transaction>, t: Transaction, categories: seq<Category>)
    ensures ExpenseLabels(done + [t], categories)
         == ExpenseLabels(done, categories) + (if t.kind == Expense then {CategoryLabel(categories, t.categoryId)} else {})
    ensures forall n :: CategoryTotal(done + [t], categories, n)
                     == CategoryTotal(done, categories, n) + ExpenseUnder(categories, t, n)
  {
    ExpenseLabelsConcat(done, [t], categories);
    forall n ensures CategoryTotal(done + [t], categories, n) == CategoryTotal(done, categories, n) + ExpenseUnder(categories, t, n) {
      CategoryTotalConcat(done, [t], categories, n);
    }
  }

  /**
   `names` and `totals` group the expense records of `done`: each label once,
   in `names` exactly when in `totals`, exactly the expense labels, each
   mapped to its total.
   */
  ghost predicate Grouped(names: seq<string>, totals: map<string, int>, done: seq<Transaction>, categories: seq<Category>) {
    && Distinct(names)
    && (forall n :: n in totals <==> n in names)
    && (forall n :: n in names <==> n in ExpenseLabels(done, categories))
    && (forall n :: n in totals ==> totals[n] == CategoryTotal(done, categories, n))
  }

  /** An income record changes no group. */
  lemma GroupedSkip(names: seq<string>, totals: map<string, int>, done: seq<Transaction>, t: Transaction, categories: seq<Category>)
    requires Grouped(names, totals, done, categories) && t.kind == Income
    ensures Grouped(names, totals, done + [t], categories)
  {
    GroupStep(done, t, categories);
  }

  /** An expense under a label already met adds its amount to that label's total. */
  lemma GroupedAdd(names: seq<string>, totals: map<string, int>, done: seq<Transaction>, t: Transaction, categories: seq<Category>)
    requires Grouped(names, totals, done, categories) && t.kind == Expense
    requires CategoryLabel(categories, t.categoryId) in totals
    ensures var name := CategoryLabel(categories, t.categoryId);
      Grouped(names, totals[name := totals[name] + t.amount], done + [t], categories)
  {
    GroupStep(done, t, categories);
  }

  /** An expense under a new label appends the label, with the record's amount as its total. */
  lemma GroupedNew(names: seq<string>, totals: map<string, int>, done: seq<Transaction>, t: Transaction, categories: seq<Category>)
    requires Grouped(names, totals, done, categories) && t.kind == Expense
    requires CategoryLabel(categories, t.categoryId) !in totals
    ensures var name := CategoryLabel(categories, t.categoryId);
      Grouped(names + [name], totals[name := t.amount], done + [t], categories)
  {
    var name := CategoryLabel(categories, t.categoryId);
    GroupStep(done, t, categories);
    CategoryTotalOfUnseen(done, categories, name);
  }

  /**
   The first pass of categoryData: over the EXPENSE records, with no month
   filter, each amount is added under its category's name in a dictionary;
   `names` lists the dictionary's keys in the order they were first met.
   */
  method GroupExpenses(transactions: seq<Transaction>, categories: seq<Category>)
    returns (names: seq<string>, totals: map<string, int>)
    ensures Distinct(names)
    ensures forall n :: n in totals <==> n in names
    ensures forall n :: n in names <==> n in ExpenseLabels(transactions, categories)
    ensures forall n :: n in totals ==> totals[n] == CategoryTotal(transactions, categories, n)
  {
    names, totals := [], map[];
    var i := 0;
    while i < |transactions|
      invariant 0 <= i <= |transactions|
      invariant Grouped(names, totals, transactions[..i], categories)
    {
      var t := transactions[i];
      assert transactions[..i + 1] == transactions[..i] + [t];
      if t.kind == Expense {
        var name := CategoryLabel(categories, t.categoryId);
        if name in totals {
          GroupedAdd(names, totals, transactions[..i], t, categories);
          totals := totals[name := totals[name] + t.amount];
        } else {
          GroupedNew(names, totals, transactions[..i], t, categories);
          names := names + [name];
          totals := totals[name := t.amount];
        }
      } else {
        GroupedSkip(names, totals, transactions[..i], t, categories);
      }
      i := i + 1;
    }
    assert transactions[..|transactions|] == transactions;
  }

  /**
   categoryData: the grouped expense totals as (name, value) slices, one per
   name, in the order the names were first met; the slices add up to the
   total expense.
   */
  method CategoryBreakdown(transactions: seq<Transaction>, categories: seq<Category>) returns (slices: seq<CategorySlice>)
    ensures Distinct(SliceNames(slices))
    ensures forall k :: 0 <= k < |slices| ==>
      slices[k].name in ExpenseLabels(transactions, categories)
      && slices[k].value == CategoryTotal(transactions, categories, slices[k].name)
    ensures forall n :: n in ExpenseLabels(transactions, categories) ==> n in SliceNames(slices)
    ensures SliceSum(slices) == TotalExpense(transactions)
  {
    var names, totals := GroupExpenses(transactions, categories);
    slices := [];
    var k := 0;
    while k < |names|
      invariant 0 <= k <= |names|
      invariant |slices| == k
      invariant forall j :: 0 <= j < k ==> slices[j] == CategorySlice(names[j], totals[names[j]])
    {
      slices := slices + [CategorySlice(names[k], totals[names[k]])];
      k := k + 1;
    }
    assert SliceNames(slices) == names;
    SliceSumIsSumTotals(slices, transactions, categories);
    BreakdownSumsToTotalExpense(transactions, categories, names);
  }

  // ---------------------------------------------------------------------------
  // Recent transactions

  /** The recent list: the first min(5, n) records, newest first. */
  function Recent(transactions: seq<Transaction>): (r: seq<Transaction>)
    ensures |r| == if |transactions| < 5 then |transactions| else 5
    ensures r <= transactions
  {
    transactions[..if |transactions| < 5 then |transactions| else 5]
  }

  /** After addTransaction the new record heads the recent list, followed by the previous recent ones. */
  lemma AddTransactionHeadsRecent(s: AppState, fields: App.TransactionFields, newId: string)
    ensures var r := Recent(App.AddTransactionTo(s, fields, newId).transactions);
      && r[0] == fields.WithId(newId)
      && r[1..] == Recent(s.transactions)[..|r| - 1]
  {
  }
}
