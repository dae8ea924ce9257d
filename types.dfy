/**
 The record and enumeration types of the personal-finance store
 (services/types.ts). Every TypeScript interface becomes a datatype with
 one constructor; the two string enumerations become sum types, so "exactly
 one of these values" is enforced by the type itself.
 */
module Types {

  /** A value that may be null in the source. */
  datatype Option<+T> = None | Some(value: T) {
    /** The present value, or `default` when the value is absent (the source's null fallbacks). */
    function GetOr(default: T): T {
      match this
      case Some(v) => v
      case None => default
    }
  }

  /** Direction of a transaction or of a category: INCOME or EXPENSE. */
  datatype TransactionType = Income | Expense

  /** The four account kinds: checking, savings, credit card or investment. */
  datatype AccountType = Checking | Savings | CreditCard | Investment

  /** A spending or earning category; `kind` is its direction tag. */
  datatype Category = Category(
    id: string,
    name: string,
    icon: string,
    color: string,
    kind: TransactionType)

  /** A bank account; `balance` is a whole currency amount. */
  datatype Account = Account(
    id: string,
    name: string,
    kind: AccountType,
    balance: int,
    lastUpdated: string)

  /** A transaction references exactly one account and one category. */
  datatype Transaction = Transaction(
    id: string,
    accountId: string,
    categoryId: string,
    amount: int,
    date: string,
    description: string,
    kind: TransactionType)

  datatype User = User(id: string, email: string, displayName: string)

  /** The whole application state held by the store; `user` is a User or null. */
  datatype AppState = AppState(
    accounts: seq<Account>,
    transactions: seq<Transaction>,
    categories: seq<Category>,
    isDemoMode: bool,
    user: Option<User>)
}
