/** The records the ledger keeps (a `Transaction` of types.ts), the category
    vocabulary of constants.ts, and the window-level event log through which
    the store and the assistant notify the views. */
module LedgerTypes {

  datatype Option<T> = None | Some(value: T) {
    function GetOr(default: T): T {
      match this
      case Some(v) => v
      case None => default
    }
  }

  datatype Result<T, E> = Ok(value: T) | Err(error: E)

  /** The property names every object literal inherits from
      `Object.prototype`. Looking one of them up in a `{}` literal that
      has no own property of that name finds a truthy inherited value (a
      function, or for `__proto__` the prototype object itself), not
      `undefined`. */
  const InheritedNames: set<string> := {
    "constructor", "__proto__", "toString", "toLocaleString", "valueOf",
    "hasOwnProperty", "isPrototypeOf", "propertyIsEnumerable",
    "__defineGetter__", "__defineSetter__", "__lookupGetter__", "__lookupSetter__"}

  datatype TxType = Income | Expense

  /** The wire spelling of a transaction type. */
  function TypeName(t: TxType): string {
    match t
    case Income => "income"
    case Expense => "expense"
  }

  /** A ledger record. `date` is the business date `YYYY-MM-DD` and
      `createdAt` a millisecond timestamp. */
  datatype Transaction = Transaction(
    id: string,
    date: string,
    txType: TxType,
    category: string,
    amount: real,
    description: string,
    createdAt: int)

  /** The fields a caller supplies to `add`: a transaction without id and
      createdAt. */
  datatype NewFields = NewFields(
    date: string,
    txType: TxType,
    category: string,
    amount: real,
    description: string)

  /** The fields a caller may supply to `update`; `None` is a key that is
      absent from the update object. */
  datatype Patch = Patch(
    date: Option<string>,
    txType: Option<TxType>,
    category: Option<string>,
    amount: Option<real>,
    description: Option<string>)

  /** The record `{ ...fields, id, createdAt }`. */
  function Create(f: NewFields, id: string, createdAt: int): (t: Transaction)
    ensures t.id == id && t.createdAt == createdAt
    ensures t.date == f.date && t.txType == f.txType && t.category == f.category
    ensures t.amount == f.amount && t.description == f.description
  {
    Transaction(id, f.date, f.txType, f.category, f.amount, f.description, createdAt)
  }

  /** The record `{ ...t, ...p }`: every field present in the patch
      overrides the record's, every absent one is kept. */
  function Merge(t: Transaction, p: Patch): (r: Transaction)
    ensures r.id == t.id && r.createdAt == t.createdAt
    ensures r.date == p.date.GetOr(t.date)
    ensures r.txType == p.txType.GetOr(t.txType)
    ensures r.category == p.category.GetOr(t.category)
    ensures r.amount == p.amount.GetOr(t.amount)
    ensures r.description == p.description.GetOr(t.description)
  {
    t.(date := p.date.GetOr(t.date),
       txType := p.txType.GetOr(t.txType),
       category := p.category.GetOr(t.category),
       amount := p.amount.GetOr(t.amount),
       description := p.description.GetOr(t.description))
  }

  const IncomeCategories: seq<string> :=
    ["Salary", "Investment", "Bonus", "Freelance", "Gift", "Other"]

  const ExpenseCategories: seq<string> :=
    ["Food", "Transport", "Shopping", "Entertainment", "Health", "Utilities",
     "Rent", "Education", "Travel", "Other"]

  /** `CATEGORIES[type]`. */
  function CategoriesOf(t: TxType): (cs: seq<string>)
    ensures |cs| > 0
  {
    match t
    case Income => IncomeCategories
    case Expense => ExpenseCategories
  }

  /** The window events of the application, in the order they are
      dispatched. */
  datatype Event =
    | DbUpdate
    | AiTransactionAdded(date: string, id: string)
    | AiTransactionDeleted(id: string)
    | AiPrintReport(reportType: string, dateStart: string, dateEnd: string)

  /** `window.dispatchEvent`, seen as an append-only log. */
  class EventBus {
    var log: seq<Event>

    constructor ()
      ensures log == []
    {
      log := [];
    }

    method Dispatch(e: Event)
      modifies this
      ensures log == old(log) + [e]
    {
      log := log + [e];
    }
  }
}
