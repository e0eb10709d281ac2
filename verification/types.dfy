/** The ledger's data model: transactions, their kinds, calendar dates and
    the structured guess returned by the receipt-extraction service. */
module Types {

  datatype Option<+T> = None | Some(value: T)

  /** Whether a transaction brings money in or takes it out. */
  datatype TxType = Income | Expense

  /** A calendar date already split into its parts. `month` runs 1..12,
      where the application's own month numbers run 0..11. Months are
      compared for equality and order, and the one piece of month
      arithmetic (two months back) is redone in 1-based months by the
      report's window start. */
  datatype Date = Date(year: int, month: int, day: int)

  /** One ledger entry. `amount` is in integer cents. */
  datatype Transaction = Transaction(
    id: string,
    txType: TxType,
    amount: int,
    date: Date,
    description: string,
    category: string)

  /** A transaction that has not been given an id yet: what the form hands
      to the ledger when a new entry is added. */
  datatype TxData = TxData(
    txType: TxType,
    amount: int,
    date: Date,
    description: string,
    category: string)

  /** Fields guessed by the receipt-extraction service. A missing amount or
      date is `None`; a missing text field is the empty string. */
  datatype ExtractedData = ExtractedData(
    valor: Option<int>,
    data: Option<Date>,
    descricao: string,
    estabelecimento: string)

  /** Drops the id of a transaction. */
  function WithoutId(t: Transaction): TxData {
    TxData(t.txType, t.amount, t.date, t.description, t.category)
  }

  /** Attaches an id to a record: the inverse of `WithoutId`. */
  function WithId(d: TxData, id: string): (t: Transaction)
    ensures t.id == id
    ensures WithoutId(t) == d
  {
    Transaction(id, d.txType, d.amount, d.date, d.description, d.category)
  }

  lemma WithIdWithoutId(t: Transaction)
    ensures WithId(WithoutId(t), t.id) == t
  {
  }

  // ---------------------------------------------------------------------
  // Dates

  predicate IsLeapYear(y: int) {
    (y % 4 == 0 && y % 100 != 0) || y % 400 == 0
  }

  function DaysInMonth(y: int, m: int): int
    requires 1 <= m <= 12
  {
    if m == 2 then (if IsLeapYear(y) then 29 else 28)
    else if m == 4 || m == 6 || m == 9 || m == 11 then 30
    else 31
  }

  /** A date that exists on the calendar. */
  predicate ValidDate(d: Date) {
    1 <= d.month <= 12 && 1 <= d.day <= DaysInMonth(d.year, d.month)
  }

  /** Chronological order on dates: year, then month, then day. */
  predicate DateLe(a: Date, b: Date) {
    a.year < b.year
    || (a.year == b.year && (a.month < b.month || (a.month == b.month && a.day <= b.day)))
  }

  lemma DateLeTotal(a: Date, b: Date)
    ensures DateLe(a, b) || DateLe(b, a)
    ensures DateLe(a, b) && DateLe(b, a) ==> a == b
  {
  }

  lemma DateLeTransitive(a: Date, b: Date, c: Date)
    requires DateLe(a, b) && DateLe(b, c)
    ensures DateLe(a, c)
  {
  }

  /** Number of whole months since year 0, month 1. */
  function MonthIndex(d: Date): int {
    d.year * 12 + (d.month - 1)
  }

  // ---------------------------------------------------------------------
  // Ids

  function Ids(s: seq<Transaction>): (r: seq<string>)
    ensures |r| == |s|
    ensures forall i :: 0 <= i < |s| ==> r[i] == s[i].id
  {
    if s == [] then [] else [s[0].id] + Ids(s[1..])
  }

  predicate HasId(s: seq<Transaction>, id: string) {
    exists i :: 0 <= i < |s| && s[i].id == id
  }

  /** No two entries of the ledger share an id. */
  predicate UniqueIds(s: seq<Transaction>) {
    forall i, j :: 0 <= i < |s| && 0 <= j < |s| && i != j ==> s[i].id != s[j].id
  }
}
