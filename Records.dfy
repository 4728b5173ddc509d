/**
 * The records the finance service keeps in the browser's local store, and
 * calendar dates. Amounts are whole numbers of the smallest currency unit;
 * timestamps are milliseconds since the epoch (what `Date.getTime` yields).
 */
module Records {
  import opened Wrappers

  type UserId = string
  type Timestamp = int

  /** The two transaction types the aggregations recognise; any other type string is stored but counted nowhere. */
  const Income: string := "income"
  const Expense: string := "expense"
  /** Account type that `getPrimaryAccount` looks for. */
  const Checking: string := "checking"

  /** A calendar date; `month` is 0-based, as `Date.getMonth` returns it. */
  datatype Date = Date(year: int, month: int, day: int)

  /** A (month, year) pair: the grouping key of the monthly summaries. */
  datatype MonthKey = MonthKey(month: int, year: int)

  datatype Account = Account(
    id: string, userId: UserId, name: string, kind: string, balance: int,
    cardType: Option<string>, lastFour: Option<string>, monthlyFee: Option<int>,
    createdAt: Timestamp, updatedAt: Timestamp)

  datatype Transaction = Transaction(
    id: string, userId: UserId, amount: int, kind: string, category: string,
    description: string, date: Date, createdAt: Timestamp)

  /** A receipt as stored locally: the file itself is kept inline as an encoded data URL in `fileUrl`. */
  datatype Receipt = Receipt(
    id: string, userId: UserId, title: string, amount: int, date: string,
    category: string, notes: string, fileName: string, fileType: string,
    fileSize: int, fileUrl: string, createdAt: Timestamp, updatedAt: Timestamp)

  /** A monthly summary as returned to the balance chart (its `id` and timestamps are left out). */
  datatype MonthlySummary = MonthlySummary(userId: UserId, month: int, year: int, income: int, expenses: int)

  function AccountOwner(a: Account): UserId { a.userId }
  function AccountId(a: Account): string { a.id }
  function TransactionOwner(t: Transaction): UserId { t.userId }
  function TransactionId(t: Transaction): string { t.id }
  function ReceiptOwner(r: Receipt): UserId { r.userId }
  function ReceiptId(r: Receipt): string { r.id }
  function AccountBalance(a: Account): int { a.balance }

  // ---------------------------------------------------------------- dates

  predicate IsLeapYear(y: int) {
    (y % 4 == 0 && y % 100 != 0) || y % 400 == 0
  }

  /** Number of days in month `m` (0-based) of year `y`: the day of `new Date(y, m + 1, 0)`. */
  function DaysInMonth(y: int, m: int): int {
    if m == 1 then (if IsLeapYear(y) then 29 else 28)
    else if m == 3 || m == 5 || m == 8 || m == 10 then 30
    else 31
  }

  predicate ValidDate(d: Date) {
    0 <= d.month < 12 && 1 <= d.day <= DaysInMonth(d.year, d.month)
  }

  /** Chronological order on dates (`<=` on the `Date` objects the code compares). */
  predicate DateLe(a: Date, b: Date) {
    a.year < b.year
    || (a.year == b.year && a.month < b.month)
    || (a.year == b.year && a.month == b.month && a.day <= b.day)
  }

  /** First day of the month `d` lies in: `new Date(y, m, 1)`. */
  function StartOfMonth(d: Date): Date { Date(d.year, d.month, 1) }

  /** Last day of month `m` of year `y`: `new Date(y, m + 1, 0)`. */
  function EndOfMonth(y: int, m: int): Date { Date(y, m, DaysInMonth(y, m)) }

  /** Whether `d` lies between `lo` and `hi`, both inclusive. */
  predicate InRange(d: Date, lo: Date, hi: Date) { DateLe(lo, d) && DateLe(d, hi) }

  /** The month before month `m` of year `y`: December of the year before when `m` is January. */
  function PreviousMonth(y: int, m: int): MonthKey {
    if m == 0 then MonthKey(11, y - 1) else MonthKey(m - 1, y)
  }

  /** Months counted from year 0: an independent ordering of (month, year) pairs. */
  function MonthOrdinal(k: MonthKey): int { 12 * k.year + k.month }

  /** `PreviousMonth` is the month exactly one before, and stays a valid month index, January included. */
  lemma PreviousMonthIsAdjacent(y: int, m: int)
    requires 0 <= m < 12
    ensures 0 <= PreviousMonth(y, m).month < 12
    ensures MonthOrdinal(PreviousMonth(y, m)) + 1 == MonthOrdinal(MonthKey(m, y))
  {
  }

  /** For a valid date, lying between the first and the last day of a month means being in that month. */
  lemma InMonthRange(d: Date, y: int, m: int)
    requires ValidDate(d) && 0 <= m < 12
    ensures InRange(d, Date(y, m, 1), EndOfMonth(y, m)) <==> (d.year == y && d.month == m)
  {
  }

  /** The (month, year) key a transaction's date is grouped under. */
  function MonthOf(d: Date): MonthKey { MonthKey(d.month, d.year) }
}
