/**
 * The derived views of financeService.ts, recomputed from the local
 * transaction log on every call: percentages and rounding, monthly
 * income/expense summaries, the signed balance, the current month's
 * expense breakdown by category, and the newest-first ordering of
 * recent transactions. Each `forEach` loop of financeService.ts is a method
 * proved equal to a fold written as a function, and the folds'
 * meaning is proved as lemmas.
 */
module Aggregates {
  import opened Seqs
  import opened Records

  // ------------------------------------------------------------ rounding

  /**
   * `r` is `Math.round(n / d)`: the integer nearest to the rational `n / d`,
   * halves rounded up, that is `r - 1/2 <= n / d < r + 1/2`.
   */
  predicate IsRoundOf(n: int, d: int, r: int) {
    (d > 0 && d * (2 * r - 1) <= 2 * n < d * (2 * r + 1))
    || (d < 0 && -d * (2 * r - 1) <= -2 * n < -d * (2 * r + 1))
  }

  /** `Math.round(n / d)` for a positive `d`, computed exactly on integers as floor((2n + d) / 2d). */
  function RoundDiv(n: int, d: int): (r: int)
    requires d > 0
    ensures IsRoundOf(n, d, r)
  {
    var q := (2 * n + d) / (2 * d);
    var m := (2 * n + d) % (2 * d);
    assert 2 * n + d == 2 * d * q + m && 0 <= m < 2 * d;
    assert d * (2 * q - 1) == 2 * d * q - d;
    assert d * (2 * q + 1) == 2 * d * q + d;
    q
  }

  /** Multiplying by a positive number keeps order. */
  lemma MulMonotone(e: int, a: int, b: int)
    requires e > 0 && a <= b
    ensures e * a <= e * b
  {
    assert e * b == e * a + e * (b - a);
  }

  /** At most one integer is the rounding of a quotient, so `IsRoundOf` pins the result down. */
  lemma RoundingIsUnique(n: int, d: int, r1: int, r2: int)
    requires IsRoundOf(n, d, r1) && IsRoundOf(n, d, r2)
    ensures r1 == r2
  {
    var e := if d > 0 then d else -d;
    var m := if d > 0 then n else -n;
    assert e > 0;
    assert e * (2 * r1 - 1) <= 2 * m < e * (2 * r1 + 1);
    assert e * (2 * r2 - 1) <= 2 * m < e * (2 * r2 + 1);
    if r1 < r2 {
      MulMonotone(e, 2 * r1 + 1, 2 * r2 - 1);
    } else if r2 < r1 {
      MulMonotone(e, 2 * r2 + 1, 2 * r1 - 1);
    }
  }

  /** `calculatePercentage`: 0 for a zero target, otherwise `current / target * 100` rounded. */
  function CalculatePercentage(current: int, target: int): (r: int)
    ensures target == 0 ==> r == 0
    ensures target != 0 ==> IsRoundOf(100 * current, target, r)
  {
    if target == 0 then 0
    else if target > 0 then RoundDiv(100 * current, target)
    else RoundDiv(-100 * current, -target)
  }

  /** When the target divides `100 * current` exactly, the percentage is that exact quotient. */
  lemma PercentageOfExactQuotient(current: int, target: int, q: int)
    requires target != 0 && 100 * current == q * target
    ensures CalculatePercentage(current, target) == q
  {
    if target > 0 {
      assert target * (2 * q - 1) == 2 * q * target - target;
      assert target * (2 * q + 1) == 2 * q * target + target;
    } else {
      assert -target * (2 * q - 1) == -2 * q * target + target;
      assert -target * (2 * q + 1) == -2 * q * target - target;
    }
    assert IsRoundOf(100 * current, target, q);
    RoundingIsUnique(100 * current, target, q, CalculatePercentage(current, target));
  }

  function Abs(x: int): int { if x < 0 then -x else x }

  /**
   * Month-over-month change of the net balance, in percent: 100 when the
   * previous net is zero and the current one positive, 0 when the previous
   * net is zero otherwise, else `(cur - prev) / |prev| * 100` rounded.
   */
  function PercentChange(cur: int, prev: int): (r: int)
    ensures prev == 0 ==> r == (if cur > 0 then 100 else 0)
    ensures prev != 0 ==> IsRoundOf(100 * (cur - prev), Abs(prev), r)
  {
    if prev == 0 then (if cur > 0 then 100 else 0)
    else RoundDiv(100 * (cur - prev), Abs(prev))
  }

  // ------------------------------------------------------ amount selectors

  /** What one transaction adds to an income total: its amount if its type is income. */
  function IncomeAmount(t: Transaction): int { if t.kind == Income then t.amount else 0 }

  /** What one transaction adds to an expense total: its amount if its type is expense. */
  function ExpenseAmount(t: Transaction): int { if t.kind == Expense then t.amount else 0 }

  /** The income a transaction contributes to month `k`. */
  function IncomeIn(k: MonthKey): Transaction -> int {
    (t: Transaction) => if MonthOf(t.date) == k then IncomeAmount(t) else 0
  }

  /** The expense a transaction contributes to month `k`. */
  function ExpenseIn(k: MonthKey): Transaction -> int {
    (t: Transaction) => if MonthOf(t.date) == k then ExpenseAmount(t) else 0
  }

  /** The loop of `getTotalBalance`: `+=` on income, `-=` on expense, other types ignored. */
  method NetBalance(s: seq<Transaction>) returns (balance: int)
    ensures balance == SumOf(s, IncomeAmount) - SumOf(s, ExpenseAmount)
  {
    balance := 0;
    var i := 0;
    while i < |s|
      invariant 0 <= i <= |s|
      invariant balance == SumOf(s[..i], IncomeAmount) - SumOf(s[..i], ExpenseAmount)
    {
      SumOfSnoc(s, i, IncomeAmount);
      SumOfSnoc(s, i, ExpenseAmount);
      if s[i].kind == Income {
        balance := balance + s[i].amount;
      } else if s[i].kind == Expense {
        balance := balance - s[i].amount;
      }
      i := i + 1;
    }
    assert s[..|s|] == s;
  }

  /** The two-accumulator loop of `getCurrentMonthSummary` and `getBalancePercentChange`. */
  method IncomeAndExpenses(s: seq<Transaction>) returns (income: int, expenses: int)
    ensures income == SumOf(s, IncomeAmount)
    ensures expenses == SumOf(s, ExpenseAmount)
  {
    income, expenses := 0, 0;
    var i := 0;
    while i < |s|
      invariant 0 <= i <= |s|
      invariant income == SumOf(s[..i], IncomeAmount)
      invariant expenses == SumOf(s[..i], ExpenseAmount)
    {
      SumOfSnoc(s, i, IncomeAmount);
      SumOfSnoc(s, i, ExpenseAmount);
      if s[i].kind == Income {
        income := income + s[i].amount;
      } else if s[i].kind == Expense {
        expenses := expenses + s[i].amount;
      }
      i := i + 1;
    }
    assert s[..|s|] == s;
  }

  // ---------------------------------------------------- monthly summaries

  function SummaryKey(m: MonthlySummary): MonthKey { MonthKey(m.month, m.year) }

  /** Position of the summary for month `k`, or `|acc|` when there is none yet. */
  function IndexOfMonth(acc: seq<MonthlySummary>, k: MonthKey): (i: nat)
    ensures i <= |acc|
    ensures i < |acc| ==> SummaryKey(acc[i]) == k
    ensures forall j :: 0 <= j < i ==> SummaryKey(acc[j]) != k
  {
    FirstMatch(acc, (m: MonthlySummary) => SummaryKey(m) == k)
  }

  /** A summary with one transaction's amount added to its income or to its expenses, as its type says. */
  function Credit(m: MonthlySummary, t: Transaction): MonthlySummary {
    m.(income := m.income + IncomeAmount(t), expenses := m.expenses + ExpenseAmount(t))
  }

  /**
   * One step of the `forEach` in `getMonthlySummaries`: create the month's
   * zero summary if it is missing (for a transaction of any type), then add
   * the amount to its income or its expenses.
   */
  function AddToMonth(acc: seq<MonthlySummary>, t: Transaction, u: UserId): seq<MonthlySummary> {
    var k := MonthOf(t.date);
    var i := IndexOfMonth(acc, k);
    var base := if i == |acc| then acc + [MonthlySummary(u, k.month, k.year, 0, 0)] else acc;
    if t.kind == Income then base[i := base[i].(income := base[i].income + t.amount)]
    else if t.kind == Expense then base[i := base[i].(expenses := base[i].expenses + t.amount)]
    else base
  }

  /** The step credits exactly one summary, the month's, by the transaction's income and expense amounts. */
  lemma AddToMonthCredits(acc: seq<MonthlySummary>, t: Transaction, u: UserId)
    ensures var k := MonthOf(t.date);
      var i := IndexOfMonth(acc, k);
      var base := if i < |acc| then acc else acc + [MonthlySummary(u, k.month, k.year, 0, 0)];
      AddToMonth(acc, t, u) == base[i := Credit(base[i], t)]
  {
  }

  /** The summaries the loop has built after visiting `s`, in order of each month's first appearance. */
  function MonthlyFold(s: seq<Transaction>, u: UserId): seq<MonthlySummary>
    decreases |s|
  {
    if s == [] then [] else AddToMonth(MonthlyFold(s[..|s| - 1], u), s[|s| - 1], u)
  }

  function SummaryKeys(r: seq<MonthlySummary>): set<MonthKey> {
    set i | 0 <= i < |r| :: SummaryKey(r[i])
  }

  function TransactionMonths(s: seq<Transaction>): set<MonthKey> {
    set i | 0 <= i < |s| :: MonthOf(s[i].date)
  }

  /**
   * `r` holds exactly one summary per month occurring in `s`, owned by `u`,
   * whose income and expenses are the sums of that month's income and
   * expense amounts in `s`.
   */
  ghost predicate MonthlyAccurate(r: seq<MonthlySummary>, s: seq<Transaction>, u: UserId) {
    && (forall i, j :: 0 <= i < j < |r| ==> SummaryKey(r[i]) != SummaryKey(r[j]))
    && (forall i :: 0 <= i < |r| ==> r[i].userId == u)
    && (forall i :: 0 <= i < |r| ==> r[i].income == SumOf(s, IncomeIn(SummaryKey(r[i]))))
    && (forall i :: 0 <= i < |r| ==> r[i].expenses == SumOf(s, ExpenseIn(SummaryKey(r[i]))))
    && SummaryKeys(r) == TransactionMonths(s)
  }

  lemma SumOfAppend<T>(s: seq<T>, t: T, f: T -> int)
    ensures SumOf(s + [t], f) == SumOf(s, f) + f(t)
  {
    assert (s + [t])[..|s|] == s;
  }

  lemma TransactionMonthsAppend(s: seq<Transaction>, t: Transaction)
    ensures TransactionMonths(s + [t]) == TransactionMonths(s) + {MonthOf(t.date)}
  {
    var s2 := s + [t];
    forall m | m in TransactionMonths(s2) ensures m in TransactionMonths(s) + {MonthOf(t.date)} {
      var j :| 0 <= j < |s2| && MonthOf(s2[j].date) == m;
      if j < |s| { assert s2[j] == s[j]; }
    }
    forall m | m in TransactionMonths(s) ensures m in TransactionMonths(s2) {
      var j :| 0 <= j < |s| && MonthOf(s[j].date) == m;
      assert s2[j] == s[j];
    }
    assert MonthOf(s2[|s|].date) == MonthOf(t.date);
  }

  lemma SummaryKeysAppend(acc: seq<MonthlySummary>, m: MonthlySummary)
    ensures SummaryKeys(acc + [m]) == SummaryKeys(acc) + {SummaryKey(m)}
  {
    var b := acc + [m];
    forall x | x in SummaryKeys(b) ensures x in SummaryKeys(acc) + {SummaryKey(m)} {
      var j :| 0 <= j < |b| && SummaryKey(b[j]) == x;
      if j < |acc| { assert b[j] == acc[j]; }
    }
    forall x | x in SummaryKeys(acc) ensures x in SummaryKeys(b) {
      var j :| 0 <= j < |acc| && SummaryKey(acc[j]) == x;
      assert b[j] == acc[j];
    }
    assert SummaryKey(b[|acc|]) == SummaryKey(m);
  }

  lemma SummaryKeysCredit(base: seq<MonthlySummary>, i: nat, t: Transaction)
    requires i < |base|
    ensures SummaryKeys(base[i := Credit(base[i], t)]) == SummaryKeys(base)
  {
    var r := base[i := Credit(base[i], t)];
    assert forall j :: 0 <= j < |r| ==> SummaryKey(r[j]) == SummaryKey(base[j]);
    forall m | m in SummaryKeys(r) ensures m in SummaryKeys(base) {
      var j :| 0 <= j < |r| && SummaryKey(r[j]) == m;
    }
    forall m | m in SummaryKeys(base) ensures m in SummaryKeys(r) {
      var j :| 0 <= j < |base| && SummaryKey(base[j]) == m;
    }
  }

  /** Adding transaction `t` for month `k` moves month `k`'s totals by its amounts and leaves every other month's alone. */
  lemma MonthTotalsAppend(s: seq<Transaction>, t: Transaction, k: MonthKey)
    ensures SumOf(s + [t], IncomeIn(k)) == SumOf(s, IncomeIn(k)) + (if MonthOf(t.date) == k then IncomeAmount(t) else 0)
    ensures SumOf(s + [t], ExpenseIn(k)) == SumOf(s, ExpenseIn(k)) + (if MonthOf(t.date) == k then ExpenseAmount(t) else 0)
  {
    SumOfAppend(s, t, IncomeIn(k));
    SumOfAppend(s, t, ExpenseIn(k));
  }

  lemma AddToMonthAccurate(acc: seq<MonthlySummary>, s: seq<Transaction>, t: Transaction, u: UserId)
    requires MonthlyAccurate(acc, s, u)
    ensures MonthlyAccurate(AddToMonth(acc, t, u), s + [t], u)
  {
    var s2 := s + [t];
    var k := MonthOf(t.date);
    var i := IndexOfMonth(acc, k);
    var base := if i < |acc| then acc else acc + [MonthlySummary(u, k.month, k.year, 0, 0)];
    var r := base[i := Credit(base[i], t)];
    AddToMonthCredits(acc, t, u);
    if i == |acc| {
      assert k !in TransactionMonths(s);
      SumOfAbsentMonth(s, k);
      SummaryKeysAppend(acc, MonthlySummary(u, k.month, k.year, 0, 0));
    }
    forall j | 0 <= j < |r|
      ensures r[j].userId == u
      ensures r[j].income == SumOf(s2, IncomeIn(SummaryKey(r[j])))
      ensures r[j].expenses == SumOf(s2, ExpenseIn(SummaryKey(r[j])))
    {
      MonthTotalsAppend(s, t, SummaryKey(base[j]));
    }
    SummaryKeysCredit(base, i, t);
    TransactionMonthsAppend(s, t);
  }

  /** A month in which no transaction falls has zero income and zero expenses. */
  lemma {:induction false} SumOfAbsentMonth(s: seq<Transaction>, k: MonthKey)
    requires k !in TransactionMonths(s)
    ensures SumOf(s, IncomeIn(k)) == 0 && SumOf(s, ExpenseIn(k)) == 0
    decreases |s|
  {
    if s != [] {
      var s' := s[..|s| - 1];
      assert MonthOf(s[|s| - 1].date) in TransactionMonths(s);
      forall j | 0 <= j < |s'| ensures MonthOf(s'[j].date) != k {
        assert s'[j] == s[j];
        assert MonthOf(s[j].date) in TransactionMonths(s);
      }
      SumOfAbsentMonth(s', k);
    }
  }

  /** The fold yields one summary per month with that month's income and expense totals. */
  lemma {:induction false} MonthlyFoldCorrect(s: seq<Transaction>, u: UserId)
    ensures MonthlyAccurate(MonthlyFold(s, u), s, u)
    decreases |s|
  {
    if s == [] {
      assert SummaryKeys([]) == {};
      assert TransactionMonths(s) == {};
    } else {
      var s' := s[..|s| - 1];
      MonthlyFoldCorrect(s', u);
      AddToMonthAccurate(MonthlyFold(s', u), s', s[|s| - 1], u);
      assert s' + [s[|s| - 1]] == s;
    }
  }

  /** Some transaction means some summary: the `summaries.length > 0` check never sends a user with transactions to the remote store. */
  lemma MonthlyFoldNonEmpty(s: seq<Transaction>, u: UserId)
    requires |s| > 0
    ensures |MonthlyFold(s, u)| > 0
  {
    MonthlyFoldCorrect(s, u);
    assert MonthOf(s[0].date) in TransactionMonths(s);
  }

  /** Reordering the transactions changes neither which months get a summary nor any month's totals. */
  lemma MonthlyTotalsOrderFree(s: seq<Transaction>, t: seq<Transaction>, u: UserId)
    requires multiset(s) == multiset(t)
    ensures SummaryKeys(MonthlyFold(s, u)) == SummaryKeys(MonthlyFold(t, u))
    ensures var a, b := MonthlyFold(s, u), MonthlyFold(t, u);
      forall i, j :: 0 <= i < |a| && 0 <= j < |b| && SummaryKey(a[i]) == SummaryKey(b[j]) ==> a[i] == b[j]
  {
    var a, b := MonthlyFold(s, u), MonthlyFold(t, u);
    MonthlyFoldCorrect(s, u);
    MonthlyFoldCorrect(t, u);
    forall k | k in TransactionMonths(s) ensures k in TransactionMonths(t) {
      var i :| 0 <= i < |s| && MonthOf(s[i].date) == k;
      assert s[i] in multiset(t);
      var j :| 0 <= j < |t| && t[j] == s[i];
    }
    forall k | k in TransactionMonths(t) ensures k in TransactionMonths(s) {
      var i :| 0 <= i < |t| && MonthOf(t[i].date) == k;
      assert t[i] in multiset(s);
      var j :| 0 <= j < |s| && s[j] == t[i];
    }
    forall i, j | 0 <= i < |a| && 0 <= j < |b| && SummaryKey(a[i]) == SummaryKey(b[j])
      ensures a[i] == b[j]
    {
      var k := SummaryKey(a[i]);
      SumOfPermutation(s, t, IncomeIn(k));
      SumOfPermutation(s, t, ExpenseIn(k));
    }
  }

  /** One more transaction of the log is one more step of the fold. */
  lemma MonthlyFoldSnoc(s: seq<Transaction>, i: nat, u: UserId)
    requires i < |s|
    ensures MonthlyFold(s[..i + 1], u) == AddToMonth(MonthlyFold(s[..i], u), s[i], u)
  {
    assert s[..i + 1][..i] == s[..i];
  }

  /** The step of the fold, branch by branch as the loop body takes them. */
  lemma AddToMonthBranches(acc: seq<MonthlySummary>, t: Transaction, u: UserId, j: nat, base: seq<MonthlySummary>)
    requires j == IndexOfMonth(acc, MonthOf(t.date))
    requires base == if j == |acc| then acc + [MonthlySummary(u, MonthOf(t.date).month, MonthOf(t.date).year, 0, 0)] else acc
    ensures j < |base|
    ensures t.kind == Income ==> AddToMonth(acc, t, u) == base[j := base[j].(income := base[j].income + t.amount)]
    ensures t.kind != Income && t.kind == Expense ==>
      AddToMonth(acc, t, u) == base[j := base[j].(expenses := base[j].expenses + t.amount)]
    ensures t.kind != Income && t.kind != Expense ==> AddToMonth(acc, t, u) == base
  {
  }

  /** The `forEach` of `getMonthlySummaries` over the user's transactions. */
  method MonthlySummariesOf(s: seq<Transaction>, u: UserId) returns (r: seq<MonthlySummary>)
    ensures r == MonthlyFold(s, u)
    ensures MonthlyAccurate(r, s, u)
  {
    r := [];
    var i := 0;
    while i < |s|
      invariant 0 <= i <= |s|
      invariant r == MonthlyFold(s[..i], u)
    {
      var t := s[i];
      MonthlyFoldSnoc(s, i, u);
      var k := MonthOf(t.date);
      var j := IndexOfMonth(r, k);
      var summaries := if j == |r| then r + [MonthlySummary(u, k.month, k.year, 0, 0)] else r;
      AddToMonthBranches(r, t, u, j, summaries);
      if t.kind == Income {
        summaries := summaries[j := summaries[j].(income := summaries[j].income + t.amount)];
      } else if t.kind == Expense {
        summaries := summaries[j := summaries[j].(expenses := summaries[j].expenses + t.amount)];
      }
      r := summaries;
      i := i + 1;
    }
    assert s[..|s|] == s;
    MonthlyFoldCorrect(s, u);
  }

  // --------------------------------------------------- expense breakdown

  /** A (category, amount) pair: what the breakdown reads from each expense, local or remote. */
  datatype Spend = Spend(category: string, amount: int)

  /** A category and its running total: one entry of the `Map<string, number>` the breakdown builds. */
  datatype CategoryTotal = CategoryTotal(name: string, value: int)

  /** One slice of the breakdown chart. */
  datatype ExpenseSlice = ExpenseSlice(name: string, value: int, color: string)

  const OtherCategory: string := "Other"
  const DefaultColor: string := "#888888"

  /** Colours of the common categories. */
  const CategoryColors: map<string, string> := map[
    "Rent" := "#FF6634", "Food" := "#FFAA33", "Transport" := "#33AAFF",
    "Utilities" := "#33DDAA", "Entertainment" := "#7744FF", "Shopping" := "#FF44AA",
    "Healthcare" := "#44EEFF", "Education" := "#AABB33", "Travel" := "#FF88CC",
    "Other" := "#888888"]

  /** A missing (empty) category is counted as "Other". */
  function CategoryOrOther(c: string): string { if c == "" then OtherCategory else c }

  /** The category's colour from the table, grey for a category the table does not list. */
  function ColorOf(name: string): (color: string)
    ensures name in CategoryColors ==> color == CategoryColors[name]
    ensures name !in CategoryColors ==> color == DefaultColor
  {
    if name in CategoryColors then CategoryColors[name] else DefaultColor
  }

  /** The amount one row contributes to category `c`. */
  function AmountIn(c: string): Spend -> int {
    (row: Spend) => if CategoryOrOther(row.category) == c then row.amount else 0
  }

  function IndexOfCategory(acc: seq<CategoryTotal>, c: string): (i: nat)
    ensures i <= |acc|
    ensures i < |acc| ==> acc[i].name == c
    ensures forall j :: 0 <= j < i ==> acc[j].name != c
  {
    FirstMatch(acc, (e: CategoryTotal) => e.name == c)
  }

  /** One step of the grouping `forEach`: `categoryMap.set(category, (categoryMap.get(category) || 0) + amount)`. */
  function AddToCategory(acc: seq<CategoryTotal>, row: Spend): seq<CategoryTotal> {
    var c := CategoryOrOther(row.category);
    var i := IndexOfCategory(acc, c);
    if i < |acc| then acc[i := CategoryTotal(c, acc[i].value + row.amount)]
    else acc + [CategoryTotal(c, row.amount)]
  }

  /** The map's entries after the loop, in order of each category's first appearance. */
  function CategoryFold(rows: seq<Spend>): seq<CategoryTotal>
    decreases |rows|
  {
    if rows == [] then [] else AddToCategory(CategoryFold(rows[..|rows| - 1]), rows[|rows| - 1])
  }

  function CategoryNames(acc: seq<CategoryTotal>): set<string> {
    set i | 0 <= i < |acc| :: acc[i].name
  }

  function RowCategories(rows: seq<Spend>): set<string> {
    set i | 0 <= i < |rows| :: CategoryOrOther(rows[i].category)
  }

  /** `acc` holds one entry per category occurring in `rows` with the sum of that category's amounts. */
  ghost predicate CategoryAccurate(acc: seq<CategoryTotal>, rows: seq<Spend>) {
    && (forall i, j :: 0 <= i < j < |acc| ==> acc[i].name != acc[j].name)
    && (forall i :: 0 <= i < |acc| ==> acc[i].value == SumOf(rows, AmountIn(acc[i].name)))
    && CategoryNames(acc) == RowCategories(rows)
  }

  lemma RowCategoriesAppend(rows: seq<Spend>, row: Spend)
    ensures RowCategories(rows + [row]) == RowCategories(rows) + {CategoryOrOther(row.category)}
  {
    var r2 := rows + [row];
    forall c | c in RowCategories(r2) ensures c in RowCategories(rows) + {CategoryOrOther(row.category)} {
      var j :| 0 <= j < |r2| && CategoryOrOther(r2[j].category) == c;
      if j < |rows| { assert r2[j] == rows[j]; }
    }
    forall c | c in RowCategories(rows) ensures c in RowCategories(r2) {
      var j :| 0 <= j < |rows| && CategoryOrOther(rows[j].category) == c;
      assert r2[j] == rows[j];
    }
    assert CategoryOrOther(r2[|rows|].category) == CategoryOrOther(row.category);
  }

  lemma {:induction false} SumOfAbsentCategory(rows: seq<Spend>, c: string)
    requires c !in RowCategories(rows)
    ensures SumOf(rows, AmountIn(c)) == 0
    decreases |rows|
  {
    if rows != [] {
      var r' := rows[..|rows| - 1];
      assert CategoryOrOther(rows[|rows| - 1].category) in RowCategories(rows);
      forall j | 0 <= j < |r'| ensures CategoryOrOther(r'[j].category) != c {
        assert r'[j] == rows[j];
        assert CategoryOrOther(rows[j].category) in RowCategories(rows);
      }
      SumOfAbsentCategory(r', c);
    }
  }

  lemma AddToCategoryAccurate(acc: seq<CategoryTotal>, rows: seq<Spend>, row: Spend)
    requires CategoryAccurate(acc, rows)
    ensures CategoryAccurate(AddToCategory(acc, row), rows + [row])
  {
    var r2 := rows + [row];
    var c := CategoryOrOther(row.category);
    var i := IndexOfCategory(acc, c);
    var r := AddToCategory(acc, row);
    forall j | 0 <= j < |r| ensures r[j].value == SumOf(r2, AmountIn(r[j].name)) {
      SumOfAppend(rows, row, AmountIn(r[j].name));
      if j == |acc| {
        assert c !in CategoryNames(acc);
        SumOfAbsentCategory(rows, c);
      }
    }
    assert CategoryNames(r) == CategoryNames(acc) + {c} by {
      forall x | x in CategoryNames(r) ensures x in CategoryNames(acc) + {c} {
        var j :| 0 <= j < |r| && r[j].name == x;
        if j < |acc| && j != i { assert r[j] == acc[j]; }
      }
      forall x | x in CategoryNames(acc) + {c} ensures x in CategoryNames(r) {
        if x == c {
          assert r[i].name == c;
        } else {
          var j :| 0 <= j < |acc| && acc[j].name == x;
          assert r[j] == acc[j];
        }
      }
    }
    RowCategoriesAppend(rows, row);
  }

  /** The grouping yields one entry per category (missing ones as "Other") with that category's total. */
  lemma {:induction false} CategoryFoldCorrect(rows: seq<Spend>)
    ensures CategoryAccurate(CategoryFold(rows), rows)
    decreases |rows|
  {
    if rows == [] {
      assert CategoryNames([]) == {};
      assert RowCategories(rows) == {};
    } else {
      var r' := rows[..|rows| - 1];
      CategoryFoldCorrect(r');
      AddToCategoryAccurate(CategoryFold(r'), r', rows[|rows| - 1]);
      assert r' + [rows[|rows| - 1]] == rows;
    }
  }

  /** Some row means some entry: the `result.length > 0` check passes whenever there are expenses. */
  lemma CategoryFoldNonEmpty(rows: seq<Spend>)
    requires |rows| > 0
    ensures |CategoryFold(rows)| > 0
  {
    CategoryFoldCorrect(rows);
    assert CategoryOrOther(rows[0].category) in RowCategories(rows);
  }

  /** One more row is one more step of the fold. */
  lemma CategoryFoldSnoc(rows: seq<Spend>, i: nat)
    requires i < |rows|
    ensures CategoryFold(rows[..i + 1]) == AddToCategory(CategoryFold(rows[..i]), rows[i])
  {
    assert rows[..i + 1][..i] == rows[..i];
  }

  /** The step of the fold as the loop body takes it: the looked-up total, or 0, plus the amount. */
  lemma AddToCategoryBranches(acc: seq<CategoryTotal>, row: Spend, k: nat, current: int)
    requires k == IndexOfCategory(acc, CategoryOrOther(row.category))
    requires current == if k < |acc| then acc[k].value else 0
    ensures k < |acc| ==> AddToCategory(acc, row) == acc[k := CategoryTotal(CategoryOrOther(row.category), current + row.amount)]
    ensures k == |acc| ==> AddToCategory(acc, row) == acc + [CategoryTotal(CategoryOrOther(row.category), current + row.amount)]
  {
  }

  /** The grouping `forEach` of `getExpenseBreakdown`, local and remote branch alike. */
  method GroupByCategory(rows: seq<Spend>) returns (totals: seq<CategoryTotal>)
    ensures totals == CategoryFold(rows)
    ensures CategoryAccurate(totals, rows)
  {
    totals := [];
    var i := 0;
    while i < |rows|
      invariant 0 <= i <= |rows|
      invariant totals == CategoryFold(rows[..i])
    {
      var row := rows[i];
      CategoryFoldSnoc(rows, i);
      var category := CategoryOrOther(row.category);
      var k := IndexOfCategory(totals, category);
      var current := if k < |totals| then totals[k].value else 0;
      AddToCategoryBranches(totals, row, k, current);
      ghost var next := AddToCategory(totals, row);
      if k < |totals| {
        totals := totals[k := CategoryTotal(category, current + row.amount)];
      } else {
        totals := totals + [CategoryTotal(category, current + row.amount)];
      }
      assert totals == next;
      i := i + 1;
    }
    assert rows[..|rows|] == rows;
    CategoryFoldCorrect(rows);
  }

  /** The final `map` of the breakdown: each entry with its colour. */
  function Colored(totals: seq<CategoryTotal>): (slices: seq<ExpenseSlice>)
    ensures |slices| == |totals|
  {
    seq(|totals|, i requires 0 <= i < |totals| => ExpenseSlice(totals[i].name, totals[i].value, ColorOf(totals[i].name)))
  }

  /**
   * `slices` is the breakdown of `rows`: one slice per category (missing
   * categories as "Other"), valued at the category's total and coloured
   * from the table.
   */
  ghost predicate BreakdownOf(slices: seq<ExpenseSlice>, rows: seq<Spend>) {
    && (forall i, j :: 0 <= i < j < |slices| ==> slices[i].name != slices[j].name)
    && (forall i :: 0 <= i < |slices| ==> slices[i].value == SumOf(rows, AmountIn(slices[i].name)))
    && (forall i :: 0 <= i < |slices| ==> slices[i].color == ColorOf(slices[i].name))
    && (set i | 0 <= i < |slices| :: slices[i].name) == RowCategories(rows)
  }

  lemma ColoredBreakdown(rows: seq<Spend>)
    ensures BreakdownOf(Colored(CategoryFold(rows)), rows)
  {
    var totals := CategoryFold(rows);
    var slices := Colored(totals);
    CategoryFoldCorrect(rows);
    assert (set i | 0 <= i < |slices| :: slices[i].name) == CategoryNames(totals) by {
      assert forall i :: 0 <= i < |slices| ==> slices[i].name == totals[i].name;
    }
  }

  // ------------------------------------------------- newest-first ordering

  /** Transactions ordered by `created_at`, newest first. */
  predicate NewestFirstOrder(r: seq<Transaction>) {
    forall i, j :: 0 <= i < j < |r| ==> r[i].createdAt >= r[j].createdAt
  }

  /** Where insertion sort puts `t`: before the first strictly older element, so equal timestamps keep their order. */
  function InsertionPoint(r: seq<Transaction>, t: Transaction): (i: nat)
    ensures i <= |r|
    ensures i < |r| ==> r[i].createdAt < t.createdAt
    ensures forall k :: 0 <= k < i ==> r[k].createdAt >= t.createdAt
  {
    FirstMatch(r, (x: Transaction) => x.createdAt < t.createdAt)
  }

  function InsertNewest(r: seq<Transaction>, t: Transaction): seq<Transaction> {
    var i := InsertionPoint(r, t);
    r[..i] + [t] + r[i..]
  }

  /** Stable insertion sort by `created_at`, newest first: the reference for `userTransactions.sort`. */
  function SortNewest(s: seq<Transaction>): seq<Transaction>
    decreases |s|
  {
    if s == [] then [] else InsertNewest(SortNewest(s[..|s| - 1]), s[|s| - 1])
  }

  /** Inserting keeps the order and adds exactly the one record. */
  lemma InsertNewestCorrect(r: seq<Transaction>, t: Transaction)
    requires NewestFirstOrder(r)
    ensures NewestFirstOrder(InsertNewest(r, t))
    ensures multiset(InsertNewest(r, t)) == multiset(r) + multiset{t}
  {
    InsertNewestOrdered(r, t);
    var i := InsertionPoint(r, t);
    assert r == r[..i] + r[i..];
  }

  /** Inserting at the insertion point keeps a newest-first list newest first. */
  lemma InsertNewestOrdered(r: seq<Transaction>, t: Transaction)
    requires NewestFirstOrder(r)
    ensures NewestFirstOrder(InsertNewest(r, t))
  {
    var i := InsertionPoint(r, t);
    var q := InsertNewest(r, t);
    assert |q| == |r| + 1;
    assert forall k :: 0 <= k < i ==> q[k] == r[k];
    assert q[i] == t;
    assert forall k :: i < k < |q| ==> q[k] == r[k - 1];
    if i < |r| {
      assert forall k :: i < k < |q| ==> q[k].createdAt <= r[i].createdAt;
    }
  }

  /** The reference sort orders newest first and returns a permutation of its input. */
  lemma {:induction false} SortNewestCorrect(s: seq<Transaction>)
    ensures NewestFirstOrder(SortNewest(s))
    ensures multiset(SortNewest(s)) == multiset(s)
    decreases |s|
  {
    if s != [] {
      var s' := s[..|s| - 1];
      SortNewestCorrect(s');
      InsertNewestCorrect(SortNewest(s'), s[|s| - 1]);
      assert s == s' + [s[|s| - 1]];
    }
  }

  /** One more record is one more insertion. */
  lemma SortNewestSnoc(s: seq<Transaction>, i: nat)
    requires i < |s|
    ensures SortNewest(s[..i + 1]) == InsertNewest(SortNewest(s[..i]), s[i])
  {
    assert s[..i + 1][..i] == s[..i];
  }

  /** The insertion point is the only position with no older record before it and an older record at it. */
  lemma InsertionPointUnique(r: seq<Transaction>, t: Transaction, j: nat)
    requires j <= |r|
    requires forall k :: 0 <= k < j ==> r[k].createdAt >= t.createdAt
    requires j < |r| ==> r[j].createdAt < t.createdAt
    ensures j == InsertionPoint(r, t)
  {
  }

  /** The scan of one insertion step: skip every record at least as new as `t`. */
  method FindInsertionPoint(r: seq<Transaction>, t: Transaction) returns (j: nat)
    ensures j == InsertionPoint(r, t)
  {
    j := 0;
    while j < |r| && r[j].createdAt >= t.createdAt
      invariant 0 <= j <= |r|
      invariant forall k :: 0 <= k < j ==> r[k].createdAt >= t.createdAt
    {
      j := j + 1;
    }
    InsertionPointUnique(r, t, j);
  }

  /** One step of the insertion sort: `t` goes in after every record at least as new. */
  method InsertAt(r: seq<Transaction>, t: Transaction) returns (r': seq<Transaction>)
    ensures r' == InsertNewest(r, t)
  {
    var j := FindInsertionPoint(r, t);
    r' := r[..j] + [t] + r[j..];
  }

  /** The sort of `getRecentTransactions`, on the filtered copy it sorts. */
  method NewestFirst(s: seq<Transaction>) returns (r: seq<Transaction>)
    ensures r == SortNewest(s)
    ensures NewestFirstOrder(r) && multiset(r) == multiset(s)
  {
    r := [];
    var i := 0;
    while i < |s|
      invariant 0 <= i <= |s|
      invariant r == SortNewest(s[..i])
    {
      SortNewestSnoc(s, i);
      r := InsertAt(r, s[i]);
      i := i + 1;
    }
    assert s[..|s|] == s;
    SortNewestCorrect(s);
  }

  /** In a newest-first list, everything before position `n` is at least as new as everything from `n` on. */
  lemma PrefixIsNewest(r: seq<Transaction>, n: nat)
    requires NewestFirstOrder(r) && n <= |r|
    ensures forall x, y :: x in r[..n] && y in r[n..] ==> x.createdAt >= y.createdAt
  {
    forall x, y | x in r[..n] && y in r[n..] ensures x.createdAt >= y.createdAt {
      var i :| 0 <= i < n && r[..n][i] == x;
      var j :| 0 <= j < |r| - n && r[n..][j] == y;
      assert r[i] == x && r[n + j] == y;
    }
  }

  function Min(a: int, b: int): int { if a <= b then a else b }

  /** The `limit` newest transactions of `s`: sort newest first, then `slice(0, limit)`. */
  function RecentOf(s: seq<Transaction>, limit: nat): seq<Transaction> {
    var sorted := SortNewest(s);
    SortNewestCorrect(s);
    assert |sorted| == |multiset(s)| == |s|;
    sorted[..Min(limit, |sorted|)]
  }

  /**
   * The recent list has `min(limit, |s|)` of the transactions of `s`, newest
   * first, and none of those left out is newer than any that is listed.
   */
  lemma RecentAreNewest(s: seq<Transaction>, limit: nat)
    ensures |RecentOf(s, limit)| == Min(limit, |s|)
    ensures NewestFirstOrder(RecentOf(s, limit))
    ensures multiset(RecentOf(s, limit)) <= multiset(s)
    ensures var r := RecentOf(s, limit);
      forall x, y :: x in r && y in multiset(s) - multiset(r) ==> x.createdAt >= y.createdAt
  {
    var sorted := SortNewest(s);
    SortNewestCorrect(s);
    assert |sorted| == |multiset(s)| == |s|;
    var n := Min(limit, |sorted|);
    assert sorted == sorted[..n] + sorted[n..];
    assert multiset(sorted) == multiset(sorted[..n]) + multiset(sorted[n..]);
    assert multiset(s) - multiset(sorted[..n]) == multiset(sorted[n..]);
    PrefixIsNewest(sorted, n);
  }
}
