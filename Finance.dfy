/**
 * The record accessors and aggregate entry points of financeService.ts,
 * over the three local collections `finhive_accounts`,
 * `finhive_transactions` and `finhive_receipts`. Each accessor reads a
 * whole collection, builds the new one and writes it back. Remote
 * outcomes, generated ids and clock readings are parameters; a write's
 * mirror outcome is accepted and ignored, as financeService.ts ignores it.
 */
module Finance {
  import opened Wrappers
  import opened Seqs
  import opened Remote
  import opened Records
  import opened Aggregates

  // ------------------------------------------------ owner and id filters

  /** The records of `s` owned by `u`, in stored order: `filter(x => x.user_id === u)`. */
  function Owned<T>(s: seq<T>, owner: T -> UserId, u: UserId): (r: seq<T>)
    ensures forall i :: 0 <= i < |r| ==> owner(r[i]) == u && r[i] in s
    ensures forall i :: 0 <= i < |s| && owner(s[i]) == u ==> s[i] in r
  {
    Keep(s, (x: T) => owner(x) == u)
  }

  /** The records of `s` owned by anybody but `u`: `filter(x => x.user_id !== u)`. */
  function NotOwned<T>(s: seq<T>, owner: T -> UserId, u: UserId): seq<T> {
    Keep(s, (x: T) => owner(x) != u)
  }

  /** Every stored record is in exactly one of `u`'s view and everybody else's view. */
  lemma OwnedPartition<T>(s: seq<T>, owner: T -> UserId, u: UserId)
    ensures |Owned(s, owner, u)| + |NotOwned(s, owner, u)| == |s|
  {
    KeepSplit(s, (x: T) => owner(x) == u, (x: T) => owner(x) != u);
  }

  /** `s` without its records whose id is `x`: `filter(x => x.id !== id)`, whoever owns them. */
  function WithoutId<T>(s: seq<T>, id: T -> string, x: string): (r: seq<T>)
    ensures forall i :: 0 <= i < |r| ==> id(r[i]) != x && r[i] in s
    ensures forall i :: 0 <= i < |s| && id(s[i]) != x ==> s[i] in r
  {
    Keep(s, (y: T) => id(y) != x)
  }

  /** Deleting by id keeps the other records in their relative order: it distributes over concatenation. */
  lemma WithoutIdKeepsOrder<T>(a: seq<T>, b: seq<T>, id: T -> string, x: string)
    ensures WithoutId(a + b, id, x) == WithoutId(a, id, x) + WithoutId(b, id, x)
  {
    KeepConcat(a, b, (y: T) => id(y) != x);
  }

  /** Deleting an id no record carries changes nothing. */
  lemma WithoutAbsentId<T>(s: seq<T>, id: T -> string, x: string)
    requires forall i :: 0 <= i < |s| ==> id(s[i]) != x
    ensures WithoutId(s, id, x) == s
  {
    KeepAll(s, (y: T) => id(y) != x);
  }

  /** When exactly one record carries the id, deleting it shortens the collection by exactly one. */
  lemma WithoutUniqueId<T>(s: seq<T>, id: T -> string, x: string, k: nat)
    requires k < |s| && id(s[k]) == x
    requires forall j :: 0 <= j < |s| && j != k ==> id(s[j]) != x
    ensures |WithoutId(s, id, x)| == |s| - 1
  {
    var p := (y: T) => id(y) != x;
    assert s == s[..k] + ([s[k]] + s[k + 1..]);
    KeepConcat(s[..k], [s[k]] + s[k + 1..], p);
    KeepConcat([s[k]], s[k + 1..], p);
    KeepAll(s[..k], p);
    KeepAll(s[k + 1..], p);
    assert Keep([s[k]], p) == [] by { assert [s[k]][1..] == []; }
  }

  // ------------------------------------------- cache-aside read with merge

  /** What a read returns to its caller, and the collection stored afterwards. */
  datatype Read<T> = Read(result: seq<T>, stored: seq<T>)

  /**
   * The read of `getUserAccounts` and `getReceipts`: the caller's records
   * from the local collection if there are any; otherwise, when the remote
   * select returns rows, those rows, after replacing the caller's records
   * in the local collection by them (other owners' records first, then the
   * rows); otherwise nothing, with the collection untouched.
   */
  function CachedRead<T>(s: seq<T>, owner: T -> UserId, u: UserId, remote: Fetch<T>): Read<T> {
    var mine := Owned(s, owner, u);
    if |mine| > 0 then Read(mine, s)
    else if remote.HasRows() then Read(remote.rows, NotOwned(s, owner, u) + remote.rows)
    else Read([], s)
  }

  /** A local hit returns exactly the caller's stored records, in stored order, and writes nothing. */
  lemma CachedReadHit<T>(s: seq<T>, owner: T -> UserId, u: UserId, remote: Fetch<T>)
    requires exists i :: 0 <= i < |s| && owner(s[i]) == u
    ensures CachedRead(s, owner, u, remote) == Read(Owned(s, owner, u), s)
  {
    var i :| 0 <= i < |s| && owner(s[i]) == u;
    assert s[i] in Owned(s, owner, u);
  }

  /**
   * A remote catch-up keeps every other owner's record, in order, and keeps
   * none of the caller's old records: the caller's records afterwards are
   * exactly the remote rows (when the rows are the caller's, as the
   * `eq('user_id', userId)` filter asks).
   */
  lemma CachedReadMerge<T>(s: seq<T>, owner: T -> UserId, u: UserId, remote: Fetch<T>)
    requires |Owned(s, owner, u)| == 0 && remote.HasRows()
    requires forall i :: 0 <= i < |remote.rows| ==> owner(remote.rows[i]) == u
    ensures CachedRead(s, owner, u, remote).result == remote.rows
    ensures Owned(CachedRead(s, owner, u, remote).stored, owner, u) == remote.rows
    ensures NotOwned(CachedRead(s, owner, u, remote).stored, owner, u) == NotOwned(s, owner, u)
  {
    var others := NotOwned(s, owner, u);
    MergeKeepsMine(others, remote.rows, owner, u);
    MergeKeepsOthers(others, remote.rows, owner, u);
  }

  /** Other owners' records followed by `u`'s rows: `u`'s view is the rows. */
  lemma MergeKeepsMine<T>(others: seq<T>, rows: seq<T>, owner: T -> UserId, u: UserId)
    requires forall i :: 0 <= i < |others| ==> owner(others[i]) != u
    requires forall i :: 0 <= i < |rows| ==> owner(rows[i]) == u
    ensures Owned(others + rows, owner, u) == rows
  {
    var mineP := (x: T) => owner(x) == u;
    KeepConcat(others, rows, mineP);
    KeepNone(others, mineP);
    KeepAll(rows, mineP);
  }

  /** Other owners' records followed by `u`'s rows: everybody else's view is unchanged. */
  lemma MergeKeepsOthers<T>(others: seq<T>, rows: seq<T>, owner: T -> UserId, u: UserId)
    requires forall i :: 0 <= i < |others| ==> owner(others[i]) != u
    requires forall i :: 0 <= i < |rows| ==> owner(rows[i]) == u
    ensures NotOwned(others + rows, owner, u) == others
  {
    var otherP := (x: T) => owner(x) != u;
    KeepConcat(others, rows, otherP);
    KeepAll(others, otherP);
    KeepNone(rows, otherP);
  }

  /** After a remote catch-up, the next read is a local hit returning the same rows, whatever the remote then says. */
  lemma CachedReadSettles<T>(s: seq<T>, owner: T -> UserId, u: UserId, remote: Fetch<T>, later: Fetch<T>)
    requires |Owned(s, owner, u)| == 0 && remote.HasRows()
    requires forall i :: 0 <= i < |remote.rows| ==> owner(remote.rows[i]) == u
    ensures var first := CachedRead(s, owner, u, remote);
      CachedRead(first.stored, owner, u, later) == Read(first.result, first.stored)
  {
    CachedReadMerge(s, owner, u, remote);
  }

  // --------------------------------------------------------- inputs

  /** The fields a caller passes to `addAccount`; absent optional fields are `None`. */
  datatype AccountInput = AccountInput(
    name: string, kind: string, balance: int,
    cardType: Option<string>, lastFour: Option<string>, monthlyFee: Option<int>)

  /** The fields a caller passes to `addTransaction`; an empty date string is `None`. */
  datatype TransactionInput = TransactionInput(
    kind: string, amount: int, description: string, category: string, date: Option<Date>)

  /** The uploaded file's metadata. */
  datatype FileInfo = FileInfo(name: string, kind: string, size: int)

  /** The fields a caller passes to `saveReceipt`. */
  datatype ReceiptInput = ReceiptInput(
    title: string, amount: int, date: string, category: string, notes: string, file: FileInfo)

  const Uncategorized: string := "Uncategorized"

  /** `value || null` on an optional string: an empty string is stored as null. */
  function TextOrNull(o: Option<string>): Option<string> {
    if o == Some("") then None else o
  }

  /** `value || null` on an optional number: zero is stored as null. */
  function NumberOrNull(o: Option<int>): Option<int> {
    if o == Some(0) then None else o
  }

  /** The first checking account of `u` in `s`, if any: the `find` of `getPrimaryAccount`. */
  function LocalPrimary(s: seq<Account>, u: UserId): (r: Option<Account>)
    ensures r.Some? ==> r.value in s && r.value.userId == u && r.value.kind == Checking
    ensures r.Some? ==>
      exists i :: 0 <= i < |s| && s[i] == r.value && (forall k :: 0 <= k < i ==> !(s[k].userId == u && s[k].kind == Checking))
    ensures r.None? ==> forall i :: 0 <= i < |s| ==> !(s[i].userId == u && s[i].kind == Checking)
  {
    var i := FirstMatch(s, (a: Account) => a.userId == u && a.kind == Checking);
    if i < |s| then Some(s[i]) else None
  }

  function HasAccountId(s: seq<Account>, x: string): bool {
    exists i :: 0 <= i < |s| && s[i].id == x
  }

  /** The user's expenses dated from the first of `today`'s month up to `today`, both included. */
  function MonthExpenses(s: seq<Transaction>, u: UserId, today: Date): (e: seq<Transaction>)
    ensures forall i :: 0 <= i < |e| ==>
      (e[i] in s && e[i].userId == u && e[i].kind == Expense && InRange(e[i].date, StartOfMonth(today), today))
    ensures forall i :: 0 <= i < |s| ==>
      (s[i].userId == u && s[i].kind == Expense && InRange(s[i].date, StartOfMonth(today), today) ==> s[i] in e)
  {
    Keep(s, (t: Transaction) => t.userId == u && t.kind == Expense && InRange(t.date, StartOfMonth(today), today))
  }

  /** The user's transactions of any type dated from the first of `today`'s month up to `today`. */
  function MonthToDate(s: seq<Transaction>, u: UserId, today: Date): (m: seq<Transaction>)
    ensures forall i :: 0 <= i < |m| ==> m[i] in s && m[i].userId == u && InRange(m[i].date, StartOfMonth(today), today)
    ensures forall i :: 0 <= i < |s| && s[i].userId == u && InRange(s[i].date, StartOfMonth(today), today) ==> s[i] in m
  {
    Keep(s, (t: Transaction) => t.userId == u && InRange(t.date, StartOfMonth(today), today))
  }

  /** The transactions of `s` dated between the first and the last day of month `m` of year `y`. */
  function InMonth(s: seq<Transaction>, y: int, m: int): seq<Transaction> {
    Keep(s, (t: Transaction) => InRange(t.date, Date(y, m, 1), EndOfMonth(y, m)))
  }

  /** Income minus expenses over the transactions of one month. */
  function MonthNet(s: seq<Transaction>, y: int, m: int): int {
    SumOf(InMonth(s, y, m), IncomeAmount) - SumOf(InMonth(s, y, m), ExpenseAmount)
  }

  /**
   * For well-formed dates, the month net used by the percent change equals
   * that month's income minus expenses as the monthly summaries count them.
   */
  lemma {:induction false} MonthNetMatchesSummary(s: seq<Transaction>, y: int, m: int)
    requires 0 <= m < 12
    requires forall i :: 0 <= i < |s| ==> ValidDate(s[i].date)
    ensures MonthNet(s, y, m) == SumOf(s, IncomeIn(MonthKey(m, y))) - SumOf(s, ExpenseIn(MonthKey(m, y)))
    decreases |s|
  {
    if s != [] {
      var s' := s[..|s| - 1];
      var t := s[|s| - 1];
      assert s == s' + [t];
      var p := (t: Transaction) => InRange(t.date, Date(y, m, 1), EndOfMonth(y, m));
      KeepConcat(s', [t], p);
      assert Keep([t], p) == if p(t) then [t] else [] by { assert [t][1..] == []; }
      SumOfConcat(Keep(s', p), Keep([t], p), IncomeAmount);
      SumOfConcat(Keep(s', p), Keep([t], p), ExpenseAmount);
      assert SumOf([t], IncomeAmount) == IncomeAmount(t) by { assert [t][..0] == []; }
      assert SumOf([t], ExpenseAmount) == ExpenseAmount(t) by { assert [t][..0] == []; }
      InMonthRange(t.date, y, m);
      MonthTotalsAppend(s', t, MonthKey(m, y));
      MonthNetMatchesSummary(s', y, m);
    }
  }

  /** The (category, amount) rows the breakdown groups. */
  function SpendsOf(e: seq<Transaction>): (rows: seq<Spend>)
    ensures |rows| == |e|
  {
    seq(|e|, i requires 0 <= i < |e| => Spend(e[i].category, e[i].amount))
  }

  /** The net of a remote monthly summary row; a missing row counts as zero. */
  function RemoteNet(row: Single<MonthlySummary>): int {
    if row.Row? then row.value.income - row.value.expenses else 0
  }

  /** Remote single-row lookups that the percent change accepts: a row, or the "no rows" error. */
  predicate Accepted<T>(row: Single<T>) { row.Row? || row.NoRow? }

  function Amount(x: int): int { x }

  // ---------------------------------------------- add, delete and balance

  /** Prepending a record owned by `u` prepends it to `u`'s view and leaves every other owner's view alone. */
  lemma OwnedPrepend<T>(x: T, s: seq<T>, owner: T -> UserId, u: UserId)
    ensures Owned([x] + s, owner, u) == (if owner(x) == u then [x] else []) + Owned(s, owner, u)
  {
    var p := (y: T) => owner(y) == u;
    KeepConcat([x], s, p);
    assert Keep([x], p) == (if p(x) then [x] else []) by { assert [x][1..] == []; }
  }

  /**
   * Deleting the id of a record just added, when no older record shares it,
   * gives back exactly the collection before the add: one record fewer, and
   * nothing else touched.
   */
  lemma AddThenDelete<T>(x: T, s: seq<T>, id: T -> string)
    requires forall i :: 0 <= i < |s| ==> id(s[i]) != id(x)
    ensures WithoutId([x] + s, id, id(x)) == s
    ensures |WithoutId([x] + s, id, id(x))| == |[x] + s| - 1
  {
    WithoutIdKeepsOrder([x], s, id, id(x));
    WithoutAbsentId(s, id, id(x));
    assert Keep([x], (y: T) => id(y) != id(x)) == [] by { assert [x][1..] == []; }
  }

  /**
   * Deletes are not owner-scoped: a record of another user carrying the id
   * is removed from that user's view as well.
   */
  lemma DeleteIgnoresOwner(s: seq<Transaction>, x: string, caller: UserId, k: nat)
    requires k < |s| && s[k].id == x && s[k].userId != caller
    ensures s[k] !in WithoutId(s, TransactionId, x)
    ensures s[k] !in Owned(WithoutId(s, TransactionId, x), TransactionOwner, s[k].userId)
  {
  }

  /** Adding one of the user's transactions moves the user's net local balance by its signed amount. */
  lemma AddMovesBalance(t: Transaction, s: seq<Transaction>, u: UserId)
    requires t.userId == u
    ensures var before := Owned(s, TransactionOwner, u);
      var after := Owned([t] + s, TransactionOwner, u);
      && |after| == |before| + 1
      && SumOf(after, IncomeAmount) - SumOf(after, ExpenseAmount)
         == SumOf(before, IncomeAmount) - SumOf(before, ExpenseAmount) + IncomeAmount(t) - ExpenseAmount(t)
  {
    var before := Owned(s, TransactionOwner, u);
    OwnedPrepend(t, s, TransactionOwner, u);
    SumOfConcat([t], before, IncomeAmount);
    SumOfConcat([t], before, ExpenseAmount);
    assert SumOf([t], IncomeAmount) == IncomeAmount(t) by { assert [t][..0] == []; }
    assert SumOf([t], ExpenseAmount) == ExpenseAmount(t) by { assert [t][..0] == []; }
  }

  /**
   * An income of 5000 on 1 April 2025 followed by an expense of 1200 on
   * 5 April 2025 (each added to the front) give one April summary with
   * those totals, and a local balance of 3800.
   */
  lemma AprilScenario(u: UserId, salary: Transaction, food: Transaction)
    requires salary == Transaction("t1", u, 5000, Income, "Salary", "", Date(2025, 3, 1), 1)
    requires food == Transaction("t2", u, 1200, Expense, "Food", "", Date(2025, 3, 5), 2)
    ensures MonthlyFold([food, salary], u) == [MonthlySummary(u, 3, 2025, 5000, 1200)]
    ensures SumOf([food, salary], IncomeAmount) - SumOf([food, salary], ExpenseAmount) == 3800
  {
    var s := [food, salary];
    var k := MonthKey(3, 2025);
    assert s[..1] == [food];
    assert [food][..0] == [];
    assert MonthOf(food.date) == k && MonthOf(salary.date) == k;
    assert IndexOfMonth([], k) == 0;
    var one := [MonthlySummary(u, 3, 2025, 0, 1200)];
    assert AddToMonth([], food, u) == one;
    assert MonthlyFold([food], u) == one;
    assert IndexOfMonth(one, k) == 0;
    assert AddToMonth(one, salary, u) == [MonthlySummary(u, 3, 2025, 5000, 1200)];
    assert SumOf([food], IncomeAmount) == 0 && SumOf([food], ExpenseAmount) == 1200;
  }

  // ------------------------------------------------------------ the store

  class FinanceStore {
    /** `finhive_accounts`, `finhive_transactions` and `finhive_receipts`; a missing key reads as empty. */
    var accounts: seq<Account>
    var transactions: seq<Transaction>
    var receipts: seq<Receipt>

    constructor ()
      ensures accounts == [] && transactions == [] && receipts == []
    {
      accounts, transactions, receipts := [], [], [];
    }

    /** `getUserAccounts`: the caller's local accounts, else a remote catch-up merged into the local list. */
    method GetUserAccounts(userId: UserId, remote: Fetch<Account>) returns (r: seq<Account>)
      modifies this`accounts
      ensures r == CachedRead(old(accounts), AccountOwner, userId, remote).result
      ensures accounts == CachedRead(old(accounts), AccountOwner, userId, remote).stored
    {
      var userAccounts := Owned(accounts, AccountOwner, userId);
      if |userAccounts| > 0 {
        return userAccounts;
      }
      if remote.HasRows() {
        var otherAccounts := NotOwned(accounts, AccountOwner, userId);
        accounts := otherAccounts + remote.rows;
        return remote.rows;
      }
      return [];
    }

    /** `deleteAccount`: drop every local account with the id, then mirror the delete; always reports success. */
    method DeleteAccount(accountId: string, userId: UserId, mirror: Mirror) returns (ok: bool)
      modifies this`accounts
      ensures ok
      ensures accounts == WithoutId(old(accounts), AccountId, accountId)
    {
      accounts := WithoutId(accounts, AccountId, accountId);
      return true;
    }

    /** `deleteTransaction`: drop every local transaction with the id (of any owner); always reports success. */
    method DeleteTransaction(transactionId: string, userId: UserId, mirror: Mirror) returns (ok: bool)
      modifies this`transactions
      ensures ok
      ensures transactions == WithoutId(old(transactions), TransactionId, transactionId)
    {
      transactions := WithoutId(transactions, TransactionId, transactionId);
      return true;
    }

    /**
     * `saveReceipt`: the file is first encoded for inline storage (`encoded`,
     * `None` when the reader fails, which fails the whole call before any
     * write); the new receipt goes to the front of the local list.
     */
    method SaveReceipt(userId: UserId, input: ReceiptInput, encoded: Option<string>,
                       id: string, now: Timestamp, mirror: Mirror) returns (r: Result<Receipt>)
      modifies this`receipts
      ensures encoded.None? ==> r.Err? && receipts == old(receipts)
      ensures encoded.Some? ==> r.Ok? && receipts == [r.value] + old(receipts)
      ensures encoded.Some? ==> r.value == Receipt(id, userId, input.title, input.amount, input.date,
        input.category, input.notes, input.file.name, input.file.kind, input.file.size, encoded.value, now, now)
    {
      if encoded.None? {
        return Err("Failed to save receipt");
      }
      var receipt := Receipt(id, userId, input.title, input.amount, input.date, input.category,
        input.notes, input.file.name, input.file.kind, input.file.size, encoded.value, now, now);
      receipts := [receipt] + receipts;
      return Ok(receipt);
    }

    /** `getReceipts`: the same cache-aside read and merge as `getUserAccounts`. */
    method GetReceipts(userId: UserId, remote: Fetch<Receipt>) returns (r: seq<Receipt>)
      modifies this`receipts
      ensures r == CachedRead(old(receipts), ReceiptOwner, userId, remote).result
      ensures receipts == CachedRead(old(receipts), ReceiptOwner, userId, remote).stored
    {
      var userReceipts := Owned(receipts, ReceiptOwner, userId);
      if |userReceipts| > 0 {
        return userReceipts;
      }
      if remote.HasRows() {
        var otherReceipts := NotOwned(receipts, ReceiptOwner, userId);
        receipts := otherReceipts + remote.rows;
        return remote.rows;
      }
      return [];
    }

    /** `deleteReceipt`: drop every local receipt with the id; always reports success. */
    method DeleteReceipt(receiptId: string, userId: UserId, mirror: Mirror) returns (ok: bool)
      modifies this`receipts
      ensures ok
      ensures receipts == WithoutId(old(receipts), ReceiptId, receiptId)
    {
      receipts := WithoutId(receipts, ReceiptId, receiptId);
      return true;
    }

    /** `addAccount`: the new account is appended at the end of the local list. */
    method AddAccount(userId: UserId, input: AccountInput, id: string, now: Timestamp, mirror: Mirror)
      returns (a: Account)
      modifies this`accounts
      ensures a == Account(id, userId, input.name, input.kind, input.balance, TextOrNull(input.cardType),
        TextOrNull(input.lastFour), NumberOrNull(input.monthlyFee), now, now)
      ensures accounts == old(accounts) + [a]
    {
      a := Account(id, userId, input.name, input.kind, input.balance, TextOrNull(input.cardType),
        TextOrNull(input.lastFour), NumberOrNull(input.monthlyFee), now, now);
      accounts := accounts + [a];
    }

    /**
     * `getPrimaryAccount`: the caller's first local checking account; else
     * the remote one, appended locally unless an account with its id is
     * already stored.
     */
    method GetPrimaryAccount(userId: UserId, remote: Single<Account>) returns (r: Option<Account>)
      modifies this`accounts
      ensures LocalPrimary(old(accounts), userId).Some? ==>
        r == LocalPrimary(old(accounts), userId) && accounts == old(accounts)
      ensures LocalPrimary(old(accounts), userId).None? && remote.Row? ==>
        r == Some(remote.value)
        && accounts == (if HasAccountId(old(accounts), remote.value.id) then old(accounts) else old(accounts) + [remote.value])
      ensures LocalPrimary(old(accounts), userId).None? && !remote.Row? ==> r == None && accounts == old(accounts)
    {
      var primary := LocalPrimary(accounts, userId);
      if primary.Some? {
        return primary;
      }
      if remote.Row? {
        var accountExists := HasAccountId(accounts, remote.value.id);
        if !accountExists {
          accounts := accounts + [remote.value];
        }
        return Some(remote.value);
      }
      return None;
    }

    /**
     * `getMonthlySummaries`: with local transactions for the user, one
     * summary per month computed from them; otherwise the remote rows.
     */
    method GetMonthlySummaries(userId: UserId, remote: Fetch<MonthlySummary>) returns (r: seq<MonthlySummary>)
      ensures var mine := Owned(transactions, TransactionOwner, userId);
        |mine| > 0 ==> r == MonthlyFold(mine, userId) && MonthlyAccurate(r, mine, userId)
      ensures |Owned(transactions, TransactionOwner, userId)| == 0 ==>
        r == (if remote.HasRows() then remote.rows else [])
    {
      var userTransactions := Owned(transactions, TransactionOwner, userId);
      if |userTransactions| > 0 {
        var summaries := MonthlySummariesOf(userTransactions, userId);
        MonthlyFoldNonEmpty(userTransactions, userId);
        if |summaries| > 0 {
          return summaries;
        }
      }
      if remote.HasRows() {
        return remote.rows;
      }
      return [];
    }

    /**
     * `getRecentTransactions`: the caller's `limit` newest local transactions;
     * if that is empty, the remote rows, which then REPLACE the whole local
     * transaction list, other users' transactions included.
     */
    method GetRecentTransactions(userId: UserId, limit: nat := 5, remote: Fetch<Transaction>)
      returns (r: seq<Transaction>)
      modifies this`transactions
      ensures var recent := RecentOf(Owned(old(transactions), TransactionOwner, userId), limit);
        |recent| > 0 ==> r == recent && transactions == old(transactions)
      ensures var recent := RecentOf(Owned(old(transactions), TransactionOwner, userId), limit);
        |recent| == 0 && remote.HasRows() ==> r == remote.rows && transactions == remote.rows
      ensures var recent := RecentOf(Owned(old(transactions), TransactionOwner, userId), limit);
        |recent| == 0 && !remote.HasRows() ==> r == [] && transactions == old(transactions)
    {
      var userTransactions := Owned(transactions, TransactionOwner, userId);
      var sorted := NewestFirst(userTransactions);
      assert |sorted| == |multiset(userTransactions)| == |userTransactions|;
      var limited := sorted[..Min(limit, |sorted|)];
      if |limited| > 0 {
        return limited;
      }
      if remote.HasRows() {
        transactions := remote.rows;
        return remote.rows;
      }
      return [];
    }

    /**
     * `addTransaction`: the new transaction goes to the front of the local
     * list; an empty category becomes "Uncategorized" and a missing date
     * becomes `today`. The remote insert and the remote monthly summary
     * update are mirrored and ignored.
     */
    method AddTransaction(userId: UserId, input: TransactionInput, id: string, now: Timestamp, today: Date,
                          mirror: Mirror, summaryMirror: Mirror) returns (t: Transaction)
      modifies this`transactions
      ensures t == Transaction(id, userId, input.amount, input.kind,
        if input.category == "" then Uncategorized else input.category,
        input.description, input.date.GetOr(today), now)
      ensures transactions == [t] + old(transactions)
    {
      t := Transaction(id, userId, input.amount, input.kind,
        if input.category == "" then Uncategorized else input.category,
        input.description, input.date.GetOr(today), now);
      transactions := [t] + transactions;
    }

    /**
     * `getExpenseBreakdown`: the caller's expenses from the first of the
     * month up to `today`, grouped by category; else the remote rows
     * grouped the same way.
     */
    method GetExpenseBreakdown(userId: UserId, today: Date, remote: Fetch<Spend>) returns (r: seq<ExpenseSlice>)
      ensures var e := MonthExpenses(transactions, userId, today);
        |e| > 0 ==> r == Colored(CategoryFold(SpendsOf(e))) && BreakdownOf(r, SpendsOf(e))
      ensures |MonthExpenses(transactions, userId, today)| == 0 ==>
        r == (if remote.HasRows() then Colored(CategoryFold(remote.rows)) else [])
    {
      var userExpenses := MonthExpenses(transactions, userId, today);
      if |userExpenses| > 0 {
        var totals := GroupByCategory(SpendsOf(userExpenses));
        CategoryFoldNonEmpty(SpendsOf(userExpenses));
        ColoredBreakdown(SpendsOf(userExpenses));
        var result := Colored(totals);
        if |result| > 0 {
          return result;
        }
      }
      if remote.HasRows() {
        var totals := GroupByCategory(remote.rows);
        return Colored(totals);
      }
      return [];
    }

    /**
     * `getTotalBalance`: income minus expenses over the caller's local
     * transactions; only when there are none, the sum of the balances of
     * the accounts `getUserAccounts` returns, or 0.
     */
    method GetTotalBalance(userId: UserId, remote: Fetch<Account>) returns (balance: int)
      modifies this`accounts
      ensures var mine := Owned(transactions, TransactionOwner, userId);
        |mine| > 0 ==> balance == SumOf(mine, IncomeAmount) - SumOf(mine, ExpenseAmount) && accounts == old(accounts)
      ensures var read := CachedRead(old(accounts), AccountOwner, userId, remote);
        |Owned(transactions, TransactionOwner, userId)| == 0 ==>
          balance == SumOf(read.result, AccountBalance) && accounts == read.stored
    {
      var userTransactions := Owned(transactions, TransactionOwner, userId);
      if |userTransactions| > 0 {
        balance := NetBalance(userTransactions);
        return;
      }
      var userAccounts := GetUserAccounts(userId, remote);
      if |userAccounts| > 0 {
        return SumOf(userAccounts, AccountBalance);
      }
      return 0;
    }

    /**
     * `getCurrentMonthSummary`: income and expenses over the caller's local
     * transactions from the first of the month up to `today`; else the sums
     * of the two remote amount lists when both selects succeed; else zeros.
     */
    method GetCurrentMonthSummary(userId: UserId, today: Date, remoteIncome: Fetch<int>, remoteExpenses: Fetch<int>)
      returns (income: int, expenses: int)
      ensures var m := MonthToDate(transactions, userId, today);
        |m| > 0 ==> income == SumOf(m, IncomeAmount) && expenses == SumOf(m, ExpenseAmount)
      ensures |MonthToDate(transactions, userId, today)| == 0 && remoteIncome.Rows? && remoteExpenses.Rows? ==>
        income == SumOf(remoteIncome.rows, Amount) && expenses == SumOf(remoteExpenses.rows, Amount)
      ensures |MonthToDate(transactions, userId, today)| == 0 && !(remoteIncome.Rows? && remoteExpenses.Rows?) ==>
        income == 0 && expenses == 0
    {
      var userTransactions := MonthToDate(transactions, userId, today);
      if |userTransactions| > 0 {
        income, expenses := IncomeAndExpenses(userTransactions);
        return;
      }
      if remoteIncome.Rows? && remoteExpenses.Rows? {
        return SumOf(remoteIncome.rows, Amount), SumOf(remoteExpenses.rows, Amount);
      }
      return 0, 0;
    }

    /**
     * `getBalancePercentChange`: the percent change between the previous
     * and the current calendar month's net, from the caller's local
     * transactions; else from the two remote monthly summaries; else 0.
     */
    method GetBalancePercentChange(userId: UserId, today: Date,
                                   remoteCurrent: Single<MonthlySummary>, remotePrevious: Single<MonthlySummary>)
      returns (pct: int)
      requires ValidDate(today)
      ensures var mine := Owned(transactions, TransactionOwner, userId);
        var prev := PreviousMonth(today.year, today.month);
        |mine| > 0 ==> pct == PercentChange(MonthNet(mine, today.year, today.month), MonthNet(mine, prev.year, prev.month))
      ensures |Owned(transactions, TransactionOwner, userId)| == 0 ==>
        pct == (if Accepted(remoteCurrent) && Accepted(remotePrevious)
                then PercentChange(RemoteNet(remoteCurrent), RemoteNet(remotePrevious)) else 0)
    {
      var currentMonth := today.month;
      var currentYear := today.year;
      var previous := PreviousMonth(currentYear, currentMonth);
      var userTransactions := Owned(transactions, TransactionOwner, userId);
      if |userTransactions| > 0 {
        var currentIncome, currentExpenses := IncomeAndExpenses(InMonth(userTransactions, currentYear, currentMonth));
        var previousIncome, previousExpenses := IncomeAndExpenses(InMonth(userTransactions, previous.year, previous.month));
        var currentNet := currentIncome - currentExpenses;
        var previousNet := previousIncome - previousExpenses;
        assert currentNet == MonthNet(userTransactions, currentYear, currentMonth);
        assert previousNet == MonthNet(userTransactions, previous.year, previous.month);
        pct := PercentChange(currentNet, previousNet);
        return;
      }
      if Accepted(remoteCurrent) && Accepted(remotePrevious) {
        return PercentChange(RemoteNet(remoteCurrent), RemoteNet(remotePrevious));
      }
      return 0;
    }
  }
}
