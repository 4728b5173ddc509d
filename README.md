# FinHive service layer in Dafny

This project models the service layer of FinHive, a personal-finance web app. The layer is a browser-local record store with a best-effort remote mirror. It has three parts:

- **Record accessors** (`financeService.ts`). These work on three named collections: `finhive_accounts`, `finhive_transactions` and `finhive_receipts`.
  - Each add or delete reads the whole collection, builds a new one and writes it back. A get writes only when it catches up from the remote.
  - Gets return the caller's records (`user_id` match) when there are any. Otherwise they fall back to a remote select.
  - `getUserAccounts` and `getReceipts` merge the remote rows into the local collection. The merge keeps every other user's records and replaces the caller's.
- **Aggregations** over the local transaction log (`financeService.ts`):
  - monthly income and expense summaries;
  - the signed total balance, falling back to the sum of account balances;
  - the current month's income and expenses;
  - the current month's expense breakdown by category, with default category `Other`, a colour table and default colour `#888888`;
  - the month-over-month percent change of the net balance, with the zero-previous rule and the January wrap-around;
  - the newest transactions, sorted by creation time;
  - `calculatePercentage`.
- **Profile and preferences cache** (`settingsService.ts`). Each is one record slot, `finhive_user_profile` or `finhive_user_preferences`.
  - A read checks the owner.
  - A preferences miss creates defaults: INR, DD/MM/YYYY, email on, push off.
  - An update lays the patch over the current record field by field.

Layout:

- `Wrappers.dfy`: `Option`, `Result`.
- `Seqs.dfy`: generic filter (`Keep`), sum (`SumOf`) and first-match search, with their algebra. The algebra covers concatenation, all or none kept, and sums invariant under permutation.
- `Remote.dfy`: the outcomes of remote calls, as values passed in.
  - `Fetch` is a select that fails or returns rows.
  - `Single` is a single-row select that fails, finds no row, or returns a row.
  - `Mirror` is a write, whose outcome the code ignores.
- `Records.dfy`: the record types, and calendar dates as (year, month, day) with a 0-based month like `Date.getMonth`. The calendar helpers are month start and end, the previous month, and leap years.
- `Aggregates.dfy`: the loops of the aggregations, each a `method` with invariants proved against a specification function, plus the lemmas about those functions.
- `Finance.dfy`: class `FinanceStore`, one `seq` field per collection and one method per accessor, plus the lemmas about record filters, the cache-aside read with merge, add and delete.
- `Settings.dfy`: class `SettingsCache`, one `Option` slot per record, plus the merge and lookup functions and their lemmas.

Remote outcomes, generated ids, the current time and the current date are method parameters. Amounts are integers, for example paise. `Math.round(x / d * 100)` is modelled on integers as "the integer nearest to 100·x/d, halves rounded up". `IsRoundOf` states it as an inequality and `RoundingIsUnique` shows that the inequality determines the result.

Four behaviours of the code a reader may not expect:

- Deletes filter by id only, so they also remove another user's record with that id (`DeleteIgnoresOwner`).
- `updateUserProfile` writes `id: userId` *before* spreading the patch, so a patch carrying an `id` wins (`PatchIdOverridesUser`).
- When `getRecentTransactions` falls back to the remote rows, it replaces the *whole* local transaction list with them, so other users' local transactions are lost (`FinanceStore.GetRecentTransactions`).
- `updateUserPreferences` merges over whatever preferences are cached, even another user's (`UpdateAdoptsCachedSettings`).

## Model

| member | source | states |
|---|---|---|
| Aggregates.CalculatePercentage | src/services/financeService.ts:22-25 | 0 when the target is 0; otherwise the integer nearest to 100·current/target (halves up), for targets of either sign |
| Aggregates.PercentageOfExactQuotient | src/services/financeService.ts:22-25 | when 100·current is an exact multiple q of the target, the percentage is exactly q |
| Aggregates.RoundingIsUnique | src/services/financeService.ts:24 | the rounding relation has at most one result, so the percentage contracts pin the value down |
| Aggregates.PercentChange | src/services/financeService.ts:1049-1051 | previous net 0: 100 if the current net is positive, else 0; otherwise the integer nearest to 100·(cur−prev)/\|prev\| |
| Records.PreviousMonthIsAdjacent | src/services/financeService.ts:992-995 | the previous month is a valid month exactly one month before, so January maps to December of the prior year |
| Records.InMonthRange | src/services/financeService.ts:998-1001 | for a valid date, lying between the 1st and the last day of month m of year y means being in that month and year |
| Aggregates.NetBalance | src/services/financeService.ts:881-888 | the loop's balance is the sum of income amounts minus the sum of expense amounts; other types count for neither |
| Aggregates.IncomeAndExpenses | src/services/financeService.ts:933-942 | the loop's income and expenses are the sums of the income amounts and of the expense amounts |
| Aggregates.MonthlySummariesOf | src/services/financeService.ts:484-516 | the forEach over the user's transactions builds exactly the monthly fold, which is accurate (see MonthlyFoldCorrect) |
| Aggregates.MonthlyFoldCorrect | src/services/financeService.ts:486-513 | one summary per (month, year) occurring among the transactions, no key twice, none extra, owned by the user; a month's income and expenses are the sums over that month's income and expense records |
| Aggregates.MonthlyFoldNonEmpty | src/services/financeService.ts:480-521 | a user with transactions gets at least one summary, so the local branch always returns |
| Aggregates.MonthlyTotalsOrderFree | src/services/financeService.ts:486-513 | reordering the transactions yields the same set of months, with equal summaries month by month |
| Aggregates.GroupByCategory | src/services/financeService.ts:799-804 | the Map loop builds exactly the category fold, which is accurate (see CategoryFoldCorrect) |
| Aggregates.CategoryFoldCorrect | src/services/financeService.ts:799-804 | one entry per category occurring, with an empty category counted as "Other", no name twice; each entry's value is the sum of that category's amounts |
| Aggregates.ColorOf | src/services/financeService.ts:766-777 | a category listed in the colour table gets its colour; any other gets #888888 |
| Aggregates.ColoredBreakdown | src/services/financeService.ts:799-811 | the breakdown has one slice per category present, valued at the category total and coloured from the table |
| Aggregates.CategoryFoldNonEmpty | src/services/financeService.ts:795-815 | expenses present give a non-empty breakdown, so the local branch always returns |
| Aggregates.NewestFirst | src/services/financeService.ts:581-583 | the sort yields the transactions ordered by created_at, newest first, as a permutation of its input |
| Aggregates.FindInsertionPoint | src/services/financeService.ts:581-583 | the scan of one insertion step stops at the first record strictly older than the one inserted, so equal timestamps keep their order |
| Aggregates.SortNewestCorrect | src/services/financeService.ts:581-583 | the reference insertion sort is ordered newest first and is a permutation of its input |
| Aggregates.PrefixIsNewest | src/services/financeService.ts:586 | in a newest-first list, every record of a prefix is at least as new as every record after it |
| Aggregates.RecentAreNewest | src/services/financeService.ts:578-586 | the recent list has min(limit, count) records, newest first, drawn from the user's records, and none left out is newer than one listed |
| Finance.Owned | src/services/financeService.ts:71 | the user's records: every one kept is the user's and was stored; every stored record of the user is kept |
| Finance.WithoutId | src/services/financeService.ts:150-155 | every remaining record has another id and was stored; every stored record with another id remains |
| Finance.WithoutIdKeepsOrder | src/services/financeService.ts:153 | deleting by id distributes over concatenation, so the remaining records keep their relative order |
| Finance.WithoutAbsentId | src/services/financeService.ts:153 | deleting an id that no record carries leaves the collection unchanged |
| Finance.WithoutUniqueId | src/services/financeService.ts:153 | deleting an id carried by exactly one record shortens the collection by exactly one |
| Finance.AddThenDelete | src/services/financeService.ts:636-655 | deleting the id of a transaction just added, when no older record has that id, restores the collection from before the add |
| Finance.DeleteIgnoresOwner | src/services/financeService.ts:153 | a record of another user carrying the id is removed too, so it leaves that user's view |
| Finance.CachedReadHit | src/services/financeService.ts:68-76 | with local records for the user, the read returns exactly those, in stored order, and writes nothing |
| Finance.CachedReadMerge | src/services/financeService.ts:86-96 | on a remote catch-up, the caller gets the rows; afterwards the user's stored records are exactly the rows, and other users' records are unchanged and in order |
| Finance.MergeKeepsMine | src/services/financeService.ts:88-95 | other users' records followed by the remote rows: the user's view of the result is exactly the rows |
| Finance.MergeKeepsOthers | src/services/financeService.ts:88-95 | other users' records followed by the remote rows: every other user's view is unchanged |
| Finance.CachedReadSettles | src/services/financeService.ts:68-96 | after a catch-up, the next read hits locally and returns the same rows, whatever the remote says |
| Finance.LocalPrimary | src/services/financeService.ts:412-415 | the result, when present, is the first checking account of the user in stored order; when absent, the user has no checking account stored |
| Finance.MonthExpenses | src/services/financeService.ts:784-793 | exactly the user's expenses dated from the first of the current month up to today, both included |
| Finance.MonthToDate | src/services/financeService.ts:918-927 | exactly the user's transactions of any type dated from the first of the current month up to today |
| Finance.MonthNetMatchesSummary | src/services/financeService.ts:1014-1047 | for valid dates, a month's net is that month's income minus expenses as the monthly summaries count them |
| Finance.OwnedPartition | src/services/financeService.ts:92-95 | every stored record is in exactly one of the user's view and the other users' view, so a catch-up keeps all other records and drops only the user's |
| Finance.OwnedPrepend | src/services/financeService.ts:652 | a new record at the front joins its owner's view at the front and leaves every other view unchanged |
| Finance.AddMovesBalance | src/services/financeService.ts:652 | adding a transaction for the user adds one record, and moves the user's net balance by +amount (income), −amount (expense) or 0 (any other type) |
| Finance.AprilScenario | src/services/financeService.ts:486-513 | income 5000 on 1 April 2025 and expense 1200 on 5 April 2025 give one April 2025 summary (5000, 1200) and a balance of 3800 |
| Finance.FinanceStore.GetUserAccounts | src/services/financeService.ts:65-110 | the result and the new account list are those of the cache-aside read with merge |
| Finance.FinanceStore.DeleteAccount | src/services/financeService.ts:113-144 | returns true; the new list is the old one without the id's records |
| Finance.FinanceStore.DeleteTransaction | src/services/financeService.ts:147-178 | returns true whatever the remote outcome; the new list is the old one without the id's records, of any owner |
| Finance.FinanceStore.SaveReceipt | src/services/financeService.ts:181-253 | if encoding the file fails: an error, and nothing written; otherwise the new receipt, with the given fields, goes in front of the unchanged old list |
| Finance.FinanceStore.GetReceipts | src/services/financeService.ts:256-302 | the result and the new receipt list are those of the cache-aside read with merge |
| Finance.FinanceStore.DeleteReceipt | src/services/financeService.ts:305-336 | returns true; the new list is the old one without the id's records |
| Finance.FinanceStore.AddAccount | src/services/financeService.ts:349-403 | the new account, with an empty card type or last four stored as null and a zero fee stored as null, is appended after the unchanged old list |
| Finance.FinanceStore.GetPrimaryAccount | src/services/financeService.ts:406-460 | the first local checking account of the user, with nothing written; else the remote row, appended unless its id is already stored; else none |
| Finance.FinanceStore.GetMonthlySummaries | src/services/financeService.ts:463-546 | with local transactions for the user, the accurate monthly fold of them; otherwise the remote rows, or nothing |
| Finance.FinanceStore.GetRecentTransactions | src/services/financeService.ts:571-621 | the user's newest min(limit, n) transactions when that list is non-empty, with nothing written; otherwise the remote rows, which replace the whole local list; else nothing |
| Finance.FinanceStore.AddTransaction | src/services/financeService.ts:624-688 | the new transaction, with an empty category stored as Uncategorized and a missing date defaulting to today, goes in front of the unchanged old list |
| Finance.FinanceStore.GetExpenseBreakdown | src/services/financeService.ts:763-854 | with current-month expenses of the user, their coloured category breakdown; otherwise the remote rows grouped the same way, or nothing |
| Finance.FinanceStore.GetTotalBalance | src/services/financeService.ts:868-908 | with local transactions for the user, income minus expenses over them, with nothing written; only otherwise, the sum of the balances of the accounts getUserAccounts returns, or 0 when there are none |
| Finance.FinanceStore.GetCurrentMonthSummary | src/services/financeService.ts:911-986 | with month-to-date transactions of the user, the sums of their incomes and of their expenses; otherwise the sums of the two remote lists if both selects succeed; else zeros |
| Finance.FinanceStore.GetBalancePercentChange | src/services/financeService.ts:989-1092 | with local transactions for the user, the percent change from the previous calendar month's net to the current one's; otherwise the change between the remote summaries, a missing summary counting as 0, if neither select failed for another reason; else 0 |
| Settings.Over | src/services/settingsService.ts:81 | object spread of one field: the later value wins when present, else the earlier one stays |
| Settings.MergeProfileFields | src/services/settingsService.ts:71-84 | every field is the patch's where present and the stored profile's otherwise; updated_at is now; id is the patch's id if it carries one, else userId |
| Settings.ProfileLookupHit | src/services/settingsService.ts:30-36 | a cached profile whose id is the caller's is returned without a remote call, and the slot is unchanged |
| Settings.ProfileLookupMiss | src/services/settingsService.ts:30-55 | a cached profile of another user is never returned: the caller's remote row is returned and replaces it, or on a remote error nothing is returned and the slot is unchanged |
| Settings.ProfileLookupReturnsCacheIffOwn | src/services/settingsService.ts:30-55 | when the remote only answers with the caller's row, a cached profile is returned exactly when its id is the caller's |
| Settings.ProfileLookupSettles | src/services/settingsService.ts:40-55 | once the remote row for the caller is cached, the next lookup returns the same profile without a remote call |
| Settings.UpdateThenLookupProfile | src/services/settingsService.ts:30-85 | after an update with a patch carrying no id, the caller's next lookup returns the merged profile from the cache |
| Settings.PatchIdOverridesUser | src/services/settingsService.ts:71-75 | a patch carrying another id rekeys the stored profile, and the caller's next lookup goes to the remote |
| Settings.DefaultPreferences | src/services/settingsService.ts:128-137 | defaults: the caller's, INR, DD/MM/YYYY, email notifications on, push notifications off |
| Settings.ResolvePreferencesOwned | src/services/settingsService.ts:119-142 | the result always belongs to the caller, and it is what is cached afterwards |
| Settings.ResolvePreferencesIdempotent | src/services/settingsService.ts:119-142 | a second read returns the same record and writes nothing new, whatever id and time it is given |
| Settings.MergePreferencesFields | src/services/settingsService.ts:153-178 | each setting is the patch's where present, the current one's otherwise (defaults when nothing is cached); user_id is the caller's; updated_at is now |
| Settings.UpdateThenResolvePreferences | src/services/settingsService.ts:119-181 | after an update, the caller's next read returns the updated record without creating defaults |
| Settings.UpdateAdoptsCachedSettings | src/services/settingsService.ts:156-178 | an empty patch over another user's cached preferences keeps all their settings and changes only the owner and updated_at |
| Settings.SettingsCache.GetUserProfile | src/services/settingsService.ts:27-66 | the result and the new slot are those of the profile lookup |
| Settings.SettingsCache.UpdateUserProfile | src/services/settingsService.ts:69-113 | the slot holds the merged profile, which is also returned, whatever the remote upsert does |
| Settings.SettingsCache.GetUserPreferences | src/services/settingsService.ts:116-147 | the result and the new slot are those of the preferences resolution |
| Settings.SettingsCache.UpdateUserPreferences | src/services/settingsService.ts:150-189 | the slot holds the merged preferences, which are also returned |

## Left out

- Remote calls (Supabase) are not modelled as I/O. Each call's outcome is a parameter. The remote inserts, deletes and upserts are write-only mirrors whose outcome the code ignores, so their effect on the remote tables is not modelled.
- `updateMonthlySummary`, `updateExpenseCategory`, `getSavingsGoals`, `getCurrencyHoldings` and `getContacts` are remote-only or constant and are not modelled.
- `getUserProfile` in financeService.ts, lines 28-62, is not modelled separately. It behaves as the one in settingsService.ts, which `Settings.ProfileLookup` models.
- `formatIndianCurrency` is left out: it wraps `Intl.NumberFormat`.
- Month names from `toLocaleString` are not modelled. Summaries carry the 0-based month index instead of the short month name.
- `fileToBase64` (the browser FileReader) is a parameter: `None` when the read fails, else the encoded text.
- Generated ids and timestamps (`Date.now`, `Math.random`, `toISOString`) are parameters. Nothing is claimed about their uniqueness. `AddThenDelete` assumes the new id is not already stored.
- Floating point is not modelled: amounts are integers and `Math.round` is modelled on exact quotients.
- Time of day and time zones are left out: a date is a calendar day. "Up to now" includes the whole current day, and a date string is its calendar day. In the code, `new Date(y, m + 1, 0)` (financeService.ts, line 999) is local midnight at the start of the month's last day, while a date-only string is read as UTC midnight. In a time zone east of UTC, such as India's (the app defaults to INR and `en-IN`), a transaction dated on the last day of a month then falls outside both windows of `getBalancePercentChange`. The model counts it in its month.
- Malformed JSON and invalid date strings are left out. The catch blocks returning `[]`, `null`, `0` or `false` on a parse failure are not modelled.
- A missing storage key reads as an empty collection.
- Negative `limit` values are left out: `limit` is a natural number. JavaScript's `slice` with a negative end is not modelled.
- UI components, routing, authentication and polling timers are left out. Concurrency between interleaved calls is not modelled: every call runs to completion on its own.
- Finance.FinanceStore.GetRecentTransactions: the sort is modelled on a sequence (a filtered copy), not in place. The contract does not state how records with equal `created_at` are ordered. JavaScript's `sort` keeps their stored order, and so does the model's insertion sort, but no lemma says so.
- Aggregates.CalculatePercentage: rounds the exact rational 100·current/target, while JavaScript computes `(current / target) * 100` in doubles and rounds that. They differ when the double product falls just below a half. For example, `calculatePercentage(29, 200)` computes 14.499999999999998 and returns 14, where the model gives 15; 57/200 and 115/200 behave the same way.
- Aggregates.PercentChange: rounds the exact rational 100·(cur − prev)/|prev| and inherits the same double-rounding gap. For example, a previous net of 200 and a current net of 229 give 14 in the code and 15 in the model.
- Aggregates.ColorOf: looks names up in a finite table. The code indexes a plain object, so names inherited from `Object.prototype` (`toString`, `constructor`, `__proto__`) get an inherited value rather than `#888888` (financeService.ts, lines 810 and 841). The model gives them `#888888`.
- Aggregates.MonthlySummariesOf: the `id`, `created_at` and `updated_at` fields of each built summary (financeService.ts, lines 496-503) are dropped. A summary carries only the user, month, year, income and expenses.
- `localStorage.setItem` failures are left out: every local write succeeds. In the browser a write can throw, for example when the storage quota is exceeded. This is likely for the base64 image text that `saveReceipt` stores (financeService.ts, lines 216-217), in which case the outer `catch` throws "Failed to save receipt".
- Remote error codes other than "no rows" (`PGRST116`) are not told apart: `Single` has one failure case for all of them.
