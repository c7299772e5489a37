# Personal expense tracker: the record store

This project models the in-memory record store of a single-user expense
tracker, together with the entry it stores. An entry is a value with a
description, an amount and a category. The store keeps an ordered list of
entries. Its operations are:

- add an entry at the end;
- view the entries numbered from 1, or a "no expenses" notice when there are none;
- delete the entry at a 0-based index, or report an invalid index and change nothing;
- summarize the entries into one sum per category and a grand total.

It also models how the menu turns the user's 1-based position into the
0-based index that delete takes.

`expenses.dfy` (module `Expenses`) holds the values and the functions that
specify the store:

- `Total` and `CategoryTotal` are the grand sum and the per-category sum.
- `Categories` is the set of categories that occur.
- `Summary` is the category-to-sum map built in one pass.
- `SumValues` is the sum of a map's values.
- `RemoveAt` is positional removal.
- `NumberedLines` and `ListingOf` are the numbered listing.

`manager.dfy` (module `Tracker`) holds the class `ExpenseManager`. Its field
`expenses: seq<Expense>` is reassigned by the methods that change it. The
module also has the 32-bit index adjustment and two sample sessions.

Modelling choices:

- Amounts are `int` (cents), not a floating-point `double`. Sums are then exact.
- The menu index is a Java `int`. It is modelled as the newtype `int32`, and
  the subtraction `k - 1` wraps around at the smallest value as Java's does.
- Reading the persisted file at start-up is a constructor parameter `Stored`:
  `Missing`, `Unreadable` or `Readable(records)`. The store starts empty in the
  first two cases and with the records in the third.
- The class invariant `Valid` bounds the list at 2^31 - 1 entries, the largest
  size of a Java list. Every method that changes the list keeps it.
- The console messages become values. View returns a `Listing`. Delete returns
  a `DeleteStatus` (`Deleted` or `InvalidIndex`). Summarize returns the map and
  the total.

## Model

| member | source | states |
|---|---|---|
| `Expenses.SummaryMeaning` | PersonalExpenseTracker.java:67-71 | The keys of the one-pass summary (`Summary`) are exactly the categories that occur in the list, and each key's value is the sum of the amounts of the entries with that category; an empty list gives an empty map. |
| `Expenses.CategoryTotalAbsent` | PersonalExpenseTracker.java:71 | A category that occurs in no entry sums to 0, which is why the bucket's default of 0 for a category not seen yet is right. |
| `Expenses.Total` | PersonalExpenseTracker.java:68-72 | No contract; defines the grand total, the accumulator `total` started at 0 and increased by each entry's amount. |
| `Expenses.GetOrZero` | PersonalExpenseTracker.java:71 | No contract; defines `getOrDefault(category, 0)`: the bucket's value, or 0 when the category has no bucket yet. |
| `Expenses.Summary` | PersonalExpenseTracker.java:67-71 | No contract; defines the summary map as the loop builds it, one `put` of bucket + amount per entry in list order. `SummaryMeaning` states what it contains. |
| `Expenses.SumValuesAdd` | PersonalExpenseTracker.java:70-73 | One iteration of the summary loop adds the amount to the entry's bucket (created at 0 when missing) and to the total; this keeps "the buckets add up to the total". |
| `Expenses.SummaryAddsUpToTotal` | PersonalExpenseTracker.java:67-73 | The per-category sums of the summary add up to the grand total of all amounts. |
| `Expenses.RemoveAt` | PersonalExpenseTracker.java:60 | Removing index i shortens the list by one; entries before i keep their positions, entries after i move down by one, and exactly the entry at i is gone (as a multiset). |
| `Expenses.NumberedLines` | PersonalExpenseTracker.java:51-53 | There is one line per entry, and line i carries position i + 1 and entry i, in list order. |
| `Expenses.ListingOf` | PersonalExpenseTracker.java:46-54 | The view is the "no expenses" notice exactly when the list is empty; otherwise it has one line per entry, with printed position i + 1 showing entry i. |
| `Expenses.ListingAfterAppend` | PersonalExpenseTracker.java:41-43 | After an add, the listing has every earlier line unchanged, followed by the new entry at position size + 1. |
| `Expenses.RemoveAtShiftsListing` | PersonalExpenseTracker.java:56-61 | Deleting index i removes the entry printed at position i + 1. Earlier lines are unchanged. Each later line shows the entry printed one position further down before. Deleting the only entry brings back the "no expenses" notice. |
| `Tracker.ToZeroBased` | PersonalExpenseTracker.java:131 | The 0-based index is `k - 1` in 32-bit two's-complement arithmetic: (k - 1) reduced modulo 2^32 into the signed range, so the smallest `int` wraps to the largest. |
| `Tracker.UserPositionSelectsPrintedEntry` | PersonalExpenseTracker.java:131 | After the 32-bit `k - 1` adjustment, the index passes delete's range check exactly when 1 <= k <= size (wrap-around included), and it then names the entry printed at position k. |
| `Tracker.ExpenseManager.constructor` | PersonalExpenseTracker.java:80-88 | For the abstracted read result: the store starts with the persisted records when the file could be read as a list, and empty when the file is missing or unreadable. The size invariant `Valid` holds from the start. |
| `Tracker.ExpenseManager.AddExpense` | PersonalExpenseTracker.java:41-43 | The new list is the old list followed by exactly the new entry; the size invariant is kept. |
| `Tracker.ExpenseManager.ViewExpenses` | PersonalExpenseTracker.java:46-54 | The loop over indices yields exactly `ListingOf` of the current list. |
| `Tracker.ExpenseManager.DeleteExpense` | PersonalExpenseTracker.java:56-64 | The index is reported invalid exactly when it is negative or not below the size, and then nothing changes; otherwise exactly that entry is removed (`RemoveAt`). The size invariant is kept. |
| `Tracker.ExpenseManager.DeleteAtUserPosition` | PersonalExpenseTracker.java:129-132 | The menu's delete succeeds exactly for user positions 1 ..size and then removes the entry at 0-based k - 1; any other position leaves the list unchanged. |
| `Tracker.SampleSums` | PersonalExpenseTracker.java:66-73 | For the entries Coffee 450 (Food), Bus 200 (Transport), Lunch 1200 (Food), the summary is Food 1650 and Transport 200, and the total is 1850. |
| `Tracker.ExpenseManager.SummarizeExpenses` | PersonalExpenseTracker.java:66-78 | The loop yields `Summary` of the list (whose meaning `SummaryMeaning` states) and `Total` of the list. It keeps "the buckets add up to the total" as an invariant, so the returned map's values sum to the returned total. |

## Left out

- Saving after add and delete (PersonalExpenseTracker.java:90-96) is left out. It does not change the in-memory list, so the model's lists are the same with or without it. No save/load round trip is stated, because the source's save cannot restore a non-empty list (next line).
- Saving fails for every non-empty list. `Expense` (PersonalExpenseTracker.java:4) does not implement `java.io.Serializable`, so `writeObject` (line 92) throws `NotSerializableException`. The catch at line 93 reports it as an error. By then `new FileOutputStream` (line 91) has already replaced the old file's contents. So no file the program writes can restore a non-empty list. The constructor's `Readable(records)` with non-empty `records` only arises from a file written some other way.
- Tracker.ExpenseManager.constructor: covers only the abstracted read outcome (`Stored`). A file holding a serialized object that is not a list makes the cast at line 82 throw `ClassCastException`. The catches at lines 83-87 do not handle it, so the Java constructor crashes instead of starting empty; the model has no outcome for that file. Records read from a file are assumed to number at most 2^31 - 1, as any Java list does.
- The file read itself (PersonalExpenseTracker.java:81-82) is left out. Its outcome is the `Stored` parameter of the constructor. The two messages for a missing or unreadable file are not modelled.
- Console output is left out: the menu text, "Invalid index.", "Expense deleted.", and the `%.2f` formatting of `Expense.toString` and of the summary (lines 29, 48, 52, 58, 61, 75-77). Results are returned as values instead.
- The interactive `Scanner` menu loop in `main` (lines 100-145) is left out, apart from the index adjustment at line 131. A non-numeric input there throws, and that is not modelled either.
- Floating-point `double` amounts are modelled as exact integers (cents). Rounding in the sums of lines 71-72 is not modelled.
- `HashMap` iteration order when the summary is printed (line 76) is unspecified, so the summary is a `map` with no order.
- Tracker.ExpenseManager.AddExpense: requires room for one more entry. A Java list that already holds 2^31 - 1 entries cannot grow, and `add` then throws an `OutOfMemoryError` that ends the program; that crash is not modelled. The class invariant `Valid` (at most 2^31 - 1 entries) is what `DeleteAtUserPosition` relies on.
