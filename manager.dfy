/**
 * The in-memory expense store: an object holding the ordered list of entries,
 * with add, view, delete-by-position and summarize, and the 1-based to
 * 0-based index adjustment the menu applies before deleting.
 */
module Tracker {
  import opened Expenses

  /** A 32-bit signed integer, the width of the index the menu reads and passes on. */
  newtype int32 = x: int | -0x8000_0000 <= x < 0x8000_0000

  /** What the persisted file held when the store was created. */
  datatype Stored = Missing | Unreadable | Readable(records: seq<Expense>)

  /** The outcome a delete reports: removed, or the index was out of range. */
  datatype DeleteStatus = Deleted | InvalidIndex

  /**
   * The 0-based index for a 1-based position typed by the user: `k - 1` in
   * 32-bit arithmetic, so the smallest value wraps around to the largest.
   */
  function ToZeroBased(k: int32): (i: int32)
    ensures i as int == (k as int - 1 + 0x8000_0000) % 0x1_0000_0000 - 0x8000_0000
  {
    if k == -0x8000_0000 then 0x7fff_ffff else k - 1
  }

  /**
   * After the adjustment, an index is accepted exactly when the user named a
   * printed position 1 ..|es|, and it then picks the entry printed there. A
   * Java list never holds more than 2^31 - 1 entries.
   */
  lemma UserPositionSelectsPrintedEntry(es: seq<Expense>, k: int32)
    requires |es| < 0x8000_0000
    ensures !(ToZeroBased(k) < 0 || ToZeroBased(k) as int >= |es|) <==> 1 <= k as int <= |es|
    ensures 1 <= k as int <= |es| ==>
      ToZeroBased(k) as int == k as int - 1 && ListingOf(es).lines[k - 1] == Line(k as int, es[ToZeroBased(k)])
  {
  }

  /** The largest size of a Java list: the largest `int`. */
  const MaxSize := 0x7fff_ffff

  class ExpenseManager {
    /** The entries, in insertion order; an entry's index is its position. */
    var expenses: seq<Expense>

    /** A Java list holds at most 2^31 - 1 entries, since its size is an `int`. */
    ghost predicate Valid()
      reads this
    {
      |expenses| <= MaxSize
    }

    /**
     * Starts from what the persisted file held: its records when it could be
     * read, otherwise (no file, or a file that cannot be read) an empty list.
     */
    constructor (stored: Stored)
      requires stored.Readable? ==> |stored.records| <= MaxSize
      ensures Valid()
      ensures expenses == if stored.Readable? then stored.records else []
    {
      match stored
      case Readable(records) => expenses := records;
      case _ => expenses := [];
    }

    /**
     * Appends one entry at the end; everything before it stays as it was.
     * A Java list that is already at its largest size cannot grow.
     */
    method AddExpense(description: string, amount: int, category: string)
      requires Valid() && |expenses| < MaxSize
      modifies this
      ensures Valid()
      ensures expenses == old(expenses) + [Expense(description, amount, category)]
    {
      expenses := expenses + [Expense(description, amount, category)];
    }

    /** The numbered listing, built by one pass over the entries. */
    method ViewExpenses() returns (listing: Listing)
      ensures listing == ListingOf(expenses)
    {
      if expenses == [] {
        return NoExpenses;
      }
      var lines: seq<Line> := [];
      var i := 0;
      while i < |expenses|
        invariant 0 <= i <= |expenses|
        invariant |lines| == i
        invariant forall j :: 0 <= j < i ==> lines[j] == Line(j + 1, expenses[j])
      {
        lines := lines + [Line(i + 1, expenses[i])];
        i := i + 1;
      }
      listing := Numbered(lines);
    }

    /**
     * Removes the entry at 0-based `index`, or reports an invalid index and
     * changes nothing when `index` is negative or not below the size.
     */
    method DeleteExpense(index: int32) returns (status: DeleteStatus)
      requires Valid()
      modifies this
      ensures Valid()
      ensures status == InvalidIndex <==> index < 0 || index as int >= |old(expenses)|
      ensures status == InvalidIndex ==> expenses == old(expenses)
      ensures status == Deleted ==> expenses == RemoveAt(old(expenses), index as int)
    {
      if index < 0 || index as int >= |expenses| {
        status := InvalidIndex;
      } else {
        expenses := expenses[..index as int] + expenses[index as int + 1..];
        status := Deleted;
      }
    }

    /**
     * The menu's delete: the user's 1-based position `k` is adjusted by one
     * and handed to DeleteExpense. Exactly the positions 1 ..|expenses| are
     * accepted, and the entry printed at `k` is the one removed.
     */
    method DeleteAtUserPosition(k: int32) returns (status: DeleteStatus)
      requires Valid()
      modifies this
      ensures Valid()
      ensures status == Deleted <==> 1 <= k as int <= |old(expenses)|
      ensures status == InvalidIndex ==> expenses == old(expenses)
      ensures status == Deleted ==> expenses == RemoveAt(old(expenses), k as int - 1)
    {
      UserPositionSelectsPrintedEntry(expenses, k);
      var index := ToZeroBased(k);
      status := DeleteExpense(index);
    }

    /**
     * The per-category summary and the grand total, built by one pass that
     * adds each amount to its category's bucket and to the total. The buckets
     * add up to the total after every step.
     */
    method SummarizeExpenses() returns (summary: map<string, int>, total: int)
      ensures summary == Summary(expenses)
      ensures total == Total(expenses)
      ensures SumValues(summary) == total
    {
      summary := map[];
      total := 0;
      var i := 0;
      while i < |expenses|
        invariant 0 <= i <= |expenses|
        invariant summary == Summary(expenses[..i])
        invariant total == Total(expenses[..i])
        invariant SumValues(summary) == total
      {
        var e := expenses[i];
        var bucket := GetOrZero(summary, e.category) + e.amount;
        PrefixStep(expenses, i);
        SumValuesAdd(summary, e.category, e.amount);
        summary := summary[e.category := bucket];
        total := total + e.amount;
        i := i + 1;
      }
      assert expenses[..i] == expenses;
    }
  }

  /** The three sample entries sum to 1650 for Food and 200 for Transport, 1850 in all. */
  lemma SampleSums()
    ensures var es := [Expense("Coffee", 450, "Food"), Expense("Bus", 200, "Transport"), Expense("Lunch", 1200, "Food")];
      Summary(es) == map["Food" := 1650, "Transport" := 200] && Total(es) == 1850
  {
    var coffee, bus := Expense("Coffee", 450, "Food"), Expense("Bus", 200, "Transport");
    var lunch := Expense("Lunch", 1200, "Food");
    var one, two, three := [coffee], [coffee, bus], [coffee, bus, lunch];
    assert three[..2] == two && two[..1] == one && one[..0] == [];
    assert Summary(one) == map["Food" := 450] && Total(one) == 450;
    assert Summary(two) == map["Food" := 450, "Transport" := 200] && Total(two) == 650;
  }

  /** The sample session: three entries, their summary, and two deletes. */
  method SampleSession() {
    var store := new ExpenseManager(Missing);
    var listing := store.ViewExpenses();
    assert listing == NoExpenses;

    store.AddExpense("Coffee", 450, "Food");
    store.AddExpense("Bus", 200, "Transport");
    store.AddExpense("Lunch", 1200, "Food");
    assert store.expenses == [Expense("Coffee", 450, "Food"), Expense("Bus", 200, "Transport"), Expense("Lunch", 1200, "Food")];
    SampleSums();
    var summary, total := store.SummarizeExpenses();
    assert total == 1850 && summary == map["Food" := 1650, "Transport" := 200];

    var status := store.DeleteAtUserPosition(4);
    assert status == InvalidIndex && |store.expenses| == 3;
    status := store.DeleteAtUserPosition(1);
    assert status == Deleted && store.expenses[0].description == "Bus";
  }

  /** The last entry deleted twice: first removed, then reported as an invalid index. */
  method DeleteOnlyEntryTwice() {
    var store := new ExpenseManager(Missing);
    store.AddExpense("Coffee", 450, "Food");
    var status := store.DeleteAtUserPosition(1);
    var listing := store.ViewExpenses();
    assert status == Deleted && listing == NoExpenses;
    status := store.DeleteAtUserPosition(1);
    assert status == InvalidIndex;
  }
}
