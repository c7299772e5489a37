/**
 * Values of the expense tracker and the functions that specify its store:
 * an expense record, the sum of amounts, the per-category sums, the
 * category-to-sum summary, the numbered listing and positional removal.
 *
 * Amounts are whole numbers of cents, so that sums are exact.
 */
module Expenses {

  /** One spending entry, an immutable value (description, amount, category). */
  datatype Expense = Expense(description: string, amount: int, category: string)

  /** One line of the listing: a 1-based position and the entry shown there. */
  datatype Line = Line(position: int, expense: Expense)

  /** What viewing the store shows: the "no expenses" notice, or numbered lines. */
  datatype Listing = NoExpenses | Numbered(lines: seq<Line>)

  // ---------------------------------------------------------------------------
  // Sums
  // ---------------------------------------------------------------------------

  /** The grand total: the sum of all amounts, accumulated front to back. */
  function Total(es: seq<Expense>): int
  {
    if es == [] then 0 else Total(es[..|es| - 1]) + es[|es| - 1].amount
  }

  /** The sum of the amounts of the entries whose category is `c`. */
  function CategoryTotal(es: seq<Expense>, c: string): int
  {
    if es == [] then 0
    else CategoryTotal(es[..|es| - 1], c) + (if es[|es| - 1].category == c then es[|es| - 1].amount else 0)
  }

  /** The categories that occur in `es`. */
  function Categories(es: seq<Expense>): set<string>
  {
    set i | 0 <= i < |es| :: es[i].category
  }

  lemma CategoriesSnoc(es: seq<Expense>)
    requires es != []
    ensures Categories(es) == Categories(es[..|es| - 1]) + {es[|es| - 1].category}
  {
    var prefix := es[..|es| - 1];
    forall c | c in Categories(es)
      ensures c in Categories(prefix) + {es[|es| - 1].category}
    {
      var i :| 0 <= i < |es| && es[i].category == c;
      if i < |es| - 1 {
        assert prefix[i].category == c;
      }
    }
    forall c | c in Categories(prefix)
      ensures c in Categories(es)
    {
      var i :| 0 <= i < |prefix| && prefix[i].category == c;
      assert es[i].category == c;
    }
  }

  /** A category that occurs nowhere in `es` sums to zero. */
  lemma {:induction false} CategoryTotalAbsent(es: seq<Expense>, c: string)
    requires c !in Categories(es)
    ensures CategoryTotal(es, c) == 0
  {
    if es != [] {
      CategoriesSnoc(es);
      CategoryTotalAbsent(es[..|es| - 1], c);
    }
  }

  /** The value stored under `c`, or 0 when there is none (a map's getOrDefault(c, 0)). */
  function GetOrZero(m: map<string, int>, c: string): int
  {
    if c in m then m[c] else 0
  }

  /**
   * The summary as the store builds it: one pass over the entries, adding each
   * amount to the bucket of its category (created at 0 when missing).
   */
  function Summary(es: seq<Expense>): map<string, int>
  {
    if es == [] then map[]
    else
      var base, e := Summary(es[..|es| - 1]), es[|es| - 1];
      base[e.category := GetOrZero(base, e.category) + e.amount]
  }

  /**
   * The summary's keys are exactly the categories that occur, and each
   * bucket holds that category's sum.
   */
  lemma {:induction false} SummaryMeaning(es: seq<Expense>)
    ensures Summary(es).Keys == Categories(es)
    ensures forall c :: c in Summary(es) ==> Summary(es)[c] == CategoryTotal(es, c)
  {
    if es != [] {
      var prefix, e := es[..|es| - 1], es[|es| - 1];
      SummaryMeaning(prefix);
      CategoriesSnoc(es);
      if e.category !in Summary(prefix) {
        CategoryTotalAbsent(prefix, e.category);
      }
    }
  }

  /** The sum of all values of a map, taken in an arbitrary key order. */
  ghost function SumValues(m: map<string, int>): int
    decreases |m|
  {
    if m == map[] then 0
    else
      var k :| k in m;
      assert |m - {k}| < |m| by { assert (m - {k}).Keys == m.Keys - {k}; }
      m[k] + SumValues(m - {k})
  }

  /** The value sum does not depend on which key is taken first. */
  lemma {:induction false} SumValuesRemove(m: map<string, int>, k: string)
    requires k in m
    ensures SumValues(m) == m[k] + SumValues(m - {k})
    decreases |m|
  {
    var j :| j in m && SumValues(m) == m[j] + SumValues(m - {j});
    if j != k {
      assert (m - {j}).Keys == m.Keys - {j};
      assert (m - {k}).Keys == m.Keys - {k};
      SumValuesRemove(m - {j}, k);
      SumValuesRemove(m - {k}, j);
      assert m - {j} - {k} == m - {k} - {j};
    }
  }

  /** Adding `a` to one bucket (created at 0 when missing) adds `a` to the value sum. */
  lemma SumValuesAdd(m: map<string, int>, c: string, a: int)
    ensures SumValues(m[c := GetOrZero(m, c) + a]) == SumValues(m) + a
  {
    var m' := m[c := GetOrZero(m, c) + a];
    SumValuesRemove(m', c);
    if c in m {
      SumValuesRemove(m, c);
      assert m' - {c} == m - {c};
    } else {
      assert m' - {c} == m;
    }
  }

  /** The per-category sums of the summary add up to the grand total. */
  lemma {:induction false} SummaryAddsUpToTotal(es: seq<Expense>)
    ensures SumValues(Summary(es)) == Total(es)
  {
    if es != [] {
      var prefix, e := es[..|es| - 1], es[|es| - 1];
      SummaryAddsUpToTotal(prefix);
      SumValuesAdd(Summary(prefix), e.category, e.amount);
    }
  }

  /** Extending a prefix of `es` by its next entry is one step of the summary pass. */
  lemma PrefixStep(es: seq<Expense>, i: int)
    requires 0 <= i < |es|
    ensures Summary(es[..i + 1]) == Summary(es[..i])[es[i].category := GetOrZero(Summary(es[..i]), es[i].category) + es[i].amount]
    ensures Total(es[..i + 1]) == Total(es[..i]) + es[i].amount
  {
    assert es[..i + 1][..i] == es[..i];
  }

  // ---------------------------------------------------------------------------
  // Positional removal and the numbered listing
  // ---------------------------------------------------------------------------

  /**
   * The list with the entry at 0-based `i` taken out: earlier entries keep
   * their positions, later ones move down by one, and exactly that one entry
   * is gone.
   */
  function RemoveAt(es: seq<Expense>, i: int): (r: seq<Expense>)
    requires 0 <= i < |es|
    ensures |r| == |es| - 1
    ensures forall j :: 0 <= j < i ==> r[j] == es[j]
    ensures forall j :: i <= j < |r| ==> r[j] == es[j + 1]
    ensures multiset(r) + multiset{es[i]} == multiset(es)
  {
    assert es == es[..i] + [es[i]] + es[i + 1..];
    es[..i] + es[i + 1..]
  }

  /** The entries numbered from 1 in list order. */
  function NumberedLines(es: seq<Expense>): (r: seq<Line>)
    ensures |r| == |es|
    ensures forall i :: 0 <= i < |es| ==> r[i] == Line(i + 1, es[i])
  {
    if es == [] then [] else NumberedLines(es[..|es| - 1]) + [Line(|es|, es[|es| - 1])]
  }

  /**
   * What viewing shows: the notice for an empty list, otherwise one line per
   * entry where printed position i + 1 shows entry i.
   */
  function ListingOf(es: seq<Expense>): (r: Listing)
    ensures r.NoExpenses? <==> es == []
    ensures r.Numbered? ==> |r.lines| == |es|
    ensures r.Numbered? ==> forall i :: 0 <= i < |es| ==> r.lines[i] == Line(i + 1, es[i])
  {
    if es == [] then NoExpenses else Numbered(NumberedLines(es))
  }

  /** Appending keeps every printed line and prints the new entry last, numbered |es| + 1. */
  lemma ListingAfterAppend(es: seq<Expense>, e: Expense)
    ensures ListingOf(es + [e]) == Numbered(NumberedLinesOrEmpty(es) + [Line(|es| + 1, e)])
  {
  }

  /** The lines of the listing, with no lines for the "no expenses" notice. */
  function NumberedLinesOrEmpty(es: seq<Expense>): seq<Line>
  {
    match ListingOf(es)
    case NoExpenses => []
    case Numbered(lines) => lines
  }

  /**
   * Removing the entry at 0-based `i` removes the entry printed at position
   * i + 1; in the new listing, lines before it are as they were and lines
   * after it show the entries printed one position further down before.
   */
  lemma RemoveAtShiftsListing(es: seq<Expense>, i: int)
    requires 0 <= i < |es|
    ensures ListingOf(es).lines[i] == Line(i + 1, es[i])
    ensures ListingOf(RemoveAt(es, i)).NoExpenses? <==> |es| == 1
    ensures var before, after := ListingOf(es), ListingOf(RemoveAt(es, i));
      after.Numbered? ==>
        |after.lines| == |before.lines| - 1 &&
        (forall j :: 0 <= j < i ==> after.lines[j] == before.lines[j]) &&
        (forall j :: i <= j < |after.lines| ==>
           after.lines[j].position == j + 1 && after.lines[j].expense == before.lines[j + 1].expense)
  {
  }
}
