/**
 * The expense list: a filter on category, month and free-text search, the
 * category and month choices derived from the expenses, and the filter
 * state the inputs overwrite. The `yyyy-MM` month key of a date string is a
 * function the list is given.
 */
module ExpenseListing {
  import opened Strings
  import opened Arrays
  import opened Expenses

  /** The filter record: a category or `all`, a month key or `all`, and a search text. */
  datatype ListFilter = ListFilter(category: String, month: String, search: String)

  const All: String := "all"

  /** The initial filter, and the one `handleClearFilters` restores. */
  const Cleared: ListFilter := ListFilter(All, All, "")

  predicate MatchesCategory(f: ListFilter, e: Expense)
  {
    f.category == All || e.category == f.category
  }

  predicate MatchesMonth(f: ListFilter, e: Expense, monthKey: String -> String)
  {
    f.month == All || monthKey(DateOrCreated(e)) == f.month
  }

  /** An empty search matches everything; otherwise the title or the category contains it, ignoring case. */
  predicate MatchesSearch(f: ListFilter, e: Expense)
  {
    f.search == [] || Contains(Lower(e.title), Lower(f.search)) || Contains(Lower(e.category), Lower(f.search))
  }

  predicate Matches(f: ListFilter, e: Expense, monthKey: String -> String)
  {
    MatchesCategory(f, e) && MatchesMonth(f, e, monthKey) && MatchesSearch(f, e)
  }

  /** `filteredExpenses`. */
  function FilteredExpenses(es: seq<Expense>, f: ListFilter, monthKey: String -> String): (r: seq<Expense>)
    ensures |r| <= |es|
    ensures forall x :: x in r ==> x in es && Matches(f, x, monthKey)
  {
    FilterMembers(es, (e: Expense) => Matches(f, e, monthKey));
    Filter(es, (e: Expense) => Matches(f, e, monthKey))
  }

  /** `expenses.map(e => e.category).filter(Boolean)`. */
  function CategoryNames(es: seq<Expense>): (r: seq<String>)
    ensures |r| <= |es|
    ensures forall c :: c in r ==> c != []
  {
    FilterMembers(seq(|es|, i requires 0 <= i < |es| => es[i].category), (c: String) => c != []);
    Filter(seq(|es|, i requires 0 <= i < |es| => es[i].category), (c: String) => c != [])
  }

  /** `categories`: each non-empty category once, in first-occurrence order. */
  function Categories(es: seq<Expense>): (r: seq<String>)
    ensures NoDuplicates(r)
  {
    Distinct(CategoryNames(es))
  }

  function MonthKeys(es: seq<Expense>, monthKey: String -> String): (r: seq<String>)
    ensures |r| == |es| && forall i :: 0 <= i < |es| ==> r[i] == monthKey(DateOrCreated(es[i]))
  {
    seq(|es|, i requires 0 <= i < |es| => monthKey(DateOrCreated(es[i])))
  }

  /** `months`: the distinct month keys, sorted, then reversed. */
  function Months(es: seq<Expense>, monthKey: String -> String): seq<String>
  {
    Reverse(Sort(Distinct(MonthKeys(es, monthKey))))
  }

  // ---------------------------------------------------------------------------
  // Properties

  /**
   * The filtered list is a subsequence of the expenses, in their order, and
   * keeps exactly the expenses that meet all three conditions.
   */
  lemma FilteredIsSubsequence(es: seq<Expense>, f: ListFilter, monthKey: String -> String) returns (kept: seq<nat>)
    ensures Embeds(kept, FilteredExpenses(es, f, monthKey), es)
    ensures forall i :: 0 <= i < |es| ==>
      (i in kept <==> MatchesCategory(f, es[i]) && MatchesMonth(f, es[i], monthKey) && MatchesSearch(f, es[i]))
  {
    kept := FilterPositions(es, (e: Expense) => Matches(f, e, monthKey));
  }

  lemma FilteredMembers(es: seq<Expense>, f: ListFilter, monthKey: String -> String, e: Expense)
    ensures e in FilteredExpenses(es, f, monthKey) <==> e in es && Matches(f, e, monthKey)
  {
    FilterMembers(es, (x: Expense) => Matches(f, x, monthKey));
  }

  /** Under the cleared filter every expense is listed. */
  lemma ClearedShowsAll(es: seq<Expense>, monthKey: String -> String)
    ensures FilteredExpenses(es, Cleared, monthKey) == es
  {
    FilterAll(es, (e: Expense) => Matches(Cleared, e, monthKey));
  }

  /** The case of the search text does not matter. */
  lemma SearchIgnoresCase(f: ListFilter, e: Expense)
    ensures MatchesSearch(f, e) <==> MatchesSearch(f.(search := Lower(f.search)), e)
  {
    LowerIdempotent(f.search);
  }

  /** A search text found in the title, in any case, matches. */
  lemma SearchFindsTitle(f: ListFilter, e: Expense)
    requires Contains(e.title, f.search)
    ensures MatchesSearch(f, e)
  {
    LowerContains(e.title, f.search);
  }

  /**
   * `categories` has no duplicates, holds every non-empty category and nothing
   * else, and lists them in the order of their first occurrence.
   */
  lemma CategoriesSpec(es: seq<Expense>)
    ensures NoDuplicates(Categories(es))
    ensures forall i :: 0 <= i < |es| && es[i].category != [] ==> es[i].category in Categories(es)
    ensures forall j :: 0 <= j < |Categories(es)| ==>
      Categories(es)[j] != [] && exists i :: 0 <= i < |es| && es[i].category == Categories(es)[j]
    ensures forall j, k :: 0 <= j < k < |Categories(es)| ==>
      FirstIndex(CategoryNames(es), Categories(es)[j]) < FirstIndex(CategoryNames(es), Categories(es)[k])
  {
    var names := seq(|es|, i requires 0 <= i < |es| => es[i].category);
    var nonEmpty := (c: String) => c != [];
    FilterMembers(names, nonEmpty);
    DistinctFirstOccurrenceOrder(CategoryNames(es));
    forall i | 0 <= i < |es| && es[i].category != [] ensures es[i].category in Categories(es) {
      assert names[i] in names;
    }
    forall j | 0 <= j < |Categories(es)|
      ensures Categories(es)[j] != [] && exists i :: 0 <= i < |es| && es[i].category == Categories(es)[j]
    {
      var c := Categories(es)[j];
      assert c in CategoryNames(es);
      var i :| 0 <= i < |names| && names[i] == c;
    }
  }

  /** `months` has no duplicates, is in strictly descending order, and holds exactly the month keys of the expenses. */
  lemma MonthsSpec(es: seq<Expense>, monthKey: String -> String)
    ensures forall j, k :: 0 <= j < k < |Months(es, monthKey)| ==>
      StrLe(Months(es, monthKey)[k], Months(es, monthKey)[j]) && Months(es, monthKey)[j] != Months(es, monthKey)[k]
    ensures forall i :: 0 <= i < |es| ==> monthKey(DateOrCreated(es[i])) in Months(es, monthKey)
    ensures forall j :: 0 <= j < |Months(es, monthKey)| ==>
      exists i :: 0 <= i < |es| && monthKey(DateOrCreated(es[i])) == Months(es, monthKey)[j]
  {
    var keys := MonthKeys(es, monthKey);
    SortedDescending(Distinct(keys));
    forall j | 0 <= j < |Months(es, monthKey)|
      ensures exists i :: 0 <= i < |es| && monthKey(DateOrCreated(es[i])) == Months(es, monthKey)[j]
    {
      var m := Months(es, monthKey)[j];
      assert m in Distinct(keys);
      var d :| 0 <= d < |Distinct(keys)| && Distinct(keys)[d] == m;
      var i :| 0 <= i < |keys| && keys[i] == m;
    }
    forall i | 0 <= i < |es| ensures monthKey(DateOrCreated(es[i])) in Months(es, monthKey) {
      assert keys[i] in Distinct(keys);
    }
  }

  // ---------------------------------------------------------------------------
  // The filter state

  class ExpenseList {
    var filter: ListFilter

    constructor ()
      ensures filter == Cleared
    {
      filter := Cleared;
    }

    /** The expenses shown under the current filter. */
    function Shown(es: seq<Expense>, monthKey: String -> String): seq<Expense>
      reads this
    {
      FilteredExpenses(es, filter, monthKey)
    }

    /** The search box's `onChange`: `{...filter, search}`. */
    method SetSearch(search: String)
      modifies this
      ensures filter == old(filter).(search := search)
    {
      filter := filter.(search := search);
    }

    /** The category select's `onValueChange`: `{...filter, category}`. */
    method SetCategory(category: String)
      modifies this
      ensures filter == old(filter).(category := category)
    {
      filter := filter.(category := category);
    }

    /** The month select's `onValueChange`: `{...filter, month}`. */
    method SetMonth(month: String)
      modifies this
      ensures filter == old(filter).(month := month)
    {
      filter := filter.(month := month);
    }

    /** `handleClearFilters`: afterwards every expense is shown. */
    method ClearFilters()
      modifies this
      ensures filter == Cleared
      ensures forall es: seq<Expense>, monthKey: String -> String :: Shown(es, monthKey) == es
    {
      filter := Cleared;
      forall es: seq<Expense>, monthKey: String -> String ensures Shown(es, monthKey) == es {
        ClearedShowsAll(es, monthKey);
      }
    }
  }
}
