/**
 * The CSV export: the expenses of the chosen period, one comma-separated row
 * each under a fixed header, joined by newlines. Whether a date lies in a
 * period, the `yyyy-MM-dd` formatting of a date and the printing of an
 * amount are functions the exporter is given.
 */
module ExpenseExport {
  import opened Wrappers
  import opened Strings
  import opened Arrays
  import opened Expenses

  /** The export periods that restrict the list; `all` and any other value do not. */
  const Periods: seq<String> := ["current_month", "last_month", "last_3_months"]

  /**
   * `getFilteredExpenses`: `all` and unknown values pass the list through;
   * a period keeps the expenses whose date (else creation time) lies in it.
   */
  function FilteredForExport(es: seq<Expense>, exportFilter: String, inPeriod: (String, String) -> bool): (r: seq<Expense>)
    ensures |r| <= |es|
    ensures forall x :: x in r ==> x in es
  {
    if exportFilter == "all" then es
    else if exportFilter in Periods then
      FilterMembers(es, (e: Expense) => inPeriod(exportFilter, DateOrCreated(e)));
      Filter(es, (e: Expense) => inPeriod(exportFilter, DateOrCreated(e)))
    else es
  }

  const Header: String := "Date,Title,Category,Amount"

  /** `value || fallback` on a string. */
  function OrElse(value: String, fallback: String): (r: String)
    ensures r == (if value == [] then fallback else value)
    ensures r != [] <== fallback != []
  {
    if value == [] then fallback else value
  }

  function Quoted(s: String): String
  {
    "\"" + s + "\""
  }

  /** The four fields of an expense's row. */
  function RowFields(e: Expense, formatDate: String -> String, showAmount: real -> String): seq<String>
  {
    [formatDate(DateOrCreated(e)), Quoted(OrElse(e.title, "Untitled")), Quoted(OrElse(e.category, "Other")), showAmount(e.amount)]
  }

  function Row(e: Expense, formatDate: String -> String, showAmount: real -> String): String
  {
    Join(RowFields(e, formatDate, showAmount), ",")
  }

  function Rows(es: seq<Expense>, formatDate: String -> String, showAmount: real -> String): (r: seq<String>)
    ensures |r| == |es| && forall i :: 0 <= i < |es| ==> r[i] == Row(es[i], formatDate, showAmount)
  {
    seq(|es|, i requires 0 <= i < |es| => Row(es[i], formatDate, showAmount))
  }

  /** The CSV text, or `None` (the "No Data" message) for an empty list. */
  function Csv(es: seq<Expense>, formatDate: String -> String, showAmount: real -> String): (r: Option<String>)
    ensures r.None? <==> es == []
  {
    if |es| == 0 then None else Some(Join([Header] + Rows(es, formatDate, showAmount), "\n"))
  }

  /** `exportToCSV`, up to the download. */
  function Export(es: seq<Expense>, exportFilter: String, inPeriod: (String, String) -> bool,
                  formatDate: String -> String, showAmount: real -> String): (r: Option<String>)
    ensures r.None? <==> FilteredForExport(es, exportFilter, inPeriod) == []
  {
    Csv(FilteredForExport(es, exportFilter, inPeriod), formatDate, showAmount)
  }

  // ---------------------------------------------------------------------------
  // Properties

  /** `all`, and any value that is not a known period, exports the whole list. */
  lemma NoPeriodPassesThrough(es: seq<Expense>, exportFilter: String, inPeriod: (String, String) -> bool)
    requires exportFilter !in Periods
    ensures FilteredForExport(es, exportFilter, inPeriod) == es
  {
  }

  /** A known period keeps, in order, exactly the expenses whose date lies in it. */
  lemma PeriodFilters(es: seq<Expense>, exportFilter: String, inPeriod: (String, String) -> bool) returns (kept: seq<nat>)
    requires exportFilter in Periods
    ensures Embeds(kept, FilteredForExport(es, exportFilter, inPeriod), es)
    ensures forall i :: 0 <= i < |es| ==> (i in kept <==> inPeriod(exportFilter, DateOrCreated(es[i])))
  {
    assert exportFilter != "all";
    kept := FilterPositions(es, (e: Expense) => inPeriod(exportFilter, DateOrCreated(e)));
  }

  /** The first line of the file is the header, whatever the fields hold. */
  lemma CsvStartsWithHeader(es: seq<Expense>, formatDate: String -> String, showAmount: real -> String)
    requires es != []
    ensures Split(Csv(es, formatDate, showAmount).value, '\n')[0] == Header
  {
    var lines := [Header] + Rows(es, formatDate, showAmount);
    assert lines[1..] == Rows(es, formatDate, showAmount);
    assert '\n' !in Header;
    SplitPiece(Header, '\n', Join(lines[1..], "\n"));
  }

  lemma QuotedExcludes(s: String, c: char)
    requires c != '"' && c !in s
    ensures c !in Quoted(s)
  {
  }

  /**
   * When no title, category, formatted date or printed amount holds a
   * newline, the lines of the file are the header and then one row per
   * expense, in order, with no trailing empty line.
   */
  lemma CsvLines(es: seq<Expense>, formatDate: String -> String, showAmount: real -> String)
    requires es != []
    requires forall i :: 0 <= i < |es| ==>
      '\n' !in es[i].title && '\n' !in es[i].category
      && '\n' !in formatDate(DateOrCreated(es[i])) && '\n' !in showAmount(es[i].amount)
    ensures Split(Csv(es, formatDate, showAmount).value, '\n') == [Header] + Rows(es, formatDate, showAmount)
  {
    var lines := [Header] + Rows(es, formatDate, showAmount);
    forall k | 0 <= k < |lines| ensures '\n' !in lines[k] {
      if k > 0 {
        RowExcludesNewline(es[k - 1], formatDate, showAmount);
      }
    }
    SplitJoin(lines, '\n');
  }

  /** A row whose fields hold no newline holds none either. */
  lemma RowExcludesNewline(e: Expense, formatDate: String -> String, showAmount: real -> String)
    requires '\n' !in e.title && '\n' !in e.category
    requires '\n' !in formatDate(DateOrCreated(e)) && '\n' !in showAmount(e.amount)
    ensures '\n' !in Row(e, formatDate, showAmount)
  {
    var fields := RowFields(e, formatDate, showAmount);
    QuotedExcludes(OrElse(e.title, "Untitled"), '\n');
    QuotedExcludes(OrElse(e.category, "Other"), '\n');
    assert forall m :: 0 <= m < 4 ==> '\n' !in fields[m];
    JoinExcludes(fields, ",", '\n');
  }

  /**
   * When no field holds a comma, a row splits back into its four fields: the
   * date, the quoted title (or `Untitled`), the quoted category (or `Other`)
   * and the amount.
   */
  lemma RowSplitsIntoFields(e: Expense, formatDate: String -> String, showAmount: real -> String)
    requires ',' !in e.title && ',' !in e.category
    requires ',' !in formatDate(DateOrCreated(e)) && ',' !in showAmount(e.amount)
    ensures Split(Row(e, formatDate, showAmount), ',') ==
      [formatDate(DateOrCreated(e)), "\"" + OrElse(e.title, "Untitled") + "\"",
       "\"" + OrElse(e.category, "Other") + "\"", showAmount(e.amount)]
  {
    QuotedExcludes(OrElse(e.title, "Untitled"), ',');
    QuotedExcludes(OrElse(e.category, "Other"), ',');
    SplitJoin(RowFields(e, formatDate, showAmount), ',');
  }

  /**
   * Fields are not escaped: a title `a,b` (with no other comma in the row)
   * makes the row split into five fields, where section 2 of RFC 4180 would
   * keep a quoted field with a comma whole; a `"` is not doubled either.
   */
  lemma CommaInTitleAddsField(e: Expense, formatDate: String -> String, showAmount: real -> String, a: String, b: String)
    requires e.title == a + "," + b && ',' !in a && ',' !in b
    requires ',' !in e.category && ',' !in formatDate(DateOrCreated(e)) && ',' !in showAmount(e.amount)
    ensures |Split(Row(e, formatDate, showAmount), ',')| == 5
    ensures Quoted(OrElse(e.title, "Untitled")) == "\"" + e.title + "\""
  {
    var date, category, amount := formatDate(DateOrCreated(e)), Quoted(OrElse(e.category, "Other")), showAmount(e.amount);
    var pieces := [date, "\"" + a, b + "\"", category, amount];
    QuotedExcludes(OrElse(e.category, "Other"), ',');
    var tail := category + "," + amount;
    assert Join(pieces[3..], ",") == tail;
    assert Join(pieces[2..], ",") == b + "\"" + "," + tail;
    assert Join(pieces, ",") == date + "," + ("\"" + a + "," + (b + "\"" + "," + tail));
    var fields := RowFields(e, formatDate, showAmount);
    assert e.title != [] && OrElse(e.title, "Untitled") == e.title;
    assert fields[1..] == [Quoted(e.title), category, amount];
    assert Join(fields[2..], ",") == tail;
    assert Join(fields[1..], ",") == Quoted(e.title) + "," + tail;
    assert Row(e, formatDate, showAmount) == date + "," + (Quoted(e.title) + "," + tail);
    assert Quoted(e.title) == "\"" + a + "," + b + "\"";
    assert Quoted(e.title) + "," + tail == "\"" + a + "," + (b + "\"" + "," + tail);
    assert Row(e, formatDate, showAmount) == Join(pieces, ",");
    assert forall k :: 0 <= k < |pieces| ==> ',' !in pieces[k];
    SplitJoin(pieces, ',');
  }
}
