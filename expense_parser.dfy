/**
 * The natural-language expense command interpreter: one line of text is
 * classified as an "add" command (amount, category, date, title) or a
 * "query" (optional category, optional time range).
 *
 * "Today" and "yesterday" are ISO 8601 calendar dates (`YYYY-MM-DD`) that the
 * caller supplies; the original reads them from the clock.
 */
module ExpenseParser {
  import opened Wrappers
  import opened Strings

  datatype Action = Add | Query

  /** The time ranges a query can name: 'today', 'this_week', 'this_month'. */
  datatype TimeRange = Today | ThisWeek | ThisMonth

  datatype ExpenseData = ExpenseData(amount: real, category: String, date: String, title: String)

  datatype QueryFilter = QueryFilter(category: Option<String>, timeRange: Option<TimeRange>)

  /** The `ParsedExpense` shape: an action tag, with optional `data` and `filter` parts. */
  datatype ParsedExpense = ParsedExpense(action: Action, data: Option<ExpenseData>, filter: Option<QueryFilter>)

  /** The rupee sign, U+20B9. */
  const Rupee: char := '\U{20B9}'

  /** The category keywords, in the order in which they are tried. */
  const CategoryKeywords: seq<String> :=
    ["food", "travel", "transport", "shopping", "bills", "entertainment", "medical", "fuel", "grocery", "rent"]

  /** The category of an add command that names none of the keywords. */
  const OtherCategory: String := "other"

  // ---------------------------------------------------------------------------
  // Classification

  /** The lower-cased, trimmed input contains `add`, `spent` or the rupee sign. */
  predicate IsAddCommand(input: String)
  {
    var text := Trim(Lower(input));
    Contains(text, "add") || Contains(text, "spent") || Contains(text, [Rupee])
  }

  // ---------------------------------------------------------------------------
  // Amount: /₹(\d+(?:,\d+)*(?:\.\d+)?)|(\d+(?:,\d+)*(?:\.\d+)?)/ then parseFloat

  /** `\d` (no `u` flag): the ASCII digits. */
  predicate IsDigit(c: char)
  {
    '0' <= c <= '9'
  }

  predicate HasDigit(s: String)
  {
    exists k :: 0 <= k < |s| && IsDigit(s[k])
  }

  /** `d` is the index of the first digit of `s`. */
  predicate IsFirstDigit(s: String, d: nat)
  {
    d < |s| && IsDigit(s[d]) && forall k :: 0 <= k < d ==> !IsDigit(s[k])
  }

  function FirstDigit(s: String, from: nat): (d: nat)
    requires from <= |s| && exists k :: from <= k < |s| && IsDigit(s[k])
    ensures from <= d < |s| && IsDigit(s[d]) && forall k :: from <= k < d ==> !IsDigit(s[k])
    decreases |s| - from
  {
    if IsDigit(s[from]) then from else FirstDigit(s, from + 1)
  }

  /** Where a maximal run of digits starting at `i` ends (a greedy `\d*`). */
  function DigitRunEnd(t: String, i: nat): (j: nat)
    requires i <= |t|
    ensures i <= j <= |t|
    ensures forall k :: i <= k < j ==> IsDigit(t[k])
    ensures j == |t| || !IsDigit(t[j])
    decreases |t| - i
  {
    if i < |t| && IsDigit(t[i]) then DigitRunEnd(t, i + 1) else i
  }

  /** Where a greedy `(?:,\d+)*` that starts at `i` stops. */
  function CommaGroupsEnd(t: String, i: nat): (j: nat)
    requires i <= |t|
    ensures i <= j <= |t|
    decreases |t| - i
  {
    if i + 1 < |t| && t[i] == ',' && IsDigit(t[i + 1]) then CommaGroupsEnd(t, DigitRunEnd(t, i + 1)) else i
  }

  /** Where a greedy `(?:\.\d+)?` that starts at `i` stops. */
  function FractionEnd(t: String, i: nat): (j: nat)
    requires i <= |t|
    ensures i <= j <= |t|
  {
    if i + 1 < |t| && t[i] == '.' && IsDigit(t[i + 1]) then DigitRunEnd(t, i + 1) else i
  }

  /**
   * The text `\d+(?:,\d+)*(?:\.\d+)?` captures at the start of `t`. Nothing
   * follows the group in the pattern, so the first, greedy, attempt is the match.
   */
  function NumberToken(t: String): String
    requires t != [] && IsDigit(t[0])
  {
    t[..FractionEnd(t, CommaGroupsEnd(t, DigitRunEnd(t, 0)))]
  }

  /**
   * The capture of the leftmost match of the amount pattern at or after `p`:
   * at each position the `₹`-prefixed alternative is tried before the bare one.
   */
  function AmountMatchFrom(s: String, p: nat): Option<String>
    requires p <= |s|
    decreases |s| - p
  {
    if p == |s| then None
    else if s[p] == Rupee && p + 1 < |s| && IsDigit(s[p + 1]) then Some(NumberToken(s[p + 1..]))
    else if IsDigit(s[p]) then Some(NumberToken(s[p..]))
    else AmountMatchFrom(s, p + 1)
  }

  function AmountMatch(s: String): Option<String>
  {
    AmountMatchFrom(s, 0)
  }

  function DigitValue(c: char): nat
  {
    if IsDigit(c) then c as int - '0' as int else 0
  }

  /** The value of a string of decimal digits. */
  function DigitsValue(ds: String): nat
  {
    if ds == [] then 0 else DigitsValue(ds[..|ds| - 1]) * 10 + DigitValue(ds[|ds| - 1])
  }

  function Pow10(n: nat): (r: nat)
    ensures r >= 1
  {
    if n == 0 then 1 else 10 * Pow10(n - 1)
  }

  /** The value of the digits after a decimal point. */
  function Fraction(fs: String): (r: real)
    ensures 0.0 <= r
  {
    DigitsValue(fs) as real / Pow10(|fs|) as real
  }

  /**
   * `parseFloat` on text of digits, commas and dots (the only text it is
   * given here): the value of the longest prefix of the form
   * `digits[.digits]` or `.digits`, and `None` (NaN) when there is none.
   */
  function ParseFloat(t: String): (r: Option<real>)
    ensures r.Some? ==> r.value >= 0.0
  {
    var d := DigitRunEnd(t, 0);
    if d < |t| && t[d] == '.' then
      var f := DigitRunEnd(t, d + 1);
      if d == 0 && f == d + 1 then None
      else Some(DigitsValue(t[..d]) as real + Fraction(t[d + 1..f]))
    else if d == 0 then None
    else Some(DigitsValue(t[..d]) as real)
  }

  /** `amountMatch ? parseFloat(amountMatch[1] || amountMatch[2]) : 0`. */
  function Amount(input: String): (r: real)
    ensures r >= 0.0
  {
    match AmountMatch(input)
    case None => 0.0
    case Some(capture) => ParseFloat(capture).GetOr(0.0)
  }

  /**
   * The value of the number that starts at the first character of `t` (a
   * digit), read the way the capture and `parseFloat` read it together: the
   * leading digit run, plus a `.digits` fraction only when it follows that run
   * directly; a `,digits` group ends the number.
   */
  function LeadingNumberValue(t: String): real
    requires t != [] && IsDigit(t[0])
  {
    var e := DigitRunEnd(t, 0);
    if e + 1 < |t| && t[e] == '.' && IsDigit(t[e + 1]) then
      DigitsValue(t[..e]) as real + Fraction(t[e + 1..DigitRunEnd(t, e + 1)])
    else
      DigitsValue(t[..e]) as real
  }

  // ---------------------------------------------------------------------------
  // Category: the first keyword, in list order, that occurs in the text

  function FirstKeyword(text: String, keywords: seq<String>): (r: Option<String>)
    ensures r.Some? ==> r.value in keywords && Contains(text, r.value)
  {
    if keywords == [] then None
    else if Contains(text, keywords[0]) then Some(keywords[0])
    else FirstKeyword(text, keywords[1..])
  }

  /** The category of an add command: the first keyword found, else `other`. */
  function AddCategory(input: String): (r: String)
    ensures r in CategoryKeywords + [OtherCategory]
  {
    FirstKeyword(Lower(input), CategoryKeywords).GetOr(OtherCategory)
  }

  // ---------------------------------------------------------------------------
  // Date

  /** `yesterday` when the lower-cased input mentions it, otherwise `today`. */
  function AddDate(input: String, today: String, yesterday: String): (r: String)
    ensures r == today || r == yesterday
  {
    if Contains(Lower(input), "yesterday") then yesterday else today
  }

  // ---------------------------------------------------------------------------
  // Title: /for (.+?)(?:\s+(?:today|yesterday|on)|\s*$)/i

  predicate KeywordAt(s: String, i: nat)
  {
    MatchesIgnoreCaseAt(s, i, "today") || MatchesIgnoreCaseAt(s, i, "yesterday") || MatchesIgnoreCaseAt(s, i, "on")
  }

  /** `\s+(?:today|yesterday|on)` matches at `q` for some length of the whitespace run. */
  predicate SpacesThenKeyword(s: String, q: nat)
    decreases |s| - q
  {
    q < |s| && IsSpace(s[q]) && (KeywordAt(s, q + 1) || SpacesThenKeyword(s, q + 1))
  }

  /** The part after the capture, `(?:\s+(?:today|yesterday|on)|\s*$)`, matches at `q`. */
  predicate TitleEndsAt(s: String, q: nat)
    requires q <= |s|
  {
    SpacesThenKeyword(s, q) || AllSpaces(s[q..])
  }

  predicate NoLineTerminatorIn(s: String, i: nat, j: nat)
    requires i <= j <= |s|
  {
    forall k :: i <= k < j ==> !IsLineTerminator(s[k])
  }

  /**
   * The lazy `(.+?)`: from the shortest capture ending at `q` on, the first
   * end after which the rest of the pattern matches. `.` does not match a
   * line terminator.
   */
  function LazyCaptureEnd(s: String, q: nat): (r: Option<nat>)
    requires 0 < q <= |s|
    ensures r.Some? ==> q <= r.value <= |s|
    decreases |s| - q
  {
    if IsLineTerminator(s[q - 1]) then None
    else if TitleEndsAt(s, q) then Some(q)
    else if q < |s| then LazyCaptureEnd(s, q + 1)
    else None
  }

  /**
   * The leftmost match of the title pattern at or after `p`: the position of
   * `for ` and the end of the capture, which starts four characters later.
   */
  function TitleMatchFrom(s: String, p: nat): (r: Option<(nat, nat)>)
    requires p <= |s|
    ensures r.Some? ==> p <= r.value.0 && r.value.0 + 4 < r.value.1 <= |s|
    decreases |s| - p
  {
    if |s| < p + 5 then None
    else if MatchesIgnoreCaseAt(s, p, "for ") then
      match LazyCaptureEnd(s, p + 5)
      case Some(q) => Some((p, q))
      case None => TitleMatchFrom(s, p + 1)
    else TitleMatchFrom(s, p + 1)
  }

  function TitleMatch(s: String): (r: Option<(nat, nat)>)
    ensures r.Some? ==> r.value.0 + 4 < r.value.1 <= |s|
  {
    TitleMatchFrom(s, 0)
  }

  /** The trimmed capture, or `<category> expense` when the pattern does not match. */
  function Title(input: String, category: String): String
  {
    match TitleMatch(input)
    case None => category + " expense"
    case Some((p, q)) => Trim(input[p + 4..q])
  }

  /**
   * The title pattern can match with `for ` at `p` and the capture
   * `s[p + 4..q]`: at least one character, no line terminator, followed by
   * what the pattern requires after it.
   */
  predicate IsTitleMatch(s: String, p: nat, q: nat)
  {
    && p + 4 < q <= |s|
    && MatchesIgnoreCaseAt(s, p, "for ")
    && NoLineTerminatorIn(s, p + 4, q)
    && TitleEndsAt(s, q)
  }

  // ---------------------------------------------------------------------------
  // Query time range

  function QueryTimeRange(text: String): Option<TimeRange>
  {
    if Contains(text, "this month") || Contains(text, "month") then Some(ThisMonth)
    else if Contains(text, "this week") || Contains(text, "week") then Some(ThisWeek)
    else if Contains(text, "today") then Some(Today)
    else None
  }

  // ---------------------------------------------------------------------------
  // The interpreter as functions

  function ParseAdd(input: String, today: String, yesterday: String): (r: ParsedExpense)
    ensures r.action == Add && r.data.Some? && r.filter.None?
  {
    var category := AddCategory(input);
    ParsedExpense(Add, Some(ExpenseData(Amount(input), category, AddDate(input, today, yesterday), Title(input, category))), None)
  }

  function ParseQuery(input: String): (r: ParsedExpense)
    ensures r.action == Query && r.filter.Some? && r.data.None?
  {
    var text := Lower(input);
    ParsedExpense(Query, None, Some(QueryFilter(FirstKeyword(text, CategoryKeywords), QueryTimeRange(text))))
  }

  /** `parseExpenseInput`, with today's and yesterday's dates supplied. */
  function Parse(input: String, today: String, yesterday: String): (r: ParsedExpense)
    ensures r.action == Add <==> IsAddCommand(input)
    ensures r.action == Add ==> r.data.Some? && r.filter.None?
    ensures r.action == Query ==> r.filter.Some? && r.data.None?
  {
    if IsAddCommand(input) then ParseAdd(input, today, yesterday) else ParseQuery(input)
  }

  // ---------------------------------------------------------------------------
  // The interpreter as the original runs it, step by step

  /** The category loop: `for (const cat of categories) if (text.includes(cat)) { category = cat; break; }`. */
  method ScanCategories(text: String, categories: seq<String>) returns (category: Option<String>)
    ensures category == FirstKeyword(text, categories)
  {
    category := None;
    for i := 0 to |categories|
      invariant category.None?
      invariant FirstKeyword(text, categories[i..]) == FirstKeyword(text, categories)
    {
      if Contains(text, categories[i]) {
        category := Some(categories[i]);
        break;
      }
      assert categories[i..][1..] == categories[i + 1..];
    }
  }

  method ParseAddExpense(input: String, today: String, yesterday: String) returns (r: ParsedExpense)
    ensures r == ParseAdd(input, today, yesterday)
  {
    var amountMatch := AmountMatch(input);
    var amount := if amountMatch.Some? then ParseFloat(amountMatch.value).GetOr(0.0) else 0.0;
    assert amount == Amount(input);

    var found := ScanCategories(Lower(input), CategoryKeywords);
    var category := OtherCategory;
    if found.Some? {
      category := found.value;
    }
    assert category == AddCategory(input);

    var date := today;
    if Contains(Lower(input), "yesterday") {
      date := yesterday;
    } else if Contains(Lower(input), "today") {
      date := today;
    }
    assert date == AddDate(input, today, yesterday);

    var title := category + " expense";
    var titleMatch := TitleMatch(input);
    if titleMatch.Some? {
      title := Trim(input[titleMatch.value.0 + 4..titleMatch.value.1]);
    }
    assert title == Title(input, category);

    r := ParsedExpense(Add, Some(ExpenseData(amount, category, date, title)), None);
  }

  method ParseQueryExpense(input: String) returns (r: ParsedExpense)
    ensures r == ParseQuery(input)
  {
    var lowercaseInput := Lower(input);
    var category := ScanCategories(lowercaseInput, CategoryKeywords);
    var timeRange: Option<TimeRange> := None;
    if Contains(lowercaseInput, "this month") || Contains(lowercaseInput, "month") {
      timeRange := Some(ThisMonth);
    } else if Contains(lowercaseInput, "this week") || Contains(lowercaseInput, "week") {
      timeRange := Some(ThisWeek);
    } else if Contains(lowercaseInput, "today") {
      timeRange := Some(Today);
    }
    r := ParsedExpense(Query, None, Some(QueryFilter(category, timeRange)));
  }

  /**
   * `parseExpenseInput`, as a method so that the dispatch runs the two
   * step-by-step parsers above rather than their functions; its postcondition
   * composes their proofs. `Parse` is the same dispatch as a function.
   */
  method ParseExpenseInput(input: String, today: String, yesterday: String) returns (r: ParsedExpense)
    ensures r == Parse(input, today, yesterday)
  {
    var lowercaseInput := Trim(Lower(input));
    if Contains(lowercaseInput, "add") || Contains(lowercaseInput, "spent") || Contains(lowercaseInput, [Rupee]) {
      r := ParseAddExpense(input, today, yesterday);
    } else {
      r := ParseQueryExpense(input);
    }
  }

  // ---------------------------------------------------------------------------
  // Properties: classification

  lemma NoSpaceInAddWords()
    ensures forall k :: 0 <= k < 3 ==> !IsSpace("add"[k])
    ensures forall k :: 0 <= k < 5 ==> !IsSpace("spent"[k])
  {
  }

  /** Trimming does not matter: an input is an add command exactly when its lower-cased text mentions `add`, `spent` or `₹`. */
  lemma ClassifiedAsAdd(input: String, today: String, yesterday: String)
    ensures Parse(input, today, yesterday).action == Add <==>
      Contains(Lower(input), "add") || Contains(Lower(input), "spent") || Contains(Lower(input), [Rupee])
  {
    var text := Lower(input);
    NoSpaceInAddWords();
    ContainsTrim(text, "add");
    ContainsTrim(text, "spent");
    ContainsTrim(text, [Rupee]);
  }

  /** The empty input is a query with neither a category nor a time range. */
  lemma EmptyInputIsUnfilteredQuery(today: String, yesterday: String)
    ensures Parse("", today, yesterday) == ParsedExpense(Query, None, Some(QueryFilter(None, None)))
  {
    assert !IsAddCommand("");
    assert FirstKeyword("", CategoryKeywords) == None;
  }

  // ---------------------------------------------------------------------------
  // Properties: amount

  lemma {:induction false} DigitRunEndPrefix(t: String, m: nat, i: nat)
    requires i <= m <= |t|
    ensures DigitRunEnd(t[..m], i) == if DigitRunEnd(t, i) <= m then DigitRunEnd(t, i) else m
    decreases m - i
  {
    if i < m && IsDigit(t[i]) {
      assert t[..m][i] == t[i];
      DigitRunEndPrefix(t, m, i + 1);
    } else if i < m {
      assert t[..m][i] == t[i];
    }
  }

  /** A token whose digit run is followed by a comma: `parseFloat` reads the run alone. */
  lemma ParseFloatStopsAtComma(t: String, e: nat, m: nat)
    requires e == DigitRunEnd(t, 0) && e < m <= |t| && t[e] == ','
    ensures ParseFloat(t[..m]) == if e == 0 then None else Some(DigitsValue(t[..e]) as real)
  {
    var token := t[..m];
    DigitRunEndPrefix(t, m, 0);
    assert token[e] == ',';
    assert token[..e] == t[..e];
  }

  /** A token of a digit run and a fraction: `parseFloat` reads both. */
  lemma ParseFloatWithFraction(t: String, e: nat, f: nat)
    requires e == DigitRunEnd(t, 0) && e >= 1 && e + 1 < |t| && t[e] == '.' && IsDigit(t[e + 1])
    requires f == DigitRunEnd(t, e + 1)
    ensures ParseFloat(t[..f]) == Some(DigitsValue(t[..e]) as real + Fraction(t[e + 1..f]))
  {
    var token := t[..f];
    DigitRunEndPrefix(t, f, 0);
    DigitRunEndPrefix(t, f, e + 1);
    assert token[e] == '.';
    assert token[..e] == t[..e] && token[e + 1..f] == t[e + 1..f];
  }

  /** A token that is a digit run alone. */
  lemma ParseFloatOfDigits(t: String, e: nat)
    requires e == DigitRunEnd(t, 0) && e >= 1
    ensures ParseFloat(t[..e]) == Some(DigitsValue(t[..e]) as real)
  {
    DigitRunEndPrefix(t, e, 0);
    assert t[..e][..e] == t[..e];
  }

  /** `parseFloat` of the captured number is the value of the number as `LeadingNumberValue` reads it. */
  lemma NumberTokenValue(t: String)
    requires t != [] && IsDigit(t[0])
    ensures ParseFloat(NumberToken(t)) == Some(LeadingNumberValue(t))
  {
    var e := DigitRunEnd(t, 0);
    var m := FractionEnd(t, CommaGroupsEnd(t, e));
    assert NumberToken(t) == t[..m];
    if e + 1 < |t| && t[e] == ',' && IsDigit(t[e + 1]) {
      ParseFloatStopsAtComma(t, e, m);
    } else if e + 1 < |t| && t[e] == '.' && IsDigit(t[e + 1]) {
      ParseFloatWithFraction(t, e, m);
    } else {
      ParseFloatOfDigits(t, e);
    }
  }

  lemma {:induction false} AmountMatchFromFirstDigit(s: String, d: nat, p: nat)
    requires IsFirstDigit(s, d) && p <= d
    ensures AmountMatchFrom(s, p) == Some(NumberToken(s[d..]))
    decreases d - p
  {
    if p < d {
      if s[p] == Rupee && p + 1 < |s| && IsDigit(s[p + 1]) {
        assert p + 1 == d;
      } else {
        AmountMatchFromFirstDigit(s, d, p + 1);
      }
    }
  }

  lemma {:induction false} AmountMatchFromNoDigit(s: String, p: nat)
    requires p <= |s| && !HasDigit(s)
    ensures AmountMatchFrom(s, p).None?
    decreases |s| - p
  {
    if p < |s| {
      assert !IsDigit(s[p]);
      assert p + 1 < |s| ==> !IsDigit(s[p + 1]);
      AmountMatchFromNoDigit(s, p + 1);
    }
  }

  /** The amount pattern matches exactly when the input has an ASCII digit; without one the amount is 0. */
  lemma AmountWithoutDigits(s: String)
    ensures AmountMatch(s).None? <==> !HasDigit(s)
    ensures !HasDigit(s) ==> Amount(s) == 0.0
  {
    if HasDigit(s) {
      var d := FirstDigit(s, 0);
      AmountMatchFromFirstDigit(s, d, 0);
    } else {
      AmountMatchFromNoDigit(s, 0);
    }
  }

  /**
   * The amount is fixed by the first ASCII digit: it is the number that starts
   * there, whether or not a `₹` precedes it.
   */
  lemma AmountAtFirstDigit(s: String, d: nat)
    requires IsFirstDigit(s, d)
    ensures Amount(s) == LeadingNumberValue(s[d..])
  {
    AmountMatchFromFirstDigit(s, d, 0);
    NumberTokenValue(s[d..]);
  }

  /** Text without digits in front of the input, a `₹` among it, leaves the amount as it is. */
  lemma AmountIgnoresPrefixWithoutDigits(prefix: String, t: String)
    requires !HasDigit(prefix)
    ensures Amount(prefix + t) == Amount(t)
  {
    var s := prefix + t;
    if HasDigit(t) {
      var d := FirstDigit(t, 0);
      assert s[|prefix| + d] == t[d];
      forall k | 0 <= k < |prefix| + d ensures !IsDigit(s[k]) {
        if k >= |prefix| {
          assert s[k] == t[k - |prefix|];
        } else {
          assert s[k] == prefix[k];
        }
      }
      AmountAtFirstDigit(s, |prefix| + d);
      AmountAtFirstDigit(t, d);
      assert s[|prefix| + d..] == t[d..];
    } else {
      forall k | 0 <= k < |s| ensures !IsDigit(s[k]) {
        if k >= |prefix| {
          assert s[k] == t[k - |prefix|];
        } else {
          assert s[k] == prefix[k];
        }
      }
      AmountWithoutDigits(s);
      AmountWithoutDigits(t);
    }
  }

  /** A `₹` in front of the number, with no digit before it, does not change the amount. */
  lemma RupeeDoesNotChangeAmount(prefix: String, t: String)
    requires !HasDigit(prefix)
    ensures Amount(prefix + [Rupee] + t) == Amount(prefix + t)
  {
    assert !IsDigit(Rupee);
    assert !HasDigit(prefix + [Rupee]) by {
      forall k | 0 <= k < |prefix| + 1 ensures !IsDigit((prefix + [Rupee])[k]) {
        if k < |prefix| {
          assert (prefix + [Rupee])[k] == prefix[k];
        }
      }
    }
    AmountIgnoresPrefixWithoutDigits(prefix + [Rupee], t);
    AmountIgnoresPrefixWithoutDigits(prefix, t);
  }

  /**
   * A comma group cuts the amount short: when the first digit run is followed
   * by `,digit`, the amount is that run's value, whatever follows.
   */
  lemma CommaEndsAmount(s: String, d: nat, e: nat)
    requires IsFirstDigit(s, d) && d < e && e + 1 < |s|
    requires forall k :: d <= k < e ==> IsDigit(s[k])
    requires s[e] == ',' && IsDigit(s[e + 1])
    ensures Amount(s) == DigitsValue(s[d..e]) as real
  {
    AmountAtFirstDigit(s, d);
    var t := s[d..];
    DigitRunEndFrom(t, 0, e - d);
    assert t[..e - d] == s[d..e];
  }

  lemma {:induction false} DigitRunEndFrom(t: String, i: nat, j: nat)
    requires i <= j < |t| && !IsDigit(t[j])
    requires forall k :: i <= k < j ==> IsDigit(t[k])
    ensures DigitRunEnd(t, i) == j
    decreases j - i
  {
    if i < j {
      DigitRunEndFrom(t, i + 1, j);
    }
  }

  /**
   * The thousands separators are not honoured: a single digit followed by a
   * comma group, after text without digits, is the whole amount.
   */
  lemma CommaGroupedAmount(prefix: String, d: char, rest: String)
    requires !HasDigit(prefix) && IsDigit(d)
    requires |rest| >= 2 && rest[0] == ',' && IsDigit(rest[1])
    ensures Amount(prefix + [d] + rest) == DigitValue(d) as real
  {
    var s := prefix + [d] + rest;
    var n := |prefix|;
    assert s[n] == d && s[n + 1] == ',' && s[n + 2] == rest[1];
    assert forall k :: 0 <= k < n ==> s[k] == prefix[k];
    CommaEndsAmount(s, n, n + 1);
    assert s[n..n + 1] == [d];
    assert DigitsValue([d]) == DigitsValue([]) * 10 + DigitValue(d);
  }

  /** `Add ₹1,200.50 for food` records 1, not 1200.50. */
  lemma CommaGroupedAmountExample()
    ensures Amount("Add \U{20B9}1,200.50 for food") == 1.0
  {
    var prefix, rest := "Add \U{20B9}", ",200.50 for food";
    assert !HasDigit(prefix) by {
      forall k | 0 <= k < |prefix| ensures !IsDigit(prefix[k]) {
        assert prefix[k] in prefix;
      }
    }
    CommaGroupedAmount(prefix, '1', rest);
    var s := prefix + ['1'] + rest;
    assert s == "Add \U{20B9}1,200.50 for food";
  }

  // ---------------------------------------------------------------------------
  // Properties: category

  /**
   * `FirstKeyword` is the first keyword in list order that occurs in the
   * text; it is `None` exactly when no keyword occurs.
   */
  lemma {:induction false} FirstKeywordIsFirstListed(text: String, keywords: seq<String>)
    ensures FirstKeyword(text, keywords).None? <==> forall j :: 0 <= j < |keywords| ==> !Contains(text, keywords[j])
    ensures FirstKeyword(text, keywords).Some? ==>
      exists i :: 0 <= i < |keywords| && keywords[i] == FirstKeyword(text, keywords).value
        && Contains(text, keywords[i]) && forall j :: 0 <= j < i ==> !Contains(text, keywords[j])
  {
    if keywords != [] && !Contains(text, keywords[0]) {
      FirstKeywordIsFirstListed(text, keywords[1..]);
      var r := FirstKeyword(text, keywords[1..]);
      assert forall j :: 1 <= j < |keywords| ==> keywords[j] == keywords[1..][j - 1];
      if r.Some? {
        var i :| 0 <= i < |keywords[1..]| && keywords[1..][i] == r.value
          && Contains(text, keywords[1..][i]) && forall j :: 0 <= j < i ==> !Contains(text, keywords[1..][j]);
        assert keywords[i + 1] == r.value;
      }
    } else if keywords != [] {
      assert Contains(text, keywords[0]);
    }
  }

  /**
   * The category of an add command is the first listed keyword that occurs in
   * the lower-cased input, and `other` exactly when none occurs; list order, not
   * position in the text, decides.
   */
  lemma AddCategoryIsFirstListed(input: String, i: nat)
    requires i < |CategoryKeywords|
    ensures AddCategory(input) == CategoryKeywords[i] <==>
      Contains(Lower(input), CategoryKeywords[i]) && forall j :: 0 <= j < i ==> !Contains(Lower(input), CategoryKeywords[j])
    ensures AddCategory(input) == OtherCategory <==> forall j :: 0 <= j < |CategoryKeywords| ==> !Contains(Lower(input), CategoryKeywords[j])
  {
    var text := Lower(input);
    FirstKeywordIsFirstListed(text, CategoryKeywords);
    assert OtherCategory !in CategoryKeywords;
    assert forall a, b :: 0 <= a < b < |CategoryKeywords| ==> CategoryKeywords[a] != CategoryKeywords[b];
  }

  /** `groceries` is not `grocery`: matched by substring, it falls back to `other`. */
  lemma GroceriesIsOther()
    ensures AddCategory("Add 50 groceries") == OtherCategory
  {
    var text := Lower("Add 50 groceries");
    assert text == "add 50 groceries";
    var missing := "ftthbtmfyn";
    forall j | 0 <= j < |CategoryKeywords| ensures !Contains(text, CategoryKeywords[j]) {
      MissingCharNotContained(text, CategoryKeywords[j], missing[j]);
    }
    AddCategoryIsFirstListed("Add 50 groceries", 0);
  }

  /** Add and query agree on the category: the add command's is the query's, `other` standing for none. */
  lemma AddAndQueryAgreeOnCategory(input: String, today: String, yesterday: String)
    ensures ParseAdd(input, today, yesterday).data.value.category ==
      ParseQuery(input).filter.value.category.GetOr(OtherCategory)
  {
  }

  // ---------------------------------------------------------------------------
  // Properties: date

  /** `yesterday` wins over `today`: an input that mentions `yesterday` is dated yesterday even if it also says `today`. */
  lemma YesterdayTakesPrecedence(input: String, today: String, yesterday: String)
    ensures Contains(Lower(input), "yesterday") ==> ParseAdd(input, today, yesterday).data.value.date == yesterday
    ensures !Contains(Lower(input), "yesterday") ==> ParseAdd(input, today, yesterday).data.value.date == today
  {
  }

  // ---------------------------------------------------------------------------
  // Properties: title

  /** The lazy capture ends at the first position, from `q0` on, after which the rest of the pattern matches. */
  lemma {:induction false} LazyCaptureEndIsShortest(s: String, q0: nat)
    requires 0 < q0 <= |s|
    ensures LazyCaptureEnd(s, q0).Some? ==>
      var q := LazyCaptureEnd(s, q0).value;
      NoLineTerminatorIn(s, q0 - 1, q) && TitleEndsAt(s, q) && forall q' :: q0 <= q' < q ==> !TitleEndsAt(s, q')
    ensures LazyCaptureEnd(s, q0).None? ==>
      forall q' :: q0 <= q' <= |s| && NoLineTerminatorIn(s, q0 - 1, q') ==> !TitleEndsAt(s, q')
    decreases |s| - q0
  {
    if IsLineTerminator(s[q0 - 1]) {
    } else if TitleEndsAt(s, q0) {
    } else if q0 < |s| {
      LazyCaptureEndIsShortest(s, q0 + 1);
    }
  }

  /** Where the lazy capture finds an end, the pattern matches there and at no earlier end. */
  lemma MatchAtLazyEnd(s: String, p: nat)
    requires p + 5 <= |s| && MatchesIgnoreCaseAt(s, p, "for ") && LazyCaptureEnd(s, p + 5).Some?
    ensures IsTitleMatch(s, p, LazyCaptureEnd(s, p + 5).value)
    ensures forall q': nat :: q' < LazyCaptureEnd(s, p + 5).value ==> !IsTitleMatch(s, p, q')
  {
    LazyCaptureEndIsShortest(s, p + 5);
  }

  /** Without `for ` at `p`, or without an end for the lazy capture after it, the pattern does not match at `p`. */
  lemma NoMatchAt(s: String, p: nat)
    requires p + 5 <= |s| && !(MatchesIgnoreCaseAt(s, p, "for ") && LazyCaptureEnd(s, p + 5).Some?)
    ensures forall q: nat :: !IsTitleMatch(s, p, q)
  {
    if MatchesIgnoreCaseAt(s, p, "for ") {
      LazyCaptureEndIsShortest(s, p + 5);
    }
  }

  /** Where the pattern cannot match at `p0`, the search moves on to `p0 + 1`. */
  lemma TitleMatchFromStep(s: String, p0: nat)
    requires p0 + 5 <= |s| && !(MatchesIgnoreCaseAt(s, p0, "for ") && LazyCaptureEnd(s, p0 + 5).Some?)
    ensures TitleMatchFrom(s, p0) == TitleMatchFrom(s, p0 + 1)
  {
  }

  /** A title search from `p0` that finds nothing misses no match. */
  lemma {:induction false} TitleMatchFromComplete(s: String, p0: nat)
    requires p0 <= |s| && TitleMatchFrom(s, p0).None?
    ensures forall p: nat, q: nat :: p0 <= p ==> !IsTitleMatch(s, p, q)
    decreases |s| - p0
  {
    if |s| >= p0 + 5 {
      NoMatchAt(s, p0);
      TitleMatchFromComplete(s, p0 + 1);
    }
  }

  /** What a title search from `p0` finds is a match, the leftmost from `p0` on and the shortest there. */
  lemma {:induction false} TitleMatchFromSound(s: String, p0: nat)
    requires p0 <= |s| && TitleMatchFrom(s, p0).Some?
    ensures IsTitleMatch(s, TitleMatchFrom(s, p0).value.0, TitleMatchFrom(s, p0).value.1)
    ensures forall p': nat, q': nat :: p0 <= p' < TitleMatchFrom(s, p0).value.0 ==> !IsTitleMatch(s, p', q')
    ensures forall q': nat :: q' < TitleMatchFrom(s, p0).value.1 ==> !IsTitleMatch(s, TitleMatchFrom(s, p0).value.0, q')
    decreases |s| - p0
  {
    assert p0 + 5 <= |s|;
    if MatchesIgnoreCaseAt(s, p0, "for ") && LazyCaptureEnd(s, p0 + 5).Some? {
      assert TitleMatchFrom(s, p0).value == (p0, LazyCaptureEnd(s, p0 + 5).value);
      MatchAtLazyEnd(s, p0);
    } else {
      TitleMatchFromStep(s, p0);
      NoMatchAt(s, p0);
      TitleMatchFromSound(s, p0 + 1);
      var m := TitleMatchFrom(s, p0 + 1).value;
      assert TitleMatchFrom(s, p0).value == m;
      forall p': nat, q': nat | p0 <= p' < m.0 ensures !IsTitleMatch(s, p', q') {
      }
    }
  }

  /**
   * The title search finds the leftmost `for ` after which the pattern can
   * match, and there the shortest capture; it finds nothing exactly when the
   * pattern cannot match anywhere.
   */
  lemma TitleMatchIsLeftmostShortest(s: String)
    ensures TitleMatch(s).None? <==> forall p: nat, q: nat :: !IsTitleMatch(s, p, q)
    ensures TitleMatch(s).Some? ==>
      var p, q := TitleMatch(s).value.0, TitleMatch(s).value.1;
      && IsTitleMatch(s, p, q)
      && (forall p': nat, q': nat :: IsTitleMatch(s, p', q') ==> p <= p')
      && (forall q': nat :: IsTitleMatch(s, p, q') ==> q <= q')
  {
    if TitleMatch(s).Some? {
      TitleMatchFromSound(s, 0);
    } else {
      TitleMatchFromComplete(s, 0);
    }
  }

  /**
   * The title is the trimmed capture of the leftmost, shortest match of the
   * title pattern, and `<category> expense` when the pattern matches nowhere.
   */
  lemma TitleOfMatch(input: String, category: String, p: nat, q: nat)
    requires IsTitleMatch(input, p, q)
    requires forall p': nat, q': nat :: IsTitleMatch(input, p', q') ==> p <= p'
    requires forall q': nat :: IsTitleMatch(input, p, q') ==> q <= q'
    ensures Title(input, category) == Trim(input[p + 4..q])
  {
    TitleMatchIsLeftmostShortest(input);
    var found := TitleMatch(input);
    assert found.Some?;
    assert found.value.0 == p;
    assert found.value.1 == q;
  }

  lemma TitleWithoutMatch(input: String, category: String)
    requires forall p: nat, q: nat :: !IsTitleMatch(input, p, q)
    ensures Title(input, category) == category + " expense"
  {
    TitleMatchIsLeftmostShortest(input);
  }

  /** Without a `for ` followed by another character, the title is `<category> expense`. */
  lemma TitleWithoutFor(input: String, category: String)
    requires forall p: nat :: p + 5 <= |input| ==> !MatchesIgnoreCaseAt(input, p, "for ")
    ensures Title(input, category) == category + " expense"
  {
    TitleWithoutMatch(input, category);
  }

  /**
   * The stop word `on` needs no word boundary: whitespace and `on` end the
   * capture whatever follows, so `for food online` stops before ` online`.
   */
  lemma BareOnEndsTitle(s: String, q: nat)
    requires q + 3 <= |s| && IsSpace(s[q]) && Lower(s[q + 1..q + 3]) == "on"
    ensures TitleEndsAt(s, q)
  {
    assert KeywordAt(s, q + 1);
  }

  // ---------------------------------------------------------------------------
  // Properties: query time range

  /**
   * The time range of a query: `month` beats `week`, which beats `today`; a
   * text with none of the three words has no time range.
   */
  lemma TimeRangePriority(text: String)
    ensures QueryTimeRange(text) == Some(ThisMonth) <==> Contains(text, "month")
    ensures QueryTimeRange(text) == Some(ThisWeek) <==> !Contains(text, "month") && Contains(text, "week")
    ensures QueryTimeRange(text) == Some(Today) <==>
      !Contains(text, "month") && !Contains(text, "week") && Contains(text, "today")
    ensures QueryTimeRange(text).None? <==>
      !Contains(text, "month") && !Contains(text, "week") && !Contains(text, "today")
  {
    ThisWordMentionsWord(text, "month");
    ThisWordMentionsWord(text, "week");
  }

  /** A text mentioning `this <w>` mentions `<w>`. */
  lemma ThisWordMentionsWord(text: String, w: String)
    ensures Contains(text, "this " + w) ==> Contains(text, w)
  {
    if Contains(text, "this " + w) {
      ContainsAt("this " + w, 5, w);
      ContainsTransitive(text, "this " + w, w);
    }
  }
}
