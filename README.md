# Expense tracker core in Dafny

This project models the logic of a personal expense tracker, written in
TypeScript and React, and proves properties of that logic. It models four parts:

- **The command interpreter** (`ExpenseParser`). It reads one line of free text,
  such as `Add ₹300 for food today`, and classifies it as an *add* command
  (amount, category, date, title) or a *query* (an optional category and an
  optional time range). The regular expressions and `parseFloat` are modelled
  character by character. The interpreter appears twice: as functions, and as
  the step-by-step methods the original runs (the `for … break` category loop
  and the reassigned `let` variables). Each method is proved equal to its
  function.
- **The budget table** (`Budgets`). A class holds the list of budgets and the
  two form fields. `AddBudget` validates the form, then either updates the
  first budget of that category or appends a new one. `RemoveBudget` deletes
  every budget of a category. There is also the over-budget test.
- **The expense list** (`ExpenseListing`). It has the category, month and
  search filter, the derived category and month lists, and a class for the
  filter state that the inputs and the "clear filters" button overwrite.
- **The CSV export** (`ExpenseExport`). It has the period filter with its
  `all` and default pass-through, the empty-list guard, and the CSV text
  (the header plus one row per expense).

Shared string and array built-ins are in `Strings` and `Arrays`:

- ASCII `toLowerCase`, the ECMAScript whitespace set, `trim`, `includes`,
  `join`, `split` on one character, and case folding under the `i` flag;
- `filter`, `[...new Set(xs)]`, and `sort()` followed by `reverse()`.

`Expenses` holds the common expense record. `Wrappers` holds `Option`.

The model takes some values as parameters because the original reads them
from the clock or from library code:

- the dates of today and yesterday, as `YYYY-MM-DD` strings;
- the `yyyy-MM` month key of a date;
- whether a date lies in an export period;
- the `yyyy-MM-dd` formatting of a date and the printing of an amount;
- `parseFloat` on the budget amount field.

The data and constants are values, not functions, so they have no row in
the table below. Each follows the source as cited:

- `ExpenseParser.ParsedExpense`, `ExpenseData`, `QueryFilter` and `TimeRange`
  are the `ParsedExpense` interface, with its optional `data` and `filter`
  parts (src/utils/expenseParser.ts:1-13). The three time-range strings of
  lines 89-93 become three constructors. `data.title` is optional in the
  interface, but the add parser always sets it.
- `ExpenseParser.CategoryKeywords` is the keyword array of
  src/utils/expenseParser.ts:33 and :79, in the same order. `OtherCategory` is
  the default of line 34, and `Rupee` is the `₹` of lines 19 and 29.
- `Expenses.Expense` is the `Expense` interface of
  src/components/ExpenseList.tsx:14-21, which BudgetManager.tsx:12-19 repeats.
  `Budgets.Budget` is the `Budget` interface of
  src/components/BudgetManager.tsx:21-24. `AddOutcome` names the three toasts
  of lines 49-53, 59-63 and 79-82.
- `ExpenseListing.ListFilter`, `All` and `Cleared` are the filter state and its
  initial value `{category: 'all', month: 'all', search: ''}`
  (src/components/ExpenseList.tsx:30-34). `handleClearFilters` restores that
  value (lines 54-60).
- `ExpenseExport.Periods` lists the three `case` labels of
  src/components/ExpenseExporter.tsx:34-47 that restrict the list. `Header` is
  `headers.join(',')` of lines 70-72.

Two behaviours of the code are easy to misread, and the model follows the
code:

- **Thousands separators cut the amount.** `Add ₹1,200.50 for food` records
  an amount of 1, not 1200.50, because `parseFloat` stops at the first comma
  (`CommaGroupedAmountExample`). A reader might expect 1200.5.
- **Categories are exact substrings.** `groceries` does not contain `grocery`,
  so it falls back to `other` (`GroceriesIsOther`).

## Model

| member | source | states |
|---|---|---|
| ExpenseParser.Parse | src/utils/expenseParser.ts:15-25 | the result is an add command exactly when the lower-cased, trimmed input mentions `add`, `spent` or `₹`; an add result carries data and no filter, a query result a filter and no data |
| ExpenseParser.ParseExpenseInput | src/utils/expenseParser.ts:15-25 | the dispatch as the original runs it computes `Parse` |
| ExpenseParser.ClassifiedAsAdd | src/utils/expenseParser.ts:16-19 | trimming never changes the classification: add exactly when the lower-cased input contains `add`, `spent` or `₹`, inside other words too |
| ExpenseParser.EmptyInputIsUnfilteredQuery | src/utils/expenseParser.ts:96-102 | the empty input is a query with neither a category nor a time range |
| ExpenseParser.IsAddCommand | src/utils/expenseParser.ts:16-19 | no contract of its own, a predicate read straight off the code: the trimmed, lower-cased input contains `add`, `spent` or `₹`; `ClassifiedAsAdd` states that trimming does not matter |
| ExpenseParser.ParseAdd | src/utils/expenseParser.ts:61-69 | an add result always has its data record and never a filter |
| ExpenseParser.ParseQuery | src/utils/expenseParser.ts:96-102 | a query result always has its filter and never a data record |
| ExpenseParser.ParseAddExpense | src/utils/expenseParser.ts:27-70 | the step-by-step add parser (amount, category loop, date and title reassignments) computes `ParseAdd` |
| ExpenseParser.ParseQueryExpense | src/utils/expenseParser.ts:72-103 | the step-by-step query parser (category loop, time-range chain) computes `ParseQuery` |
| ExpenseParser.ScanCategories | src/utils/expenseParser.ts:36-41 | the `for … break` loop ends with the first keyword, in list order, that the text contains, or none |
| ExpenseParser.Amount | src/utils/expenseParser.ts:29-30 | the amount is never negative |
| ExpenseParser.AmountWithoutDigits | src/utils/expenseParser.ts:29-30 | the amount pattern matches exactly when the input has an ASCII digit; without one the amount is 0 |
| ExpenseParser.AmountAtFirstDigit | src/utils/expenseParser.ts:29-30 | the amount is the number that starts at the first ASCII digit: its digit run, plus a fraction only when `.digits` follows the run directly |
| ExpenseParser.NumberTokenValue | src/utils/expenseParser.ts:29-30 | `parseFloat` of the greedy capture `\d+(,\d+)*(\.\d+)?` equals that leading-number value |
| ExpenseParser.IsDigit | src/utils/expenseParser.ts:29 | no contract of its own: `\d` without the `u` flag, the ASCII digits `0`-`9` |
| ExpenseParser.FirstDigit | src/utils/expenseParser.ts:29 | the index of the first ASCII digit at or after `from`: a digit, with none before it |
| ExpenseParser.DigitRunEnd | src/utils/expenseParser.ts:29 | the greedy `\d+`: every character up to the end is a digit, and the one at the end is not (or the text ends) |
| ExpenseParser.CommaGroupsEnd | src/utils/expenseParser.ts:29 | the greedy `(?:,\d+)*` stops within the text, at or after where it started |
| ExpenseParser.FractionEnd | src/utils/expenseParser.ts:29 | the optional `(?:\.\d+)?` stops within the text, at or after where it started |
| ExpenseParser.NumberToken | src/utils/expenseParser.ts:29 | no contract of its own: the text a group `\d+(?:,\d+)*(?:\.\d+)?` captures at a digit; nothing follows the group in either alternative, so the first, greedy attempt is the match; `NumberTokenValue` states its value |
| ExpenseParser.AmountMatchFrom | src/utils/expenseParser.ts:29 | no contract of its own: the leftmost search; at each position `₹` followed by a digit selects group 1, a digit selects group 2, anything else moves on; `AmountMatchFromFirstDigit` and `AmountMatchFromNoDigit` say where it stops |
| ExpenseParser.AmountMatchFromFirstDigit | src/utils/expenseParser.ts:29 | a search from before the first digit returns the number token that starts at that digit, whether or not `₹` precedes it |
| ExpenseParser.AmountMatchFromNoDigit | src/utils/expenseParser.ts:29 | in a text without digits the search finds nothing |
| ExpenseParser.LeadingNumberValue | src/utils/expenseParser.ts:29-30 | no contract of its own: the independent reference value of a number at a digit (its digit run, plus a `.digits` fraction only when it follows the run directly) against which `NumberTokenValue` and `AmountAtFirstDigit` prove the regex and `parseFloat` |
| ExpenseParser.Pow10 | src/utils/expenseParser.ts:30 | a power of ten is at least 1 |
| ExpenseParser.Fraction | src/utils/expenseParser.ts:30 | the value of the digits after a dot is never negative |
| ExpenseParser.AmountMatch | src/utils/expenseParser.ts:29 | no contract of its own: the leftmost match of `₹(\d+(,\d+)*(\.\d+)?)\|(\d+(,\d+)*(\.\d+)?)`; `AmountWithoutDigits` and `AmountAtFirstDigit` carry its properties |
| ExpenseParser.ParseFloat | src/utils/expenseParser.ts:30 | `parseFloat` on the captured text: a value it reads is never negative; `ParseFloatStopsAtComma`, `ParseFloatWithFraction` and `ParseFloatOfDigits` say which value |
| ExpenseParser.ParseFloatStopsAtComma | src/utils/expenseParser.ts:30 | `parseFloat` of a digit run followed by a comma reads the run alone |
| ExpenseParser.ParseFloatWithFraction | src/utils/expenseParser.ts:30 | `parseFloat` of a digit run, a dot and digits reads the run and the fraction |
| ExpenseParser.ParseFloatOfDigits | src/utils/expenseParser.ts:30 | `parseFloat` of a digit run reads its decimal value |
| ExpenseParser.AmountIgnoresPrefixWithoutDigits | src/utils/expenseParser.ts:29-30 | text without digits in front of the input, `₹` included, leaves the amount unchanged |
| ExpenseParser.RupeeDoesNotChangeAmount | src/utils/expenseParser.ts:29-30 | a `₹` before the first digit only selects the capturing group; the amount is what it is without it |
| ExpenseParser.CommaEndsAmount | src/utils/expenseParser.ts:29-30 | when the first digit run is followed by `,digit`, the amount is that run's value and any later fraction is ignored |
| ExpenseParser.CommaGroupedAmount | src/utils/expenseParser.ts:29-30 | after text without digits, a single digit followed by `,digit` gives an amount of exactly that one digit |
| ExpenseParser.CommaGroupedAmountExample | src/utils/expenseParser.ts:29-30 | `Add ₹1,200.50 for food` records the amount 1 |
| ExpenseParser.FirstKeyword | src/utils/expenseParser.ts:36-41 | a keyword it returns is in the list and occurs in the text |
| ExpenseParser.FirstKeywordIsFirstListed | src/utils/expenseParser.ts:36-41 | it returns nothing exactly when no keyword occurs, and otherwise the first listed keyword that occurs |
| ExpenseParser.AddCategory | src/utils/expenseParser.ts:33-41 | the add category is one of the ten keywords or `other`; `AddCategoryIsFirstListed` says which |
| ExpenseParser.AddCategoryIsFirstListed | src/utils/expenseParser.ts:33-41 | the add category is the i-th keyword exactly when that keyword occurs in the lower-cased input and no earlier one does; it is `other` exactly when none occurs |
| ExpenseParser.GroceriesIsOther | src/utils/expenseParser.ts:33-41 | `Add 50 groceries` gets the category `other` |
| ExpenseParser.AddAndQueryAgreeOnCategory | src/utils/expenseParser.ts:79-85 | the query scan finds the same keyword as the add scan, and leaves the category unset where the add scan says `other` |
| ExpenseParser.YesterdayTakesPrecedence | src/utils/expenseParser.ts:44-52 | the add date is yesterday exactly when the lower-cased input contains `yesterday`, even alongside `today`; otherwise it is today |
| ExpenseParser.AddDate | src/utils/expenseParser.ts:44-52 | the add date is today's or yesterday's date; `YesterdayTakesPrecedence` says which |
| ExpenseParser.LazyCaptureEnd | src/utils/expenseParser.ts:56 | the capture end lies within the input |
| ExpenseParser.LazyCaptureEndIsShortest | src/utils/expenseParser.ts:56 | the lazy capture ends at the first end, free of line terminators, after which the rest of the pattern matches, and it finds none exactly when there is none |
| ExpenseParser.TitleMatchFrom | src/utils/expenseParser.ts:56 | a match found from `p` starts at or after `p` and captures at least one character |
| ExpenseParser.TitleMatch | src/utils/expenseParser.ts:56 | a match captures at least one character within the input |
| ExpenseParser.IsTitleMatch | src/utils/expenseParser.ts:56 | no contract of its own; the reference reading of `/for (.+?)(?:\s+(?:today\|yesterday\|on)\|\s*$)/i` as a relation. It holds when `for ` matches at `p` ignoring case (the `i` flag), the capture `s[p+4..q]` has at least one character (`.+`), none of them a line terminator (`.`), and the tail matches at `q` (`TitleEndsAt`). `TitleMatchIsLeftmostShortest` proves that the search returns the smallest such `p` and, there, the smallest `q`. That is what the backtracking engine returns: it tries start positions left to right and a lazy group shortest first |
| ExpenseParser.TitleEndsAt | src/utils/expenseParser.ts:56 | no contract of its own: the tail `(?:\s+(?:today\|yesterday\|on)\|\s*$)` at `q`, either `SpacesThenKeyword` or nothing but whitespace up to the end (`$` without the `m` flag is end of input) |
| ExpenseParser.SpacesThenKeyword | src/utils/expenseParser.ts:56 | no contract of its own: `\s+` followed by a keyword, for some length of the whitespace run |
| ExpenseParser.KeywordAt | src/utils/expenseParser.ts:56 | no contract of its own: `today`, `yesterday` or `on` at a position, ignoring case, with no word boundary after it |
| ExpenseParser.NoLineTerminatorIn | src/utils/expenseParser.ts:56 | no contract of its own: what `.` demands of every captured character, that it is not a line terminator |
| ExpenseParser.TitleMatchFromComplete | src/utils/expenseParser.ts:56 | a search that finds nothing misses no match |
| ExpenseParser.TitleMatchFromSound | src/utils/expenseParser.ts:56 | what the search finds is a match, the leftmost one, with the shortest capture there |
| ExpenseParser.TitleMatchIsLeftmostShortest | src/utils/expenseParser.ts:56 | the title pattern has no match exactly when the search finds none; otherwise the search returns the leftmost match with its shortest capture |
| ExpenseParser.TitleOfMatch | src/utils/expenseParser.ts:55-59 | the title is the trimmed capture of the leftmost, shortest match, in the input's own case |
| ExpenseParser.Title | src/utils/expenseParser.ts:55-59 | no contract of its own: the trimmed capture, or `<category> expense`; `TitleOfMatch`, `TitleWithoutMatch` and `TitleWithoutFor` carry its properties |
| ExpenseParser.TitleWithoutMatch | src/utils/expenseParser.ts:55-59 | without a match the title is `<category> expense` |
| ExpenseParser.TitleWithoutFor | src/utils/expenseParser.ts:55-59 | without `for ` followed by another character (in any case) the title is `<category> expense` |
| ExpenseParser.BareOnEndsTitle | src/utils/expenseParser.ts:56 | whitespace followed by `on` satisfies the tail `\s+(?:today\|yesterday\|on)` whatever comes next, as there is no word boundary; together with `LazyCaptureEndIsShortest` this is why `for food online` yields `food` (the concrete input is not itself a lemma) |
| ExpenseParser.TimeRangePriority | src/utils/expenseParser.ts:88-94 | the time range is this month exactly when `month` occurs; this week when `week` occurs and `month` does not; today when only `today` occurs; otherwise none |
| ExpenseParser.QueryTimeRange | src/utils/expenseParser.ts:88-94 | no contract of its own: the if/else-if chain on `this month`/`month`, `this week`/`week` and `today`; `TimeRangePriority` states the outcome of each case as an if-and-only-if |
| Strings.Lower | src/utils/expenseParser.ts:16 | `toLowerCase` keeps the length and maps each character on its own (ASCII only); `LowerIdempotent` and `LowerContains` carry its other properties |
| Strings.LowerChar | src/utils/expenseParser.ts:16 | no contract of its own: `toLowerCase` of one character, mapping A-Z to a-z and keeping every other character |
| Strings.IsLineTerminator | src/utils/expenseParser.ts:56 | no contract of its own: LF, CR, U+2028 and U+2029, the characters `.` does not match |
| Strings.TrimStart | src/utils/expenseParser.ts:58 | the result is a suffix of the input, everything dropped is whitespace, and it does not start with whitespace |
| Strings.TrimEnd | src/utils/expenseParser.ts:58 | the result is a prefix of the input, everything dropped is whitespace, and it does not end with whitespace |
| Strings.Trim | src/utils/expenseParser.ts:16 | `trim` leaves no whitespace at either end |
| Strings.TrimIsSlice | src/utils/expenseParser.ts:58 | `trim` returns the slice between leading and trailing whitespace runs |
| Strings.ContainsIff | src/utils/expenseParser.ts:19 | `includes` holds exactly when the word occurs at some index |
| Strings.Contains | src/utils/expenseParser.ts:19 | no contract of its own: `includes`, the test behind every keyword and search check; `ContainsIff` states it holds exactly when the word occurs at some index |
| Strings.MatchesIgnoreCaseAt | src/utils/expenseParser.ts:56 | no contract of its own: the `i` flag's comparison of a literal at a position, by ASCII lower-casing; `TitleMatchIsLeftmostShortest` and `TitleWithoutFor` use it |
| Strings.IsSpace | src/utils/expenseParser.ts:56 | no contract of its own: the ECMAScript WhiteSpace and LineTerminator characters matched by `\s` and stripped by `trim`; `Trim` and `TrimIsSlice` use it |
| Strings.ContainsTrim | src/utils/expenseParser.ts:16-19 | trimming does not change whether a word without whitespace occurs |
| Strings.Join | src/components/ExpenseExporter.tsx:72-79 | no contract of its own: `join` puts the separator between consecutive pieces; `SplitJoin` proves a split on the separator gives the pieces back |
| Strings.Split | src/components/ExpenseExporter.tsx:79 | a one-character split, not a built-in the source calls there: it is the inverse through which line 79's `join` is read back (the partner of `Join` in `SplitJoin` and `CsvLines`); it always yields at least one piece |
| Strings.SplitJoin | src/components/ExpenseExporter.tsx:79 | splitting a `join` on a separator that no piece contains gives back the pieces |
| Arrays.FilterPositions | src/components/ExpenseList.tsx:40 | `filter` keeps, in order, exactly the elements at the positions where the predicate holds |
| Arrays.FilterMembers | src/components/ExpenseList.tsx:40 | an element is in a filtered list exactly when it is in the list and passes |
| Arrays.Filter | src/components/ExpenseList.tsx:40 | `filter` never lengthens the list; `FilterPositions` and `FilterMembers` say what it keeps |
| Arrays.Distinct | src/components/ExpenseList.tsx:38 | `[...new Set(xs)]` has no duplicates and the same elements as `xs` |
| Arrays.DistinctFirstOccurrenceOrder | src/components/ExpenseList.tsx:38 | it lists the elements in the order of their first occurrence |
| Arrays.Sort | src/components/ExpenseList.tsx:52 | `sort()` is a permutation |
| Arrays.SortSorted | src/components/ExpenseList.tsx:52 | `sort()` orders strings ascending under `StrLe`, which is code-point order; that equals the UTF-16 code-unit order of `sort()` on the Basic Multilingual Plane, and so on the ASCII `yyyy-MM` month keys it sorts |
| Arrays.StrLe | src/components/ExpenseList.tsx:52 | no contract of its own: lexicographic code-point comparison, the default comparator of `sort()` on the ASCII month keys; `StrLeTotal`, `StrLeAntisymmetric` and `StrLeTransitive` make it a total order |
| Arrays.StrLeTotal | src/components/ExpenseList.tsx:52 | any two strings are comparable |
| Arrays.StrLeAntisymmetric | src/components/ExpenseList.tsx:52 | strings that compare both ways are equal |
| Arrays.StrLeTransitive | src/components/ExpenseList.tsx:52 | the comparison is transitive |
| Arrays.Insert | src/components/ExpenseList.tsx:52 | one insertion step of the sort: the result is the input plus the new element, as a multiset; `InsertSorted` keeps the order |
| Arrays.InsertSorted | src/components/ExpenseList.tsx:52 | inserting into an ascending list gives an ascending list |
| Arrays.Reverse | src/components/ExpenseList.tsx:52 | `reverse()` puts the i-th element last but i |
| Arrays.SortedDescending | src/components/ExpenseList.tsx:50-52 | sorting then reversing a list without duplicates gives a strictly descending list of the same elements |
| Expenses.DateOrCreated | src/components/ExpenseList.tsx:42 | no contract of its own: `expense.date \|\| expense.created_at`, also at ExpenseList.tsx:51 and ExpenseExporter.tsx:53 and 74; `MonthKeys` and `PeriodFilters` use it |
| Budgets.Validate | src/components/BudgetManager.tsx:48-65 | the form is refused as incomplete exactly when a field is empty, accepted exactly when both are filled and the parsed amount is a number above 0, and refused as invalid otherwise |
| Budgets.FindIndex | src/components/BudgetManager.tsx:67 | `findIndex` returns the first index with the category, or -1 exactly when there is none |
| Budgets.Lookup | src/components/BudgetManager.tsx:147-150 | no contract of its own: the amount of the first budget with a category, a view for the lemmas rather than something the component computes; `LookupFirst` ties it to `findIndex` |
| Budgets.DistinctCategories | src/components/BudgetManager.tsx:67-75 | no contract of its own: no two budgets share a category, which upsert-by-`findIndex` keeps; `UpsertKeepsDistinct` and `RemoveKeepsDistinct` prove it |
| Budgets.LookupFirst | src/components/BudgetManager.tsx:67 | `Lookup`, a view of the list rather than something the component computes (it renders one card per entry, BudgetManager.tsx:147-189; the view agrees with the card for a category while categories are distinct, which `Valid()` keeps), returns the amount of the entry `findIndex` finds, or nothing exactly when `findIndex` gives -1 |
| Budgets.Upserted | src/components/BudgetManager.tsx:67-75 | the saved budget is in the new list and every other entry was in the old one; `UpsertExisting`, `UpsertNew` and `LookupUpserted` give the exact shape |
| Budgets.UpsertExisting | src/components/BudgetManager.tsx:67-72 | for an existing category the first budget of it takes the new amount; the length and all other entries stay |
| Budgets.UpsertNew | src/components/BudgetManager.tsx:73-75 | a new category is appended after the unchanged old list |
| Budgets.UpsertKeepsDistinct | src/components/BudgetManager.tsx:67-77 | saving keeps categories pairwise distinct |
| Budgets.LookupUpserted | src/components/BudgetManager.tsx:67-77 | after saving, `Lookup` (the first budget of a category; see `LookupFirst`) gives the new amount for that category and the old result for every other one |
| Budgets.Removed | src/components/BudgetManager.tsx:86 | a budget is in the new list exactly when it was in the old one and is not of the removed category; `RemovedSpec` adds that the order is kept |
| Budgets.RemovedSpec | src/components/BudgetManager.tsx:85-86 | removal drops every budget of the category and keeps all others in their original order |
| Budgets.RemoveAbsent | src/components/BudgetManager.tsx:85-86 | removing a category without a budget changes nothing |
| Budgets.LookupRemoved | src/components/BudgetManager.tsx:85-86 | after removal, `Lookup` (the first budget of a category; see `LookupFirst`) gives nothing for the removed category and the old result for every other one |
| Budgets.RemoveKeepsDistinct | src/components/BudgetManager.tsx:85-86 | removal keeps categories pairwise distinct |
| Budgets.Spent | src/components/BudgetManager.tsx:148 | a category without spending has spent 0 |
| Budgets.IsOverBudget | src/components/BudgetManager.tsx:148-150 | no contract of its own, a predicate read straight off the code; `OverBudgetThreshold` and `NoSpendingNotOver` carry its properties |
| Budgets.NoSpendingNotOver | src/components/BudgetManager.tsx:148-150 | a positive budget whose category has no spending is never over budget |
| Budgets.OverBudgetThreshold | src/components/BudgetManager.tsx:150 | a budget is over exactly when its amount is below what was spent |
| Budgets.BudgetManager.constructor | src/components/BudgetManager.tsx:31-32 | the manager starts with no budgets and an empty form |
| Budgets.BudgetManager.Valid | src/components/BudgetManager.tsx:47-92 | no contract of its own: positive amounts (the check at lines 57-65) and one budget per category; `AddBudget` and `RemoveBudget` promise to preserve it |
| Budgets.BudgetManager.SetNewCategory | src/components/BudgetManager.tsx:126 | the category field changes and nothing else |
| Budgets.BudgetManager.SetNewAmount | src/components/BudgetManager.tsx:138 | the amount field changes and nothing else |
| Budgets.BudgetManager.AddBudget | src/components/BudgetManager.tsx:47-83 | on a validation error nothing changes and the error is reported; on success the budget is upserted and the form cleared; positive amounts and distinct categories are preserved |
| Budgets.BudgetManager.RemoveBudget | src/components/BudgetManager.tsx:85-92 | the list becomes the filtered list, the form is untouched, and positive amounts and distinct categories are preserved |
| ExpenseListing.MonthKeys | src/components/ExpenseList.tsx:50-51 | one month key per expense, of its date or else its creation time |
| ExpenseListing.MatchesCategory | src/components/ExpenseList.tsx:41 | no contract of its own, a predicate read straight off the code: the filter category is `all` or equals the expense's; `FilteredIsSubsequence` uses it |
| ExpenseListing.MatchesMonth | src/components/ExpenseList.tsx:42 | no contract of its own: the filter month is `all` or equals the month key of the expense's date (or creation time); `FilteredIsSubsequence` uses it |
| ExpenseListing.MatchesSearch | src/components/ExpenseList.tsx:43-45 | no contract of its own: an empty search, or the lower-cased title or category contains the lower-cased search; `SearchIgnoresCase` and `SearchFindsTitle` carry its properties |
| ExpenseListing.Matches | src/components/ExpenseList.tsx:41-47 | no contract of its own: the conjunction of the three tests; `FilteredIsSubsequence` and `FilteredMembers` state what the list keeps under it |
| ExpenseListing.CategoryNames | src/components/ExpenseList.tsx:38 | `map(e => e.category).filter(Boolean)` never grows and holds no empty category; `CategoriesSpec` gives the contents |
| ExpenseListing.FilteredExpenses | src/components/ExpenseList.tsx:40-48 | the list never grows and everything in it is one of the expenses and meets the filter; `FilteredIsSubsequence` gives the exact characterisation |
| ExpenseListing.Categories | src/components/ExpenseList.tsx:38 | the category choices have no duplicates; `CategoriesSpec` gives the contents and the order |
| ExpenseListing.Months | src/components/ExpenseList.tsx:50-52 | no contract of its own: distinct keys, sorted, reversed; `MonthsSpec` states order and contents |
| ExpenseListing.FilteredIsSubsequence | src/components/ExpenseList.tsx:40-48 | the filtered list is an order-preserving subsequence that keeps an expense exactly when the category, month and search conditions all hold |
| ExpenseListing.FilteredMembers | src/components/ExpenseList.tsx:40-48 | an expense is listed exactly when it is among the expenses and meets the filter |
| ExpenseListing.ClearedShowsAll | src/components/ExpenseList.tsx:54-60 | under the cleared filter the list is all expenses |
| ExpenseListing.SearchIgnoresCase | src/components/ExpenseList.tsx:43-45 | the case of the search text does not matter |
| ExpenseListing.SearchFindsTitle | src/components/ExpenseList.tsx:43-45 | a search text occurring in the title matches |
| ExpenseListing.CategoriesSpec | src/components/ExpenseList.tsx:38 | the category choices are duplicate-free and hold exactly the non-empty categories, in first-occurrence order |
| ExpenseListing.MonthsSpec | src/components/ExpenseList.tsx:50-52 | the month choices are strictly descending and hold exactly the expenses' month keys |
| ExpenseListing.ExpenseList.constructor | src/components/ExpenseList.tsx:30-34 | the filter starts as `{all, all, ''}` |
| ExpenseListing.ExpenseList.SetSearch | src/components/ExpenseList.tsx:112 | only the search field of the filter changes |
| ExpenseListing.ExpenseList.SetCategory | src/components/ExpenseList.tsx:117 | only the category field of the filter changes |
| ExpenseListing.ExpenseList.SetMonth | src/components/ExpenseList.tsx:128 | only the month field of the filter changes |
| ExpenseListing.ExpenseList.Shown | src/components/ExpenseList.tsx:40-48 | no contract of its own: the expenses under the current filter; `ClearFilters` states that after a reset it is every expense |
| ExpenseListing.ExpenseList.ClearFilters | src/components/ExpenseList.tsx:54-60 | the filter becomes `{all, all, ''}` and every expense is shown |
| ExpenseExport.NoPeriodPassesThrough | src/components/ExpenseExporter.tsx:27-50 | `all` and every unknown filter value export the list unchanged |
| ExpenseExport.PeriodFilters | src/components/ExpenseExporter.tsx:34-55 | a known period keeps, in order, exactly the expenses whose date (or creation time) lies in it |
| ExpenseExport.FilteredForExport | src/components/ExpenseExporter.tsx:27-56 | the export list never grows and holds only expenses of the input; `NoPeriodPassesThrough` and `PeriodFilters` say which ones |
| ExpenseExport.Export | src/components/ExpenseExporter.tsx:58-79 | no CSV exactly when the filtered list is empty (the "No Data" guard at lines 61-68) |
| ExpenseExport.Csv | src/components/ExpenseExporter.tsx:61-79 | no CSV exactly when the list is empty; `CsvStartsWithHeader` and `CsvLines` give the text |
| ExpenseExport.Row | src/components/ExpenseExporter.tsx:73-78 | no contract of its own: the four fields joined by `,`; `RowSplitsIntoFields` and `CommaInTitleAddsField` carry its properties |
| ExpenseExport.OrElse | src/components/ExpenseExporter.tsx:75-76 | an empty field falls back to the default, which is never empty |
| ExpenseExport.Quoted | src/components/ExpenseExporter.tsx:75-76 | no contract of its own: the template `"${…}"`, which adds quotes and escapes nothing; `QuotedExcludes` and `CommaInTitleAddsField` carry its properties |
| ExpenseExport.QuotedExcludes | src/components/ExpenseExporter.tsx:75-76 | quoting adds no character other than `"` |
| ExpenseExport.CsvStartsWithHeader | src/components/ExpenseExporter.tsx:70-72 | the first line is exactly `Date,Title,Category,Amount` |
| ExpenseExport.CsvLines | src/components/ExpenseExporter.tsx:70-79 | without newlines in the fields the lines are the header and one row per expense in input order, with no trailing empty line |
| ExpenseExport.Rows | src/components/ExpenseExporter.tsx:73-78 | one row per expense, the i-th row being that of the i-th expense |
| ExpenseExport.RowFields | src/components/ExpenseExporter.tsx:74-77 | no contract of its own: the date, the title or `Untitled` in quotes, the category or `Other` in quotes, and the amount; `RowSplitsIntoFields` states that a row reads back as these four |
| ExpenseExport.RowExcludesNewline | src/components/ExpenseExporter.tsx:73-78 | a row whose date, title, category and amount hold no newline holds none, so every row is one CSV line |
| ExpenseExport.RowSplitsIntoFields | src/components/ExpenseExporter.tsx:73-78 | without commas in the fields a row is the date, the quoted title or `Untitled`, the quoted category or `Other`, and the amount |
| ExpenseExport.CommaInTitleAddsField | src/components/ExpenseExporter.tsx:75-76 | the title is wrapped in quotes and nothing inside it is escaped, so a title `a,b` makes a naive split of the row on `,` yield five fields; a reader that honours quoted fields keeps `"a,b"` as one |

## Left out

- Persistence: the hosted database calls (the expenses hook and deleting an expense) are not modelled. They are network calls to a backend whose code is not part of this model.
- Budgets in browser storage: loading them at start-up and writing them on every save are not modelled. The manager starts empty and keeps its list in its field.
- Rendering: React state wiring, toasts, focus and scrolling are not modelled. The toast an `AddBudget` call shows is its `AddOutcome` result.
- Date formatting: `format` throws on an invalid date. The model's month key and date formatter are total, so expenses are assumed to carry parseable dates. `MonthsSpec`, the month filter and `CsvLines` say nothing about the throwing case.
- Clock and calendar: the clock and date arithmetic are parameters. This covers today and yesterday, month keys, export period bounds and date formatting.
- Current-month spending per category: the month-range filter and the float sums are not modelled. The over-budget test receives the spending as a map.
- Floating point: amounts are exact reals. No IEEE rounding is modelled, nor `toLocaleString`, `toFixed` or percentages.
- `parseFloat`: it is modelled only on the text the amount capture can hold (digits, commas, dots). Exponents, signs and `Infinity` cannot occur in a capture. On the budget amount field it is a parameter, with `None` standing for NaN.
- Missing fields: expense fields are always present. A missing title or category behaves like an empty string: the search never matches it, and the export writes `Untitled` or `Other`.
- Amounts in the export: `amount || 0` is the amount itself, because a NaN amount is not modelled.
- Arrays.StrLe: compares strings by code point, while `sort()` compares UTF-16 code units. The two orders differ only when a character beyond the Basic Multilingual Plane is compared with one in U+E000–U+FFFF, which cannot happen in the ASCII month keys; the model does not capture that difference.
- Unicode: `toLowerCase` maps only ASCII A–Z; case mapping beyond ASCII is not modelled. The whitespace set of `trim` and `\s`, by contrast, is the full ECMAScript set, written out.
- Downloading: the Blob and link steps of the export are not modelled, nor the count and total it displays.
- Other components: the chat replies, charts, summary and theme toggle are not modelled.
- ExpenseParser.AmountWithoutDigits: states that the amount *pattern* matches exactly when the input has an ASCII digit. It does not say that the amount is 0 exactly when there is no digit, because that is false: `add 0` has a digit and the amount 0.
