/**
 * The budget table: one budget amount per category, edited through a form
 * with a category field and an amount field, and compared with the month's
 * spending. Amount text is parsed by a function the manager is given
 * (`parseFloat`, `None` standing for NaN).
 */
module Budgets {
  import opened Wrappers
  import opened Strings
  import opened Arrays

  datatype Budget = Budget(category: String, amount: real)

  /** What `addBudget` does: saves, or shows one of its two error messages. */
  datatype AddOutcome = Saved | MissingField | InvalidAmount

  /** The validation of the form: an error, or the amount to save. */
  datatype Validation = Rejected(outcome: AddOutcome) | Accepted(amount: real)

  /**
   * `!category || !amount` reports the missing field; a NaN or non-positive
   * parsed amount is invalid.
   */
  function Validate(category: String, amountText: String, parse: String -> Option<real>): (r: Validation)
    ensures r.Rejected? ==> r.outcome != Saved
    ensures r.Accepted? <==>
      category != [] && amountText != [] && parse(amountText).Some? && parse(amountText).value > 0.0
    ensures r.Accepted? ==> r.amount == parse(amountText).value
    ensures r == Rejected(MissingField) <==> category == [] || amountText == []
  {
    if category == [] || amountText == [] then Rejected(MissingField)
    else match parse(amountText)
      case None => Rejected(InvalidAmount)
      case Some(amount) => if amount <= 0.0 then Rejected(InvalidAmount) else Accepted(amount)
  }

  /** `findIndex(b => b.category === c)`: the first index with category `c`, or -1. */
  function FindIndex(bs: seq<Budget>, c: String): (r: int)
    ensures -1 <= r < |bs|
    ensures r == -1 <==> forall i :: 0 <= i < |bs| ==> bs[i].category != c
    ensures r >= 0 ==> bs[r].category == c && forall i :: 0 <= i < r ==> bs[i].category != c
  {
    if bs == [] then -1
    else if bs[0].category == c then 0
    else
      var k := FindIndex(bs[1..], c);
      if k == -1 then -1 else k + 1
  }

  /** The list after saving `b`: the first budget of its category is replaced, or `b` is appended. */
  function Upserted(bs: seq<Budget>, b: Budget): (r: seq<Budget>)
    ensures b in r
    ensures forall x :: x in r ==> x == b || x in bs
  {
    var i := FindIndex(bs, b.category);
    if i >= 0 then
      var r := bs[i := b];
      assert forall j :: 0 <= j < |r| ==> r[j] == b || r[j] == bs[j];
      r
    else bs + [b]
  }

  /** `budgets.filter(b => b.category !== c)`. */
  function Removed(bs: seq<Budget>, c: String): (r: seq<Budget>)
    ensures forall x :: x in r <==> x in bs && x.category != c
  {
    FilterMembers(bs, (b: Budget) => b.category != c);
    Filter(bs, (b: Budget) => b.category != c)
  }

  predicate DistinctCategories(bs: seq<Budget>)
  {
    forall i, j :: 0 <= i < j < |bs| ==> bs[i].category != bs[j].category
  }

  /**
   * The amount of the first budget with category `c`. The component has no
   * such lookup: it renders one card per entry. This view states what the
   * upsert and removal lemmas promise, and it agrees with the card shown for
   * `c` while categories are distinct, which `Valid()` keeps.
   */
  function Lookup(bs: seq<Budget>, c: String): Option<real>
  {
    if bs == [] then None
    else if bs[0].category == c then Some(bs[0].amount)
    else Lookup(bs[1..], c)
  }

  // ---------------------------------------------------------------------------
  // Properties of upsert and removal

  lemma {:induction false} LookupFirst(bs: seq<Budget>, c: String)
    ensures Lookup(bs, c) == if FindIndex(bs, c) >= 0 then Some(bs[FindIndex(bs, c)].amount) else None
  {
    if bs != [] && bs[0].category != c {
      LookupFirst(bs[1..], c);
    }
  }

  /** An existing category's first budget takes the new amount; the length and every other entry stay. */
  lemma UpsertExisting(bs: seq<Budget>, b: Budget, i: nat)
    requires i < |bs| && bs[i].category == b.category
    requires forall j :: 0 <= j < i ==> bs[j].category != b.category
    ensures |Upserted(bs, b)| == |bs|
    ensures Upserted(bs, b)[i] == b
    ensures forall j :: 0 <= j < |bs| && j != i ==> Upserted(bs, b)[j] == bs[j]
  {
    assert FindIndex(bs, b.category) == i;
  }

  /** A new category is appended after the unchanged old list. */
  lemma UpsertNew(bs: seq<Budget>, b: Budget)
    requires forall j :: 0 <= j < |bs| ==> bs[j].category != b.category
    ensures Upserted(bs, b) == bs + [b]
  {
  }

  /** Saving keeps the categories pairwise distinct. */
  lemma UpsertKeepsDistinct(bs: seq<Budget>, b: Budget)
    requires DistinctCategories(bs)
    ensures DistinctCategories(Upserted(bs, b))
  {
    var r := Upserted(bs, b);
    var i := FindIndex(bs, b.category);
    forall j, k | 0 <= j < k < |r| ensures r[j].category != r[k].category {
      if i < 0 && k == |bs| {
        assert r[j] == bs[j];
      }
    }
  }

  lemma FindIndexIs(bs: seq<Budget>, c: String, i: int)
    requires -1 <= i < |bs|
    requires i == -1 ==> forall j :: 0 <= j < |bs| ==> bs[j].category != c
    requires i >= 0 ==> bs[i].category == c && forall j :: 0 <= j < i ==> bs[j].category != c
    ensures FindIndex(bs, c) == i
  {
  }

  /** After saving `b`, the table shows `b.amount` for its category and what it showed before for every other one. */
  lemma LookupUpserted(bs: seq<Budget>, b: Budget, c: String)
    ensures Lookup(Upserted(bs, b), c) == if c == b.category then Some(b.amount) else Lookup(bs, c)
  {
    var r := Upserted(bs, b);
    var i := FindIndex(bs, b.category);
    LookupFirst(bs, c);
    LookupFirst(r, c);
    if c == b.category {
      if i >= 0 {
        FindIndexIs(r, c, i);
      } else {
        FindIndexIs(r, c, |bs|);
      }
    } else {
      assert forall j :: 0 <= j < |bs| && j != i ==> r[j] == bs[j];
      assert i < 0 ==> r[|bs|] == b;
      FindIndexIs(r, c, FindIndex(bs, c));
    }
  }

  /**
   * Removing a category drops every budget of that category and keeps all
   * the others, in their original order.
   */
  lemma RemovedSpec(bs: seq<Budget>, c: String) returns (kept: seq<nat>)
    ensures forall j :: 0 <= j < |Removed(bs, c)| ==> Removed(bs, c)[j].category != c
    ensures Embeds(kept, Removed(bs, c), bs)
    ensures forall i :: 0 <= i < |bs| ==> (bs[i].category != c <==> i in kept)
  {
    kept := FilterPositions(bs, (b: Budget) => b.category != c);
    FilterMembers(bs, (b: Budget) => b.category != c);
    assert forall j :: 0 <= j < |Removed(bs, c)| ==> Removed(bs, c)[j] in Removed(bs, c);
  }

  /** Removing a category that has no budget changes nothing. */
  lemma RemoveAbsent(bs: seq<Budget>, c: String)
    requires forall i :: 0 <= i < |bs| ==> bs[i].category != c
    ensures Removed(bs, c) == bs
  {
    FilterAll(bs, (b: Budget) => b.category != c);
  }

  /** After removing `c`, the table shows nothing for `c` and what it showed before for every other category. */
  lemma {:induction false} LookupRemoved(bs: seq<Budget>, c: String, d: String)
    ensures Lookup(Removed(bs, c), d) == if d == c then None else Lookup(bs, d)
  {
    if bs != [] {
      LookupRemoved(bs[1..], c, d);
      var r := Removed(bs, c);
      if bs[0].category != c {
        assert r == [bs[0]] + Removed(bs[1..], c);
        assert r[0] == bs[0] && r[1..] == Removed(bs[1..], c);
      } else {
        assert r == Removed(bs[1..], c);
      }
    }
  }

  /** Removing keeps the categories pairwise distinct. */
  lemma RemoveKeepsDistinct(bs: seq<Budget>, c: String)
    requires DistinctCategories(bs)
    ensures DistinctCategories(Removed(bs, c))
  {
    var kept := RemovedSpec(bs, c);
    var r := Removed(bs, c);
    forall j, k | 0 <= j < k < |r| ensures r[j].category != r[k].category {
      assert r[j] == bs[kept[j]] && r[k] == bs[kept[k]] && kept[j] < kept[k];
    }
  }

  // ---------------------------------------------------------------------------
  // Spending against the budget

  /** `currentSpending[c] || 0`: a category without spending has spent 0. */
  function Spent(spending: map<String, real>, c: String): (r: real)
    ensures c !in spending ==> r == 0.0
    ensures c in spending ==> r == spending[c]
  {
    if c in spending then spending[c] else 0.0
  }

  /** `spent > budget.amount`. */
  predicate IsOverBudget(spending: map<String, real>, b: Budget)
  {
    Spent(spending, b.category) > b.amount
  }

  /** A positive budget whose category has no spending is never over budget. */
  lemma NoSpendingNotOver(spending: map<String, real>, b: Budget)
    requires b.category !in spending && b.amount > 0.0
    ensures !IsOverBudget(spending, b)
  {
  }

  /** A budget is flagged exactly when its amount is below what its category has spent. */
  lemma OverBudgetThreshold(spending: map<String, real>, c: String, a: real)
    ensures IsOverBudget(spending, Budget(c, a)) <==> a < Spent(spending, c)
  {
  }

  // ---------------------------------------------------------------------------
  // The component state

  class BudgetManager {
    /** The saved budgets. */
    var budgets: seq<Budget>
    /** The category field of the form. */
    var newCategory: String
    /** The amount field of the form, as typed. */
    var newAmount: String
    /** `parseFloat` on the amount field. */
    const parseAmount: String -> Option<real>

    /** What `addBudget` and `removeBudget` maintain: positive amounts, one budget per category. */
    predicate Valid()
      reads this
    {
      DistinctCategories(budgets) && forall i :: 0 <= i < |budgets| ==> budgets[i].amount > 0.0
    }

    /** The initial state: no budgets and an empty form. */
    constructor (parseAmount: String -> Option<real>)
      ensures budgets == [] && newCategory == [] && newAmount == []
      ensures this.parseAmount == parseAmount
      ensures Valid()
    {
      budgets := [];
      newCategory := [];
      newAmount := [];
      this.parseAmount := parseAmount;
    }

    /** The category field's `onChange`. */
    method SetNewCategory(category: String)
      modifies this
      ensures newCategory == category
      ensures budgets == old(budgets) && newAmount == old(newAmount)
    {
      newCategory := category;
    }

    /** The amount field's `onChange`. */
    method SetNewAmount(amount: String)
      modifies this
      ensures newAmount == amount
      ensures budgets == old(budgets) && newCategory == old(newCategory)
    {
      newAmount := amount;
    }

    /**
     * `addBudget`: validates the form; on success saves the budget (an
     * update of the first budget of that category, or an append) and clears
     * the form; on an error changes nothing.
     */
    method AddBudget() returns (outcome: AddOutcome)
      modifies this
      ensures var v := Validate(old(newCategory), old(newAmount), parseAmount);
        outcome == (if v.Accepted? then Saved else v.outcome)
      ensures outcome == Saved ==>
        && budgets == Upserted(old(budgets), Budget(old(newCategory), parseAmount(old(newAmount)).value))
        && newCategory == [] && newAmount == []
      ensures outcome != Saved ==>
        budgets == old(budgets) && newCategory == old(newCategory) && newAmount == old(newAmount)
      ensures old(Valid()) ==> Valid()
    {
      if newCategory == [] || newAmount == [] {
        return MissingField;
      }
      var parsed := parseAmount(newAmount);
      if parsed.None? || parsed.value <= 0.0 {
        return InvalidAmount;
      }
      var amount := parsed.value;
      var budget := Budget(newCategory, amount);
      var existingIndex := FindIndex(budgets, newCategory);
      var updated: seq<Budget>;
      if existingIndex >= 0 {
        updated := budgets[existingIndex := budget];
      } else {
        updated := budgets + [budget];
      }
      assert updated == Upserted(budgets, budget);
      if Valid() {
        UpsertKeepsDistinct(budgets, budget);
      }
      budgets := updated;
      newCategory := [];
      newAmount := [];
      outcome := Saved;
    }

    /** `removeBudget(category)`. */
    method RemoveBudget(category: String)
      modifies this
      ensures budgets == Removed(old(budgets), category)
      ensures newCategory == old(newCategory) && newAmount == old(newAmount)
      ensures old(Valid()) ==> Valid()
    {
      var updated := Removed(budgets, category);
      if Valid() {
        RemoveKeepsDistinct(budgets, category);
        FilterMembers(budgets, (b: Budget) => b.category != category);
        assert forall j :: 0 <= j < |updated| ==> updated[j] in updated;
      }
      budgets := updated;
    }
  }
}
