/**
 * The budget schema (backend/models/Budget.js): category enum, required owner and limit, and
 * the pre-save hook that stamps month and year from the clock at save time. The clock is the
 * `now` parameter.
 */
module BudgetModel {
  import opened Common
  import opened Calendar
  import ExpenseModel

  /** The `enum` of `category`. */
  const BudgetCategories: seq<string> := ["Food", "Transport", "Bills", "Shopping", "Health", "Others"]

  /** Budgets are kept in the same six categories as expenses. */
  lemma SameCategoriesAsExpenses()
    ensures BudgetCategories == ExpenseModel.Categories
  {
  }

  /** The paths whose validators reject a budget document. */
  function BudgetErrors(user: Option<nat>, category: Option<string>, limit: Option<real>): (errs: set<string>)
    ensures errs <= {"user", "category", "limit"}
    ensures "user" in errs <==> user.None?
    ensures "category" in errs <==> category.None? || category.value !in BudgetCategories
    ensures "limit" in errs <==> limit.None?
  {
    (if user.Some? then {} else {"user"})
    + (if HasText(category) && category.value in BudgetCategories then {} else {"category"})
    + (if limit.Some? then {} else {"limit"})
  }

  /** A budget document; `None` is a field left undefined. */
  class Budget {
    var user: Option<nat>
    var category: Option<string>
    var limit: Option<real>
    var month: Option<int>
    var year: Option<int>

    constructor (user: Option<nat>, category: Option<string>, limit: Option<real>,
                 month: Option<int>, year: Option<int>)
      ensures this.user == user && this.category == category && this.limit == limit
      ensures this.month == month && this.year == year
    {
      this.user := user;
      this.category := category;
      this.limit := limit;
      this.month := month;
      this.year := year;
    }

    function Errors(): set<string>
      reads this
    {
      BudgetErrors(user, category, limit)
    }

    /** The `pre('save')` hook: month and year of the save-time clock, not of any record field. */
    method PreSave(now: Date)
      modifies this
      ensures month == Some(now.month + 1) && year == Some(now.year)
      ensures 1 <= month.value <= 12
      ensures user == old(user) && category == old(category) && limit == old(limit)
    {
      month := Some(now.month + 1);
      year := Some(now.year);
    }

    /**
     * `save()` at clock reading `now`: a document failing validation is rejected unchanged; a
     * valid one gets `now`'s month and year, whatever month and year it was given.
     */
    method Save(now: Date) returns (errors: set<string>)
      modifies this
      ensures errors == old(Errors())
      ensures errors != {} ==> month == old(month) && year == old(year)
      ensures errors == {} ==> month == Some(now.month + 1) && year == Some(now.year)
      ensures user == old(user) && category == old(category) && limit == old(limit)
    {
      errors := Errors();
      if errors == {} {
        PreSave(now);
      }
    }
  }
}
