/**
 * The expense schema (backend/models/Expense.js): the required fields, the category enum,
 * and the pre-save hook that derives week, month and year from the expense date.
 *
 * Saving follows Mongoose: the validators run first, and only a valid document reaches the
 * hook and the store.
 */
module ExpenseModel {
  import opened Common
  import opened Calendar

  /** The `enum` of `category`. */
  const Categories: seq<string> := ["Food", "Transport", "Bills", "Shopping", "Health", "Others"]

  /** `Math.ceil(day / 7)`: the week of the month a day of the month falls in. */
  function WeekOfMonth(day: int): (w: int)
    requires 1 <= day <= 31
    ensures 1 <= w <= 5
    ensures 7 * (w - 1) < day <= 7 * w
  {
    (day + 6) / 7
  }

  /** The week of the month is the only one whose seven days contain the day. */
  lemma WeekOfMonthUnique(day: int, w: int)
    requires 1 <= day <= 31
    requires 7 * (w - 1) < day <= 7 * w
    ensures w == WeekOfMonth(day)
  {
  }

  /** The fields the hook writes: week of the month, one-based month and full year. */
  datatype Derived = Derived(week: int, month: int, year: int)

  function DeriveFromDate(d: Date): (r: Derived)
    ensures 1 <= r.week <= 5 && 7 * (r.week - 1) < d.day <= 7 * r.week
    ensures 1 <= r.month <= 12 && r.month - 1 == d.month
    ensures r.year == d.year
  {
    Derived(WeekOfMonth(d.day), d.month + 1, d.year)
  }

  /** Two dates derive the same fields exactly when they share year, month and week of month. */
  lemma DeriveFromDateSameWeek(a: Date, b: Date)
    ensures DeriveFromDate(a) == DeriveFromDate(b) <==>
              a.year == b.year && a.month == b.month && (a.day - 1) / 7 == (b.day - 1) / 7
  {
  }

  /** The paths whose validators reject an expense. */
  function ExpenseErrors(user: Option<nat>, amount: Option<real>, category: Option<string>,
                         date: Option<Date>): (errs: set<string>)
    ensures errs <= {"user", "amount", "category", "date"}
    ensures "user" in errs <==> user.None?
    ensures "amount" in errs <==> amount.None?
    ensures "category" in errs <==> category.None? || category.value !in Categories
    ensures "date" in errs <==> date.None?
  {
    (if user.Some? then {} else {"user"})
    + (if amount.Some? then {} else {"amount"})
    + (if HasText(category) && category.value in Categories then {} else {"category"})
    + (if date.Some? then {} else {"date"})
  }

  /** An expense document; `None` is a field left undefined. */
  class Expense {
    var user: Option<nat>
    var amount: Option<real>
    var category: Option<string>
    var description: Option<string>
    var date: Option<Date>
    var week: Option<int>
    var month: Option<int>
    var year: Option<int>

    constructor (user: Option<nat>, amount: Option<real>, category: Option<string>,
                 description: Option<string>, date: Option<Date>,
                 week: Option<int>, month: Option<int>, year: Option<int>)
      ensures this.user == user && this.amount == amount && this.category == category
      ensures this.description == description && this.date == date
      ensures this.week == week && this.month == month && this.year == year
    {
      this.user := user;
      this.amount := amount;
      this.category := category;
      this.description := description;
      this.date := date;
      this.week := week;
      this.month := month;
      this.year := year;
    }

    function Errors(): set<string>
      reads this
    {
      ExpenseErrors(user, amount, category, date)
    }

    /** A stored expense: valid, with week, month and year derived from its date. */
    ghost predicate Stored()
      reads this
    {
      && Errors() == {}
      && var d := DeriveFromDate(date.value);
         week == Some(d.week) && month == Some(d.month) && year == Some(d.year)
    }

    /** The `pre('save')` hook. */
    method PreSave()
      requires date.Some?
      modifies this
      ensures week == Some(WeekOfMonth(old(date).value.day))
      ensures month == Some(old(date).value.month + 1)
      ensures year == Some(old(date).value.year)
      ensures user == old(user) && amount == old(amount) && category == old(category)
      ensures description == old(description) && date == old(date)
    {
      var d := date.value;
      week := Some((d.day + 6) / 7);
      month := Some(d.month + 1);
      year := Some(d.year);
    }

    /**
     * `save()`: a document failing validation is rejected unchanged; a valid one has its week,
     * month and year overwritten from its date, whatever they held before.
     */
    method Save() returns (errors: set<string>)
      modifies this
      ensures errors == old(Errors())
      ensures errors != {} ==>
                week == old(week) && month == old(month) && year == old(year) && date == old(date)
      ensures errors == {} ==> Stored()
      ensures errors == {} ==>
                week == Some(DeriveFromDate(old(date).value).week)
                && month == Some(DeriveFromDate(old(date).value).month)
                && year == Some(DeriveFromDate(old(date).value).year)
      ensures user == old(user) && amount == old(amount) && category == old(category)
      ensures description == old(description) && date == old(date)
    {
      errors := Errors();
      if errors == {} {
        PreSave();
      }
    }
  }
}
