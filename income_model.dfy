/**
 * The income schema (backend/models/Income.js): the `fixed`/`variable` type with its default,
 * the required fields, and the pre-save hook that derives month and year from the date.
 */
module IncomeModel {
  import opened Common
  import opened Calendar

  /** The `enum` of `type`. */
  const IncomeTypes: seq<string> := ["fixed", "variable"]

  /** The `default` of `type`, applied when the document is built with the field undefined. */
  function TypeWithDefault(kind: Option<string>): (r: string)
    ensures kind.None? ==> r == "variable"
    ensures kind.Some? ==> r == kind.value
  {
    kind.GetOr("variable")
  }

  /** The paths whose validators reject an income document (after the default is applied). */
  function IncomeErrors(user: Option<nat>, kind: string, source: Option<string>,
                        amount: Option<real>, date: Option<Date>): (errs: set<string>)
    ensures errs <= {"user", "type", "source", "amount", "date"}
    ensures "user" in errs <==> user.None?
    ensures "type" in errs <==> kind !in IncomeTypes
    ensures "source" in errs <==> source.None? || source.value == ""
    ensures "amount" in errs <==> amount.None?
    ensures "date" in errs <==> date.None?
  {
    (if user.Some? then {} else {"user"})
    + (if kind != "" && kind in IncomeTypes then {} else {"type"})
    + (if HasText(source) then {} else {"source"})
    + (if amount.Some? then {} else {"amount"})
    + (if date.Some? then {} else {"date"})
  }

  /** Leaving `type` undefined never fails its validator. */
  lemma DefaultTypeValid(user: Option<nat>, source: Option<string>, amount: Option<real>,
                         date: Option<Date>)
    ensures "type" !in IncomeErrors(user, TypeWithDefault(None), source, amount, date)
  {
  }

  /** An income document; `None` is a field left undefined. */
  class Income {
    var user: Option<nat>
    var kind: string
    var source: Option<string>
    var amount: Option<real>
    var date: Option<Date>
    var note: Option<string>
    var month: Option<int>
    var year: Option<int>

    /** `new Income({...})`: the default of `type` is applied here. */
    constructor (user: Option<nat>, kind: Option<string>, source: Option<string>,
                 amount: Option<real>, date: Option<Date>, note: Option<string>,
                 month: Option<int>, year: Option<int>)
      ensures this.user == user && this.kind == TypeWithDefault(kind) && this.source == source
      ensures this.amount == amount && this.date == date && this.note == note
      ensures this.month == month && this.year == year
    {
      this.user := user;
      this.kind := TypeWithDefault(kind);
      this.source := source;
      this.amount := amount;
      this.date := date;
      this.note := note;
      this.month := month;
      this.year := year;
    }

    function Errors(): set<string>
      reads this
    {
      IncomeErrors(user, kind, source, amount, date)
    }

    /** A stored income: valid, with month and year derived from its date. */
    ghost predicate Stored()
      reads this
    {
      && Errors() == {}
      && month == Some(date.value.month + 1) && year == Some(date.value.year)
      && 1 <= month.value <= 12
    }

    /** The `pre('save')` hook. */
    method PreSave()
      requires date.Some?
      modifies this
      ensures month == Some(old(date).value.month + 1) && year == Some(old(date).value.year)
      ensures user == old(user) && kind == old(kind) && source == old(source)
      ensures amount == old(amount) && date == old(date) && note == old(note)
    {
      month := Some(date.value.month + 1);
      year := Some(date.value.year);
    }

    /**
     * `save()`: a document failing validation is rejected unchanged; a valid one has month and
     * year recomputed from its date, overriding whatever they held.
     */
    method Save() returns (errors: set<string>)
      modifies this
      ensures errors == old(Errors())
      ensures errors != {} ==> month == old(month) && year == old(year)
      ensures errors == {} ==> Stored()
      ensures user == old(user) && kind == old(kind) && source == old(source)
      ensures amount == old(amount) && date == old(date) && note == old(note)
    {
      errors := Errors();
      if errors == {} {
        PreSave();
      }
    }
  }
}
