/**
 * The rules of src/components/BudgetForm.jsx: the initial form, the prefill from a budget
 * being edited, the required-field guard and the payload handed to `onSubmit`.
 *
 * `parseFloat`, `parseInt` (both on strings) and `Number.prototype.toString` are parameters.
 */
module BudgetForm {
  import opened Common
  import opened JsNumber
  import ExpenseModel
  import TransactionForm

  const Categories: seq<string> := ["Food", "Transport", "Bills", "Shopping", "Health", "Others"]

  /** The budget form offers exactly the categories the expense schema and the transaction form accept. */
  lemma SameCategoriesEverywhere()
    ensures Categories == ExpenseModel.Categories == TransactionForm.ExpenseCategories
  {
  }

  /** `alertThreshold` holds a number until its input is edited, then the input's text. */
  datatype Threshold = Number(n: Num) | Text(s: string)

  datatype FormData = FormData(category: string, budgetAmount: string, period: string,
                               alertThreshold: Threshold, alertEnabled: bool)

  const InitialForm: FormData := FormData("", "", "monthly", Number(Finite(80.0)), true)

  /** The budget being edited; `None` (or NaN for the threshold) is a field left undefined. */
  datatype BudgetRecord = BudgetRecord(category: Option<string>, budgetAmount: Option<Num>,
                                       period: Option<string>, alertThreshold: Num,
                                       alertEnabled: Option<bool>)

  /** `budget.budgetAmount?.toString() || ''`. */
  function AmountText(amount: Option<Num>, toText: Num -> string): string {
    TextOr(if amount.Some? then Some(toText(amount.value)) else None, "")
  }

  /** The effect on `formData`: a budget replaces it, no budget leaves it as it is. */
  function Prefill(current: FormData, budget: Option<BudgetRecord>, toText: Num -> string): FormData {
    match budget
    case None => current
    case Some(b) =>
      FormData(TextOr(b.category, ""), AmountText(b.budgetAmount, toText), TextOr(b.period, "monthly"),
               Number(Or(b.alertThreshold, Finite(80.0))), b.alertEnabled.GetOr(true))
  }

  /**
   * Prefill defaults: a missing or empty category becomes `''` and period `'monthly'`; the
   * threshold is 80 whenever the budget's is falsy (missing, NaN or 0) and kept otherwise; the
   * alert flag is true only when missing, so an explicit false is kept.
   */
  lemma PrefillDefaults(current: FormData, b: BudgetRecord, toText: Num -> string)
    ensures var f := Prefill(current, Some(b), toText);
            && (f.category == "" <==> !HasText(b.category))
            && (HasText(b.category) ==> f.category == b.category.value)
            && (!HasText(b.period) ==> f.period == "monthly")
            && (HasText(b.period) ==> f.period == b.period.value)
            && (!Truthy(b.alertThreshold) ==> f.alertThreshold == Number(Finite(80.0)))
            && (b.alertThreshold == Zero ==> f.alertThreshold == Number(Finite(80.0)))
            && (Truthy(b.alertThreshold) ==> f.alertThreshold == Number(b.alertThreshold))
            && (f.alertEnabled <==> b.alertEnabled != Some(false))
            && (b.budgetAmount.None? ==> f.budgetAmount == "")
  {
  }

  /** `handleInputChange`: one field takes the new value. */
  datatype Edit =
    | SetCategory(category: string)
    | SetBudgetAmount(amount: string)
    | SetPeriod(period: string)
    | SetAlertThreshold(text: string)
    | SetAlertEnabled(enabled: bool)

  function HandleInputChange(f: FormData, e: Edit): (r: FormData)
    ensures e.SetCategory? ==> r == f.(category := e.category)
    ensures e.SetBudgetAmount? ==> r == f.(budgetAmount := e.amount)
    ensures e.SetPeriod? ==> r == f.(period := e.period)
    ensures e.SetAlertThreshold? ==> r == f.(alertThreshold := Text(e.text))
    ensures e.SetAlertEnabled? ==> r == f.(alertEnabled := e.enabled)
  {
    match e
    case SetCategory(c) => f.(category := c)
    case SetBudgetAmount(a) => f.(budgetAmount := a)
    case SetPeriod(p) => f.(period := p)
    case SetAlertThreshold(t) => f.(alertThreshold := Text(t))
    case SetAlertEnabled(b) => f.(alertEnabled := b)
  }

  /** What `onSubmit` receives. */
  datatype Payload = Payload(category: string, budgetAmount: Num, period: string,
                             alertThreshold: Num, alertEnabled: bool)

  /** The string `parseInt` reads: a number is first converted with `toString`. */
  function ThresholdText(t: Threshold, toText: Num -> string): string {
    match t
    case Number(n) => toText(n)
    case Text(s) => s
  }

  /** `handleSubmit`: the guard, then the form with the amount and the threshold converted. */
  function Submit(f: FormData, parseFloat: string -> Num, parseInt: string -> Num,
                  toText: Num -> string): Result<Payload, string>
  {
    if f.category == "" || f.budgetAmount == "" then Err("Please fill in all required fields")
    else Ok(Payload(f.category, parseFloat(f.budgetAmount), f.period,
                    parseInt(ThresholdText(f.alertThreshold, toText)), f.alertEnabled))
  }

  /**
   * Submission is blocked exactly when category or amount is empty; otherwise the payload is
   * the form data with the amount parsed as a float and the threshold as an integer.
   */
  lemma SubmitCases(f: FormData, parseFloat: string -> Num, parseInt: string -> Num,
                    toText: Num -> string)
    ensures var r := Submit(f, parseFloat, parseInt, toText);
            && (r.Err? <==> f.category == "" || f.budgetAmount == "")
            && (r.Err? ==> r.error == "Please fill in all required fields")
            && (r.Ok? ==>
                  && r.value.category == f.category && r.value.period == f.period
                  && r.value.alertEnabled == f.alertEnabled
                  && r.value.budgetAmount == parseFloat(f.budgetAmount)
                  && r.value.alertThreshold == parseInt(ThresholdText(f.alertThreshold, toText)))
  {
  }

  /** A new budget cannot be submitted before its category and amount are filled in. */
  lemma InitialFormBlocked(parseFloat: string -> Num, parseInt: string -> Num, toText: Num -> string)
    ensures Submit(InitialForm, parseFloat, parseInt, toText).Err?
    ensures Submit(InitialForm.(category := "Food"), parseFloat, parseInt, toText).Err?
  {
  }

  /**
   * Editing a budget and submitting it unchanged hands back the budget's own category,
   * amount, period, threshold and flag, provided the number conversions round-trip.
   */
  lemma {:induction false} EditRoundTrip(current: FormData, b: BudgetRecord, parseFloat: string -> Num,
                                         parseInt: string -> Num, toText: Num -> string)
    requires HasText(b.category) && HasText(b.period) && b.budgetAmount.Some?
    requires toText(b.budgetAmount.value) != "" && parseFloat(toText(b.budgetAmount.value)) == b.budgetAmount.value
    requires Truthy(b.alertThreshold) && parseInt(toText(b.alertThreshold)) == b.alertThreshold
    requires b.alertEnabled.Some?
    ensures Submit(Prefill(current, Some(b), toText), parseFloat, parseInt, toText)
            == Ok(Payload(b.category.value, b.budgetAmount.value, b.period.value,
                          b.alertThreshold, b.alertEnabled.value))
  {
    var f := Prefill(current, Some(b), toText);
    assert f.category == b.category.value && f.budgetAmount == toText(b.budgetAmount.value);
    assert f.alertThreshold == Number(b.alertThreshold);
  }
}
