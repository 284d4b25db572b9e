/**
 * The rules of src/components/UnifiedTransactionForm.jsx: the form's initial and reset
 * contents, field edits clearing feedback, the amount check in `handleSubmit`, the shape of
 * the income and expense payloads, and the feedback shown for the server's reply.
 *
 * `parseFloat`, today's date string and the server (the reply it gives to a payload) are
 * parameters.
 */
module TransactionForm {
  import opened Common
  import opened JsNumber

  const ExpenseCategories: seq<string> := ["Food", "Transport", "Bills", "Shopping", "Health", "Others"]
  const IncomeTypes: seq<string> := ["Salary", "Bonus", "Investment", "Freelance", "Gift", "Other"]

  /** The fields of `formData`. */
  const FormFields: set<string> := {"type", "amount", "date", "category", "description", "source", "incomeType", "note"}

  /** `formData`: field name to input text. */
  type Form = map<string, string>

  datatype Feedback = Feedback(kind: string, message: string)

  const NoFeedback: Feedback := Feedback("", "")

  datatype FormState = FormState(form: Form, feedback: Feedback)

  predicate HasAllFields(f: Form) {
    FormFields <= f.Keys
  }

  /** The form on first render and after a successful submission. */
  function InitialForm(today: string): (f: Form)
    ensures f.Keys == FormFields
  {
    map["type" := "expense", "amount" := "", "date" := today, "category" := "Food",
        "description" := "", "source" := "", "incomeType" := "Salary", "note" := ""]
  }

  /** `handleChange`: sets one field; an existing feedback message is cleared first. */
  function HandleChange(s: FormState, name: string, value: string): (r: FormState)
    ensures r.form == s.form[name := value]
    ensures r.feedback.message == ""
    ensures s.feedback.message == "" ==> r.feedback == s.feedback
    ensures HasAllFields(s.form) ==> HasAllFields(r.form)
  {
    FormState(s.form[name := value], if s.feedback.message != "" then NoFeedback else s.feedback)
  }

  /** `handleTypeChange`: switches income/expense and leaves the feedback alone. */
  function HandleTypeChange(s: FormState, kind: string): (r: FormState)
    ensures r.form == s.form["type" := kind] && r.feedback == s.feedback
    ensures HasAllFields(s.form) ==> HasAllFields(r.form)
  {
    FormState(s.form["type" := kind], s.feedback)
  }

  /** The guard of `handleSubmit`: an empty amount, or one that parses to at most 0. */
  predicate AmountRejected(amount: string, parseFloat: string -> Num) {
    amount == "" || Le(parseFloat(amount), Zero)
  }

  /** A fresh or reset form cannot be submitted: its amount is empty. */
  lemma InitialFormRejected(today: string, parseFloat: string -> Num)
    ensures AmountRejected(InitialForm(today)["amount"], parseFloat)
  {
  }

  datatype Value = Text(s: string) | Number(n: Num)

  /** `transactionData`: the common fields, then the income or the expense fields. */
  function Payload(f: Form, parseFloat: string -> Num): map<string, Value>
    requires HasAllFields(f)
  {
    map["transactionType" := Text(f["type"]), "amount" := Number(parseFloat(f["amount"])), "date" := Text(f["date"])]
    + if f["type"] == "income" then
        map["source" := Text(f["source"]), "incomeType" := Text(f["incomeType"]), "note" := Text(f["note"])]
      else
        map["category" := Text(f["category"]), "description" := Text(f["description"])]
  }

  /**
   * Every payload has the type, the parsed amount and the date; an income payload has
   * exactly source, income type and note besides, never category or description, and an
   * expense payload (any type other than `income`) exactly category and description.
   */
  lemma PayloadShape(f: Form, parseFloat: string -> Num)
    requires HasAllFields(f)
    ensures var p := Payload(f, parseFloat);
            && p["transactionType"] == Text(f["type"])
            && p["amount"] == Number(parseFloat(f["amount"]))
            && p["date"] == Text(f["date"])
            && (f["type"] == "income" ==>
                  p.Keys == {"transactionType", "amount", "date", "source", "incomeType", "note"}
                  && p["source"] == Text(f["source"]) && p["incomeType"] == Text(f["incomeType"])
                  && p["note"] == Text(f["note"]))
            && (f["type"] != "income" ==>
                  p.Keys == {"transactionType", "amount", "date", "category", "description"}
                  && p["category"] == Text(f["category"]) && p["description"] == Text(f["description"]))
  {
  }

  /** The `budgetAlert` of a reply. */
  datatype Alert = Alert(kind: string, message: string)

  /** The server's reply to a payload: created, with or without a budget alert, or an error. */
  datatype Reply = Created(budgetAlert: Option<Alert>) | Failed(message: string)

  /** The feedback kind after a created transaction. */
  function FeedbackKind(alert: Option<Alert>): (k: string)
    ensures k == "success" <==> alert.None?
    ensures k == "warning" <==> alert.Some? && alert.value.kind == "error"
    ensures k == "info" <==> alert.Some? && alert.value.kind != "error"
  {
    match alert
    case None => "success"
    case Some(a) => if a.kind == "error" then "warning" else "info"
  }

  function CreatedFeedback(f: Form, alert: Option<Alert>): Feedback
    requires HasAllFields(f)
  {
    match alert
    case Some(a) => Feedback(FeedbackKind(alert), "Transaction added! " + a.message)
    case None => Feedback(FeedbackKind(alert),
                          (if f["type"] == "income" then "Income" else "Expense") + " added successfully!")
  }

  /** The new state and the request sent, if any. */
  datatype Outcome = Outcome(state: FormState, request: Option<map<string, Value>>)

  /** `handleSubmit`. */
  function Submit(s: FormState, parseFloat: string -> Num, today: string,
                  server: map<string, Value> -> Reply): Outcome
    requires HasAllFields(s.form)
  {
    if AmountRejected(s.form["amount"], parseFloat) then
      Outcome(s.(feedback := Feedback("error", "Please enter a valid amount.")), None)
    else
      var payload := Payload(s.form, parseFloat);
      match server(payload)
      case Created(alert) => Outcome(FormState(InitialForm(today), CreatedFeedback(s.form, alert)), Some(payload))
      case Failed(m) => Outcome(FormState(s.form, Feedback("error", "Error: " + m)), Some(payload))
  }

  /**
   * A rejected amount sends nothing and keeps the form; otherwise the payload is sent, a
   * created transaction resets the form and maps the alert to the feedback kind, and a
   * failure keeps the form and reports the server's message.
   */
  lemma SubmitCases(s: FormState, parseFloat: string -> Num, today: string,
                    server: map<string, Value> -> Reply)
    requires HasAllFields(s.form)
    ensures var o := Submit(s, parseFloat, today, server);
            && (o.request.None? <==> AmountRejected(s.form["amount"], parseFloat))
            && (o.request.None? ==> o.state.form == s.form && o.state.feedback.kind == "error")
            && (o.request.Some? ==> o.request.value == Payload(s.form, parseFloat))
            && (o.request.Some? && server(o.request.value).Created? ==>
                  o.state.form == InitialForm(today)
                  && o.state.feedback.kind == FeedbackKind(server(o.request.value).budgetAlert))
            && (o.request.Some? && server(o.request.value).Failed? ==>
                  o.state.form == s.form
                  && o.state.feedback == Feedback("error", "Error: " + server(o.request.value).message))
            && HasAllFields(o.state.form)
  {
  }

  /** An amount that parses to a positive number always goes through the guard. */
  lemma PositiveAmountAccepted(s: FormState, parseFloat: string -> Num, x: real)
    requires HasAllFields(s.form) && s.form["amount"] != "" && parseFloat(s.form["amount"]) == Finite(x) && x > 0.0
    ensures Submit(s, parseFloat, "", (p: map<string, Value>) => Failed("")).request.Some?
  {
  }
}
