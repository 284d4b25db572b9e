/**
 * The reminder schema (backend/models/Reminder.js): which fields a reminder document must
 * carry, depending on its type, and the defaults it receives.
 *
 * Validation follows Mongoose: a `required` string fails when it is missing or empty, any
 * other `required` value fails when it is missing, and `enum` admits only the listed strings.
 */
module ReminderModel {
  import opened Common
  import opened Calendar

  datatype ReminderKind = SpendingLimit | Weekly | Monthly | Custom

  /** The string the `type` field stores for each kind. */
  function KindName(k: ReminderKind): string {
    match k
    case SpendingLimit => "spending_limit"
    case Weekly => "weekly"
    case Monthly => "monthly"
    case Custom => "custom"
  }

  /** The `enum` of the `type` field: exactly the four names, each naming its own kind. */
  function ParseKind(s: string): (r: Option<ReminderKind>)
    ensures r.Some? <==> s in ["spending_limit", "weekly", "monthly", "custom"]
    ensures r.Some? ==> KindName(r.value) == s
  {
    if s == "spending_limit" then Some(SpendingLimit)
    else if s == "weekly" then Some(Weekly)
    else if s == "monthly" then Some(Monthly)
    else if s == "custom" then Some(Custom)
    else None
  }

  /** Every kind's stored name parses back to that kind. */
  lemma ParseKindName(k: ReminderKind)
    ensures ParseKind(KindName(k)) == Some(k)
  {
  }

  /** The fields handed to `new Reminder({...})`; `None` is a field left undefined. */
  datatype ReminderInput = ReminderInput(
    title: Option<string>,
    description: Option<string>,
    kind: Option<string>,
    limitAmount: Option<real>,
    startDate: Option<Date>,
    nextReminderDate: Option<Date>,
    reminderTime: Option<string>,
    isActive: Option<bool>,
    isRead: Option<bool>,
    userId: Option<nat>)

  /** A stored reminder document. */
  datatype Reminder = Reminder(
    id: nat,
    userId: nat,
    title: string,
    description: string,
    kind: ReminderKind,
    limitAmount: Option<real>,
    startDate: Option<Date>,
    nextReminderDate: Option<Date>,
    reminderTime: Option<string>,
    isActive: bool,
    isRead: bool)

  /** The paths whose validators reject the document. */
  function FailingPaths(doc: ReminderInput): set<string> {
    var timeBased := doc.kind != Some("spending_limit");
    (if HasText(doc.title) then {} else {"title"})
    + (if HasText(doc.kind) && ParseKind(doc.kind.value).Some? then {} else {"type"})
    + (if !timeBased && doc.limitAmount.None? then {"limitAmount"} else {})
    + (if timeBased && doc.startDate.None? then {"startDate"} else {})
    + (if timeBased && doc.nextReminderDate.None? then {"nextReminderDate"} else {})
    + (if timeBased && !HasText(doc.reminderTime) then {"reminderTime"} else {})
    + (if doc.userId.Some? then {} else {"userId"})
  }

  /** What every stored reminder satisfies. */
  predicate WellFormed(r: Reminder) {
    && r.title != ""
    && (r.kind == SpendingLimit ==> r.limitAmount.Some?)
    && (r.kind != SpendingLimit ==>
          r.startDate.Some? && r.nextReminderDate.Some? && HasText(r.reminderTime))
  }

  /** Validation of a new document, with the defaults applied; `id` is the identity it is saved under. */
  function Validate(doc: ReminderInput, id: nat): Result<Reminder, set<string>> {
    if FailingPaths(doc) != {} then Err(FailingPaths(doc))
    else
      Ok(Reminder(id, doc.userId.value, doc.title.value, doc.description.GetOr(""),
                  ParseKind(doc.kind.value).value, doc.limitAmount, doc.startDate,
                  doc.nextReminderDate, doc.reminderTime,
                  doc.isActive.GetOr(true), doc.isRead.GetOr(false)))
  }

  /** The document a stored reminder is read back as. */
  function AsInput(r: Reminder): ReminderInput {
    ReminderInput(Some(r.title), Some(r.description), Some(KindName(r.kind)), r.limitAmount,
                  r.startDate, r.nextReminderDate, r.reminderTime, Some(r.isActive),
                  Some(r.isRead), Some(r.userId))
  }

  /** Each validator, stated on its own. */
  lemma FailingPathsCases(doc: ReminderInput)
    ensures "type" in FailingPaths(doc) <==>
              doc.kind.None? || doc.kind.value !in ["spending_limit", "weekly", "monthly", "custom"]
    ensures "limitAmount" in FailingPaths(doc) <==>
              doc.kind == Some("spending_limit") && doc.limitAmount.None?
    ensures "startDate" in FailingPaths(doc) <==>
              doc.kind != Some("spending_limit") && doc.startDate.None?
    ensures "nextReminderDate" in FailingPaths(doc) <==>
              doc.kind != Some("spending_limit") && doc.nextReminderDate.None?
    ensures "reminderTime" in FailingPaths(doc) <==>
              doc.kind != Some("spending_limit") && (doc.reminderTime.None? || doc.reminderTime.value == "")
    ensures "title" in FailingPaths(doc) <==> doc.title.None? || doc.title.value == ""
    ensures "userId" in FailingPaths(doc) <==> doc.userId.None?
  {
  }

  /**
   * A document is accepted exactly when no validator fails; the saved reminder is well formed,
   * keeps the given fields and takes `""`, `true` and `false` for a missing description,
   * isActive and isRead.
   */
  lemma ValidateAccepts(doc: ReminderInput, id: nat)
    ensures Validate(doc, id).Ok? <==> FailingPaths(doc) == {}
    ensures Validate(doc, id).Err? ==> Validate(doc, id).error == FailingPaths(doc)
    ensures Validate(doc, id).Ok? ==>
              var r := Validate(doc, id).value;
              && WellFormed(r) && r.id == id
              && Some(r.title) == doc.title && Some(KindName(r.kind)) == doc.kind
              && Some(r.userId) == doc.userId
              && r.description == (if doc.description.Some? then doc.description.value else "")
              && r.isActive == (doc.isActive != Some(false))
              && r.isRead == (doc.isRead == Some(true))
              && r.limitAmount == doc.limitAmount && r.startDate == doc.startDate
              && r.nextReminderDate == doc.nextReminderDate && r.reminderTime == doc.reminderTime
  {
    if FailingPaths(doc) == {} {
      FailingPathsCases(doc);
    }
  }

  /** Every well-formed reminder, read back as a document, validates to itself. */
  lemma ValidateRoundTrip(r: Reminder)
    requires WellFormed(r)
    ensures Validate(AsInput(r), r.id) == Ok(r)
  {
    FailingPathsCases(AsInput(r));
    ParseKindName(r.kind);
  }
}
