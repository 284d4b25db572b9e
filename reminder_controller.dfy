/**
 * The reminder controller (backend/controllers/ReminderController.js) over an in-memory
 * store: creating reminders with their first firing date, listing them, the "due today"
 * sweep, the month-to-date spending check, marking as read and deleting.
 *
 * The caller's identity (`req.user.id`) and the clock (`new Date()`) are parameters; the
 * Reminder collection is the store's sequence of documents in insertion order, and the
 * Transaction collection is a sequence of documents handed to the spending check.
 */
module ReminderController {
  import opened Common
  import opened Calendar
  import opened Seqs
  import opened ReminderModel

  // ---------------------------------------------------------------------------------------
  // getNextReminderDate

  /** The date one period after `d`: a week, a month, or `d` itself for any other kind. */
  function NextOccurrence(kind: ReminderKind, d: Date): Date {
    match kind
    case Weekly => AddWeek(d)
    case Monthly => AddMonth(d)
    case _ => d
  }

  /** A recurring advance lands at least a week later; any other kind leaves the date alone. */
  lemma NextOccurrenceAdvances(kind: ReminderKind, d: Date)
    ensures kind == Weekly ==> DayNumber(NextOccurrence(kind, d)) == DayNumber(d) + 7
    ensures kind == Monthly ==>
              DayNumber(NextOccurrence(kind, d)) == MakeDay(d.year, d.month + 1, d.day)
    ensures kind == Weekly || kind == Monthly ==>
              DayNumber(NextOccurrence(kind, d)) >= DayNumber(d) + 7
    ensures kind != Weekly && kind != Monthly ==> NextOccurrence(kind, d) == d
  {
    if kind == Weekly {
      AddWeekIsSevenDays(d);
    } else if kind == Monthly {
      AddMonthIsMakeDay(d);
    }
  }

  /**
   * `getNextReminderDate`: copies the date into a fresh `Date` object and moves it with
   * `setDate(getDate() + 7)` for a weekly reminder or `setMonth(getMonth() + 1)` for a
   * monthly one.
   */
  method GetNextReminderDate(kind: ReminderKind, start: Date) returns (next: Date)
    ensures next == NextOccurrence(kind, start)
  {
    var nextDate := new JsDate(start);
    if kind == Weekly {
      nextDate.SetDate(nextDate.date + 7);
      next := nextDate.Value();
      WeeklyStep(start, next);
    } else if kind == Monthly {
      nextDate.SetMonth(nextDate.month + 1);
      next := nextDate.Value();
      MonthlyStep(start, next);
    } else {
      next := nextDate.Value();
    }
  }

  /** The date `setDate(getDate() + 7)` lands on is the weekly advance. */
  lemma WeeklyStep(start: Date, v: CivilDate)
    requires IsValid(v) && DayNumber(v) == MakeDay(start.year, start.month, start.day + 7)
    ensures v == NextOccurrence(Weekly, start)
  {
    AddWeekIsSevenDays(start);
    DayNumberInjective(v, AddWeek(start));
  }

  /** The date `setMonth(getMonth() + 1)` lands on is the monthly advance. */
  lemma MonthlyStep(start: Date, v: CivilDate)
    requires IsValid(v) && DayNumber(v) == MakeDay(start.year, start.month + 1, start.day)
    ensures v == NextOccurrence(Monthly, start)
  {
    AddMonthIsMakeDay(start);
    DayNumberInjective(v, AddMonth(start));
  }

  // ---------------------------------------------------------------------------------------
  // createReminder

  /** The body of a create request; `None` is a field the client did not send. */
  datatype CreateRequest = CreateRequest(
    title: Option<string>,
    description: Option<string>,
    kind: Option<string>,
    limitAmount: Option<real>,
    startDate: Option<Date>,
    reminderTime: Option<string>)

  /**
   * The first firing date a new reminder is given: one period after the start for weekly and
   * monthly reminders, the start itself for custom ones, and none otherwise. A missing start
   * (`new Date(undefined)`, an invalid date that cannot be stored) gives none.
   */
  function SeededNextDate(kind: Option<string>, startDate: Option<Date>): Option<Date> {
    if kind == Some("weekly") || kind == Some("monthly") then
      if startDate.Some? then Some(NextOccurrence(ParseKind(kind.value).value, startDate.value))
      else None
    else if kind == Some("custom") then startDate
    else None
  }

  lemma SeededNextDateCases(kind: Option<string>, start: Date)
    ensures kind == Some("weekly") ==>
              SeededNextDate(kind, Some(start)).Some?
              && DayNumber(SeededNextDate(kind, Some(start)).value) == DayNumber(start) + 7
    ensures kind == Some("monthly") ==>
              SeededNextDate(kind, Some(start)).Some?
              && SeededNextDate(kind, Some(start)).value == AddMonth(start)
              && DayNumber(SeededNextDate(kind, Some(start)).value) >= DayNumber(start) + 28
    ensures kind == Some("custom") ==> SeededNextDate(kind, Some(start)) == Some(start)
    ensures kind == Some("spending_limit") ==> SeededNextDate(kind, Some(start)) == None
  {
    if kind == Some("weekly") {
      AddWeekIsSevenDays(start);
    } else if kind == Some("monthly") {
      AddMonthIsMakeDay(start);
    }
  }

  /** The document `createReminder` hands to `new Reminder({...})`. */
  function CreateInput(req: CreateRequest, userId: nat, next: Option<Date>): ReminderInput {
    ReminderInput(req.title, req.description, req.kind, req.limitAmount, req.startDate,
                  next, req.reminderTime, None, None, Some(userId))
  }

  // ---------------------------------------------------------------------------------------
  // getTodayReminders

  /** The query of the sweep: the caller's active time-based reminders due on `today`. */
  predicate Due(r: Reminder, userId: nat, today: Date) {
    && r.userId == userId
    && r.isActive
    && r.kind in {Weekly, Monthly, Custom}
    && r.nextReminderDate.Some?
    && DayNumber(today) <= DayNumber(r.nextReminderDate.value) < DayNumber(today) + 1
  }

  /**
   * What the sweep does to a due reminder: a recurring one moves one period on and becomes
   * unread, a custom one is switched off and becomes unread.
   */
  function Fire(r: Reminder): Reminder {
    if (r.kind == Weekly || r.kind == Monthly) && r.nextReminderDate.Some? then
      r.(nextReminderDate := Some(NextOccurrence(r.kind, r.nextReminderDate.value)), isRead := false)
    else if r.kind == Custom then
      r.(isActive := false, isRead := false)
    else r
  }

  function SweepOne(r: Reminder, userId: nat, today: Date): Reminder {
    if Due(r, userId, today) then Fire(r) else r
  }

  /** The store after the sweep. */
  function Swept(rs: seq<Reminder>, userId: nat, today: Date): seq<Reminder> {
    seq(|rs|, i requires 0 <= i < |rs| => SweepOne(rs[i], userId, today))
  }

  /** The sweep's response: the due reminders, in store order, as they are after the update. */
  function FiredDue(rs: seq<Reminder>, userId: nat, today: Date): seq<Reminder> {
    FilterMap(rs, (r: Reminder) => Due(r, userId, today), Fire)
  }

  /** `Due`'s date window is "the next date is today". */
  lemma DueIsToday(r: Reminder, userId: nat, today: Date)
    ensures Due(r, userId, today) <==>
              r.userId == userId && r.isActive && r.kind != SpendingLimit
              && r.nextReminderDate == Some(today)
  {
    if r.nextReminderDate.Some? {
      SameDayWindow(r.nextReminderDate.value, today);
    }
  }

  /**
   * A fired reminder: a recurring one moves one period on, becomes unread and stays active; a
   * custom one becomes inactive and unread; nothing else about it changes.
   */
  lemma FireEffect(r: Reminder)
    requires r.nextReminderDate.Some? && r.kind != SpendingLimit
    ensures Fire(r).id == r.id && Fire(r).userId == r.userId && Fire(r).kind == r.kind
    ensures Fire(r).title == r.title && Fire(r).description == r.description && Fire(r).startDate == r.startDate
    ensures Fire(r).limitAmount == r.limitAmount && Fire(r).reminderTime == r.reminderTime
    ensures !Fire(r).isRead
    ensures r.kind == Weekly ==>
              Fire(r).isActive == r.isActive && Fire(r).nextReminderDate.Some?
              && DayNumber(Fire(r).nextReminderDate.value) == DayNumber(r.nextReminderDate.value) + 7
    ensures r.kind == Monthly ==>
              Fire(r).isActive == r.isActive
              && Fire(r).nextReminderDate == Some(AddMonth(r.nextReminderDate.value))
    ensures r.kind == Custom ==>
              !Fire(r).isActive && Fire(r).nextReminderDate == r.nextReminderDate
    ensures WellFormed(r) ==> WellFormed(Fire(r))
  {
    NextOccurrenceAdvances(r.kind, r.nextReminderDate.value);
  }

  /** A reminder the sweep has fired is not due again the same day. */
  lemma FiredNotDue(r: Reminder, userId: nat, today: Date)
    requires Due(r, userId, today)
    ensures !Due(Fire(r), userId, today)
  {
    NextOccurrenceAdvances(r.kind, r.nextReminderDate.value);
  }

  /** `getTodayReminders` for one reminder: the update the loop applies to a due document. */
  method FireReminder(r: Reminder) returns (fired: Reminder)
    ensures fired == Fire(r)
  {
    fired := r;
    if r.kind == Weekly || r.kind == Monthly {
      if r.nextReminderDate.Some? {
        var next := GetNextReminderDate(r.kind, r.nextReminderDate.value);
        fired := r.(nextReminderDate := Some(next), isRead := false);
      }
    } else if r.kind == Custom {
      fired := r.(isActive := false, isRead := false);
    }
  }

  /**
   * The response lists exactly the caller's active time-based reminders whose next date is
   * today, each as fired: spending-limit, inactive, other users', past-due and future
   * reminders are not in it.
   */
  lemma FiredDueIsToday(rs: seq<Reminder>, userId: nat, today: Date)
    ensures |FiredDue(rs, userId, today)| <= |rs|
    ensures forall r :: r in FiredDue(rs, userId, today) <==>
              exists x :: x in rs && x.userId == userId && x.isActive && x.kind != SpendingLimit
                          && x.nextReminderDate == Some(today) && r == Fire(x)
  {
    forall x | x in rs
      ensures Due(x, userId, today) <==>
                x.userId == userId && x.isActive && x.kind != SpendingLimit
                && x.nextReminderDate == Some(today)
    {
      DueIsToday(x, userId, today);
    }
  }

  /** The sweep changes a stored reminder exactly when it is due. */
  lemma SweptChangesOnlyDue(rs: seq<Reminder>, userId: nat, today: Date)
    ensures |Swept(rs, userId, today)| == |rs|
    ensures forall i :: 0 <= i < |rs| ==> (Swept(rs, userId, today)[i] != rs[i] <==> Due(rs[i], userId, today))
  {
    forall i | 0 <= i < |rs| && Due(rs[i], userId, today)
      ensures Swept(rs, userId, today)[i] != rs[i]
    {
      FiredNotDue(rs[i], userId, today);
    }
  }

  /**
   * Running the sweep twice on the same day processes nothing twice: the second run selects
   * no reminder and changes nothing.
   */
  lemma SweepTwiceSameDay(rs: seq<Reminder>, userId: nat, today: Date)
    ensures FiredDue(Swept(rs, userId, today), userId, today) == []
    ensures Swept(Swept(rs, userId, today), userId, today) == Swept(rs, userId, today)
  {
    var once := Swept(rs, userId, today);
    forall i | 0 <= i < |once|
      ensures !Due(once[i], userId, today)
    {
      if Due(rs[i], userId, today) {
        FiredNotDue(rs[i], userId, today);
      }
    }
    FilterMapNone(once, (r: Reminder) => Due(r, userId, today), Fire);
  }

  // ---------------------------------------------------------------------------------------
  // checkSpendingLimits

  /** A stored Transaction document (backend/models/Transaction.js). */
  datatype TransactionDoc = TransactionDoc(
    userId: Option<nat>,
    amount: real,
    kind: string,
    category: string,
    note: Option<string>,
    date: Date)

  datatype FieldValue = Absent | IdValue(id: nat) | Text(s: string) | Amount(x: real) | DateValue(d: Date)

  /** The value at a path of a stored transaction; paths the schema does not define are absent. */
  function Field(t: TransactionDoc, path: string): FieldValue {
    if path == "userId" then (if t.userId.Some? then IdValue(t.userId.value) else Absent)
    else if path == "amount" then Amount(t.amount)
    else if path == "type" then Text(t.kind)
    else if path == "category" then Text(t.category)
    else if path == "note" then (if t.note.Some? then Text(t.note.value) else Absent)
    else if path == "date" then DateValue(t.date)
    else Absent
  }

  /** The first day of `today`'s month (`setDate(1)` on the current date). */
  function StartOfMonth(today: Date): Date {
    CivilDate(today.year, today.month, 1)
  }

  /** The `$match` stage: owner and kind at the given paths, dated on or after the month start. */
  predicate MatchesExpense(t: TransactionDoc, ownerPath: string, kindPath: string,
                           userId: nat, today: Date) {
    && Field(t, ownerPath) == IdValue(userId)
    && Field(t, kindPath) == Text("expense")
    && DayNumber(t.date) >= DayNumber(StartOfMonth(today))
  }

  /** The `$group`/`$sum` stage, with `|| 0` for no match. */
  function MatchedTotal(txs: seq<TransactionDoc>, ownerPath: string, kindPath: string,
                        userId: nat, today: Date): real {
    if txs == [] then 0.0
    else
      (if MatchesExpense(txs[0], ownerPath, kindPath, userId, today) then txs[0].amount else 0.0)
      + MatchedTotal(txs[1..], ownerPath, kindPath, userId, today)
  }

  /** The month-to-date expense total the check compares with: the user's expenses this month. */
  function MonthToDateExpenses(txs: seq<TransactionDoc>, userId: nat, today: Date): real {
    MatchedTotal(txs, "userId", "type", userId, today)
  }

  /** The total as the controller's filter is written, on the `user` and `transactionType` paths. */
  function MonthToDateAsWritten(txs: seq<TransactionDoc>, userId: nat, today: Date): real {
    MatchedTotal(txs, "user", "transactionType", userId, today)
  }

  /** With no matching expense the total is 0. */
  lemma {:induction false} NoExpensesNoSpend(txs: seq<TransactionDoc>, userId: nat, today: Date)
    requires forall t :: t in txs ==> !MatchesExpense(t, "userId", "type", userId, today)
    ensures MonthToDateExpenses(txs, userId, today) == 0.0
  {
    if txs != [] {
      NoExpensesNoSpend(txs[1..], userId, today);
    }
  }

  /** The total as written is 0 whatever the transactions: no stored document has those paths. */
  lemma {:induction false} AsWrittenTotalIsZero(txs: seq<TransactionDoc>, userId: nat, today: Date)
    ensures MonthToDateAsWritten(txs, userId, today) == 0.0
  {
    if txs != [] {
      AsWrittenTotalIsZero(txs[1..], userId, today);
    }
  }

  /** An expense of 500 this month against a limit of 100: the filter as written raises no alert. */
  lemma AsWrittenMissesOverspend()
    ensures var today := CivilDate(2024, 2, 15);
            var txs := [TransactionDoc(Some(1), 500.0, "expense", "Food", None, today)];
            MonthToDateExpenses(txs, 1, today) == 500.0 > 100.0
            && !(MonthToDateAsWritten(txs, 1, today) > 100.0)
  {
    var today := CivilDate(2024, 2, 15);
    var txs := [TransactionDoc(Some(1), 500.0, "expense", "Food", None, today)];
    assert txs[1..] == [];
    assert DayNumber(StartOfMonth(today)) <= DayNumber(today) by {
      DayNumberOrder(StartOfMonth(today), today);
    }
    assert MatchesExpense(txs[0], "userId", "type", 1, today);
    assert MonthToDateExpenses(txs, 1, today) == 500.0 + MatchedTotal([], "userId", "type", 1, today);
    AsWrittenTotalIsZero(txs, 1, today);
  }

  /** The reminders the check looks at: the caller's active spending-limit reminders. */
  predicate Watched(r: Reminder, userId: nat) {
    r.userId == userId && r.kind == SpendingLimit && r.isActive
  }

  /** `currentSpent > reminder.limitAmount`; a missing limit compares false. */
  predicate Exceeds(r: Reminder, spent: real) {
    r.limitAmount.Some? && spent > r.limitAmount.value
  }

  datatype SpendingAlert = SpendingAlert(
    reminderId: nat, title: string, limitAmount: real, currentSpent: real, isExceeded: bool)

  /** The alert pushed for a reminder over its limit. */
  function AlertFor(r: Reminder, spent: real): SpendingAlert {
    SpendingAlert(r.id, r.title, r.limitAmount.GetOr(0.0), spent, true)
  }

  /** The alerts of the check, in store order. */
  function SpendingAlerts(rs: seq<Reminder>, userId: nat, spent: real): seq<SpendingAlert> {
    FilterMap(rs, (r: Reminder) => Watched(r, userId) && Exceeds(r, spent), (r: Reminder) => AlertFor(r, spent))
  }

  function CheckOne(r: Reminder, userId: nat, spent: real): Reminder {
    if Watched(r, userId) && Exceeds(r, spent) then r.(isRead := false) else r
  }

  /** The store after the check: only alerted reminders become unread. */
  function LimitChecked(rs: seq<Reminder>, userId: nat, spent: real): seq<Reminder> {
    seq(|rs|, i requires 0 <= i < |rs| => CheckOne(rs[i], userId, spent))
  }

  /**
   * An alert is raised for a reminder exactly when it is one of the caller's active
   * spending-limit reminders and the total is strictly above its limit; the alert carries
   * the reminder's id, title and limit, the total, and `isExceeded`.
   */
  lemma SpendingAlertsExact(rs: seq<Reminder>, userId: nat, spent: real)
    ensures |SpendingAlerts(rs, userId, spent)| <= |rs|
    ensures forall a :: a in SpendingAlerts(rs, userId, spent) <==>
              exists x :: x in rs && x.userId == userId && x.kind == SpendingLimit && x.isActive
                          && x.limitAmount.Some? && spent > x.limitAmount.value
                          && a == SpendingAlert(x.id, x.title, x.limitAmount.value, spent, true)
    ensures forall a :: a in SpendingAlerts(rs, userId, spent) ==>
              a.isExceeded && a.currentSpent == spent && a.currentSpent > a.limitAmount
  {
  }

  /** A total at or below every watched limit raises nothing and marks nothing unread. */
  lemma WithinLimitsNoAlert(rs: seq<Reminder>, userId: nat, spent: real)
    requires forall x :: x in rs && Watched(x, userId) ==>
               x.limitAmount.Some? && spent <= x.limitAmount.value
    ensures SpendingAlerts(rs, userId, spent) == []
    ensures LimitChecked(rs, userId, spent) == rs
  {
    FilterMapNone(rs, (r: Reminder) => Watched(r, userId) && Exceeds(r, spent),
                  (r: Reminder) => AlertFor(r, spent));
    assert forall i :: 0 <= i < |rs| ==> rs[i] in rs;
  }

  // ---------------------------------------------------------------------------------------
  // deleteReminder

  predicate Matches(r: Reminder, id: nat, userId: nat) {
    r.id == id && r.userId == userId
  }

  /** The store without the caller's reminder `id`. */
  function WithoutReminder(rs: seq<Reminder>, id: nat, userId: nat): seq<Reminder> {
    Filter(rs, (r: Reminder) => !Matches(r, id, userId))
  }

  /** With unique ids, removing the one match is deleting its position. */
  lemma {:induction false} WithoutOne(rs: seq<Reminder>, id: nat, userId: nat, k: nat)
    requires k < |rs| && Matches(rs[k], id, userId)
    requires forall i, j :: 0 <= i < j < |rs| ==> rs[i].id != rs[j].id
    ensures WithoutReminder(rs, id, userId) == rs[..k] + rs[k + 1..]
  {
    forall i | 0 <= i < |rs| && i != k
      ensures !Matches(rs[i], id, userId)
    {
      if i < k {
        assert rs[i].id != rs[k].id;
      } else {
        assert rs[k].id != rs[i].id;
      }
    }
    FilterDropsOne(rs, k, (r: Reminder) => !Matches(r, id, userId));
  }

  // ---------------------------------------------------------------------------------------
  // The store

  /** Every stored reminder passed validation, and ids are unique and below `nextId`. */
  predicate StoreInvariant(rs: seq<Reminder>, nextId: nat) {
    && (forall i :: 0 <= i < |rs| ==> WellFormed(rs[i]))
    && (forall i :: 0 <= i < |rs| ==> rs[i].id < nextId)
    && (forall i, j :: 0 <= i < j < |rs| ==> rs[i].id != rs[j].id)
  }

  /** An update that keeps every position's id and well-formedness keeps the invariant. */
  lemma UpdateKeepsInvariant(rs: seq<Reminder>, updated: seq<Reminder>, nextId: nat)
    requires StoreInvariant(rs, nextId) && |updated| == |rs|
    requires forall i :: 0 <= i < |rs| ==> updated[i].id == rs[i].id && WellFormed(updated[i])
    ensures StoreInvariant(updated, nextId)
  {
  }

  /** Removing one position keeps the invariant. */
  lemma RemoveKeepsInvariant(rs: seq<Reminder>, nextId: nat, k: nat)
    requires StoreInvariant(rs, nextId) && k < |rs|
    ensures StoreInvariant(rs[..k] + rs[k + 1..], nextId)
  {
    var out := rs[..k] + rs[k + 1..];
    assert forall i :: 0 <= i < |out| ==> out[i] == (if i < k then rs[i] else rs[i + 1]);
  }

  /** The sweep keeps ids and well-formedness, hence the invariant. */
  lemma SweptKeepsInvariant(rs: seq<Reminder>, nextId: nat, userId: nat, today: Date)
    requires StoreInvariant(rs, nextId)
    ensures StoreInvariant(Swept(rs, userId, today), nextId)
  {
    var out := Swept(rs, userId, today);
    forall i | 0 <= i < |rs|
      ensures out[i].id == rs[i].id && WellFormed(out[i])
    {
      if Due(rs[i], userId, today) {
        FireEffect(rs[i]);
      }
    }
    UpdateKeepsInvariant(rs, out, nextId);
  }

  /** One step of `getTodayReminders`: a due reminder is fired and reported, any other is left alone. */
  method SweepReminder(r: Reminder, userId: nat, today: Date) returns (updated: Reminder, fired: seq<Reminder>)
    ensures updated == SweepOne(r, userId, today)
    ensures fired == if Due(r, userId, today) then [Fire(r)] else []
  {
    updated, fired := r, [];
    if Due(r, userId, today) {
      updated := FireReminder(r);
      fired := [updated];
    }
  }

  /**
   * One step of `checkSpendingLimits`: for a watched reminder the month-to-date total is
   * aggregated and compared with its limit; an exceeded limit gives an alert and marks it unread.
   */
  method CheckReminder(r: Reminder, userId: nat, today: Date, transactions: seq<TransactionDoc>)
    returns (updated: Reminder, alert: seq<SpendingAlert>)
    ensures var spent := MonthToDateExpenses(transactions, userId, today);
            updated == CheckOne(r, userId, spent)
            && alert == if Watched(r, userId) && Exceeds(r, spent) then [AlertFor(r, spent)] else []
  {
    updated, alert := r, [];
    if Watched(r, userId) {
      var currentSpent := MonthToDateExpenses(transactions, userId, today);
      if r.limitAmount.Some? && currentSpent > r.limitAmount.value {
        alert := [SpendingAlert(r.id, r.title, r.limitAmount.value, currentSpent, true)];
        updated := r.(isRead := false);
      }
    }
  }

  /** The loop of `getTodayReminders`: every reminder swept in place, the fired ones collected. */
  method SweepAll(reminders: seq<Reminder>, userId: nat, today: Date) returns (rs: seq<Reminder>, due: seq<Reminder>)
    ensures rs == Swept(reminders, userId, today)
    ensures due == FiredDue(reminders, userId, today)
  {
    rs := reminders;
    due := [];
    var i := 0;
    while i < |rs|
      invariant 0 <= i <= |rs| == |reminders|
      invariant forall k :: 0 <= k < i ==> rs[k] == SweepOne(reminders[k], userId, today)
      invariant forall k :: i <= k < |rs| ==> rs[k] == reminders[k]
      invariant due == FiredDue(reminders[..i], userId, today)
    {
      assert reminders[..i + 1] == reminders[..i] + [reminders[i]];
      FilterMapSnoc(reminders[..i], reminders[i], (r: Reminder) => Due(r, userId, today), Fire);
      var updated, fired := SweepReminder(rs[i], userId, today);
      rs := rs[i := updated];
      due := due + fired;
      i := i + 1;
    }
    assert reminders[..i] == reminders;
  }

  /** The loop of `checkSpendingLimits`: every reminder checked in place, the alerts collected. */
  method CheckAll(reminders: seq<Reminder>, userId: nat, today: Date, transactions: seq<TransactionDoc>)
    returns (rs: seq<Reminder>, alerts: seq<SpendingAlert>)
    ensures var spent := MonthToDateExpenses(transactions, userId, today);
            rs == LimitChecked(reminders, userId, spent) && alerts == SpendingAlerts(reminders, userId, spent)
  {
    ghost var spent := MonthToDateExpenses(transactions, userId, today);
    rs := reminders;
    alerts := [];
    var i := 0;
    while i < |rs|
      invariant 0 <= i <= |rs| == |reminders|
      invariant forall k :: 0 <= k < i ==> rs[k] == CheckOne(reminders[k], userId, spent)
      invariant forall k :: i <= k < |rs| ==> rs[k] == reminders[k]
      invariant alerts == SpendingAlerts(reminders[..i], userId, spent)
    {
      assert reminders[..i + 1] == reminders[..i] + [reminders[i]];
      FilterMapSnoc(reminders[..i], reminders[i], (r: Reminder) => Watched(r, userId) && Exceeds(r, spent),
                    (r: Reminder) => AlertFor(r, spent));
      var updated, alert := CheckReminder(rs[i], userId, today, transactions);
      rs := rs[i := updated];
      alerts := alerts + alert;
      i := i + 1;
    }
    assert reminders[..i] == reminders;
  }

  class ReminderStore {
    var reminders: seq<Reminder>
    var nextId: nat

    ghost predicate Valid()
      reads this
    {
      StoreInvariant(reminders, nextId)
    }

    constructor ()
      ensures Valid() && reminders == []
    {
      reminders := [];
      nextId := 0;
    }

    /**
     * `createReminder`: seeds the first firing date, validates the document and appends it
     * under a fresh id; a rejected document leaves the store unchanged.
     */
    method CreateReminder(req: CreateRequest, userId: nat) returns (res: Result<Reminder, set<string>>)
      requires Valid()
      modifies this
      ensures Valid()
      ensures var doc := CreateInput(req, userId, SeededNextDate(req.kind, req.startDate));
              res == Validate(doc, old(nextId))
      ensures res.Ok? ==> reminders == old(reminders) + [res.value]
      ensures res.Err? ==> reminders == old(reminders)
    {
      var nextReminderDate: Option<Date> := None;
      if req.kind == Some("weekly") || req.kind == Some("monthly") {
        if req.startDate.Some? {
          var next := GetNextReminderDate(ParseKind(req.kind.value).value, req.startDate.value);
          nextReminderDate := Some(next);
        }
      } else if req.kind == Some("custom") {
        nextReminderDate := req.startDate;
      }
      var doc := CreateInput(req, userId, nextReminderDate);
      res := Validate(doc, nextId);
      if res.Ok? {
        ValidateAccepts(doc, nextId);
        reminders := reminders + [res.value];
        nextId := nextId + 1;
      }
    }

    /** `getReminders`: the caller's active reminders, in store order. */
    function ActiveReminders(userId: nat): (r: seq<Reminder>)
      reads this
      ensures forall x :: x in r <==> x in reminders && x.userId == userId && x.isActive
    {
      Filter(reminders, (x: Reminder) => x.userId == userId && x.isActive)
    }

    /**
     * `getTodayReminders`: fires every due reminder in place and returns them as updated.
     */
    method TodayReminders(userId: nat, today: Date) returns (due: seq<Reminder>)
      requires Valid()
      modifies this
      ensures Valid()
      ensures reminders == Swept(old(reminders), userId, today)
      ensures due == FiredDue(old(reminders), userId, today)
      ensures nextId == old(nextId)
    {
      SweptKeepsInvariant(reminders, nextId, userId, today);
      reminders, due := SweepAll(reminders, userId, today);
    }

    /**
     * `checkSpendingLimits`: for each of the caller's active spending-limit reminders, compares
     * the month-to-date expense total with its limit; an exceeded limit yields an alert and
     * marks the reminder unread.
     */
    method CheckSpendingLimits(userId: nat, today: Date, transactions: seq<TransactionDoc>)
      returns (alerts: seq<SpendingAlert>)
      requires Valid()
      modifies this
      ensures Valid()
      ensures var spent := MonthToDateExpenses(transactions, userId, today);
              reminders == LimitChecked(old(reminders), userId, spent)
              && alerts == SpendingAlerts(old(reminders), userId, spent)
      ensures nextId == old(nextId)
    {
      ghost var before := reminders;
      reminders, alerts := CheckAll(reminders, userId, today, transactions);
      UpdateKeepsInvariant(before, reminders, nextId);
    }

    /** The position of the caller's reminder `id`, or -1 (`findOne({ _id: id, userId })`). */
    method FindReminder(id: nat, userId: nat) returns (k: int)
      ensures -1 <= k < |reminders|
      ensures k == -1 <==> forall i :: 0 <= i < |reminders| ==> !Matches(reminders[i], id, userId)
      ensures k >= 0 ==> Matches(reminders[k], id, userId)
    {
      k := 0;
      while k < |reminders|
        invariant 0 <= k <= |reminders|
        invariant forall i :: 0 <= i < k ==> !Matches(reminders[i], id, userId)
      {
        if Matches(reminders[k], id, userId) {
          return;
        }
        k := k + 1;
      }
      k := -1;
    }

    /**
     * `markAsRead`: a missing (id, userId) pair reports not found and changes nothing;
     * otherwise only that reminder's `isRead` becomes true.
     */
    method MarkAsRead(id: nat, userId: nat) returns (found: bool)
      requires Valid()
      modifies this
      ensures Valid()
      ensures found <==> exists i :: 0 <= i < |old(reminders)| && Matches(old(reminders)[i], id, userId)
      ensures !found ==> reminders == old(reminders)
      ensures found ==> exists k :: 0 <= k < |old(reminders)| && Matches(old(reminders)[k], id, userId)
                                   && reminders == old(reminders)[k := old(reminders)[k].(isRead := true)]
      ensures nextId == old(nextId)
    {
      var k := FindReminder(id, userId);
      found := k >= 0;
      if found {
        UpdateKeepsInvariant(reminders, reminders[k := reminders[k].(isRead := true)], nextId);
        reminders := reminders[k := reminders[k].(isRead := true)];
      }
    }

    /** `deleteReminder`: removes the reminder matching both id and owner, if any. */
    method DeleteReminder(id: nat, userId: nat)
      requires Valid()
      modifies this
      ensures Valid()
      ensures reminders == WithoutReminder(old(reminders), id, userId)
      ensures nextId == old(nextId)
    {
      var k := FindReminder(id, userId);
      if k >= 0 {
        WithoutOne(reminders, id, userId, k);
        RemoveKeepsInvariant(reminders, nextId, k);
        reminders := reminders[..k] + reminders[k + 1..];
      } else {
        FilterAll(reminders, (r: Reminder) => !Matches(r, id, userId));
      }
    }
  }
}
