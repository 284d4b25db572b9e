# Finance tracker core in Dafny

This project models the core of a personal finance tracker and proves properties of that model. The tracker has two halves:

- **Backend** (Express + Mongoose):
  - the reminder controller (`getNextReminderDate`, `createReminder`, `getReminders`, `checkSpendingLimits`, `getTodayReminders`, `markAsRead`, `deleteReminder`);
  - the Reminder, Expense, Income, Budget and Transaction schemas, with their validators and pre-save hooks.
- **Frontend** (React): the calculations embedded in the pages and components:
  - the dashboard's category breakdown;
  - the three budget pages' percentages, colours, badges and remaining/exceeded amounts;
  - the budget charts' data series;
  - the transaction and budget forms' guards and payloads;
  - the settings page's profile completion and password checks.

## Modules

- `Common`: `Option` (an undefined or null field), `Result`, and JavaScript string truthiness.
- `JsNumber`: JavaScript numbers as exact reals plus the two infinities and NaN.
  - Covers `||`, arithmetic, comparisons (false on NaN), `Math.max`/`Math.min`, and division by zero.
- `Calendar`: civil dates with a zero-based month; ECMA-262 `DayFromYear`/`MakeDay` day numbers.
  - A `JsDate` class whose `SetDate`/`SetMonth` normalise an out-of-range day or month in place, one month at a time, as `Date.prototype.setDate`/`setMonth` do.
- `Seqs`: filtering and filter-and-map with their membership and concatenation laws.
- `ReminderModel`: the reminder schema, as a validity function with the defaults applied.
- `ReminderController`: the controller over an in-memory store (class `ReminderStore`).
  - Each handler that updates documents is a method with a loop.
  - Each method is proved against a specification function: `Swept`/`FiredDue` for the due sweep, `LimitChecked`/`SpendingAlerts` for the spending check, `WithoutReminder` for deletion.
  - The caller's id and today's date are parameters. So are the Transaction documents the check aggregates.
- `ExpenseModel`, `IncomeModel`, `BudgetModel`: classes whose `Save` validates first and then runs the pre-save hook. This is Mongoose's order.
- `Dashboard`: `processAnalyticsData` as a method with an accumulator loop, proved equal to `Analyze`. `Analyze` is a grouping-and-sorting function whose correctness is proved.
- `Indicators`: shared tone and icon values.
- `BudgetEnhanced`, `BudgetPage`, `BudgetPageNew`, `BudgetCharts`: the three budget pages and the charts component.
- `TransactionForm`, `BudgetForm`, `Settings`: the two forms and the settings page.
  - `parseFloat`, `parseInt`, `Number#toString` and the server's reply are parameters.

## Model

| member | source | states |
|---|---|---|
| Calendar.AddWeekIsSevenDays | backend/controllers/ReminderController.js:8-10 | a weekly advance is exactly 7 days later in day numbers, i.e. MakeDay(y, m, d+7), rolling over month and year ends |
| Calendar.MakeDay | backend/controllers/ReminderController.js:8-14 | ECMA-262 MakeDay for integer arguments: the first day of month `month % 12` of year `year + month / 12` (floor division), plus `date - 1`, so out-of-range months and days overflow as `setDate`/`setMonth` make them; `MakeDayInYear` and the two lemmas below relate it to the calendar |
| Calendar.AddWeek | backend/controllers/ReminderController.js:8-10 | the civil date seven days on: the same month when the day stays within its length, otherwise the overflow into the next month (December into January of the next year); `AddWeekIsSevenDays` proves it is MakeDay(y, m, d+7) |
| Calendar.AddMonth | backend/controllers/ReminderController.js:11-14 | the same day of the next month when that month has it, otherwise the overflow into the month after; `AddMonthIsMakeDay` proves it is MakeDay(y, m+1, d) |
| Calendar.AddMonthIsMakeDay | backend/controllers/ReminderController.js:11-14 | a monthly advance is MakeDay(y, m+1, d): the next month (December to January of the next year), same day when it exists, otherwise the overflow into the month after; always at least 28 days later |
| Calendar.JanuaryThirtyFirstOverflows | backend/controllers/ReminderController.js:11-14 | Jan 31 plus a month is Mar 3 (Mar 2 in a leap year); Dec 15 goes to Jan 15; week steps across a month and a year end |
| Calendar.SameDayWindow | backend/controllers/ReminderController.js:127-139 | a date lies in [start of today, start of tomorrow) exactly when it is today |
| Calendar.DayNumberInjective | backend/controllers/ReminderController.js:127-139 | two valid dates with the same day number are equal |
| Calendar.JsDate.SetFromMakeDay | backend/controllers/ReminderController.js:10 | the normalisation loops store a valid date whose day number is the one the possibly out-of-range (year, month, day) denotes |
| Calendar.JsDate.SetDate | backend/controllers/ReminderController.js:10 | `setDate(dt)` leaves a valid date with day number MakeDay(year, month, dt) |
| Calendar.JsDate.SetMonth | backend/controllers/ReminderController.js:13 | `setMonth(mo)` leaves a valid date with day number MakeDay(year, mo, date) |
| ReminderModel.ParseKind | backend/models/Reminder.js:15-19 | the type enum accepts exactly the four names, each naming its own kind |
| ReminderModel.ParseKindName | backend/models/Reminder.js:15-19 | every kind's stored name parses back to that kind |
| ReminderModel.FailingPaths | backend/models/Reminder.js:5-67 | the set of paths whose validators reject a document: title, type, limitAmount (spending limits only), startDate, nextReminderDate and reminderTime (time-based types only), userId; `FailingPathsCases` states each one |
| ReminderModel.Validate | backend/models/Reminder.js:5-67 | a document with failing paths is rejected with exactly those paths; otherwise it is saved under the given id with the defaults (empty description, active, unread); `ValidateAccepts` and `ValidateRoundTrip` prove its properties |
| ReminderModel.FailingPathsCases | backend/models/Reminder.js:5-67 | each validator on its own: title non-empty; type in the enum; limitAmount required only for spending_limit; startDate, nextReminderDate and non-empty reminderTime required for every other type; userId required |
| ReminderModel.ValidateAccepts | backend/models/Reminder.js:5-67 | a document is saved exactly when no validator fails; the saved reminder is well formed, keeps the given fields and defaults description "", isActive true, isRead false |
| ReminderModel.ValidateRoundTrip | backend/models/Reminder.js:5-67 | every well-formed reminder read back as a document validates to itself |
| ReminderController.NextOccurrenceAdvances | backend/controllers/ReminderController.js:5-17 | weekly: +7 days; monthly: MakeDay(y, m+1, d); either is at least a week later; any other type returns the date unchanged |
| ReminderController.NextOccurrence | backend/controllers/ReminderController.js:5-17 | the date one period on: `AddWeek` for weekly, `AddMonth` for monthly, the date itself for any other type |
| ReminderController.GetNextReminderDate | backend/controllers/ReminderController.js:5-17 | copies the date into a fresh Date, moves it with setDate/setMonth, and returns the weekly/monthly advance (or the date itself) |
| ReminderController.SeededNextDateCases | backend/controllers/ReminderController.js:25-32 | a new weekly reminder first fires 7 days after its start, a monthly one a month after, a custom one on its start, a spending-limit one has no date |
| ReminderController.SeededNextDate | backend/controllers/ReminderController.js:25-32 | the first firing date of a new reminder: one period after the start for weekly and monthly, the start for custom, none for spending limits or a missing start |
| ReminderController.DueIsToday | backend/controllers/ReminderController.js:127-139 | the sweep's query selects the caller's active non-spending-limit reminders whose next date is today |
| ReminderController.Due | backend/controllers/ReminderController.js:134-139 | the sweep query: the caller's active weekly, monthly or custom reminder whose next date lies in [today, tomorrow) |
| ReminderController.Fire | backend/controllers/ReminderController.js:142-153 | the update of a due document: a weekly or monthly reminder moves to its next occurrence and becomes unread, a custom one becomes inactive and unread |
| ReminderController.Swept | backend/controllers/ReminderController.js:142-153 | the store after the sweep: every due reminder replaced by its fired form, in place, every other kept |
| ReminderController.FiredDue | backend/controllers/ReminderController.js:142-155 | the response: the fired forms of the due reminders, in store order |
| ReminderController.FireEffect | backend/controllers/ReminderController.js:142-153 | a fired recurring reminder moves one period on and becomes unread, a fired custom one becomes inactive and unread, nothing else changes, and well-formedness is kept |
| ReminderController.FiredNotDue | backend/controllers/ReminderController.js:142-153 | a reminder fired today is not due again today |
| ReminderController.FireReminder | backend/controllers/ReminderController.js:143-152 | the loop body's update of one due document equals `Fire` |
| ReminderController.FiredDueIsToday | backend/controllers/ReminderController.js:124-159 | the response holds exactly the fired forms of the caller's active time-based reminders whose next date is today |
| ReminderController.SweptChangesOnlyDue | backend/controllers/ReminderController.js:142-153 | the sweep changes a stored reminder exactly when it is due |
| ReminderController.SweepTwiceSameDay | backend/controllers/ReminderController.js:124-159 | a second sweep on the same day selects nothing and changes nothing |
| ReminderController.NoExpensesNoSpend | backend/controllers/ReminderController.js:83-99 | with no matching expense the month-to-date total is 0 (`\|\| 0`) |
| ReminderController.MonthToDateExpenses | backend/controllers/ReminderController.js:79-99 | the intended month-to-date total: the sum of the caller's expenses (`userId`, `type`) dated from the first of this month, 0 when none match |
| ReminderController.MonthToDateAsWritten | backend/controllers/ReminderController.js:83-99 | the total as the `$match` is written, on the `user` and `transactionType` paths; `AsWrittenTotalIsZero` proves it is always 0 |
| ReminderController.AsWrittenTotalIsZero | backend/controllers/ReminderController.js:86-87 | the filter as written, on `user` and `transactionType`, matches no Transaction document, so its total is always 0 |
| ReminderController.AsWrittenMissesOverspend | backend/controllers/ReminderController.js:83-113 | a 500 expense this month against a limit of 100: the intended total exceeds the limit, the total as written does not |
| ReminderController.SpendingAlertsExact | backend/controllers/ReminderController.js:102-113 | an alert is raised exactly for each of the caller's active spending-limit reminders whose limit the total strictly exceeds, with its id, title, limit, the total and isExceeded |
| ReminderController.SpendingAlerts | backend/controllers/ReminderController.js:102-109 | the pushed alerts: for each watched reminder whose limit the total strictly exceeds, its id, title and limit with the total and `isExceeded`, in store order |
| ReminderController.LimitChecked | backend/controllers/ReminderController.js:111-113 | the store after the check: exactly the alerted reminders become unread, in place |
| ReminderController.WithinLimitsNoAlert | backend/controllers/ReminderController.js:102-113 | a total at or below every watched limit raises no alert and marks nothing unread |
| ReminderController.WithoutOne | backend/controllers/ReminderController.js:187 | with unique ids, deleting the caller's reminder removes exactly its position |
| ReminderController.WithoutReminder | backend/controllers/ReminderController.js:187 | the store without the reminders matching both the id and the caller (`findOneAndDelete({ _id: id, userId })`) |
| ReminderController.UpdateKeepsInvariant | backend/controllers/ReminderController.js:142-153 | an in-place update keeping ids and validity keeps the store invariant (valid documents, unique ids) |
| ReminderController.RemoveKeepsInvariant | backend/controllers/ReminderController.js:187 | removing a document keeps the store invariant |
| ReminderController.SweptKeepsInvariant | backend/controllers/ReminderController.js:142-153 | the sweep keeps every stored reminder valid and ids unique |
| ReminderController.ReminderStore.CreateReminder | backend/controllers/ReminderController.js:20-50 | seeds the next date, validates, and appends the saved reminder under a fresh id; a rejected document (400) leaves the store unchanged |
| ReminderController.ReminderStore.ActiveReminders | backend/controllers/ReminderController.js:53-61 | the list holds exactly the caller's active reminders |
| ReminderController.ReminderStore.TodayReminders | backend/controllers/ReminderController.js:124-159 | the store becomes `Swept` of the old store, the response is `FiredDue` of it, and the invariant is kept |
| ReminderController.ReminderStore.CheckSpendingLimits | backend/controllers/ReminderController.js:64-121 | alerts are `SpendingAlerts` and the store becomes `LimitChecked`, for the caller's month-to-date expense total |
| ReminderController.SweepAll | backend/controllers/ReminderController.js:142-155 | the loop over the reminders leaves each one as `SweepOne` makes it and collects exactly `FiredDue`, in store order |
| ReminderController.SweepReminder | backend/controllers/ReminderController.js:143-152 | a due weekly or monthly reminder is advanced and marked unread, a due custom one is deactivated and marked unread, and only a due one is reported |
| ReminderController.CheckAll | backend/controllers/ReminderController.js:77-115 | the loop over the reminders leaves each one as `CheckOne` makes it and collects exactly `SpendingAlerts`, in store order |
| ReminderController.CheckReminder | backend/controllers/ReminderController.js:99-114 | a watched reminder whose limit the total strictly exceeds gives one alert and becomes unread; any other gives none and is unchanged |
| ReminderController.ReminderStore.FindReminder | backend/controllers/ReminderController.js:167 | finds a position holding the caller's reminder with that id, or -1 exactly when there is none |
| ReminderController.ReminderStore.MarkAsRead | backend/controllers/ReminderController.js:162-179 | not found (404) exactly when no reminder matches id and owner, and then nothing changes; otherwise only that reminder's isRead becomes true |
| ReminderController.ReminderStore.DeleteReminder | backend/controllers/ReminderController.js:182-192 | the store becomes the old store without the caller's reminder with that id |
| ExpenseModel.WeekOfMonth | backend/models/Expense.js:31 | `ceil(day / 7)` is the week 1..5 whose seven days contain the day |
| ExpenseModel.WeekOfMonthUnique | backend/models/Expense.js:31 | that week is the only one containing the day |
| ExpenseModel.DeriveFromDate | backend/models/Expense.js:29-35 | week of month, one-based month (1..12) and full year of the date |
| ExpenseModel.DeriveFromDateSameWeek | backend/models/Expense.js:29-35 | two dates derive the same fields exactly when they share year, month and seven-day block |
| ExpenseModel.ExpenseErrors | backend/models/Expense.js:4-22 | an expense fails exactly on a missing user, amount or date, or a category outside the six |
| ExpenseModel.Expense.PreSave | backend/models/Expense.js:29-35 | the hook sets week, month and year from the date and touches nothing else |
| ExpenseModel.Expense.Save | backend/models/Expense.js:4-35 | an invalid expense is rejected unchanged; a valid one is stored with week, month and year derived from its date |
| IncomeModel.TypeWithDefault | backend/models/Income.js:9-14 | a missing type becomes "variable"; a given type is kept |
| IncomeModel.IncomeErrors | backend/models/Income.js:4-17 | an income fails exactly on a missing user, amount, date or source, or a type outside the enum |
| IncomeModel.DefaultTypeValid | backend/models/Income.js:9-14 | the default type passes the enum |
| IncomeModel.Income.constructor | backend/models/Income.js:9-14 | a new income document takes the default type when none is given |
| IncomeModel.Income.PreSave | backend/models/Income.js:23-28 | the hook sets month (one-based) and year from the date only |
| IncomeModel.Income.Save | backend/models/Income.js:4-28 | an invalid income is rejected unchanged; a valid one is stored with month and year derived |
| BudgetModel.SameCategoriesAsExpenses | backend/models/Budget.js:9-13 | budgets accept exactly the expense categories |
| BudgetModel.BudgetErrors | backend/models/Budget.js:4-14 | a budget fails exactly on a missing user or limit, or a category outside the six |
| BudgetModel.Budget.PreSave | backend/models/Budget.js:19-24 | the hook stamps the current month (1..12) and year |
| BudgetModel.Budget.Save | backend/models/Budget.js:4-24 | an invalid budget is rejected unchanged; a valid one is stamped with the current month and year |
| Dashboard.CategoryOf | src/pages/Dashboard.jsx:70 | a missing or empty category counts as "Others" |
| Dashboard.AddTo | src/pages/Dashboard.jsx:71 | `acc[c] = (acc[c] || 0) + x` on a key-unique list: adds to the existing entry of `c` in place, or appends a new entry; `AddToFacts` proves its properties |
| Dashboard.GroupTotals | src/pages/Dashboard.jsx:69-73 | the accumulator after the reduce, one `AddTo` per expense in order; `GroupTotalsCorrect` proves it against `CategorySum` |
| Dashboard.SortDesc | src/pages/Dashboard.jsx:76-78 | the entries ordered by amount, highest first (an insertion sort); `SortDescFacts` proves order and permutation |
| Dashboard.AddToFacts | src/pages/Dashboard.jsx:71 | adding to a category keeps keys unique, adds the key, and adds the amount to that category only |
| Dashboard.GroupTotalsCorrect | src/pages/Dashboard.jsx:69-73 | the grouping has one entry per category of the expenses, each holding that category's sum, and the entries sum to the expense total |
| Dashboard.SortDescFacts | src/pages/Dashboard.jsx:76-78 | the sort is highest first and a permutation: same multiset, sum, keys and key uniqueness |
| Dashboard.Analyze | src/pages/Dashboard.jsx:59-83 | the stored analytics: empty and 0 for no transactions; otherwise the sorted grouping and the sum of the expenses only; `AnalyzeCorrect` proves what it contains |
| Dashboard.AnalyzeCorrect | src/pages/Dashboard.jsx:59-83 | no transactions give an empty breakdown and 0; otherwise each expense category once with its sum, highest first, and the total is the expenses' sum |
| Dashboard.FindCategory | src/pages/Dashboard.jsx:71 | the first position holding a category, or -1 when none does |
| Dashboard.ProcessAnalyticsData | src/pages/Dashboard.jsx:59-83 | the accumulator loop computes exactly `Analyze` |
| Dashboard.GroupExpenses | src/pages/Dashboard.jsx:69-73 | the reduce over the expenses builds exactly `GroupTotals`: one entry per category (missing category as "Others") holding the sum of its amounts |
| Dashboard.TotalExpenses | src/pages/Dashboard.jsx:80 | the reduce over the expenses returns the sum of their amounts |
| Dashboard.Share | src/pages/Dashboard.jsx:257-259 | the share is 0 when the total is not positive, otherwise a percentage in 0..100 for an amount within the total |
| Dashboard.ShownRows | src/pages/Dashboard.jsx:256 | at most the first five rows are shown |
| Dashboard.MoreCount | src/pages/Dashboard.jsx:286-289 | "+n more" appears exactly when there are more than five rows, and n is the number hidden |
| Dashboard.ShownAreLargest | src/pages/Dashboard.jsx:256 | on sorted data every shown row is at least every hidden one |
| JsNumber.Or | src/pages/BudgetManagement_Enhanced.jsx:140 | `a \|\| b` is a when a is truthy, else b |
| JsNumber.Max | src/pages/BudgetManagement_Enhanced.jsx:603 | `Math.max` is NaN on NaN, otherwise the larger operand |
| JsNumber.Min | src/pages/BudgetManagement_Enhanced.jsx:596 | `Math.min` is NaN on NaN, otherwise the smaller operand |
| JsNumber.Trichotomy | src/pages/BudgetManagement_Enhanced.jsx:507-519 | non-NaN numbers compare in exactly one way; NaN compares in none |
| JsNumber.DivideByZero | src/pages/BudgetManagement_Enhanced.jsx:507-519 | x / 0 is +Infinity, -Infinity or NaN by the sign of x |
| BudgetEnhanced.SpentOrZero | src/pages/BudgetManagement_Enhanced.jsx:140 | `spent \|\| 0` is never NaN |
| BudgetEnhanced.Utilization | src/pages/BudgetManagement_Enhanced.jsx:152 | `budgetAmount > 0 ? (spent || 0) / budgetAmount * 100 : 0`, in JavaScript number arithmetic |
| BudgetEnhanced.Unspent | src/pages/BudgetManagement_Enhanced.jsx:151 | `Math.max(0, budgetAmount - (spent || 0))`, NaN included |
| BudgetEnhanced.RadialValue | src/pages/BudgetManagement_Enhanced.jsx:163 | `budgetAmount > 0 ? Math.min(100, percentage) : 0` |
| BudgetEnhanced.PrepareChartData | src/pages/BudgetManagement_Enhanced.jsx:136-175 | five empty series for no budgets; otherwise one row per budget in each series, with the fields and colours of lines 139-172; `ChartDataProperties` proves their shape |
| BudgetEnhanced.FiniteFigures | src/pages/BudgetManagement_Enhanced.jsx:136-175 | for finite figures: unspent is max(0, budget - spent), utilisation is spent/budget*100 when the budget is positive else 0, the radial value caps it at 100 |
| BudgetEnhanced.ChartDataProperties | src/pages/BudgetManagement_Enhanced.jsx:136-175 | no budgets give empty series; otherwise every series has one row per budget in order, sharing category, spent and percentage, colours cycling over eight, remaining never negative, radial at most 100, target 80 |
| BudgetEnhanced.BucketsDisjoint | src/pages/BudgetManagement_Enhanced.jsx:507-519 | no budget is on track, at risk or over budget twice; a NaN ratio is counted nowhere |
| BudgetEnhanced.BucketsPartition | src/pages/BudgetManagement_Enhanced.jsx:507-519 | with positive budgets the three counts add up to the number of budgets |
| BudgetEnhanced.ZeroBudget | src/pages/BudgetManagement_Enhanced.jsx:507-519 | a zero budget with nothing spent is in no bucket; with something spent it is over budget |
| BudgetEnhanced.SummaryCounts | src/pages/BudgetManagement_Enhanced.jsx:505-521 | the on-track, at-risk and over-budget filter counts and the number of budgets; `BucketsDisjoint` and `BucketsPartition` prove how they relate |
| BudgetEnhanced.CardTone | src/pages/BudgetManagement_Enhanced.jsx:591-595 | red from 100, yellow from 80 below 100, green otherwise (NaN included) |
| BudgetEnhanced.CardIcon | src/pages/BudgetManagement_Enhanced.jsx:573-574 | the triangle from 100, the circle from 80 below 100, no icon otherwise (NaN included); `IconFollowsTone` ties it to the tone |
| BudgetEnhanced.BarWidth | src/pages/BudgetManagement_Enhanced.jsx:596 | the bar width never exceeds 100 or the percentage |
| BudgetEnhanced.IconFollowsTone | src/pages/BudgetManagement_Enhanced.jsx:573-574 | the triangle shows exactly on red cards, the circle exactly on yellow ones |
| BudgetEnhanced.EightyPercentBoundary | src/pages/BudgetManagement_Enhanced.jsx:507-595 | at exactly 80% a card is yellow but counted as on track, not at risk |
| BudgetPage.ProgressColor | src/pages/BudgetManagement.jsx:244-248 | green below 50, yellow below 80, red otherwise |
| BudgetPage.AlertIconFor | src/pages/BudgetManagement.jsx:250-254 | triangle from 100, circle from 80, none below 80 |
| BudgetPage.IconOnlyWhenRed | src/pages/BudgetManagement.jsx:244-254 | an icon appears only on red bars, and for non-NaN percentages on every red bar |
| BudgetPage.BudgetOf | src/pages/BudgetManagement.jsx:436 | `budgetAmount \|\| amount \|\| 0`, never NaN |
| BudgetPage.SpentOf | src/pages/BudgetManagement.jsx:437 | `spentAmount \|\| spent \|\| 0`, never NaN |
| BudgetPage.SpentPercentage | src/pages/BudgetManagement.jsx:438 | `budget > 0 ? spent / budget * 100 : 0` on the figures read with their fallbacks |
| BudgetPage.IsOverspent | src/pages/BudgetManagement.jsx:439 | the percentage is strictly above 100 |
| BudgetPage.RemainingAmount | src/pages/BudgetManagement.jsx:440 | `Math.max(0, budget - spent)` |
| BudgetPage.RemainingShown | src/pages/BudgetManagement.jsx:465 | 0 on an overspent card, the remaining amount otherwise |
| BudgetPage.ExceededBy | src/pages/BudgetManagement.jsx:485-488 | the "Budget exceeded by" figure `spent - budget`, present only on an overspent card |
| BudgetPage.ProgressWidth | src/pages/BudgetManagement.jsx:480 | the bar width is at most 100 |
| BudgetPage.ZeroBudgetGuard | src/pages/BudgetManagement.jsx:438-440 | without a budget the percentage is 0, nothing is overspent, and the bar is green with no icon |
| BudgetPage.OverspentFinite | src/pages/BudgetManagement.jsx:436-440 | with finite figures and a positive budget: the percentage is spent/budget*100, overspent exactly when spent exceeds it, remaining is max(0, budget - spent) |
| BudgetPage.ShownAmounts | src/pages/BudgetManagement.jsx:465-488 | the remaining amount shown is never negative; "exceeded by" appears exactly when overspent and is then positive |
| BudgetPageNew.ProgressColor | src/pages/BudgetManagement_new.jsx:117-121 | red from 100, yellow from 80, green otherwise |
| BudgetPageNew.Percentage | src/pages/BudgetManagement_new.jsx:294 | `spentAmount / budgetAmount * 100` with no guard, so a zero budget gives Infinity or NaN (`ZeroBudgetRow`) |
| BudgetPageNew.StatusBadge | src/pages/BudgetManagement_new.jsx:123-132 | "exceeded" exactly when the server flags it; otherwise "warning" from 80%, else "on track" |
| BudgetPageNew.AmountShown | src/pages/BudgetManagement_new.jsx:338-342 | an exceeded budget shows the amount over, any other the amount left |
| BudgetPageNew.Width | src/pages/BudgetManagement_new.jsx:332 | the width is at most 100, and NaN only for a NaN percentage |
| BudgetPageNew.ZeroBudgetRow | src/pages/BudgetManagement_new.jsx:294 | a zero budget gives an infinite (red, full-width) percentage when something is spent and NaN (green) when nothing is |
| BudgetCharts.SumValuesCases | src/components/BudgetCharts.jsx:54-58 | the total is the real sum of finite category values, and NaN when any value is NaN |
| BudgetCharts.SumValues | src/components/BudgetCharts.jsx:57 | `Object.values(categories).reduce((sum, value) => sum + value, 0)` in JavaScript number arithmetic |
| BudgetCharts.Spread | src/components/BudgetCharts.jsx:56 | the spread `...categories`: each category key with its value, a later key overriding an earlier one |
| BudgetCharts.TrendRow | src/components/BudgetCharts.jsx:54-58 | `{ month, ...categories, total }`, later keys winning; `TrendRowFacts` proves which keys it has and their values |
| BudgetCharts.SpreadFacts | src/components/BudgetCharts.jsx:54-58 | the spread row holds exactly the categories, each with its value |
| BudgetCharts.TrendRowFacts | src/components/BudgetCharts.jsx:54-58 | a trend row has the month, every category's value and the total, and no other key |
| BudgetCharts.TrendRows | src/components/BudgetCharts.jsx:54-58 | one row per month |
| BudgetCharts.BudgetVsSpent | src/components/BudgetCharts.jsx:73-89 | one row per category in order, each figure `\|\| 0`, never NaN; none for missing data |
| BudgetCharts.ColorOf | src/components/BudgetCharts.jsx:33-40 | a known category's own colour, otherwise the fallback |
| BudgetCharts.PieDataExact | src/components/BudgetCharts.jsx:91-101 | the pie has a slice exactly for each row with positive spending, with its amount and colour |
| BudgetCharts.PieData | src/components/BudgetCharts.jsx:91-101 | no slices for missing data; otherwise the rows with positive spending, in order, as slices with the category colour |
| BudgetCharts.PieDataKeepsOrder | src/components/BudgetCharts.jsx:91-101 | slices follow row order |
| BudgetCharts.UtilizationData | src/components/BudgetCharts.jsx:103-112 | one row per category carrying its percentage, budget and spending |
| BudgetCharts.FillAgreesWithCards | src/components/BudgetCharts.jsx:340-345 | red at 100 or more, amber from 80, else green; the same rule as the enhanced page's cards |
| BudgetCharts.Fill | src/components/BudgetCharts.jsx:340-345 | `utilization || 0`, then red from 100, amber from 80, green otherwise |
| TransactionForm.InitialForm | src/components/UnifiedTransactionForm.jsx:29-39 | the form has exactly its eight fields |
| TransactionForm.HandleChange | src/components/UnifiedTransactionForm.jsx:44-52 | a field change sets that field and leaves no feedback message |
| TransactionForm.HandleTypeChange | src/components/UnifiedTransactionForm.jsx:54-56 | a type switch changes only the type and keeps the feedback |
| TransactionForm.AmountRejected | src/components/UnifiedTransactionForm.jsx:60-63 | the guard: the amount is empty or parses to at most 0 (NaN passes the guard, since `NaN <= 0` is false) |
| TransactionForm.Payload | src/components/UnifiedTransactionForm.jsx:70-83 | the common type, parsed amount and date, then source, income type and note for income or category and description otherwise; `PayloadShape` states its keys and values |
| TransactionForm.InitialFormRejected | src/components/UnifiedTransactionForm.jsx:29-63 | a fresh or reset form cannot be submitted |
| TransactionForm.PayloadShape | src/components/UnifiedTransactionForm.jsx:70-83 | every payload has type, parsed amount and date; an income payload has exactly source, incomeType and note besides, an expense payload exactly category and description |
| TransactionForm.FeedbackKind | src/components/UnifiedTransactionForm.jsx:90-98 | an 'error' alert shows a warning, any other alert info, no alert success |
| TransactionForm.Submit | src/components/UnifiedTransactionForm.jsx:58-121 | the guard, then the payload sent to the server, then reset with feedback on success or the form kept with "Error: " and the message on failure; `SubmitCases` proves each case |
| TransactionForm.SubmitCases | src/components/UnifiedTransactionForm.jsx:58-121 | an empty or non-positive amount sends nothing, keeps the form and shows an error; otherwise the payload is sent; success resets the form, a failure keeps it and shows 'Error: ' and the message |
| TransactionForm.PositiveAmountAccepted | src/components/UnifiedTransactionForm.jsx:60-63 | an amount parsing to a positive number passes the guard |
| BudgetForm.SameCategoriesEverywhere | src/components/BudgetForm.jsx:18 | the budget form offers exactly the expense schema's and the transaction form's categories |
| BudgetForm.Prefill | src/components/BudgetForm.jsx:20-30 | a given budget replaces the form with its fields and the `||`/`!== undefined` defaults; no budget leaves it as it is; `PrefillDefaults` states the defaults |
| BudgetForm.PrefillDefaults | src/components/BudgetForm.jsx:20-30 | prefill: category '' and period 'monthly' when missing; threshold 80 whenever falsy, 0 included; alerts enabled unless explicitly false |
| BudgetForm.HandleInputChange | src/components/BudgetForm.jsx:47-52 | an edit sets exactly one field |
| BudgetForm.Submit | src/components/BudgetForm.jsx:32-45 | an empty category or amount is refused with "Please fill in all required fields"; otherwise the form data with the amount through parseFloat and the threshold through parseInt; `SubmitCases` proves both cases |
| BudgetForm.SubmitCases | src/components/BudgetForm.jsx:32-45 | blocked exactly when category or amount is empty; otherwise the form data with the amount parsed as a float and the threshold as an integer |
| BudgetForm.InitialFormBlocked | src/components/BudgetForm.jsx:10-16 | a new budget cannot be submitted before category and amount are filled in |
| BudgetForm.EditRoundTrip | src/components/BudgetForm.jsx:20-45 | editing and resubmitting a budget unchanged hands back its own fields, given conversions that round-trip |
| Settings.Completion | src/pages/Settings.jsx:49-55 | completion is in {0, 50, 100}; 100 exactly with name and email, 0 with no user or neither |
| Settings.GetProfileCompletion | src/pages/Settings.jsx:49-55 | the counter computes `Completion` |
| Settings.UpdatedUser | src/pages/Settings.jsx:64 | the merged user has the form's name and email and keeps every other field of the user |
| Settings.CompletionAfterUpdate | src/pages/Settings.jsx:49-64 | after an update the completion depends on the form's fields alone |
| Settings.PasswordChange | src/pages/Settings.jsx:75-93 | the mismatch error first, then the length error under 6 characters, otherwise the fields cleared and the form closed; `PasswordChangeCases` proves the order |
| Settings.PasswordChangeCases | src/pages/Settings.jsx:75-93 | a mismatch is reported first whatever the length; the length error only for matching passwords; accepted exactly when both pass, then all three fields are cleared and the form closes |
| Seqs.FilterMap | backend/controllers/ReminderController.js:142-155 | the selected-and-mapped sequence holds exactly the images of the selected elements |
| Seqs.FilterMapAppend | src/components/BudgetCharts.jsx:91-101 | filter-and-map distributes over concatenation (order is kept) |

## Left out

- Time of day, time zones and local midnight. Dates are civil days, and the due window is compared on day numbers. The `reminderTime` string is stored but never interpreted.
- The JavaScript `Date` range limit. Invalid dates are also left out: a missing start date gives no next date.
- Floating point rounding, negative zero, and number formatting (`toFixed`, `toLocaleString`, currency formatting). Amounts are exact reals.
- `parseFloat`, `parseInt` and `Number#toString`. They are parameters, so their edge cases are not modelled.
- The network: the HTTP requests and responses, authentication and status codes. The server's reply to the transaction form is a parameter.
- Mongoose persistence. The store is an in-memory sequence and ids are a counter. `createdAt`/`updatedAt` timestamps are not modelled. The aggregation pipeline is a filter-and-sum. Casting a string id to an ObjectId in `$match` is not modelled.
- All rendering, React state plumbing, `alert`/`confirm`, `localStorage`, icons and CSS strings. The pages' helpers are functions over explicit inputs.
- Lookups of object-prototype keys in the colour tables. The model uses maps.
- Dashboard.GroupExpenses, Dashboard.AnalyzeCorrect: the accumulator is a list with unique keys in insertion order, not a plain object. A category named after an `Object.prototype` key (`toString`, `constructor`) makes `acc[c] || 0` a function in the source, so its sum becomes string concatenation. Integer-like category names come out of `Object.entries` first. Neither behaviour is modelled, although the Transaction schema accepts any category string.
- Settings.UpdatedUser: user fields are strings only. Non-string fields are not modelled.
- Settings.PasswordChangeCases: the length counts characters, not UTF-16 code units.
- Dashboard.SortDescFacts: it states the order and the permutation, not stability for equal amounts. The model's insertion sort is stable.
- The backend has no budget ledger, budget upsert or analytics endpoint. They are not modelled.
- The due sweep run twice on the same day advances a reminder only once, because an advanced date is at least a week after today and leaves the window (`ReminderController.SweepTwiceSameDay`).
- Pass-through controllers and UI-only components are not part of this model.

## Findings

| source | as written | input that shows it | evidently intended | confidence | as-written member | corrected member |
|---|---|---|---|---|---|---|
| backend/controllers/ReminderController.js:86-87 | the month-to-date `$match` filters on `user` and `transactionType`, paths that the Transaction schema (backend/models/Transaction.js:4-17) does not define, so it matches nothing and the total is always 0 | one expense of 500 dated this month for user 1, with a spending-limit reminder of 100: no alert is raised | match on `userId` and `type`, so that the month's expenses are summed; because `aggregate` does not cast, the caller's string id must also be cast to an ObjectId (a cast this model does not represent, as its Mongoose persistence line says) | not executed | ReminderController.AsWrittenMissesOverspend | ReminderController.ReminderStore.CheckSpendingLimits |
