/**
 * The budget rows of src/pages/BudgetManagement_new.jsx: the unguarded percentage, the
 * progress colour, the status badge, and the choice between the exceeded and the remaining
 * amount.
 */
module BudgetPageNew {
  import opened JsNumber
  import opened Indicators
  import BudgetEnhanced

  /** The fields of a budget row the page reads; a missing number is `NaN`. */
  datatype Budget = Budget(
    category: string, spentAmount: Num, budgetAmount: Num,
    isExceeded: bool, exceededAmount: Num, remainingAmount: Num)

  /** `(spentAmount / budgetAmount) * 100`, with no guard against a zero budget. */
  function Percentage(b: Budget): Num {
    Percent(b.spentAmount, b.budgetAmount)
  }

  /** `getProgressColor`: the enhanced page's card rule, red from 100, yellow from 80, else green. */
  function ProgressColor(p: Num): (t: Tone)
    ensures t == Red <==> Ge(p, Finite(100.0))
    ensures t == Yellow <==> Ge(p, Finite(80.0)) && !Ge(p, Finite(100.0))
    ensures t == Green <==> !Ge(p, Finite(80.0))
  {
    BudgetEnhanced.CardTone(p)
  }

  datatype Badge = Exceeded | Warning | OnTrack

  /** `getStatusBadge`: the server's `isExceeded` flag decides first, then the percentage. */
  function StatusBadge(b: Budget): (badge: Badge)
    ensures badge == Exceeded <==> b.isExceeded
    ensures !b.isExceeded ==> (badge == Warning <==> Ge(Percentage(b), Finite(80.0)))
    ensures !b.isExceeded ==> (badge == OnTrack <==> !Ge(Percentage(b), Finite(80.0)))
  {
    if b.isExceeded then Exceeded
    else if Ge(Percentage(b), Finite(80.0)) then Warning
    else OnTrack
  }

  /** The amount line: "over budget" with the exceeded amount, or "remaining" with the rest. */
  datatype AmountLine = OverBy(amount: Num) | Left(amount: Num)

  function AmountShown(b: Budget): (line: AmountLine)
    ensures line.OverBy? <==> b.isExceeded
    ensures line.OverBy? ==> line.amount == b.exceededAmount
    ensures line.Left? ==> line.amount == b.remainingAmount
  {
    if b.isExceeded then OverBy(b.exceededAmount) else Left(b.remainingAmount)
  }

  /** `Math.min(percentage, 100)`. */
  function Width(b: Budget): (w: Num)
    ensures Percentage(b) == NaN ==> w == NaN
    ensures Percentage(b) != NaN ==> !Gt(w, Finite(100.0))
  {
    Min(Percentage(b), Finite(100.0))
  }

  /**
   * With a zero budget the percentage is `x / 0 * 100`: infinite when something was spent, so
   * the bar is full and red, and NaN when nothing was, so the bar is green with no width.
   */
  lemma ZeroBudgetRow(b: Budget)
    requires b.budgetAmount == Zero
    ensures Gt(b.spentAmount, Zero) ==>
              Percentage(b) == PosInf && ProgressColor(Percentage(b)) == Red && Width(b) == Finite(100.0)
    ensures b.spentAmount == Zero ==>
              Percentage(b) == NaN && ProgressColor(Percentage(b)) == Green && Width(b) == NaN
    ensures b.spentAmount == Zero && !b.isExceeded ==> StatusBadge(b) == OnTrack
  {
    DivideByZero(b.spentAmount);
  }
}
