/**
 * The budget cards of src/pages/BudgetManagement.jsx: the amount fallbacks, the spent
 * percentage with its zero-budget guard, the overspent flag, the remaining and "exceeded by"
 * amounts shown, the progress colour and the alert icon.
 */
module BudgetPage {
  import opened Common
  import opened JsNumber
  import opened Indicators

  /** The fields of a budget the card reads; a missing number is `NaN`. */
  datatype Budget = Budget(category: string, budgetAmount: Num, amount: Num, spentAmount: Num, spent: Num)

  /** `getProgressColor`: green below 50, yellow below 80, red otherwise. */
  function ProgressColor(p: Num): (t: Tone)
    ensures t == Green <==> Lt(p, Finite(50.0))
    ensures t == Yellow <==> !Lt(p, Finite(50.0)) && Lt(p, Finite(80.0))
    ensures t == Red <==> !Lt(p, Finite(80.0))
  {
    if Lt(p, Finite(50.0)) then Green else if Lt(p, Finite(80.0)) then Yellow else Red
  }

  /** `getAlertIcon`: the triangle from 100, the circle from 80, else no icon. */
  function AlertIconFor(p: Num): (i: AlertIcon)
    ensures i == Triangle <==> Ge(p, Finite(100.0))
    ensures i == Circle <==> Ge(p, Finite(80.0)) && !Ge(p, Finite(100.0))
    ensures i == NoIcon <==> !Ge(p, Finite(80.0))
  {
    if Ge(p, Finite(100.0)) then Triangle else if Ge(p, Finite(80.0)) then Circle else NoIcon
  }

  /** An icon shows only on a red bar; a red bar goes without one only for a NaN percentage. */
  lemma IconOnlyWhenRed(p: Num)
    ensures AlertIconFor(p) != NoIcon ==> ProgressColor(p) == Red
    ensures p != NaN ==> (ProgressColor(p) == Red <==> AlertIconFor(p) != NoIcon)
  {
    if p != NaN {
      GeNotLt(p, Finite(80.0));
    }
  }

  /** `budget.budgetAmount || budget.amount || 0`. */
  function BudgetOf(b: Budget): (a: Num)
    ensures Truthy(b.budgetAmount) ==> a == b.budgetAmount
    ensures !Truthy(b.budgetAmount) && Truthy(b.amount) ==> a == b.amount
    ensures !Truthy(b.budgetAmount) && !Truthy(b.amount) ==> a == Zero
    ensures a != NaN
  {
    Or(Or(b.budgetAmount, b.amount), Zero)
  }

  /** `budget.spentAmount || budget.spent || 0`. */
  function SpentOf(b: Budget): (s: Num)
    ensures Truthy(b.spentAmount) ==> s == b.spentAmount
    ensures !Truthy(b.spentAmount) && Truthy(b.spent) ==> s == b.spent
    ensures !Truthy(b.spentAmount) && !Truthy(b.spent) ==> s == Zero
    ensures s != NaN
  {
    Or(Or(b.spentAmount, b.spent), Zero)
  }

  /** `spentPercentage`: 0 unless the budget is positive. */
  function SpentPercentage(b: Budget): Num {
    if Gt(BudgetOf(b), Zero) then Percent(SpentOf(b), BudgetOf(b)) else Zero
  }

  predicate IsOverspent(b: Budget) {
    Gt(SpentPercentage(b), Finite(100.0))
  }

  /** `Math.max(0, budgetAmount - spentAmount)`. */
  function RemainingAmount(b: Budget): Num {
    Max(Zero, Sub(BudgetOf(b), SpentOf(b)))
  }

  /** The remaining amount shown: 0 on an overspent card. */
  function RemainingShown(b: Budget): Num {
    if IsOverspent(b) then Zero else RemainingAmount(b)
  }

  /** The "Budget exceeded by" line, present only on an overspent card. */
  function ExceededBy(b: Budget): Option<Num> {
    if IsOverspent(b) then Some(Sub(SpentOf(b), BudgetOf(b))) else None
  }

  /** `Math.min(spentPercentage, 100)`. */
  function ProgressWidth(b: Budget): (w: Num)
    ensures SpentPercentage(b) != NaN ==> !Gt(w, Finite(100.0))
  {
    Min(SpentPercentage(b), Finite(100.0))
  }

  /** A zero budget shows 0% and nothing exceeded, whatever was spent. */
  lemma ZeroBudgetGuard(b: Budget)
    requires !Truthy(b.budgetAmount) && !Truthy(b.amount)
    ensures SpentPercentage(b) == Zero && !IsOverspent(b) && ExceededBy(b).None?
    ensures ProgressColor(SpentPercentage(b)) == Green && AlertIconFor(SpentPercentage(b)) == NoIcon
  {
  }

  /** On finite amounts with a positive budget, overspent means spent above the budget. */
  lemma OverspentFinite(b: Budget, budget: real, spent: real)
    requires BudgetOf(b) == Finite(budget) && SpentOf(b) == Finite(spent) && budget > 0.0
    ensures SpentPercentage(b) == Finite(spent / budget * 100.0)
    ensures IsOverspent(b) <==> spent > budget
    ensures !IsOverspent(b) ==> RemainingShown(b) == Finite(if budget - spent > 0.0 then budget - spent else 0.0)
  {
    PercentOfFinite(spent, budget);
    var q := spent / budget;
    assert q * budget == spent;
    assert q > 1.0 <==> spent > budget;
    assert Sub(BudgetOf(b), SpentOf(b)) == Finite(budget - spent);
  }

  /**
   * The remaining amount shown is never negative, and the "exceeded by" amount is shown only
   * on an overspent card, where it is positive.
   */
  lemma ShownAmounts(b: Budget)
    ensures !Lt(RemainingShown(b), Zero)
    ensures ExceededBy(b).Some? <==> IsOverspent(b)
    ensures ExceededBy(b).Some? ==> Gt(ExceededBy(b).value, Zero)
  {
    var m := RemainingAmount(b);
    if m != NaN {
      Trichotomy(m, Zero);
    }
    if IsOverspent(b) {
      var a := BudgetOf(b);
      var s := SpentOf(b);
      assert Gt(a, Zero);
      if a.Finite? && s.Finite? {
        OverspentFinite(b, a.r, s.r);
      }
    }
  }
}
