/**
 * The derived figures of the enhanced budget page (src/pages/BudgetManagement_Enhanced.jsx):
 * `prepareChartData`'s five chart series, the On Track / At Risk / Over Budget counts, and
 * each budget card's percentage, colour, bar width, icon and remaining amount.
 */
module BudgetEnhanced {
  import opened Common
  import opened JsNumber
  import opened Seqs
  import opened Indicators

  /** The fields of a budget the page reads; a missing number is `NaN`. */
  datatype Budget = Budget(category: string, spent: Num, budgetAmount: Num)

  const Colors: seq<string> := ["#3B82F6", "#EF4444", "#10B981", "#F59E0B", "#8B5CF6", "#EC4899", "#6366F1", "#14B8A6"]

  /** `budget.spent || 0`. */
  function SpentOrZero(b: Budget): (s: Num)
    ensures s != NaN
  {
    Or(b.spent, Zero)
  }

  /** The percentage used: 0 unless the budget amount is positive. */
  function Utilization(b: Budget): Num {
    if Gt(b.budgetAmount, Zero) then Percent(SpentOrZero(b), b.budgetAmount) else Zero
  }

  /** `Math.max(0, budget.budgetAmount - (budget.spent || 0))`. */
  function Unspent(b: Budget): Num {
    Max(Zero, Sub(b.budgetAmount, SpentOrZero(b)))
  }

  /** The radial gauge value: the percentage capped at 100, or 0 unless the budget is positive. */
  function RadialValue(b: Budget): Num {
    if Gt(b.budgetAmount, Zero) then Min(Finite(100.0), Percent(SpentOrZero(b), b.budgetAmount)) else Zero
  }

  datatype PieRow = PieRow(name: string, value: Num, budgeted: Num, percentage: Num, color: string)
  datatype BarRow = BarRow(category: string, spent: Num, budget: Num, remaining: Num, percentage: Num)
  datatype LineRow = LineRow(category: string, utilization: Num, target: Num)
  datatype RadialRow = RadialRow(name: string, value: Num, fill: string)
  datatype AreaRow = AreaRow(month: string, spent: Num, budget: Num, savings: Num)

  datatype ChartData = ChartData(
    pieData: seq<PieRow>, barData: seq<BarRow>, lineData: seq<LineRow>,
    radialData: seq<RadialRow>, areaData: seq<AreaRow>)

  /** `prepareChartData`: one row per budget in every series; `None` is a missing list. */
  function PrepareChartData(budgets: Option<seq<Budget>>): ChartData {
    if budgets.None? || budgets.value == [] then ChartData([], [], [], [], [])
    else
      var bs := budgets.value;
      ChartData(
        seq(|bs|, i requires 0 <= i < |bs| =>
          PieRow(bs[i].category, SpentOrZero(bs[i]), bs[i].budgetAmount, Utilization(bs[i]), Colors[i % |Colors|])),
        seq(|bs|, i requires 0 <= i < |bs| =>
          BarRow(bs[i].category, SpentOrZero(bs[i]), bs[i].budgetAmount, Unspent(bs[i]), Utilization(bs[i]))),
        seq(|bs|, i requires 0 <= i < |bs| =>
          LineRow(bs[i].category, Utilization(bs[i]), Finite(80.0))),
        seq(|bs|, i requires 0 <= i < |bs| =>
          RadialRow(bs[i].category, RadialValue(bs[i]), Colors[i % |Colors|])),
        seq(|bs|, i requires 0 <= i < |bs| =>
          AreaRow(bs[i].category, SpentOrZero(bs[i]), bs[i].budgetAmount, Unspent(bs[i]))))
  }

  /** The figures for a budget with finite amounts, in real arithmetic. */
  lemma FiniteFigures(b: Budget, spent: real, amount: real)
    requires b.budgetAmount == Finite(amount) && SpentOrZero(b) == Finite(spent)
    ensures Unspent(b) == Finite(if amount - spent > 0.0 then amount - spent else 0.0)
    ensures amount > 0.0 ==> Utilization(b) == Finite(spent / amount * 100.0)
    ensures amount <= 0.0 ==> Utilization(b) == Zero && RadialValue(b) == Zero
    ensures amount > 0.0 ==>
              RadialValue(b) == Finite(if spent / amount * 100.0 < 100.0 then spent / amount * 100.0 else 100.0)
  {
    assert Sub(b.budgetAmount, SpentOrZero(b)) == Finite(amount - spent);
    if amount > 0.0 {
      PercentOfFinite(spent, amount);
    }
  }

  /**
   * Every series has one row per budget, in order, named after it; `spent` is read as
   * `spent || 0`; the percentage is 0 unless the budget is positive; the remaining amount and
   * the savings are never negative; the radial value is never above 100; the colours cycle
   * through the palette; a missing or empty list gives five empty series.
   */
  lemma ChartDataProperties(budgets: Option<seq<Budget>>)
    ensures budgets.None? || budgets.value == [] ==> PrepareChartData(budgets) == ChartData([], [], [], [], [])
    ensures var d := PrepareChartData(budgets);
            var bs := if budgets.Some? then budgets.value else [];
            && |d.pieData| == |d.barData| == |d.lineData| == |d.radialData| == |d.areaData| == |bs|
            && forall i :: 0 <= i < |bs| ==>
                 && d.pieData[i].name == d.barData[i].category == d.lineData[i].category == bs[i].category
                 && d.radialData[i].name == d.areaData[i].month == bs[i].category
                 && d.pieData[i].value == d.barData[i].spent == d.areaData[i].spent == Or(bs[i].spent, Zero)
                 && d.pieData[i].percentage == d.barData[i].percentage == d.lineData[i].utilization
                 && (!Gt(bs[i].budgetAmount, Zero) ==> d.barData[i].percentage == Zero && d.radialData[i].value == Zero)
                 && !Lt(d.barData[i].remaining, Zero) && !Lt(d.areaData[i].savings, Zero)
                 && !Gt(d.radialData[i].value, Finite(100.0))
                 && d.pieData[i].color == d.radialData[i].fill == Colors[i % 8]
                 && d.lineData[i].target == Finite(80.0)
  {
    if budgets.Some? && budgets.value != [] {
      var bs := budgets.value;
      forall i | 0 <= i < |bs|
        ensures !Lt(Unspent(bs[i]), Zero) && !Gt(RadialValue(bs[i]), Finite(100.0))
      {
        var m := Unspent(bs[i]);
        if m != NaN {
          assert Ge(m, Zero);
          Trichotomy(m, Zero);
        }
        var p := RadialValue(bs[i]);
        if Gt(bs[i].budgetAmount, Zero) && p != NaN {
          assert Le(p, Finite(100.0));
          Trichotomy(p, Finite(100.0));
        }
      }
    }
  }

  // ---------------------------------------------------------------------------------------
  // The summary counts: `(spent || 0) / budgetAmount` against 0.8 and 1, with no guard.

  function Ratio(b: Budget): Num {
    Div(SpentOrZero(b), b.budgetAmount)
  }

  predicate OnTrack(b: Budget) {
    Le(Ratio(b), Finite(0.8))
  }

  predicate AtRisk(b: Budget) {
    Gt(Ratio(b), Finite(0.8)) && Lt(Ratio(b), Finite(1.0))
  }

  predicate OverBudget(b: Budget) {
    Ge(Ratio(b), Finite(1.0))
  }

  datatype Counts = Counts(onTrack: nat, atRisk: nat, overBudget: nat, total: nat)

  function SummaryCounts(budgets: seq<Budget>): Counts {
    Counts(|Filter(budgets, OnTrack)|, |Filter(budgets, AtRisk)|, |Filter(budgets, OverBudget)|, |budgets|)
  }

  /** No budget is counted twice; one with a NaN ratio is counted nowhere. */
  lemma BucketsDisjoint(b: Budget)
    ensures !(OnTrack(b) && AtRisk(b)) && !(OnTrack(b) && OverBudget(b)) && !(AtRisk(b) && OverBudget(b))
    ensures Ratio(b) != NaN ==> OnTrack(b) || AtRisk(b) || OverBudget(b)
    ensures Ratio(b) == NaN ==> !OnTrack(b) && !AtRisk(b) && !OverBudget(b)
  {
    Trichotomy(Ratio(b), Finite(0.8));
    Trichotomy(Ratio(b), Finite(1.0));
  }

  /** With every budget amount a positive number, the three counts add up to the total. */
  lemma BucketsPartition(budgets: seq<Budget>)
    requires forall b :: b in budgets ==> b.budgetAmount.Finite? && b.budgetAmount.r > 0.0
    ensures var c := SummaryCounts(budgets); c.onTrack + c.atRisk + c.overBudget == c.total
  {
    forall b | b in budgets
      ensures (OnTrack(b) || AtRisk(b) || OverBudget(b))
              && !(OnTrack(b) && AtRisk(b)) && !(OnTrack(b) && OverBudget(b)) && !(AtRisk(b) && OverBudget(b))
    {
      BucketsDisjoint(b);
    }
    FilterPartition(budgets, OnTrack, AtRisk, OverBudget);
  }

  /**
   * A zero budget with nothing spent is `0 / 0`, counted in no bucket; with something spent
   * it is `x / 0`, Over Budget.
   */
  lemma ZeroBudget(b: Budget)
    requires b.budgetAmount == Zero
    ensures SpentOrZero(b) == Zero ==> !OnTrack(b) && !AtRisk(b) && !OverBudget(b)
    ensures Gt(SpentOrZero(b), Zero) ==> OverBudget(b)
  {
    DivideByZero(SpentOrZero(b));
  }

  // ---------------------------------------------------------------------------------------
  // The budget card

  /** The card's bar colour for a percentage: red from 100, yellow from 80, else green. */
  function CardTone(p: Num): (t: Tone)
    ensures t == Red <==> Ge(p, Finite(100.0))
    ensures t == Yellow <==> Ge(p, Finite(80.0)) && !Ge(p, Finite(100.0))
    ensures t == Green <==> !Ge(p, Finite(80.0))
  {
    if Ge(p, Finite(100.0)) then Red else if Ge(p, Finite(80.0)) then Yellow else Green
  }

  /** The card's icon: the triangle from 100, the circle from 80 up to 100, else none. */
  function CardIcon(p: Num): AlertIcon {
    if Ge(p, Finite(100.0)) then Triangle
    else if Ge(p, Finite(80.0)) && Lt(p, Finite(100.0)) then Circle
    else NoIcon
  }

  /** `Math.min(percentage, 100)`. */
  function BarWidth(p: Num): (w: Num)
    ensures p != NaN ==> !Gt(w, Finite(100.0)) && Le(w, p)
  {
    Min(p, Finite(100.0))
  }

  /** The icon shows exactly on red and yellow cards: the triangle on red, the circle on yellow. */
  lemma IconFollowsTone(b: Budget)
    ensures var p := Utilization(b);
            (CardIcon(p) == Triangle <==> CardTone(p) == Red)
            && (CardIcon(p) == Circle <==> CardTone(p) == Yellow)
  {
    var p := Utilization(b);
    if p != NaN {
      GeNotLt(p, Finite(100.0));
    }
  }

  /**
   * At exactly 80% the card is yellow while the summary counts the budget On Track: the card
   * uses `>= 80` and the counts `<= 0.8`.
   */
  lemma EightyPercentBoundary()
    ensures var b := Budget("Food", Finite(80.0), Finite(100.0));
            CardTone(Utilization(b)) == Yellow && OnTrack(b) && !AtRisk(b)
  {
    var b := Budget("Food", Finite(80.0), Finite(100.0));
    FiniteArithmetic(80.0, 100.0);
    assert Utilization(b) == Finite(80.0);
  }
}
