/**
 * The chart data of src/components/BudgetCharts.jsx: the spending-trend rows with their
 * totals, the budget-versus-spent rows, the pie slices, the utilisation rows and the
 * utilisation bar colour.
 *
 * The server's replies (`spendingTrends`, `budgetAnalytics.categoryData`) are parameters.
 */
module BudgetCharts {
  import opened Common
  import opened JsNumber
  import opened Seqs
  import opened Indicators
  import BudgetEnhanced

  // ---------------------------------------------------------------------------------------
  // Spending trends: `{ month, ...categories, total }` for each month of the reply.

  /** A field of a chart row: the month name or a number. */
  datatype Value = Str(s: string) | Number(n: Num)

  /** One `[category, amount]` entry of a month's object. */
  datatype Entry = Entry(key: string, value: Num)

  /** An object's keys are distinct. */
  predicate DistinctEntries(es: seq<Entry>) {
    forall i, j :: 0 <= i < j < |es| ==> es[i].key != es[j].key
  }

  /** `Object.values(categories).reduce((sum, value) => sum + value, 0)`. */
  function SumValues(es: seq<Entry>): Num {
    if es == [] then Zero else Add(SumValues(es[..|es| - 1]), es[|es| - 1].value)
  }

  /** The real sum of finite values. */
  function RealSum(es: seq<Entry>): real
    requires forall i :: 0 <= i < |es| ==> es[i].value.Finite?
  {
    if es == [] then 0.0 else RealSum(es[..|es| - 1]) + es[|es| - 1].value.r
  }

  /** With finite amounts the total is their sum; one NaN amount makes the total NaN. */
  lemma {:induction false} SumValuesCases(es: seq<Entry>)
    ensures (forall i :: 0 <= i < |es| ==> es[i].value.Finite?) ==> SumValues(es) == Finite(RealSum(es))
    ensures (exists i :: 0 <= i < |es| && es[i].value == NaN) ==> SumValues(es) == NaN
  {
    if es != [] {
      var init := es[..|es| - 1];
      SumValuesCases(init);
      assert forall i :: 0 <= i < |init| ==> init[i] == es[i];
      if exists i :: 0 <= i < |es| && es[i].value == NaN {
        var i :| 0 <= i < |es| && es[i].value == NaN;
        if i < |init| {
          assert init[i].value == NaN;
        }
      }
    }
  }

  /** The spread `...categories`. */
  function Spread(es: seq<Entry>): map<string, Value> {
    if es == [] then map[] else Spread(es[..|es| - 1])[es[|es| - 1].key := Number(es[|es| - 1].value)]
  }

  lemma {:induction false} SpreadFacts(es: seq<Entry>)
    requires DistinctEntries(es)
    ensures forall k :: k in Spread(es) <==> exists i :: 0 <= i < |es| && es[i].key == k
    ensures forall i :: 0 <= i < |es| ==> Spread(es)[es[i].key] == Number(es[i].value)
  {
    if es != [] {
      var init := es[..|es| - 1];
      assert DistinctEntries(init);
      SpreadFacts(init);
      assert forall i :: 0 <= i < |init| ==> init[i] == es[i];
    }
  }

  /** A trend row: the month, then the month's categories, then the total, later keys winning. */
  function TrendRow(month: string, categories: seq<Entry>): map<string, Value> {
    map["month" := Str(month)] + Spread(categories) + map["total" := Number(SumValues(categories))]
  }

  function TrendRows(trends: seq<(string, seq<Entry>)>): (rows: seq<map<string, Value>>)
    ensures |rows| == |trends|
  {
    Map(trends, (t: (string, seq<Entry>)) => TrendRow(t.0, t.1))
  }

  /**
   * A trend row's `total` is the sum of the month's amounts; every category of the month keeps
   * its amount unless it is named `total`; `month` holds the month unless a category is named
   * `month`; the row has no other keys.
   */
  lemma TrendRowFacts(month: string, categories: seq<Entry>)
    requires DistinctEntries(categories)
    ensures var row := TrendRow(month, categories);
            && row["total"] == Number(SumValues(categories))
            && (forall i :: 0 <= i < |categories| && categories[i].key != "total" ==>
                  categories[i].key in row && row[categories[i].key] == Number(categories[i].value))
            && ((forall i :: 0 <= i < |categories| ==> categories[i].key != "month") ==> row["month"] == Str(month))
            && (forall k :: k in row <==> k == "month" || k == "total" || k in Spread(categories))
  {
    SpreadFacts(categories);
  }

  // ---------------------------------------------------------------------------------------
  // Budget analytics rows

  /** A row of `budgetAnalytics.categoryData`; a missing number is `NaN`. */
  datatype CategoryRow = CategoryRow(category: string, budgeted: Num, spent: Num, remaining: Num, percentage: Num)

  /**
   * `getBudgetVsSpentData`: no rows without data; otherwise each row's numbers with `|| 0`.
   * `parseFloat` of a number is that number.
   */
  function BudgetVsSpent(data: Option<seq<CategoryRow>>): (r: seq<CategoryRow>)
    ensures data.None? || data.value == [] ==> r == []
    ensures data.Some? ==> |r| == |data.value|
    ensures data.Some? ==> forall i :: 0 <= i < |r| ==>
              && r[i].category == data.value[i].category
              && r[i].budgeted == (if Truthy(data.value[i].budgeted) then data.value[i].budgeted else Zero)
              && r[i].spent == (if Truthy(data.value[i].spent) then data.value[i].spent else Zero)
              && r[i].remaining == (if Truthy(data.value[i].remaining) then data.value[i].remaining else Zero)
              && r[i].percentage == (if Truthy(data.value[i].percentage) then data.value[i].percentage else Zero)
    ensures forall i :: 0 <= i < |r| ==>
              r[i].budgeted != NaN && r[i].spent != NaN && r[i].remaining != NaN && r[i].percentage != NaN
  {
    if data.None? || data.value == [] then []
    else
      Map(data.value, (item: CategoryRow) =>
        CategoryRow(item.category, Or(item.budgeted, Zero), Or(item.spent, Zero),
                    Or(item.remaining, Zero), Or(item.percentage, Zero)))
  }

  /** The colours of the categories. */
  const CategoryColors: map<string, string> := map[
    "Food" := "#8884d8", "Transport" := "#82ca9d", "Bills" := "#ffc658",
    "Shopping" := "#ff7300", "Health" := "#00ff88", "Others" := "#ff0066"]

  /** `COLORS[category] || '#8884d8'`. */
  function ColorOf(category: string): (c: string)
    ensures category in CategoryColors ==> c == CategoryColors[category]
    ensures category !in CategoryColors ==> c == "#8884d8"
  {
    if category in CategoryColors then CategoryColors[category] else "#8884d8"
  }

  datatype PieSlice = PieSlice(name: string, value: Num, color: string)

  predicate HasSpending(item: CategoryRow) {
    Gt(item.spent, Zero)
  }

  function Slice(item: CategoryRow): PieSlice {
    PieSlice(item.category, item.spent, ColorOf(item.category))
  }

  /** `getPieChartData`: the rows with something spent, in order, as slices. */
  function PieData(data: Option<seq<CategoryRow>>): seq<PieSlice> {
    if data.None? then [] else FilterMap(data.value, HasSpending, Slice)
  }

  /**
   * The pie has a slice exactly for each row with a positive amount spent, valued at that
   * amount and coloured by its category.
   */
  lemma PieDataExact(data: Option<seq<CategoryRow>>)
    ensures data.None? ==> PieData(data) == []
    ensures data.Some? ==> |PieData(data)| <= |data.value|
    ensures data.Some? ==> forall s :: s in PieData(data) <==>
              exists item :: item in data.value && Gt(item.spent, Zero)
                             && s == PieSlice(item.category, item.spent, ColorOf(item.category))
    ensures forall s :: s in PieData(data) ==> Gt(s.value, Zero)
  {
  }

  /** Rows appended after others add their slices after the others' slices. */
  lemma PieDataKeepsOrder(a: seq<CategoryRow>, b: seq<CategoryRow>)
    ensures PieData(Some(a + b)) == PieData(Some(a)) + PieData(Some(b))
  {
    FilterMapAppend(a, b, HasSpending, Slice);
  }

  datatype UtilRow = UtilRow(category: string, utilization: Num, budget: Num, spent: Num)

  /** `getUtilizationData`: one row per category, in order. */
  function UtilizationData(data: Option<seq<CategoryRow>>): (r: seq<UtilRow>)
    ensures data.None? ==> r == []
    ensures data.Some? ==> |r| == |data.value|
    ensures data.Some? ==> forall i :: 0 <= i < |r| ==>
              r[i] == UtilRow(data.value[i].category, data.value[i].percentage,
                              data.value[i].budgeted, data.value[i].spent)
  {
    if data.None? then []
    else Map(data.value, (item: CategoryRow) => UtilRow(item.category, item.percentage, item.budgeted, item.spent))
  }

  /** The utilisation bar colour: `utilization || 0`, then red from 100, amber from 80, else green. */
  function Fill(utilization: Num): Tone {
    var util := Or(utilization, Zero);
    if Ge(util, Finite(100.0)) then Red else if Ge(util, Finite(80.0)) then Yellow else Green
  }

  /** The utilisation chart colours a percentage as the enhanced page's cards do, NaN included. */
  lemma FillAgreesWithCards(utilization: Num)
    ensures Fill(utilization) == BudgetEnhanced.CardTone(utilization)
    ensures Fill(utilization) == Red <==> Ge(utilization, Finite(100.0))
    ensures Fill(utilization) == Yellow <==> Ge(utilization, Finite(80.0)) && Lt(utilization, Finite(100.0))
  {
    if utilization != NaN {
      GeNotLt(utilization, Finite(100.0));
    }
  }
}
