/**
 * The expense breakdown of the dashboard (src/pages/Dashboard.jsx): `processAnalyticsData`
 * groups the expense transactions by category into an accumulator object, lists its entries
 * by amount, highest first, and totals the expenses; the breakdown card shows each of the
 * first five categories with its share of the total.
 *
 * Amounts are exact reals; the accumulator object is a sequence of (category, amount)
 * entries in insertion order, which is the order `Object.entries` lists string keys in.
 */
module Dashboard {
  import opened Common
  import opened Seqs

  datatype Transaction = Transaction(transactionType: string, category: Option<string>, amount: real)

  datatype CategoryTotal = CategoryTotal(category: string, amount: real)

  datatype Analytics = Analytics(categoryData: seq<CategoryTotal>, totalExpenses: real)

  /** `transaction.category || 'Others'`. */
  function CategoryOf(t: Transaction): (c: string)
    ensures c == "Others" <==> t.category.None? || t.category.value in {"", "Others"}
    ensures c != "Others" ==> t.category == Some(c)
  {
    TextOr(t.category, "Others")
  }

  function IsExpense(t: Transaction): bool {
    t.transactionType == "expense"
  }

  /** The sum of the amounts of the transactions (`reduce((sum, t) => sum + t.amount, 0)`). */
  function SumTx(ts: seq<Transaction>): real {
    if ts == [] then 0.0 else SumTx(ts[..|ts| - 1]) + ts[|ts| - 1].amount
  }

  /** The sum of the amounts of the transactions counted under category `c`. */
  function CategorySum(ts: seq<Transaction>, c: string): real {
    if ts == [] then 0.0
    else CategorySum(ts[..|ts| - 1], c) + (if CategoryOf(ts[|ts| - 1]) == c then ts[|ts| - 1].amount else 0.0)
  }

  function SumAmounts(acc: seq<CategoryTotal>): real {
    if acc == [] then 0.0 else acc[0].amount + SumAmounts(acc[1..])
  }

  /** `c in acc`: the accumulator has an entry for `c`. */
  predicate HasKey(acc: seq<CategoryTotal>, c: string) {
    acc != [] && (acc[0].category == c || HasKey(acc[1..], c))
  }

  /** Each key appears once. */
  predicate DistinctKeys(acc: seq<CategoryTotal>) {
    acc == [] || (!HasKey(acc[1..], acc[0].category) && DistinctKeys(acc[1..]))
  }

  /** `acc[c] || 0`. */
  function Lookup(acc: seq<CategoryTotal>, c: string): real {
    if acc == [] then 0.0 else if acc[0].category == c then acc[0].amount else Lookup(acc[1..], c)
  }

  /** `acc[c] = (acc[c] || 0) + x`: updates an existing key in place, or appends a new one. */
  function AddTo(acc: seq<CategoryTotal>, c: string, x: real): seq<CategoryTotal> {
    if acc == [] then [CategoryTotal(c, x)]
    else if acc[0].category == c then [acc[0].(amount := acc[0].amount + x)] + acc[1..]
    else [acc[0]] + AddTo(acc[1..], c, x)
  }

  /** The accumulator after the `reduce` over the expenses. */
  function GroupTotals(es: seq<Transaction>): seq<CategoryTotal> {
    if es == [] then []
    else
      var last := es[|es| - 1];
      AddTo(GroupTotals(es[..|es| - 1]), CategoryOf(last), last.amount)
  }

  /** Adding to a key keeps keys distinct, adds `c` to them, and adds `x` to `c`'s amount only. */
  lemma {:induction false} AddToFacts(acc: seq<CategoryTotal>, c: string, x: real)
    requires DistinctKeys(acc)
    ensures DistinctKeys(AddTo(acc, c, x))
    ensures forall d :: HasKey(AddTo(acc, c, x), d) <==> HasKey(acc, d) || d == c
    ensures forall d :: Lookup(AddTo(acc, c, x), d) == Lookup(acc, d) + (if d == c then x else 0.0)
    ensures SumAmounts(AddTo(acc, c, x)) == SumAmounts(acc) + x
  {
    if acc != [] {
      AddToFacts(acc[1..], c, x);
      var r := AddTo(acc, c, x);
      if acc[0].category == c {
        assert r[1..] == acc[1..];
      } else {
        assert r[1..] == AddTo(acc[1..], c, x);
      }
    }
  }

  /** In a sequence with distinct keys, an entry is present exactly when it is its key's entry. */
  lemma {:induction false} LookupMember(acc: seq<CategoryTotal>, e: CategoryTotal)
    requires DistinctKeys(acc)
    ensures e in acc <==> HasKey(acc, e.category) && Lookup(acc, e.category) == e.amount
  {
    if acc != [] {
      LookupMember(acc[1..], e);
      assert acc == [acc[0]] + acc[1..];
      if e in acc[1..] {
        HasKeyMember(acc[1..], e);
      }
    }
  }

  lemma {:induction false} HasKeyMember(acc: seq<CategoryTotal>, e: CategoryTotal)
    requires e in acc
    ensures HasKey(acc, e.category)
  {
    if acc[0] != e {
      HasKeyMember(acc[1..], e);
    }
  }

  /**
   * The accumulator lists each category of the expenses exactly once, with the sum of that
   * category's amounts; its amounts add up to the total of the expenses.
   */
  lemma {:induction false} GroupTotalsCorrect(es: seq<Transaction>)
    ensures DistinctKeys(GroupTotals(es))
    ensures forall c :: HasKey(GroupTotals(es), c) <==> exists t :: t in es && CategoryOf(t) == c
    ensures forall c :: Lookup(GroupTotals(es), c) == CategorySum(es, c)
    ensures SumAmounts(GroupTotals(es)) == SumTx(es)
  {
    if es != [] {
      var init := es[..|es| - 1];
      var last := es[|es| - 1];
      GroupTotalsCorrect(init);
      AddToFacts(GroupTotals(init), CategoryOf(last), last.amount);
      assert forall t :: t in es <==> t in init || t == last;
    }
  }

  // ---------------------------------------------------------------------------------------
  // `.sort((a, b) => b.amount - a.amount)`: a stable sort, highest amount first.

  function Insert(x: CategoryTotal, s: seq<CategoryTotal>): seq<CategoryTotal> {
    if s == [] then [x]
    else if x.amount >= s[0].amount then [x] + s
    else [s[0]] + Insert(x, s[1..])
  }

  function SortDesc(s: seq<CategoryTotal>): seq<CategoryTotal> {
    if s == [] then [] else Insert(s[0], SortDesc(s[1..]))
  }

  /** Each amount is at least the next one. */
  predicate Descending(s: seq<CategoryTotal>) {
    |s| <= 1 || (s[0].amount >= s[1].amount && Descending(s[1..]))
  }

  /** Each amount is at least every later one. */
  predicate NonIncreasing(s: seq<CategoryTotal>) {
    forall i, j :: 0 <= i < j < |s| ==> s[i].amount >= s[j].amount
  }

  lemma {:induction false} DescendingNonIncreasing(s: seq<CategoryTotal>)
    requires Descending(s)
    ensures NonIncreasing(s)
  {
    if |s| > 1 {
      DescendingNonIncreasing(s[1..]);
      forall j | 0 < j < |s|
        ensures s[0].amount >= s[j].amount
      {
        assert s[1..][0] == s[1];
        if j > 1 {
          assert s[1..][j - 1] == s[j];
        }
      }
      forall i, j | 0 < i < j < |s|
        ensures s[i].amount >= s[j].amount
      {
        assert s[1..][i - 1] == s[i] && s[1..][j - 1] == s[j];
      }
    }
  }

  lemma {:induction false} InsertSorted(x: CategoryTotal, s: seq<CategoryTotal>)
    requires Descending(s)
    ensures Descending(Insert(x, s))
    ensures Insert(x, s)[0] == x || (s != [] && Insert(x, s)[0] == s[0])
  {
    if s != [] && x.amount < s[0].amount {
      InsertSorted(x, s[1..]);
      assert Insert(x, s)[1..] == Insert(x, s[1..]);
    }
  }

  lemma {:induction false} InsertPermutes(x: CategoryTotal, s: seq<CategoryTotal>)
    ensures multiset(Insert(x, s)) == multiset(s) + multiset{x}
    ensures SumAmounts(Insert(x, s)) == x.amount + SumAmounts(s)
    ensures forall d :: HasKey(Insert(x, s), d) <==> HasKey(s, d) || d == x.category
    ensures DistinctKeys(s) && !HasKey(s, x.category) ==> DistinctKeys(Insert(x, s))
  {
    if s == [] {
    } else if x.amount >= s[0].amount {
      assert Insert(x, s)[1..] == s;
    } else {
      InsertPermutes(x, s[1..]);
      assert s == [s[0]] + s[1..];
      assert Insert(x, s)[1..] == Insert(x, s[1..]);
    }
  }

  lemma {:induction false} SortDescSorted(s: seq<CategoryTotal>)
    ensures Descending(SortDesc(s))
  {
    if s != [] {
      SortDescSorted(s[1..]);
      InsertSorted(s[0], SortDesc(s[1..]));
    }
  }

  lemma {:induction false} SortDescMultiset(s: seq<CategoryTotal>)
    ensures multiset(SortDesc(s)) == multiset(s)
    ensures SumAmounts(SortDesc(s)) == SumAmounts(s)
  {
    if s != [] {
      SortDescMultiset(s[1..]);
      InsertPermutes(s[0], SortDesc(s[1..]));
      assert s == [s[0]] + s[1..];
    }
  }

  lemma {:induction false} SortDescKeys(s: seq<CategoryTotal>)
    ensures forall d :: HasKey(SortDesc(s), d) <==> HasKey(s, d)
    ensures DistinctKeys(s) ==> DistinctKeys(SortDesc(s))
  {
    if s != [] {
      SortDescKeys(s[1..]);
      InsertPermutes(s[0], SortDesc(s[1..]));
    }
  }

  /** The sort orders by amount, highest first, and is a permutation keeping keys and sum. */
  lemma SortDescFacts(s: seq<CategoryTotal>)
    ensures Descending(SortDesc(s)) && NonIncreasing(SortDesc(s))
    ensures multiset(SortDesc(s)) == multiset(s)
    ensures SumAmounts(SortDesc(s)) == SumAmounts(s)
    ensures forall d :: HasKey(SortDesc(s), d) <==> HasKey(s, d)
    ensures DistinctKeys(s) ==> DistinctKeys(SortDesc(s))
  {
    SortDescSorted(s);
    SortDescMultiset(s);
    SortDescKeys(s);
    DescendingNonIncreasing(SortDesc(s));
  }

  // ---------------------------------------------------------------------------------------
  // processAnalyticsData

  /** What `processAnalyticsData` stores, as a definition. */
  function Analyze(transactions: Option<seq<Transaction>>): Analytics {
    if transactions.None? || transactions.value == [] then Analytics([], 0.0)
    else
      var es := Filter(transactions.value, IsExpense);
      Analytics(SortDesc(GroupTotals(es)), SumTx(es))
  }

  /**
   * The breakdown lists each category of the expenses once, with the sum of its expenses,
   * highest first; the total is the sum of the expenses, and also the sum of the categories.
   * Only expenses count, and a missing or empty list gives an empty breakdown and total 0.
   */
  lemma AnalyzeCorrect(transactions: Option<seq<Transaction>>)
    ensures transactions.None? || transactions.value == [] ==> Analyze(transactions) == Analytics([], 0.0)
    ensures var a := Analyze(transactions);
            var es := if transactions.Some? then Filter(transactions.value, IsExpense) else [];
            && NonIncreasing(a.categoryData)
            && DistinctKeys(a.categoryData)
            && (forall e :: e in a.categoryData <==>
                  (exists t :: t in es && CategoryOf(t) == e.category) && e.amount == CategorySum(es, e.category))
            && a.totalExpenses == SumTx(es)
            && a.totalExpenses == SumAmounts(a.categoryData)
  {
    if transactions.Some? && transactions.value != [] {
      var es := Filter(transactions.value, IsExpense);
      var g := GroupTotals(es);
      GroupTotalsCorrect(es);
      SortDescFacts(g);
      forall e
        ensures e in SortDesc(g) <==>
                  (exists t :: t in es && CategoryOf(t) == e.category) && e.amount == CategorySum(es, e.category)
      {
        assert e in SortDesc(g) <==> e in multiset(SortDesc(g));
        LookupMember(g, e);
      }
    }
  }

  /** The position of the key `c`, or -1. */
  method FindCategory(acc: seq<CategoryTotal>, c: string) returns (k: int)
    ensures -1 <= k < |acc|
    ensures k == -1 ==> forall i :: 0 <= i < |acc| ==> acc[i].category != c
    ensures k >= 0 ==> acc[k].category == c && forall i :: 0 <= i < k ==> acc[i].category != c
  {
    k := 0;
    while k < |acc|
      invariant 0 <= k <= |acc|
      invariant forall i :: 0 <= i < k ==> acc[i].category != c
    {
      if acc[k].category == c {
        return;
      }
      k := k + 1;
    }
    k := -1;
  }

  lemma {:induction false} AddToAt(acc: seq<CategoryTotal>, c: string, x: real, k: int)
    requires -1 <= k < |acc|
    requires k == -1 ==> forall i :: 0 <= i < |acc| ==> acc[i].category != c
    requires k >= 0 ==> acc[k].category == c && forall i :: 0 <= i < k ==> acc[i].category != c
    ensures k == -1 ==> AddTo(acc, c, x) == acc + [CategoryTotal(c, x)]
    ensures k >= 0 ==> AddTo(acc, c, x) == acc[k := acc[k].(amount := acc[k].amount + x)]
  {
    if acc != [] && acc[0].category != c {
      AddToAt(acc[1..], c, x, if k == -1 then -1 else k - 1);
      assert acc == [acc[0]] + acc[1..];
    }
  }

  /** `acc[category] = (acc[category] || 0) + amount` on the accumulator. */
  method AddToAccumulator(acc: seq<CategoryTotal>, c: string, x: real) returns (r: seq<CategoryTotal>)
    ensures r == AddTo(acc, c, x)
  {
    var k := FindCategory(acc, c);
    AddToAt(acc, c, x, k);
    if k >= 0 {
      r := acc[k := acc[k].(amount := acc[k].amount + x)];
    } else {
      r := acc + [CategoryTotal(c, x)];
    }
  }

  /** One more expense extends the grouping by one `AddTo` and the total by its amount. */
  lemma PrefixStep(es: seq<Transaction>, i: nat)
    requires i < |es|
    ensures GroupTotals(es[..i + 1]) == AddTo(GroupTotals(es[..i]), CategoryOf(es[i]), es[i].amount)
    ensures SumTx(es[..i + 1]) == SumTx(es[..i]) + es[i].amount
  {
    assert es[..i + 1][..i] == es[..i];
  }

  /** The accumulator `reduce` of `processAnalyticsData`. */
  method GroupExpenses(expenses: seq<Transaction>) returns (acc: seq<CategoryTotal>)
    ensures acc == GroupTotals(expenses)
  {
    acc := [];
    var i := 0;
    while i < |expenses|
      invariant 0 <= i <= |expenses|
      invariant acc == GroupTotals(expenses[..i])
    {
      PrefixStep(expenses, i);
      acc := AddToAccumulator(acc, CategoryOf(expenses[i]), expenses[i].amount);
      i := i + 1;
    }
    assert expenses[..i] == expenses;
  }

  /** The total `reduce` of `processAnalyticsData`. */
  method TotalExpenses(expenses: seq<Transaction>) returns (total: real)
    ensures total == SumTx(expenses)
  {
    total := 0.0;
    var j := 0;
    while j < |expenses|
      invariant 0 <= j <= |expenses|
      invariant total == SumTx(expenses[..j])
    {
      PrefixStep(expenses, j);
      total := total + expenses[j].amount;
      j := j + 1;
    }
    assert expenses[..j] == expenses;
  }

  /**
   * `processAnalyticsData`: filters the expenses, groups them by category, sorts the entries
   * and totals the expenses.
   */
  method ProcessAnalyticsData(transactions: Option<seq<Transaction>>) returns (a: Analytics)
    ensures a == Analyze(transactions)
  {
    if transactions.None? || transactions.value == [] {
      return Analytics([], 0.0);
    }
    var expenses := Filter(transactions.value, IsExpense);
    var acc := GroupExpenses(expenses);
    var total := TotalExpenses(expenses);
    a := Analytics(SortDesc(acc), total);
  }

  // ---------------------------------------------------------------------------------------
  // The breakdown card

  /** A category's share of the expenses in percent; 0 when the total is not positive. */
  function Share(amount: real, total: real): (p: real)
    ensures total <= 0.0 ==> p == 0.0
    ensures total > 0.0 && 0.0 <= amount <= total ==> 0.0 <= p <= 100.0
    ensures total > 0.0 && amount == total ==> p == 100.0
  {
    if total > 0.0 then amount / total * 100.0 else 0.0
  }

  /** The rows shown: the first five categories. */
  function ShownRows(data: seq<CategoryTotal>): (r: seq<CategoryTotal>)
    ensures |r| <= 5 && r <= data
    ensures |data| <= 5 ==> r == data
  {
    if |data| <= 5 then data else data[..5]
  }

  /** The "+N more categories" line: present only with more than five categories. */
  function MoreCount(data: seq<CategoryTotal>): (n: Option<nat>)
    ensures n.Some? <==> |data| > 5
    ensures n.Some? ==> |ShownRows(data)| + n.value == |data|
  {
    if |data| > 5 then Some(|data| - 5) else None
  }

  /** On rows sorted largest first, every shown row is at least as large as every hidden one. */
  lemma ShownAreLargest(data: seq<CategoryTotal>)
    requires NonIncreasing(data)
    ensures forall i, j :: 0 <= i < |ShownRows(data)| <= j < |data| ==> ShownRows(data)[i].amount >= data[j].amount
  {
  }
}
