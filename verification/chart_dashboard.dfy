/**
 The chart card of the dashboard (`src/components/ChartDashboard.tsx`):
 the pie of spending per budget category and the income-against-expenses
 bars. The per-category total comes from the finance context, which is not
 part of this model; it is a parameter here. The budget page draws the same
 pie from each budget's own `currentSpent`.
 */
module Charts {
  import opened Basics
  import opened Models
  import opened BudgetBar

  /** One sector of a pie chart or one bar of the comparison chart. */
  datatype Slice = Slice(name: string, value: int)

  /** `budgets.map(b => ({ name: b.category.replace('_', ' '), value: value(b) }))`. */
  function SlicesOf(budgets: seq<Budget>, value: Budget -> int): (r: seq<Slice>)
    ensures |r| == |budgets|
    ensures forall i :: 0 <= i < |budgets| ==> r[i] == Slice(Label(budgets[i].category), value(budgets[i]))
  {
    seq(|budgets|, i requires 0 <= i < |budgets| => Slice(Label(budgets[i].category), value(budgets[i])))
  }

  predicate Positive(s: Slice) { s.value > 0 }

  /** The pie: one sector per budget with a positive value, in budget order. */
  function PieSlices(budgets: seq<Budget>, value: Budget -> int): (r: seq<Slice>)
    ensures |r| <= |budgets|
    ensures forall i :: 0 <= i < |r| ==> r[i].value > 0
    ensures forall x :: x in r <==> x in SlicesOf(budgets, value) && x.value > 0
    ensures forall x :: multiset(r)[x] == if x.value > 0 then multiset(SlicesOf(budgets, value))[x] else 0
  {
    var all := SlicesOf(budgets, value);
    forall x ensures multiset(Filter(all, Positive))[x] == if x.value > 0 then multiset(all)[x] else 0 {
      FilterCount(all, Positive, x);
    }
    Filter(all, Positive)
  }

  /** The sectors keep the order of the budgets they come from. */
  lemma PieKeepsBudgetOrder(budgets: seq<Budget>, value: Budget -> int)
    ensures IsSubseq(PieSlices(budgets, value), SlicesOf(budgets, value))
  {
    FilterIsSubseq(SlicesOf(budgets, value), Positive);
  }

  /** Every budget with a positive value has its sector, under its label. */
  lemma EveryPositiveBudgetHasSlice(budgets: seq<Budget>, value: Budget -> int, b: Budget)
    requires b in budgets && value(b) > 0
    ensures Slice(Label(b.category), value(b)) in PieSlices(budgets, value)
  {
    var i :| 0 <= i < |budgets| && budgets[i] == b;
    assert SlicesOf(budgets, value)[i] == Slice(Label(b.category), value(b));
  }

  /** `categoryData` of the dashboard chart, valued by the context's category total. */
  function CategoryData(budgets: seq<Budget>, categoryTotal: Category -> int): seq<Slice>
  {
    PieSlices(budgets, (b: Budget) => categoryTotal(b.category))
  }

  /** The income total: the amounts of the income transactions. */
  function IncomeTotal(ts: seq<Transaction>): int
  {
    SumOf(Filter(ts, IsIncome), Amount)
  }

  /** The expense total: the amounts of all other transactions. */
  function ExpenseTotal(ts: seq<Transaction>): int
  {
    SumOf(Filter(ts, IsExpense), Amount)
  }

  /** Every transaction counts towards exactly one of the two totals. */
  lemma TotalsPartition(ts: seq<Transaction>)
    ensures IncomeTotal(ts) + ExpenseTotal(ts) == SumOf(ts, Amount)
  {
    SumOfPartition(ts, IsIncome, IsExpense, Amount);
  }

  /** The two totals change by the amount of a transaction added to the list,
      each only when the transaction is of its kind. */
  lemma TotalsAppend(ts: seq<Transaction>, t: Transaction)
    ensures IncomeTotal(ts + [t]) == IncomeTotal(ts) + (if t.isIncome then t.amount else 0)
    ensures ExpenseTotal(ts + [t]) == ExpenseTotal(ts) + (if t.isIncome then 0 else t.amount)
  {
    FilterAppend(ts, t, IsIncome);
    FilterAppend(ts, t, IsExpense);
    var inc, exp := Filter(ts, IsIncome), Filter(ts, IsExpense);
    if t.isIncome {
      assert Filter(ts + [t], IsIncome) == inc + [t];
      assert Filter(ts + [t], IsExpense) == exp;
      SumOfAppend(inc, t, Amount);
    } else {
      assert Filter(ts + [t], IsIncome) == inc;
      assert Filter(ts + [t], IsExpense) == exp + [t];
      SumOfAppend(exp, t, Amount);
    }
  }

  /** `compareData`: the bars Income and Expenses, in that order, splitting the total. */
  function CompareData(ts: seq<Transaction>): (r: seq<Slice>)
    ensures |r| == 2
    ensures r[0].name == "Income" && r[1].name == "Expenses"
    ensures r[0].value == IncomeTotal(ts) && r[1].value == ExpenseTotal(ts)
    ensures r[0].value + r[1].value == SumOf(ts, Amount)
  {
    TotalsPartition(ts);
    [Slice("Income", IncomeTotal(ts)), Slice("Expenses", ExpenseTotal(ts))]
  }
}
