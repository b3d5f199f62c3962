/**
 The budget page of the client (`src/pages/Budget.tsx`): the new-budget
 dialog, the categories still free for a budget, and the spending pie.
 Creating the budget is the finance context's business and is outside this
 model; `succeeded` says whether the awaited call resolved.
 */
module BudgetPage {
  import opened Basics
  import opened Models
  import opened Charts
  import BudgetBar

  /** The dialog's fields; the limit is the text typed and what `parseFloat` reads from it. */
  datatype BudgetForm = BudgetForm(category: Category, limit: NumberField, period: Frequency)

  datatype PageState = PageState(form: BudgetForm, dialogOpen: bool)

  /** A call of `createBudget`; a limit of `None` is the NaN of an unreadable number. */
  datatype CreateCall = CreateCall(category: Category, limit: Option<int>, period: Frequency)

  datatype Outcome = Outcome(call: Option<CreateCall>, state: PageState)

  /** The form the dialog starts from and returns to. */
  const EmptyForm := BudgetForm(Food, NumberField("", None), Monthly)

  /** `handleCreateBudget`: an empty category or limit does nothing; otherwise the budget is
      requested with the parsed limit and, once that resolves, the form is reset and the
      dialog closed. */
  function CreateBudget(st: PageState, succeeded: bool): (o: Outcome)
    ensures o.call.None? <==> st.form.category == "" || st.form.limit.text == ""
    ensures o.call.None? ==> o.state == st
    ensures o.call.Some? ==> o.call.value == CreateCall(st.form.category, st.form.limit.parsed, st.form.period)
    ensures o.call.Some? && succeeded ==> o.state == PageState(EmptyForm, false)
    ensures o.call.Some? && !succeeded ==> o.state == st
  {
    var f := st.form;
    if f.category == "" || f.limit.text == "" then Outcome(None, st)
    else
      var call := CreateCall(f.category, f.limit.parsed, f.period);
      Outcome(Some(call), if succeeded then PageState(EmptyForm, false) else st)
  }

  /** Only emptiness is checked: a limit that does not read as a number is sent as NaN. */
  lemma UnreadableLimitIsSent()
    ensures var st := PageState(BudgetForm(Food, NumberField("abc", None), Monthly), true);
      CreateBudget(st, true).call == Some(CreateCall(Food, None, Monthly))
  {
  }

  /** After a budget went through, pressing Create again on the reset form sends nothing:
      the reset limit is empty. */
  lemma CreateOnce(st: PageState, again: bool)
    requires CreateBudget(st, true).call.Some?
    ensures CreateBudget(CreateBudget(st, true).state, again).call.None?
  {
  }

  /** Some budget already covers category `c` (`budgets.some(...)`). */
  predicate HasBudget(budgets: seq<Budget>, c: Category)
  {
    exists b :: b in budgets && b.category == c
  }

  /** `unusedCategories`: the menu categories no budget covers yet, in menu order. */
  function UnusedCategories(budgets: seq<Budget>): (r: seq<Category>)
    ensures forall c :: c in r <==> c in ExpenseCategories && !HasBudget(budgets, c)
    ensures forall c, b :: c in r && b in budgets ==> b.category != c
    ensures Income !in r && Savings !in r
  {
    Filter(ExpenseCategories, c => !HasBudget(budgets, c))
  }

  /** The free categories keep the menu order. */
  lemma UnusedKeepsMenuOrder(budgets: seq<Budget>)
    ensures IsSubseq(UnusedCategories(budgets), ExpenseCategories)
  {
    FilterIsSubseq(ExpenseCategories, c => !HasBudget(budgets, c));
  }

  /** A budget for a menu category takes that category off the free list, and only it. */
  lemma NewBudgetUsesCategory(budgets: seq<Budget>, b: Budget)
    requires b.category in ExpenseCategories
    ensures b.category !in UnusedCategories(budgets + [b])
    ensures forall c :: c != b.category ==> (c in UnusedCategories(budgets + [b]) <==> c in UnusedCategories(budgets))
  {
    assert b in budgets + [b];
    forall c | c != b.category
      ensures HasBudget(budgets + [b], c) <==> HasBudget(budgets, c)
    {
      if HasBudget(budgets + [b], c) {
        var x :| x in budgets + [b] && x.category == c;
        assert x in budgets;
      }
      if HasBudget(budgets, c) {
        var x :| x in budgets && x.category == c;
        assert x in budgets + [b];
      }
    }
  }

  function CurrentSpent(b: Budget): int { b.currentSpent }

  /** The budget page's pie, valued by each budget's own `currentSpent`. */
  function CategoryData(budgets: seq<Budget>): (r: seq<Slice>)
    ensures |r| <= |budgets|
    ensures forall i :: 0 <= i < |r| ==> r[i].value > 0
    ensures forall b :: b in budgets && b.currentSpent > 0 ==> Slice(BudgetBar.Label(b.category), b.currentSpent) in r
    ensures forall x :: x in r ==> exists b :: b in budgets && b.currentSpent > 0 && x == Slice(BudgetBar.Label(b.category), b.currentSpent)
  {
    var all := SlicesOf(budgets, CurrentSpent);
    var r := PieSlices(budgets, CurrentSpent);
    forall b | b in budgets && b.currentSpent > 0
      ensures Slice(BudgetBar.Label(b.category), b.currentSpent) in r
    {
      EveryPositiveBudgetHasSlice(budgets, CurrentSpent, b);
    }
    forall x | x in r
      ensures exists b :: b in budgets && b.currentSpent > 0 && x == Slice(BudgetBar.Label(b.category), b.currentSpent)
    {
      var i :| 0 <= i < |all| && all[i] == x;
      assert budgets[i] in budgets;
    }
    r
  }
}
