/**
 The profile handlers of the backend (`backend/routes/userRoutes.js`):
 saving the onboarding profile, and reading a profile back with a budget
 summary folded from the user's expenses.

 The `users` collection is a map from uid to profile document, and each
 user's `expenses` sub-collection is a separate map entry, since a
 sub-collection exists independently of its parent document.
 */
module ProfileRoutes {
  import opened Basics
  import opened Models
  import opened Grouping
  import opened Sorting

  /** A document of a user's `expenses` sub-collection. */
  datatype Expense = Expense(id: string, category: Category, amount: int, date: int)

  datatype Profile = Profile(
    monthlyIncome: Option<int>,
    riskTolerance: string,
    goals: seq<string>,
    onboardingCompleted: bool,
    updatedAt: int)

  datatype Db = Db(users: map<UserId, Profile>, expenses: map<UserId, seq<Expense>>)

  /** The JSON body of POST /profile; `monthlyIncome` is what `parseFloat` made of it. */
  datatype ProfileBody = ProfileBody(
    uid: Option<string>,
    monthlyIncome: Option<int>,
    riskTolerance: string,
    goals: seq<string>,
    onboardingCompleted: bool)

  datatype BudgetSummary = BudgetSummary(totalSpent: int, totalIncome: int, categories: seq<CategorySpend>)

  /** The body of GET /profile/:uid (the fixed empty goal and tip lists are left out). */
  datatype ProfileView = ProfileView(profile: Profile, expenses: seq<Expense>, budgetSummary: BudgetSummary)

  /** Every category gets this limit in the summary. */
  const DefaultLimit := 1000

  /** POST /profile: without a uid nothing is written; otherwise the profile
      document is (re)written and the expenses are left alone. */
  function SaveProfile(db: Db, body: ProfileBody, now: int): (r: (Reply<string>, Db))
    ensures (body.uid.None? || body.uid.value == "") <==> r.0 == Failure(400, "User ID is required")
    ensures r.0.Failure? ==> r.1 == db
    ensures r.0.Success? ==>
      && r.0.status == 200
      && r.1.expenses == db.expenses
      && r.1.users.Keys == db.users.Keys + {body.uid.value}
      && r.1.users[body.uid.value]
           == Profile(body.monthlyIncome, body.riskTolerance, body.goals, body.onboardingCompleted, now)
      && forall u :: u in db.users && u != body.uid.value ==> r.1.users[u] == db.users[u]
  {
    if body.uid.None? || body.uid.value == "" then
      (Failure(400, "User ID is required"), db)
    else
      var p := Profile(body.monthlyIncome, body.riskTolerance, body.goals, body.onboardingCompleted, now);
      (Success(200, "Profile saved successfully"), db.(users := db.users[body.uid.value := p]))
  }

  /** A saved profile reads back: after a successful save, GET for that uid finds the
      profile just written, the user's expenses are still there, and the summary's income
      is the saved income, or 0 when none was given. */
  lemma SaveThenGet(db: Db, body: ProfileBody, now: int)
    ensures var (reply, after) := SaveProfile(db, body, now);
      reply.Success? ==>
        var uid := body.uid.value;
        var r := GetProfile(after, uid);
        && r.Success?
        && r.value.profile == Profile(body.monthlyIncome, body.riskTolerance, body.goals, body.onboardingCompleted, now)
        && multiset(r.value.expenses) == multiset(if uid in db.expenses then db.expenses[uid] else [])
        && r.value.budgetSummary.totalIncome == (if body.monthlyIncome.Some? then body.monthlyIncome.value else 0)
  {
  }

  function ExpenseAmount(e: Expense): int { e.amount }
  function NewestFirst(e: Expense): int { -e.date }

  /** Each expense feeds its amount to its category's running total. */
  function SpendItems(es: seq<Expense>): (items: seq<Item<Category>>)
    ensures |items| == |es|
    ensures forall i :: 0 <= i < |es| ==> items[i] == Item(es[i].category, es[i].amount)
  {
    seq(|es|, i requires 0 <= i < |es| => Item(es[i].category, es[i].amount))
  }

  /** `Object.entries(categories)` with the default limit attached. */
  function WithLimits(es: seq<Entry<Category>>): (cs: seq<CategorySpend>)
    ensures |cs| == |es|
    ensures forall i :: 0 <= i < |es| ==> cs[i] == CategorySpend(es[i].key, es[i].total, DefaultLimit)
  {
    seq(|es|, i requires 0 <= i < |es| => CategorySpend(es[i].key, es[i].total, DefaultLimit))
  }

  /** The budget summary of a list of expenses. */
  function Summarize(expenses: seq<Expense>, monthlyIncome: Option<int>): BudgetSummary
  {
    BudgetSummary(
      SumOf(expenses, ExpenseAmount),
      match monthlyIncome case Some(v) => v case None => 0,
      WithLimits(Tally(SpendItems(expenses))))
  }

  /** GET /profile/:uid: 404 for an unknown user, otherwise the profile, its expenses
      newest first, and the budget summary of those expenses. */
  function GetProfile(db: Db, uid: UserId): (r: Reply<ProfileView>)
    ensures uid !in db.users <==> r == Failure(404, "Profile not found")
    ensures r.Success? ==>
      && r.status == 200
      && r.value.profile == db.users[uid]
      && multiset(r.value.expenses) == multiset(if uid in db.expenses then db.expenses[uid] else [])
      && (forall i, j :: 0 <= i < j < |r.value.expenses| ==> r.value.expenses[i].date >= r.value.expenses[j].date)
      && r.value.budgetSummary == Summarize(r.value.expenses, db.users[uid].monthlyIncome)
  {
    if uid !in db.users then Failure(404, "Profile not found")
    else
      var stored := if uid in db.expenses then db.expenses[uid] else [];
      var ordered := SortBy(stored, NewestFirst);
      Success(200, ProfileView(db.users[uid], ordered, Summarize(ordered, db.users[uid].monthlyIncome)))
  }

  /** Independent reference: the amount spent in category `c`. */
  function SpentIn(es: seq<Expense>, c: Category): int
  {
    if |es| == 0 then 0
    else SpentIn(es[..|es| - 1], c) + (if es[|es| - 1].category == c then es[|es| - 1].amount else 0)
  }

  /** The summary's promises: the total is the sum of all expenses; each category
      that has an expense appears exactly once, with the limit 1000 and the sum of
      that category's amounts; and the per-category sums add up to the total. */
  lemma {:induction false} SummarizeSpec(expenses: seq<Expense>, monthlyIncome: Option<int>)
    ensures var s := Summarize(expenses, monthlyIncome);
      && s.totalSpent == SumOf(expenses, ExpenseAmount)
      && s.totalIncome == (if monthlyIncome.Some? then monthlyIncome.value else 0)
      && (forall i, j :: 0 <= i < j < |s.categories| ==> s.categories[i].category != s.categories[j].category)
      && (set x | x in s.categories :: x.category) == (set e | e in expenses :: e.category)
      && (forall i :: 0 <= i < |s.categories| ==>
            s.categories[i].limit == DefaultLimit
            && s.categories[i].spent == SpentIn(expenses, s.categories[i].category))
      && SumOf(s.categories, (c: CategorySpend) => c.spent) == s.totalSpent
  {
    var items := SpendItems(expenses);
    var t := Tally(items);
    var s := Summarize(expenses, monthlyIncome);
    TallySpec(items);
    SpendItemsSpec(expenses);
    forall i, j | 0 <= i < j < |s.categories|
      ensures s.categories[i].category != s.categories[j].category
    {
      assert Keys(t)[i] == s.categories[i].category && Keys(t)[j] == s.categories[j].category;
    }
    SummaryCategories(expenses);
    forall i | 0 <= i < |s.categories|
      ensures s.categories[i].spent == SpentIn(expenses, s.categories[i].category)
    {
      LookupAt(t, i);
    }
    WithLimitsSum(t);
  }

  /** The summary lists the categories of the expenses and no others. */
  lemma SummaryCategories(expenses: seq<Expense>)
    ensures (set x | x in WithLimits(Tally(SpendItems(expenses))) :: x.category)
         == (set e | e in expenses :: e.category)
  {
    var items := SpendItems(expenses);
    var t := Tally(items);
    var cs := WithLimits(t);
    TallySpec(items);
    forall x | x in cs
      ensures x.category in (set e | e in expenses :: e.category)
    {
      var i :| 0 <= i < |cs| && cs[i] == x;
      assert t[i].key == x.category;
      assert x.category in EntryKeys(t);
      var k :| 0 <= k < |items| && items[k].key == x.category;
      assert expenses[k] in expenses;
    }
    forall e | e in expenses
      ensures e.category in (set x | x in cs :: x.category)
    {
      var k :| 0 <= k < |expenses| && expenses[k] == e;
      assert items[k].key == e.category;
      assert e.category in ItemKeys(items);
      var i :| 0 <= i < |t| && t[i].key == e.category;
      assert cs[i] in cs;
    }
  }

  lemma {:induction false} SpendItemsSpec(es: seq<Expense>)
    ensures forall c :: SumFor(SpendItems(es), c) == SpentIn(es, c)
    ensures SumOf(SpendItems(es), ItemAmount<Category>) == SumOf(es, ExpenseAmount)
  {
    if |es| > 0 {
      SpendItemsSpec(es[..|es| - 1]);
      assert SpendItems(es)[..|es| - 1] == SpendItems(es[..|es| - 1]);
    }
  }

  lemma {:induction false} WithLimitsSum(es: seq<Entry<Category>>)
    ensures SumOf(WithLimits(es), (c: CategorySpend) => c.spent) == Grand(es)
  {
    if |es| > 0 {
      WithLimitsSum(es[..|es| - 1]);
      assert WithLimits(es)[..|es| - 1] == WithLimits(es[..|es| - 1]);
    }
  }
}
