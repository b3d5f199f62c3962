/**
 The transactions page of the client (`src/pages/Transactions.tsx`): the
 list narrowed by type, category and search term and then sorted, and the
 categories offered by the category selector.
 */
module TransactionsPage {
  import opened Basics
  import opened Models
  import opened Sorting
  import opened Text

  /** The type selector: `'all'`, `'income'` or `'expense'`. */
  datatype TypeFilter = AllTypes | IncomeOnly | ExpenseOnly

  /** The sort selector: `'date-desc'`, `'date-asc'`, `'amount-desc'` or `'amount-asc'`. */
  datatype SortOrder = DateDesc | DateAsc | AmountDesc | AmountAsc

  /** The page's controls; a category of `None` is the selector's `'all'`. */
  datatype ListView = ListView(kind: TypeFilter, category: Option<Category>, search: string, order: SortOrder)

  predicate KeepsKind(k: TypeFilter, t: Transaction)
  {
    match k
    case AllTypes => true
    case IncomeOnly => t.isIncome
    case ExpenseOnly => !t.isIncome
  }

  predicate KeepsCategory(c: Option<Category>, t: Transaction)
  {
    c.None? || t.category == c.value
  }

  /** The lower-cased term occurs in the lower-cased description or category. */
  predicate MatchesTerm(term: string, t: Transaction)
  {
    var q := ToLower(term);
    Contains(ToLower(t.description), q) || Contains(ToLower(t.category), q)
  }

  /** An empty search box filters nothing. */
  predicate KeepsSearch(term: string, t: Transaction)
  {
    term == "" || MatchesTerm(term, t)
  }

  /** A transaction is listed when it passes all three controls. */
  predicate Passes(v: ListView, t: Transaction)
  {
    KeepsKind(v.kind, t) && KeepsCategory(v.category, t) && KeepsSearch(v.search, t)
  }

  /** Reference: the input transactions that pass, in input order. */
  function Passing(ts: seq<Transaction>, v: ListView): seq<Transaction>
  {
    Filter(ts, (t: Transaction) => Passes(v, t))
  }

  /** The three filter steps of the page, applied one after the other. */
  function Filtered(ts: seq<Transaction>, v: ListView): seq<Transaction>
  {
    var byKind :=
      match v.kind
      case AllTypes => ts
      case IncomeOnly => Filter(ts, (t: Transaction) => t.isIncome)
      case ExpenseOnly => Filter(ts, (t: Transaction) => !t.isIncome);
    var byCategory := if v.category.None? then byKind else Filter(byKind, (t: Transaction) => t.category == v.category.value);
    if v.search == "" then byCategory else Filter(byCategory, (t: Transaction) => MatchesTerm(v.search, t))
  }

  /** The comparator of each order as an ascending key; a descending order negates it. */
  function SortKey(order: SortOrder): Transaction -> int
  {
    match order
    case DateDesc => (t: Transaction) => -t.date
    case DateAsc => (t: Transaction) => t.date
    case AmountDesc => (t: Transaction) => -t.amount
    case AmountAsc => (t: Transaction) => t.amount
  }

  /** The list is in the order the sort selector asks for. */
  predicate InOrder(r: seq<Transaction>, order: SortOrder)
  {
    match order
    case DateDesc => forall i, j :: 0 <= i < j < |r| ==> r[i].date >= r[j].date
    case DateAsc => forall i, j :: 0 <= i < j < |r| ==> r[i].date <= r[j].date
    case AmountDesc => forall i, j :: 0 <= i < j < |r| ==> r[i].amount >= r[j].amount
    case AmountAsc => forall i, j :: 0 <= i < j < |r| ==> r[i].amount <= r[j].amount
  }

  lemma SortedIsInOrder(r: seq<Transaction>, order: SortOrder)
    requires SortedBy(r, SortKey(order))
    ensures InOrder(r, order)
  {
  }

  /** `filteredTransactions`: the passing transactions, each once, in the chosen order. */
  function Visible(ts: seq<Transaction>, v: ListView): (r: seq<Transaction>)
    ensures multiset(r) == multiset(Passing(ts, v))
    ensures InOrder(r, v.order)
  {
    FilteredIsPassing(ts, v);
    var r := SortBy(Filtered(ts, v), SortKey(v.order));
    SortedIsInOrder(r, v.order);
    r
  }

  /** A transaction is listed exactly when it is in the input and passes every control. */
  lemma VisibleMembers(ts: seq<Transaction>, v: ListView, t: Transaction)
    ensures t in Visible(ts, v) <==> t in ts && Passes(v, t)
  {
    var r := Visible(ts, v);
    assert t in r <==> t in multiset(r);
    assert t in Passing(ts, v) <==> t in multiset(Passing(ts, v));
  }

  /** The three successive filters keep exactly the transactions that pass all controls. */
  lemma {:induction false} FilteredIsPassing(ts: seq<Transaction>, v: ListView)
    ensures Filtered(ts, v) == Passing(ts, v)
  {
    var pk := (t: Transaction) => KeepsKind(v.kind, t);
    var pc := (t: Transaction) => KeepsCategory(v.category, t);
    var ps := (t: Transaction) => KeepsSearch(v.search, t);
    var pkc := (t: Transaction) => KeepsKind(v.kind, t) && KeepsCategory(v.category, t);
    var byKind :=
      match v.kind
      case AllTypes => ts
      case IncomeOnly => Filter(ts, (t: Transaction) => t.isIncome)
      case ExpenseOnly => Filter(ts, (t: Transaction) => !t.isIncome);
    match v.kind {
      case AllTypes => FilterAll(ts, pk);
      case IncomeOnly => FilterExt(ts, (t: Transaction) => t.isIncome, pk);
      case ExpenseOnly => FilterExt(ts, (t: Transaction) => !t.isIncome, pk);
    }
    assert byKind == Filter(ts, pk);
    var byCategory := if v.category.None? then byKind else Filter(byKind, (t: Transaction) => t.category == v.category.value);
    if v.category.None? {
      FilterAll(byKind, pc);
    } else {
      FilterExt(byKind, (t: Transaction) => t.category == v.category.value, pc);
    }
    assert byCategory == Filter(byKind, pc);
    FilterFilter(ts, pk, pc, pkc);
    if v.search == "" {
      FilterAll(byCategory, ps);
    } else {
      FilterExt(byCategory, (t: Transaction) => MatchesTerm(v.search, t), ps);
    }
    assert Filtered(ts, v) == Filter(Filter(ts, pkc), ps);
    FilterFilter(ts, pkc, ps, (t: Transaction) => Passes(v, t));
  }

  /** With every control at its default, the page lists every transaction, newest first. */
  lemma ShowsEverythingByDefault(ts: seq<Transaction>)
    ensures multiset(Visible(ts, ListView(AllTypes, None, "", DateDesc))) == multiset(ts)
  {
    var v := ListView(AllTypes, None, "", DateDesc);
    FilterAll(ts, (t: Transaction) => Passes(v, t));
  }

  /** The type filters split any list: the income view and the expense view together
      hold each listed transaction exactly once. */
  lemma TypeViewsPartition(ts: seq<Transaction>, category: Option<Category>, search: string, order: SortOrder)
    ensures multiset(Visible(ts, ListView(IncomeOnly, category, search, order)))
          + multiset(Visible(ts, ListView(ExpenseOnly, category, search, order)))
         == multiset(Visible(ts, ListView(AllTypes, category, search, order)))
  {
    var vi := ListView(IncomeOnly, category, search, order);
    var ve := ListView(ExpenseOnly, category, search, order);
    var va := ListView(AllTypes, category, search, order);
    var all := Passing(ts, va);
    FilterPartition(all, (t: Transaction) => t.isIncome, (t: Transaction) => !t.isIncome);
    FilterFilter(ts, (t: Transaction) => Passes(va, t), (t: Transaction) => t.isIncome, (t: Transaction) => Passes(vi, t));
    FilterFilter(ts, (t: Transaction) => Passes(va, t), (t: Transaction) => !t.isIncome, (t: Transaction) => Passes(ve, t));
  }

  /** The category of each transaction, in list order. */
  function CategoriesOf(ts: seq<Transaction>): (cs: seq<Category>)
    ensures |cs| == |ts|
    ensures forall i :: 0 <= i < |ts| ==> cs[i] == ts[i].category
  {
    seq(|ts|, i requires 0 <= i < |ts| => ts[i].category)
  }

  /** `[...new Set(xs)]`: the first occurrence of each value, in order. */
  function Dedup<T(==,!new)>(s: seq<T>): (r: seq<T>)
    ensures forall x :: x in r <==> x in s
    ensures forall i, j :: 0 <= i < j < |r| ==> r[i] != r[j]
  {
    if |s| == 0 then []
    else
      var d := Dedup(s[..|s| - 1]);
      assert s == s[..|s| - 1] + [s[|s| - 1]];
      if s[|s| - 1] in d then d else d + [s[|s| - 1]]
  }

  /** The position of the first `x` in `s`. */
  function FirstIndex<T(==)>(s: seq<T>, x: T): (k: nat)
    requires x in s
    ensures k < |s| && s[k] == x && x !in s[..k]
  {
    if s[0] == x then 0
    else
      assert s == [s[0]] + s[1..];
      var k := FirstIndex(s[1..], x);
      assert s[..k + 1] == [s[0]] + s[1..][..k];
      k + 1
  }

  /** An occurrence with no earlier one is the first occurrence. */
  lemma FirstIndexUnique<T>(s: seq<T>, x: T, k: nat)
    requires k < |s| && s[k] == x && x !in s[..k]
    ensures FirstIndex(s, x) == k
  {
  }

  /** Every element of `r` occurs in `s`, and their first occurrences in `s` come in
      the order of `r`. */
  predicate FirstOccurrenceOrder<T(==)>(r: seq<T>, s: seq<T>)
  {
    forall i, j :: 0 <= i < j < |r| ==> r[i] in s && r[j] in s && FirstIndex(s, r[i]) < FirstIndex(s, r[j])
  }

  /** The values kept by `Dedup` appear in the order of the input, each where it first
      occurs: a value whose first occurrence is earlier comes earlier. */
  lemma {:induction false} DedupKeepsOrder<T(!new)>(s: seq<T>)
    ensures IsSubseq(Dedup(s), s)
    ensures FirstOccurrenceOrder(Dedup(s), s)
  {
    if |s| > 0 {
      var init, last := s[..|s| - 1], s[|s| - 1];
      assert init + [last] == s;
      DedupKeepsOrder(init);
      var d := Dedup(init);
      if last in d {
        SubseqWeaken(d, init, last);
      } else {
        SubseqAppendBoth(d, init, last);
      }
      DedupStep(init, last);
    }
  }

  /** Appending `last` keeps the first occurrences of the earlier values and, when
      `last` is new, puts its first occurrence after all of them. */
  lemma DedupStep<T(!new)>(init: seq<T>, last: T)
    requires FirstOccurrenceOrder(Dedup(init), init)
    ensures FirstOccurrenceOrder(Dedup(init + [last]), init + [last])
  {
    var s := init + [last];
    var d := Dedup(init);
    assert s[..|s| - 1] == init;
    forall x | x in init ensures x in s && FirstIndex(s, x) == FirstIndex(init, x) {
      var k := FirstIndex(init, x);
      assert s[..k] == init[..k];
      FirstIndexUnique(s, x, k);
    }
    if last !in init {
      assert s[..|init|] == init;
      FirstIndexUnique(s, last, |init|);
      assert Dedup(s) == d + [last];
      forall i | 0 <= i < |d| ensures d[i] in init && FirstIndex(s, d[i]) < FirstIndex(s, last) {
        assert d[i] in d;
      }
    } else {
      assert Dedup(s) == d;
      forall i | 0 <= i < |d| ensures d[i] in init {
        assert d[i] in d;
      }
    }
  }

  /** `availableCategories`: each category some transaction has, exactly once. */
  function AvailableCategories(ts: seq<Transaction>): (cs: seq<Category>)
    ensures forall c :: c in cs <==> exists t :: t in ts && t.category == c
    ensures forall i, j :: 0 <= i < j < |cs| ==> cs[i] != cs[j]
  {
    var all := CategoriesOf(ts);
    assert forall c :: c in all <==> exists t :: t in ts && t.category == c by {
      forall c | c in all ensures exists t :: t in ts && t.category == c {
        var i :| 0 <= i < |all| && all[i] == c;
        assert ts[i] in ts;
      }
    }
    Dedup(all)
  }
}
