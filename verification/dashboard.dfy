/**
 The lists of the dashboard page (`src/pages/Dashboard.tsx`): the five most
 recent transactions, up to three unread tips, and the first three
 categories of the budget summary.
 */
module Dashboard {
  import opened Basics
  import opened Models
  import opened Sorting

  function NewestFirst(t: Transaction): int { -t.date }

  /** `recentTransactions`: a sorted copy of the list, newest first, cut to five. */
  function Recent(ts: seq<Transaction>): (r: seq<Transaction>)
    ensures |r| == if |ts| < 5 then |ts| else 5
    ensures forall i, j :: 0 <= i < j < |r| ==> r[i].date >= r[j].date
    ensures multiset(r) <= multiset(ts)
  {
    var sorted := SortBy(ts, NewestFirst);
    TakeSplit(sorted, 5);
    Take(sorted, 5)
  }

  /** No transaction left off the list is newer than one on it. */
  lemma {:induction false} RecentAreNewest(ts: seq<Transaction>, x: Transaction, y: Transaction)
    requires x in Recent(ts)
    requires y in multiset(ts) - multiset(Recent(ts))
    ensures x.date >= y.date
  {
    var sorted := SortBy(ts, NewestFirst);
    var r := Take(sorted, 5);
    var rest := sorted[|r|..];
    TakeSplit(sorted, 5);
    assert y in multiset(rest);
    var i :| 0 <= i < |r| && r[i] == x;
    var j :| 0 <= j < |rest| && rest[j] == y;
    assert sorted[i] == x && sorted[|r| + j] == y;
    assert NewestFirst(sorted[i]) <= NewestFirst(sorted[|r| + j]);
  }

  predicate IsUnread(tip: AiTip) { !tip.isRead }

  /** `unreadTips`: the first three tips not yet read, in their order. */
  function UnreadTips(tips: seq<AiTip>): (r: seq<AiTip>)
    ensures |r| <= 3
    ensures |r| == if |Filter(tips, IsUnread)| < 3 then |Filter(tips, IsUnread)| else 3
    ensures forall i :: 0 <= i < |r| ==> !r[i].isRead
    ensures r <= Filter(tips, IsUnread)
  {
    Take(Filter(tips, IsUnread), 3)
  }

  /** The tips shown keep their relative order from the full list. */
  lemma {:induction false} UnreadTipsKeepOrder(tips: seq<AiTip>)
    ensures IsSubseq(UnreadTips(tips), tips)
  {
    var unread := Filter(tips, IsUnread);
    FilterIsSubseq(tips, IsUnread);
    PrefixIsSubseq(UnreadTips(tips), unread);
    SubseqTrans(UnreadTips(tips), unread, tips);
  }

  /** The budget overview card: the summary's first three categories, in order. */
  function BudgetOverview(categories: seq<CategorySpend>): (r: seq<CategorySpend>)
    ensures |r| == if |categories| < 3 then |categories| else 3
    ensures r <= categories
  {
    Take(categories, 3)
  }
}
