/**
 The savings-goal handlers of the backend (`backend/routes/goalRoutes.js`).
 The document collection is a map from document id to goal; every handler
 is a pure function from the collection and the request to the reply and
 the collection after the request. The authenticated caller's uid, the id
 the store assigns to a new document and the current time are parameters.
 */
module GoalRoutes {
  import opened Basics
  import opened Models
  import opened Grouping

  type Store = map<GoalId, Goal>

  datatype Handled<T> = Handled(reply: Reply<T>, store: Store)

  const NotFoundMessage := "Goal not found"
  const ForbiddenMessage := "Unauthorized access"
  const MissingFieldsMessage := "Name and target amount are required"
  const DeletedMessage := "Goal deleted successfully"

  /** The JSON body of POST /goals; an absent field is `None`. */
  datatype CreateBody = CreateBody(
    name: Option<string>,
    targetAmount: Option<int>,
    deadline: Option<int>,
    category: Option<string>,
    priority: Option<string>)

  /** The query string of GET /goals. */
  datatype ListQuery = ListQuery(status: Option<string>, category: Option<string>)

  /** The body of GET /goals/stats; `categoryCount` keeps its keys in insertion order. */
  datatype Stats = Stats(
    total: int,
    completed: int,
    ongoing: int,
    totalTargetAmount: int,
    totalSavedAmount: int,
    categoryCount: seq<Entry<string>>)

  /** JavaScript truthiness of an optional string and of an optional number. */
  predicate Given(s: Option<string>) { s.Some? && s.value != "" }
  predicate NonZero(n: Option<int>) { n.Some? && n.value != 0 }

  /** `value || fallback` for an optional string. */
  function OrElse(s: Option<string>, fallback: string): (r: string)
    ensures Given(s) ==> r == s.value
    ensures !Given(s) ==> r == fallback
  {
    if Given(s) then s.value else fallback
  }

  /** POST /goals: validate, then store a fresh goal with no progress yet. */
  function CreateGoal(store: Store, uid: UserId, body: CreateBody, newId: GoalId, now: int): (h: Handled<GoalRecord>)
    requires newId !in store
    ensures !Given(body.name) || !NonZero(body.targetAmount) <==> h.reply.Failure?
    ensures h.reply.Failure? ==> h.reply == Failure(400, MissingFieldsMessage) && h.store == store
    ensures h.reply.Success? ==>
      var g := h.reply.value.goal;
      && h.reply.status == 201
      && h.reply.value.id == newId
      && h.store == store[newId := g]
      && g.userId == uid
      && g.name == body.name.value
      && g.targetAmount == body.targetAmount.value
      && g.currentAmount == 0
      && !g.isCompleted
      && g.deadline == body.deadline
      && g.category == (if Given(body.category) then body.category.value else "other")
      && g.priority == (if Given(body.priority) then body.priority.value else "medium")
      && g.createdAt == now && g.updatedAt == now
  {
    if !Given(body.name) || !NonZero(body.targetAmount) then
      Handled(Failure(400, MissingFieldsMessage), store)
    else
      var g := Goal(uid, body.name.value, body.targetAmount.value, 0, body.deadline,
                    OrElse(body.category, "other"), OrElse(body.priority, "medium"),
                    false, now, now);
      Handled(Success(201, GoalRecord(newId, g)), store[newId := g])
  }

  /** `after` is `before` with `amount` added: the amount and completion flag are
      recomputed, the update time refreshed, and every other field kept. */
  predicate ContributedTo(before: Goal, after: Goal, amount: int, now: int)
  {
    && after.currentAmount == before.currentAmount + amount
    && (after.isCompleted <==> after.currentAmount >= before.targetAmount)
    && after.updatedAt == now
    && after.(currentAmount := before.currentAmount, isCompleted := before.isCompleted,
              updatedAt := before.updatedAt) == before
  }

  /** The existence check, then the ownership check, shared by PATCH and DELETE. */
  function Authorize(store: Store, uid: UserId, goalId: GoalId): (r: Option<Reply<GoalRecord>>)
    ensures goalId !in store ==> r == Some(Failure(404, NotFoundMessage))
    ensures goalId in store && store[goalId].userId != uid ==> r == Some(Failure(403, ForbiddenMessage))
    ensures goalId in store && store[goalId].userId == uid ==> r == None
  {
    if goalId !in store then Some(Failure(404, NotFoundMessage))
    else if store[goalId].userId != uid then Some(Failure(403, ForbiddenMessage))
    else None
  }

  /** PATCH /goals/:goalId with `{amount}`: add to the goal's progress. The
      amount is not validated, so a negative amount is applied as given. */
  function Contribute(store: Store, uid: UserId, goalId: GoalId, amount: int, now: int): (h: Handled<GoalRecord>)
    ensures goalId !in store ==> h == Handled(Failure(404, NotFoundMessage), store)
    ensures goalId in store && store[goalId].userId != uid ==> h == Handled(Failure(403, ForbiddenMessage), store)
    ensures goalId in store && store[goalId].userId == uid ==>
      && h.reply.Success?
      && h.reply.status == 200
      && h.reply.value.id == goalId
      && ContributedTo(store[goalId], h.reply.value.goal, amount, now)
      && h.store == store[goalId := h.reply.value.goal]
  {
    match Authorize(store, uid, goalId)
    case Some(failure) => Handled(failure, store)
    case None =>
      var g := store[goalId];
      var newAmount := g.currentAmount + amount;
      var updated := g.(currentAmount := newAmount, isCompleted := newAmount >= g.targetAmount, updatedAt := now);
      Handled(Success(200, GoalRecord(goalId, updated)), store[goalId := updated])
  }

  /** DELETE /goals/:goalId. */
  function DeleteGoal(store: Store, uid: UserId, goalId: GoalId): (h: Handled<string>)
    ensures goalId !in store ==> h == Handled(Failure(404, NotFoundMessage), store)
    ensures goalId in store && store[goalId].userId != uid ==> h == Handled(Failure(403, ForbiddenMessage), store)
    ensures goalId in store && store[goalId].userId == uid ==>
      h.reply == Success(200, DeletedMessage) && h.store.Keys == store.Keys - {goalId}
      && forall id :: id in h.store ==> h.store[id] == store[id]
  {
    match Authorize(store, uid, goalId)
    case Some(failure) => Handled(Failure(failure.status, failure.error), store)
    case None => Handled(Success(200, DeletedMessage), store - {goalId})
  }

  /** The status and category conditions GET /goals adds to the `userId` query. */
  predicate Selected(g: Goal, uid: UserId, q: ListQuery)
  {
    && g.userId == uid
    && (q.status == Some("completed") ==> g.isCompleted)
    && (q.status == Some("ongoing") ==> !g.isCompleted)
    && (Given(q.category) ==> g.category == q.category.value)
  }

  /** GET /goals: the caller's goals, narrowed by status and category. */
  function ListGoals(store: Store, uid: UserId, q: ListQuery): (r: map<GoalId, Goal>)
    ensures forall id :: id in r ==> id in store && r[id] == store[id] && r[id].userId == uid
    ensures q.status == Some("completed") ==> forall id :: id in r ==> r[id].isCompleted
    ensures q.status == Some("ongoing") ==> forall id :: id in r ==> !r[id].isCompleted
    ensures Given(q.category) ==> forall id :: id in r ==> r[id].category == q.category.value
    ensures q.status != Some("completed") && q.status != Some("ongoing") && !Given(q.category) ==>
      forall id :: id in store && store[id].userId == uid ==> id in r
    ensures forall id :: id in store && Selected(store[id], uid, q) ==> id in r
  {
    map id | id in store && Selected(store[id], uid, q) :: store[id]
  }

  predicate IsDone(g: Goal) { g.isCompleted }
  predicate IsOpen(g: Goal) { !g.isCompleted }
  function Target(g: Goal): int { g.targetAmount }
  function Saved(g: Goal): int { g.currentAmount }

  /** The documents of the `where('userId', '==', uid)` query, in store order. */
  function OwnedBy(docs: seq<Goal>, uid: UserId): (r: seq<Goal>)
  {
    Filter(docs, (g: Goal) => g.userId == uid)
  }

  /** Each goal counts once under its category. */
  function CategoryItems(gs: seq<Goal>): (items: seq<Item<string>>)
    ensures |items| == |gs|
    ensures forall i :: 0 <= i < |gs| ==> items[i] == Item(gs[i].category, 1)
  {
    seq(|gs|, i requires 0 <= i < |gs| => Item(gs[i].category, 1))
  }

  /** Reference: the statistics of a list of goals, each figure defined on its own. */
  function StatsOf(gs: seq<Goal>): Stats
  {
    Stats(
      |gs|,
      |Filter(gs, IsDone)|,
      |Filter(gs, IsOpen)|,
      SumOf(gs, Target),
      SumOf(gs, Saved),
      Tally(CategoryItems(gs)))
  }

  /** GET /goals/stats: one pass over the documents the `userId` query returns,
      in the order the store returns them (`docs` is the whole collection in that order). */
  method GoalStats(docs: seq<Goal>, uid: UserId) returns (stats: Stats)
    ensures stats.total == |OwnedBy(docs, uid)|
    ensures stats.completed == |Filter(OwnedBy(docs, uid), IsDone)|
    ensures stats.ongoing == |Filter(OwnedBy(docs, uid), IsOpen)|
    ensures stats.totalTargetAmount == SumOf(OwnedBy(docs, uid), Target)
    ensures stats.totalSavedAmount == SumOf(OwnedBy(docs, uid), Saved)
    ensures stats.categoryCount == Tally(CategoryItems(OwnedBy(docs, uid)))
    ensures stats.total == stats.completed + stats.ongoing
  {
    var owned := OwnedBy(docs, uid);
    stats := Stats(0, 0, 0, 0, 0, []);
    var i := 0;
    while i < |owned|
      invariant 0 <= i <= |owned|
      invariant stats == StatsOf(owned[..i])
    {
      var g := owned[i];
      stats := Counted(stats, g);
      StatsStep(owned, i);
      i := i + 1;
    }
    assert owned[..i] == owned;
    FilterPartition(owned, IsDone, IsOpen);
  }

  /** The body of the `forEach` callback: one document's contribution to the statistics. */
  function Counted(st: Stats, g: Goal): Stats
  {
    Stats(
      st.total + 1,
      if g.isCompleted then st.completed + 1 else st.completed,
      if g.isCompleted then st.ongoing else st.ongoing + 1,
      st.totalTargetAmount + g.targetAmount,
      st.totalSavedAmount + g.currentAmount,
      Bump(st.categoryCount, g.category, 1))
  }

  /** Folding one more goal into the statistics of a list gives the statistics of the
      longer list. */
  lemma StatsStep(gs: seq<Goal>, i: nat)
    requires i < |gs|
    ensures StatsOf(gs[..i + 1]) == Counted(StatsOf(gs[..i]), gs[i])
  {
    var s, g := gs[..i], gs[i];
    assert gs[..i + 1] == s + [g];
    CountStep(s, g);
    AmountStep(s, g);
    CategoryStep(s, g);
  }

  /** How one more goal changes the counts, the sums and the category tally of the fold. */
  lemma CountStep(s: seq<Goal>, g: Goal)
    ensures |Filter(s + [g], IsDone)| == |Filter(s, IsDone)| + (if g.isCompleted then 1 else 0)
    ensures |Filter(s + [g], IsOpen)| == |Filter(s, IsOpen)| + (if g.isCompleted then 0 else 1)
  {
    FilterAppend(s, g, IsDone);
    FilterAppend(s, g, IsOpen);
  }

  lemma AmountStep(s: seq<Goal>, g: Goal)
    ensures SumOf(s + [g], Target) == SumOf(s, Target) + g.targetAmount
    ensures SumOf(s + [g], Saved) == SumOf(s, Saved) + g.currentAmount
  {
    SumOfAppend(s, g, Target);
    SumOfAppend(s, g, Saved);
  }

  lemma CategoryStep(s: seq<Goal>, g: Goal)
    ensures Tally(CategoryItems(s + [g])) == Bump(Tally(CategoryItems(s)), g.category, 1)
  {
    assert CategoryItems(s + [g])[..|s|] == CategoryItems(s);
  }

  /** Independent reference: how many of `gs` are filed under category `c`. */
  function CountIn(gs: seq<Goal>, c: string): nat
  {
    if |gs| == 0 then 0
    else CountIn(gs[..|gs| - 1], c) + (if gs[|gs| - 1].category == c then 1 else 0)
  }

  /** What the finished fold knows about the counts and the category tally. */
  lemma StatsFacts(owned: seq<Goal>)
    ensures |Filter(owned, IsDone)| + |Filter(owned, IsOpen)| == |owned|
    ensures Distinct(Keys(Tally(CategoryItems(owned))))
    ensures EntryKeys(Tally(CategoryItems(owned))) == set g | g in owned :: g.category
    ensures forall c :: Lookup(Tally(CategoryItems(owned)), c) == CountIn(owned, c)
    ensures Grand(Tally(CategoryItems(owned))) == |owned|
  {
    FilterPartition(owned, IsDone, IsOpen);
    TallySpec(CategoryItems(owned));
    CategoryItemsSpec(owned);
  }

  lemma {:induction false} CategoryItemsSpec(gs: seq<Goal>)
    ensures ItemKeys(CategoryItems(gs)) == set g | g in gs :: g.category
    ensures forall c :: SumFor(CategoryItems(gs), c) == CountIn(gs, c)
    ensures SumOf(CategoryItems(gs), ItemAmount<string>) == |gs|
  {
    var items := CategoryItems(gs);
    assert ItemKeys(items) == set g | g in gs :: g.category by {
      forall c | c in ItemKeys(items) ensures c in set g | g in gs :: g.category {
        var i :| 0 <= i < |items| && items[i].key == c;
        assert gs[i] in gs;
      }
      forall c | c in (set g | g in gs :: g.category) ensures c in ItemKeys(items) {
        var g :| g in gs && g.category == c;
        var i :| 0 <= i < |gs| && gs[i] == g;
        assert items[i].key == c;
      }
    }
    if |gs| > 0 {
      var init := gs[..|gs| - 1];
      CategoryItemsSpec(init);
      assert items[..|gs| - 1] == CategoryItems(init);
    }
  }
}
