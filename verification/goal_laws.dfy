/**
 Laws relating the goal handlers to one another: how successive
 contributions add up, which handlers keep the completion flag in step with
 the amounts, and how the status filters of the list split a user's goals.
 */
module GoalLaws {
  import opened Basics
  import opened Models
  import opened GoalRoutes

  /** Every stored goal's completion flag agrees with its amounts. */
  predicate StoreConsistent(store: Store)
  {
    forall id :: id in store ==> Consistent(store[id])
  }

  /** Two contributions in a row store the same goal as one contribution of their sum
      made at the later time. */
  lemma ContributeTwice(store: Store, uid: UserId, id: GoalId, a: int, b: int, t1: int, t2: int)
    ensures Contribute(Contribute(store, uid, id, a, t1).store, uid, id, b, t2)
         == Contribute(store, uid, id, a + b, t2)
  {
    if id in store && store[id].userId == uid {
      var g1 := Contribute(store, uid, id, a, t1).reply.value.goal;
      var g2 := Contribute(store[id := g1], uid, id, b, t2).reply.value.goal;
      var g := Contribute(store, uid, id, a + b, t2).reply.value.goal;
      assert g2 == g;
      assert store[id := g1][id := g2] == store[id := g];
    }
  }

  /** Contributing keeps a consistent store consistent. */
  lemma ContributeKeepsStoreConsistent(store: Store, uid: UserId, id: GoalId, amount: int, now: int)
    requires StoreConsistent(store)
    ensures StoreConsistent(Contribute(store, uid, id, amount, now).store)
  {
  }

  /** The owner's contribution leaves the contributed goal consistent, whatever it was
      before: the flag is recomputed from the new amount. */
  lemma ContributionSetsFlag(store: Store, uid: UserId, id: GoalId, amount: int, now: int)
    requires id in store && store[id].userId == uid
    ensures id in Contribute(store, uid, id, amount, now).store
    ensures Consistent(Contribute(store, uid, id, amount, now).store[id])
  {
  }

  /** A completed goal stays completed under a non-negative contribution. */
  lemma CompletionIsSticky(store: Store, uid: UserId, id: GoalId, amount: int, now: int)
    requires id in store && Consistent(store[id]) && store[id].isCompleted
    requires amount >= 0
    ensures id in Contribute(store, uid, id, amount, now).store
    ensures Contribute(store, uid, id, amount, now).store[id].isCompleted
  {
  }

  /** The handler does not validate the amount: a negative contribution to a completed goal
      reopens it. */
  lemma NegativeContributionReopens()
    ensures var g := Goal("u", "Fund", 100, 100, None, "other", "medium", true, 0, 0);
      var h := Contribute(map["g" := g], "u", "g", -1, 1);
      h.reply.Success? && !h.reply.value.goal.isCompleted && h.reply.value.goal.currentAmount == 99
  {
  }

  /** Creating a goal with a positive target keeps the store consistent. */
  lemma CreateKeepsStoreConsistent(store: Store, uid: UserId, body: CreateBody, newId: GoalId, now: int)
    requires newId !in store
    requires StoreConsistent(store)
    requires body.targetAmount.Some? ==> body.targetAmount.value > 0
    ensures StoreConsistent(CreateGoal(store, uid, body, newId, now).store)
  {
  }

  /** Only truthiness is checked, so a negative target is stored with a completion
      flag that disagrees with its amounts. */
  lemma NegativeTargetIsInconsistent()
    ensures var h := CreateGoal(map[], "u", CreateBody(Some("Fund"), Some(-5), None, None, None), "g", 0);
      h.reply.Success? && !Consistent(h.reply.value.goal)
  {
  }

  /** Deleting frees the id: a second delete of the same goal is a 404. */
  lemma DeleteTwice(store: Store, uid: UserId, id: GoalId)
    requires id in store && store[id].userId == uid
    ensures DeleteGoal(store, uid, id).reply.Success?
    ensures DeleteGoal(DeleteGoal(store, uid, id).store, uid, id).reply == Failure(404, NotFoundMessage)
  {
  }

  /** A goal just created shows up among its owner's ongoing goals and under its category. */
  lemma CreatedGoalIsListed(store: Store, uid: UserId, body: CreateBody, newId: GoalId, now: int)
    requires newId !in store
    requires CreateGoal(store, uid, body, newId, now).reply.Success?
    ensures var h := CreateGoal(store, uid, body, newId, now);
      && newId in ListGoals(h.store, uid, ListQuery(Some("ongoing"), None))
      && newId in ListGoals(h.store, uid, ListQuery(None, Some(h.reply.value.goal.category)))
      && newId !in ListGoals(h.store, uid, ListQuery(Some("completed"), None))
  {
    var h := CreateGoal(store, uid, body, newId, now);
    assert Selected(h.store[newId], uid, ListQuery(Some("ongoing"), None));
    assert Selected(h.store[newId], uid, ListQuery(None, Some(h.reply.value.goal.category)));
  }

  /** With the same category filter, the completed and the ongoing lists split the
      unfiltered list into two disjoint parts. */
  lemma StatusFiltersPartition(store: Store, uid: UserId, category: Option<string>)
    ensures var done := ListGoals(store, uid, ListQuery(Some("completed"), category));
      var open := ListGoals(store, uid, ListQuery(Some("ongoing"), category));
      var all := ListGoals(store, uid, ListQuery(None, category));
      && done.Keys !! open.Keys
      && done.Keys + open.Keys == all.Keys
  {
    var done := ListGoals(store, uid, ListQuery(Some("completed"), category));
    var open := ListGoals(store, uid, ListQuery(Some("ongoing"), category));
    var all := ListGoals(store, uid, ListQuery(None, category));
    forall id | id in all ensures id in done || id in open {
      if store[id].isCompleted {
        assert Selected(store[id], uid, ListQuery(Some("completed"), category));
      } else {
        assert Selected(store[id], uid, ListQuery(Some("ongoing"), category));
      }
    }
    forall id | id in done || id in open ensures id in all {
      assert Selected(store[id], uid, ListQuery(None, category));
    }
  }
}
