/**
 The goals page of the client (`src/pages/Goals.tsx`): the new-goal dialog
 and the split of the goals into active and completed tabs. Creating the
 goal is the finance context's business and is outside this model;
 `succeeded` says whether the awaited call resolved.
 */
module GoalsPage {
  import opened Basics
  import opened Models

  /** The dialog's fields; the deadline is the text of the date input. */
  datatype GoalForm = GoalForm(
    name: string,
    targetAmount: NumberField,
    deadline: string,
    category: string,
    priority: string)

  datatype PageState = PageState(form: GoalForm, dialogOpen: bool)

  /** A call of `createSavingsGoal`; the deadline is left undefined when none was picked. */
  datatype CreateCall = CreateCall(
    name: string,
    targetAmount: Option<int>,
    deadline: Option<string>,
    category: string,
    priority: string)

  datatype Outcome = Outcome(call: Option<CreateCall>, state: PageState)

  /** The form the dialog starts from and returns to. */
  const EmptyForm := GoalForm("", NumberField("", None), "", "emergency", "medium")

  /** `handleCreateGoal`: an empty name or target does nothing; otherwise the goal is
      requested and, once that resolves, the form is reset and the dialog closed. */
  function CreateGoal(st: PageState, succeeded: bool): (o: Outcome)
    ensures o.call.None? <==> st.form.name == "" || st.form.targetAmount.text == ""
    ensures o.call.None? ==> o.state == st
    ensures o.call.Some? ==>
      && o.call.value.name == st.form.name
      && o.call.value.targetAmount == st.form.targetAmount.parsed
      && (o.call.value.deadline.None? <==> st.form.deadline == "")
      && (o.call.value.deadline.Some? ==> o.call.value.deadline.value == st.form.deadline)
      && o.call.value.category == st.form.category
      && o.call.value.priority == st.form.priority
    ensures o.call.Some? && succeeded ==> o.state == PageState(EmptyForm, false)
    ensures o.call.Some? && !succeeded ==> o.state == st
  {
    var f := st.form;
    if f.name == "" || f.targetAmount.text == "" then Outcome(None, st)
    else
      var deadline := if f.deadline == "" then None else Some(f.deadline);
      var call := CreateCall(f.name, f.targetAmount.parsed, deadline, f.category, f.priority);
      Outcome(Some(call), if succeeded then PageState(EmptyForm, false) else st)
  }

  /** After a goal went through, pressing Create again on the reset form does nothing. */
  lemma CreateOnce(st: PageState, again: bool)
    requires CreateGoal(st, true).call.Some?
    ensures CreateGoal(CreateGoal(st, true).state, again).call.None?
  {
  }

  predicate IsActive(g: GoalRecord) { !g.goal.isCompleted }
  predicate IsDone(g: GoalRecord) { g.goal.isCompleted }

  /** `activeGoals`: the goals not yet completed, in list order. */
  function ActiveGoals(goals: seq<GoalRecord>): seq<GoalRecord>
  {
    Filter(goals, IsActive)
  }

  /** `completedGoals`: the completed goals, in list order. */
  function CompletedGoals(goals: seq<GoalRecord>): seq<GoalRecord>
  {
    Filter(goals, IsDone)
  }

  /** The two tabs split the goals: no goal is on both, and together they hold each goal
      exactly as often as the list does. */
  lemma TabsPartition(goals: seq<GoalRecord>)
    ensures multiset(ActiveGoals(goals)) + multiset(CompletedGoals(goals)) == multiset(goals)
    ensures |ActiveGoals(goals)| + |CompletedGoals(goals)| == |goals|
    ensures forall g :: !(g in ActiveGoals(goals) && g in CompletedGoals(goals))
    ensures forall g :: g in goals <==> g in ActiveGoals(goals) || g in CompletedGoals(goals)
  {
    FilterPartition(goals, IsActive, IsDone);
  }

  /** Each tab keeps the order of the full list. */
  lemma TabsKeepOrder(goals: seq<GoalRecord>)
    ensures IsSubseq(ActiveGoals(goals), goals)
    ensures IsSubseq(CompletedGoals(goals), goals)
  {
    FilterIsSubseq(goals, IsActive);
    FilterIsSubseq(goals, IsDone);
  }
}
