# FinWise core in Dafny

FinWise is a personal-finance assistant. It has an Express backend over a
document store and a React client. This project models the rules in FinWise
that do more than pass data through.

**Goal ledger.** The backend's savings-goal handlers:
- creating a goal with its defaults;
- contributing to a goal, which recomputes the completion flag;
- deleting a goal, where existence is checked before ownership;
- the filtered goal list;
- the statistics fold.

**Budget summary.** How the profile handler folds a user's expenses into
per-category spending. Its uid guard is modelled too.

**Client-side lists and guards.** These are what the pages compute before
rendering:
- the capped progress meters, and the budget bar's colour tiers;
- the transaction filter, search and sort pipeline;
- the dashboard's "five most recent" and "three unread tips";
- the income/expense totals and the pie data;
- the free budget categories;
- the active/completed goal tabs;
- the guards, payloads and resets of the create dialogs and the add-transaction form.

**Onboarding wizard.** Its three-step state machine with a set of goal check boxes.

**Category styling.** The total icon and colour mappings.

Modelling choices:

- **Amounts and times.** Amounts are whole cents (`int`). Points in time are
  integers. Percentages are `real`.
- **Numeric input.** A numeric text input is a `NumberField`: the typed text
  together with what `parseFloat` reads from it. `None` stands for NaN.
- **Store and handlers.** A document collection is a `map` from id to document.
  Each handler is a pure function that returns the reply together with the
  collection after the request. The caller's uid, the id given to a new
  document and the current time are parameters.
- **Dictionaries.** JavaScript objects used as dictionaries (`categoryCount`,
  `categories`) are modelled as sequences of `Entry` values with distinct keys,
  kept in insertion order (module `Grouping`). This matches a plain object only
  for keys that are not integer-like and not inherited from `Object.prototype`
  (see "## Left out").
- **Sorting.** Comparator sorts are a stable insertion sort on an integer key,
  as `Array.prototype.sort` is stable. A descending comparator sorts on the
  negated key (module `Sorting`).
- **No mutation.** Every operation is a pure function. A page that sorts a
  copy of a list therefore cannot reorder the original.
- **Finance-context calls.** The client calls finance-context functions such as
  `createBudget`, `updateSavingsGoal` and `addTransaction`. Their
  implementation is not part of this model. A page handler reports the call
  it makes, and a `succeeded` flag says whether the awaited call resolved.

The code does not validate two of its inputs, and the model follows the code:

- Contributing to a goal does not validate the amount.
  `GoalLaws.NegativeContributionReopens` shows a negative contribution
  un-completing a goal.
- Creating a goal checks only that the name and the target are truthy.
  `GoalLaws.NegativeTargetIsInconsistent` shows a negative target stored with
  a completion flag that disagrees with its amounts.

## Model

| member | source | states |
|---|---|---|
| GoalRoutes.CreateGoal | backend/routes/goalRoutes.js:44-76 | The reply is 400 with the collection unchanged exactly when the name or the target is falsy. Otherwise it is 201, and exactly one new document is added. That document has progress 0, is not completed, and belongs to the caller. Category defaults to "other" and priority to "medium". |
| GoalRoutes.Authorize | backend/routes/goalRoutes.js:130-139 | A missing goal is a 404, whoever asks. An existing goal owned by someone else is a 403. Only the owner passes. |
| GoalRoutes.Contribute | backend/routes/goalRoutes.js:122-160 | A 404 or 403 leaves the collection as it was. Otherwise the new amount is the old amount plus the contribution. The goal is completed exactly when the new amount reaches the target, so overshoot is allowed. The update time is refreshed and every other field is kept. Only that document is rewritten, and the reply is the stored goal. |
| GoalRoutes.DeleteGoal | backend/routes/goalRoutes.js:168-183 | 404 comes before 403, and neither deletes anything. The owner's delete removes exactly that id and keeps every other goal as it was. |
| GoalRoutes.ListGoals | backend/routes/goalRoutes.js:7-36 | Only the caller's goals are listed. "completed" keeps completed goals and "ongoing" keeps uncompleted ones. Any other status filters nothing. A given category must match exactly. Every goal meeting the conditions is listed. |
| GoalRoutes.GoalStats | backend/routes/goalRoutes.js:84-114 | The one-pass loop gives the same figures as the independent definitions: the number of the caller's goals, the count of completed goals, the count of open goals, the sums of targets and of saved amounts, and the category tally. The total is completed plus ongoing. |
| GoalRoutes.StatsStep | backend/routes/goalRoutes.js:99-112 | Folding one more goal into the statistics of a list gives the statistics of the longer list. |
| GoalRoutes.StatsFacts | backend/routes/goalRoutes.js:90-112 | The categoryCount keys are distinct and are exactly the categories of the counted goals. Each value is the number of goals in that category, and the values add up to the total. |
| GoalLaws.ContributeTwice | backend/routes/goalRoutes.js:141-149 | Two contributions in a row leave the same collection as one contribution of their sum. |
| GoalLaws.ContributeKeepsStoreConsistent | backend/routes/goalRoutes.js:141-149 | If every goal's completion flag agrees with its amounts before a contribution, every flag still agrees after it. |
| GoalLaws.ContributionSetsFlag | backend/routes/goalRoutes.js:141-149 | After the owner's contribution the contributed goal's flag agrees with its amounts, whatever the flag was before. |
| GoalLaws.CompletionIsSticky | backend/routes/goalRoutes.js:141-142 | A completed goal stays completed under a non-negative contribution. |
| GoalLaws.NegativeContributionReopens | backend/routes/goalRoutes.js:141-142 | The amount is not validated: a contribution of -1 to a goal exactly at its target reopens it. |
| GoalLaws.CreateKeepsStoreConsistent | backend/routes/goalRoutes.js:51-66 | Creating a goal with a positive target keeps every completion flag consistent. |
| GoalLaws.NegativeTargetIsInconsistent | backend/routes/goalRoutes.js:51-63 | Only truthiness is checked, so a negative target is accepted and stored as not completed. |
| GoalLaws.DeleteTwice | backend/routes/goalRoutes.js:168-183 | After the owner deletes a goal, a second delete of the same id is a 404. |
| GoalLaws.CreatedGoalIsListed | backend/routes/goalRoutes.js:10-20 | A goal just created is listed as ongoing and under its category, and not as completed. |
| GoalLaws.StatusFiltersPartition | backend/routes/goalRoutes.js:12-20 | Under the same category filter, the completed and the ongoing lists are disjoint and together make up the unfiltered list. |
| Grouping.BumpSpec | backend/routes/goalRoutes.js:111 | Adding to a key's running total keeps keys distinct. It adds the key if it was new, changes only that key's total, and raises the grand total by the amount. |
| Grouping.TallySpec | backend/routes/userRoutes.js:76-83 | The tally of a list has distinct keys, exactly the keys in the list. Each total is the sum of that key's amounts, and the totals add up to the sum of all amounts. |
| ProfileRoutes.SaveProfile | backend/routes/userRoutes.js:8-23 | The reply is 400 with nothing written exactly when the uid is missing or empty. Otherwise the profile fields are written under that uid, and every other user and all expenses are untouched. |
| ProfileRoutes.GetProfile | backend/routes/userRoutes.js:56-98 | The reply is 404 exactly when there is no profile. Otherwise the expenses are a reordering of the stored ones with dates non-increasing. The budget summary is computed from them. |
| ProfileRoutes.SaveThenGet | backend/routes/userRoutes.js:8-23 | After a successful save, reading the same uid finds the profile just written and the user's stored expenses. The summary's income is the saved income, or 0 when none was given. |
| ProfileRoutes.SummarizeSpec | backend/routes/userRoutes.js:75-93 | totalSpent is the sum of all amounts, and totalIncome is the income or 0. Each expense category appears exactly once, with limit 1000 and the sum of that category's amounts. The per-category sums add up to totalSpent. |
| Sorting.SortBy | finwise-ai-assist-466efdb4/src/pages/Transactions.tsx:62-70 | The result is a reordering of the input with the key non-decreasing. |
| Sorting.SortByIsStable | finwise-ai-assist-466efdb4/src/pages/Dashboard.tsx:27-29 | The sort is stable: for every key, the elements with that key come out in their input order. This decides which of several equally dated transactions are among the five shown. |
| Text.Contains | finwise-ai-assist-466efdb4/src/pages/Transactions.tsx:56-57 | `includes` holds exactly when the term occurs at some position of the text. |
| Text.ReplaceFirst | finwise-ai-assist-466efdb4/src/components/BudgetProgressBar.tsx:35 | Only the first occurrence of the character is replaced, and everything before and after it is kept. |
| Text.ReplaceFirstKeepsLater | finwise-ai-assist-466efdb4/src/pages/Budget.tsx:47 | A second underscore survives the replacement. |
| Text.ToLowerIdempotent | finwise-ai-assist-466efdb4/src/pages/Transactions.tsx:54 | Lower-casing twice is lower-casing once, and no capital letter remains. |
| Meter.ClampedPercent | finwise-ai-assist-466efdb4/src/components/BudgetProgressBar.tsx:16 | The percentage is never above 100. It is 100 exactly when the part reaches the whole; below that it is the exact ratio. It is non-negative for a non-negative part. |
| Meter.AboveThreshold | finwise-ai-assist-466efdb4/src/components/BudgetProgressBar.tsx:16-24 | Comparing the capped percentage with a threshold below 100 is the same as comparing `100 * part` with `threshold * whole`. |
| BudgetBar.TierBands | finwise-ai-assist-466efdb4/src/components/BudgetProgressBar.tsx:20-24 | The bar is destructive exactly above 9/10 of the limit, accent exactly above 3/4 up to 9/10, and primary otherwise. |
| BudgetBar.TierMonotone | finwise-ai-assist-466efdb4/src/components/BudgetProgressBar.tsx:16-24 | For a fixed limit, spending more never gives a less severe tier. |
| BudgetBar.AmountToneMatchesBar | finwise-ai-assist-466efdb4/src/components/BudgetProgressBar.tsx:38-42 | The amount text is destructive-coloured exactly when the bar's class is `bg-destructive`. |
| BudgetBar.Remaining | finwise-ai-assist-466efdb4/src/components/BudgetProgressBar.tsx:53 | The remaining amount is negative exactly when the budget is overspent. It is not capped at zero. |
| BudgetBar.OverspentBar | finwise-ai-assist-466efdb4/src/components/BudgetProgressBar.tsx:16-53 | An overspent budget shows a full, destructive bar together with a negative remaining amount. |
| BudgetBar.Label | finwise-ai-assist-466efdb4/src/components/BudgetProgressBar.tsx:35 | The label has the category's length and equals the category when there is no underscore. |
| GoalCard.Remaining | finwise-ai-assist-466efdb4/src/components/GoalCard.tsx:32 | The missing amount is positive exactly while the goal is short of its target, and negative exactly when the goal is overshot. |
| GoalCard.OvershotGoal | finwise-ai-assist-466efdb4/src/components/GoalCard.tsx:31-32 | An overshot goal shows a full progress bar and a negative missing amount. |
| GoalCard.HandleContribute | finwise-ai-assist-466efdb4/src/components/GoalCard.tsx:34-41 | The update is called exactly when the goal is open and the amount is a number above 0, and it gets exactly that amount. Without a call the state is unchanged. After a resolved call the input is cleared and the dialog closed. |
| GoalCard.ContributeOnce | finwise-ai-assist-466efdb4/src/components/GoalCard.tsx:34-41 | Pressing Contribute again after a resolved contribution calls nothing. |
| TransactionsPage.Visible | finwise-ai-assist-466efdb4/src/pages/Transactions.tsx:37-74 | The list holds exactly the transactions that pass type, category and search, each as often as in the input. It is in the order the sort selector names. |
| TransactionsPage.FilteredIsPassing | finwise-ai-assist-466efdb4/src/pages/Transactions.tsx:38-59 | The three successive filters equal one filter by the conjunction of the three conditions. |
| TransactionsPage.SortedIsInOrder | finwise-ai-assist-466efdb4/src/pages/Transactions.tsx:62-70 | Each comparator gives its promised order: newest or oldest first, largest or smallest amount first. |
| TransactionsPage.VisibleMembers | finwise-ai-assist-466efdb4/src/pages/Transactions.tsx:38-59 | A transaction is listed exactly when it is in the input and passes every control. |
| TransactionsPage.ShowsEverythingByDefault | finwise-ai-assist-466efdb4/src/pages/Transactions.tsx:31-45 | With every control at its initial value, every transaction is listed. |
| TransactionsPage.TypeViewsPartition | finwise-ai-assist-466efdb4/src/pages/Transactions.tsx:41-45 | The income view and the expense view together hold each transaction of the "all" view exactly once. |
| TransactionsPage.Dedup | finwise-ai-assist-466efdb4/src/pages/Transactions.tsx:79 | The result has the same members as the input, each exactly once. |
| TransactionsPage.DedupKeepsOrder | finwise-ai-assist-466efdb4/src/pages/Transactions.tsx:79 | The kept values appear in input order, in the order of their first occurrences: a value that first occurs earlier comes earlier. |
| TransactionsPage.AvailableCategories | finwise-ai-assist-466efdb4/src/pages/Transactions.tsx:77-80 | Each category some transaction has is offered exactly once, and nothing else is offered. |
| Dashboard.Recent | finwise-ai-assist-466efdb4/src/pages/Dashboard.tsx:27-29 | The list holds min(5, n) of the transactions, newest first. |
| Dashboard.RecentAreNewest | finwise-ai-assist-466efdb4/src/pages/Dashboard.tsx:27-29 | No transaction left off the list is newer than one on it. |
| Dashboard.UnreadTips | finwise-ai-assist-466efdb4/src/pages/Dashboard.tsx:32 | The tips shown are the first three unread tips, or every unread tip when there are fewer. |
| Dashboard.UnreadTipsKeepOrder | finwise-ai-assist-466efdb4/src/pages/Dashboard.tsx:32 | The tips shown keep their relative order from the full list. |
| Dashboard.BudgetOverview | finwise-ai-assist-466efdb4/src/pages/Dashboard.tsx:110 | The overview shows the summary's first min(3, n) categories, in order. |
| Charts.PieSlices | finwise-ai-assist-466efdb4/src/components/ChartDashboard.tsx:13-16 | There is at most one sector per budget, every value is positive, and a sector is kept exactly when its value is positive. Each positive sector appears as many times as budgets give it. |
| Charts.PieKeepsBudgetOrder | finwise-ai-assist-466efdb4/src/components/ChartDashboard.tsx:13-16 | The sectors keep the order of their budgets. |
| Charts.EveryPositiveBudgetHasSlice | finwise-ai-assist-466efdb4/src/components/ChartDashboard.tsx:13-16 | Every budget with a positive value has its sector, under its label. |
| Charts.TotalsPartition | finwise-ai-assist-466efdb4/src/components/ChartDashboard.tsx:19-25 | Income plus expenses is the sum of all amounts. |
| Charts.TotalsAppend | finwise-ai-assist-466efdb4/src/components/ChartDashboard.tsx:19-25 | A new transaction raises only the total of its own kind, by its amount. |
| Charts.CompareData | finwise-ai-assist-466efdb4/src/components/ChartDashboard.tsx:28-31 | There are two bars: Income carries the income total and Expenses the expense total, in that order. Their values add up to the sum of all amounts. |
| BudgetPage.CreateBudget | finwise-ai-assist-466efdb4/src/pages/Budget.tsx:27-43 | No call is made exactly when the category or the limit is empty, and then the state is unchanged. Otherwise the call carries the form's category, parsed limit and period. After it resolves, the form is back to food / empty / monthly and the dialog is closed. |
| BudgetPage.CreateOnce | finwise-ai-assist-466efdb4/src/pages/Budget.tsx:27-43 | Pressing Create again on the reset form sends nothing, because the reset limit is empty. |
| BudgetPage.UnreadableLimitIsSent | finwise-ai-assist-466efdb4/src/pages/Budget.tsx:28-33 | Only emptiness is checked: a limit that reads as NaN is still sent. |
| BudgetPage.UnusedCategories | finwise-ai-assist-466efdb4/src/pages/Budget.tsx:68-77 | The list holds exactly the menu categories that no budget covers. It is disjoint from every budget's category and never contains income or savings. |
| BudgetPage.UnusedKeepsMenuOrder | finwise-ai-assist-466efdb4/src/pages/Budget.tsx:75-77 | The free categories keep the menu order. |
| BudgetPage.NewBudgetUsesCategory | finwise-ai-assist-466efdb4/src/pages/Budget.tsx:75-77 | A new budget takes its category off the free list and changes nothing else on it. |
| BudgetPage.CategoryData | finwise-ai-assist-466efdb4/src/pages/Budget.tsx:46-49 | At most one sector per budget, all positive. A sector is shown exactly when some budget with spending gives it, under its label with its `currentSpent`. |
| GoalsPage.CreateGoal | finwise-ai-assist-466efdb4/src/pages/Goals.tsx:47-67 | No call is made exactly when the name or the target is empty, and then the state is unchanged. An empty deadline is sent as undefined. After the call resolves, the form resets to empty / emergency / medium and the dialog is closed. |
| GoalsPage.CreateOnce | finwise-ai-assist-466efdb4/src/pages/Goals.tsx:47-64 | Pressing Create again on the reset form calls nothing. |
| GoalsPage.TabsPartition | finwise-ai-assist-466efdb4/src/pages/Goals.tsx:70-71 | The active and completed tabs are disjoint. Together they hold each goal exactly as often as the list does. |
| GoalsPage.TabsKeepOrder | finwise-ai-assist-466efdb4/src/pages/Goals.tsx:70-71 | Each tab keeps the list order. |
| AddTransaction.MenusOverlapInOther | finwise-ai-assist-466efdb4/src/pages/AddTransaction.tsx:41-49 | "other" is the only category in both menus. Income and savings are never offered for an expense. |
| AddTransaction.Submit | finwise-ai-assist-466efdb4/src/pages/AddTransaction.tsx:51-93 | An empty field is rejected with the missing-fields message. Otherwise an amount that is NaN or not above 0 is rejected with the invalid-amount message. In both cases nothing is sent. The record has isIncome exactly for the income type, and a frequency exactly when it is recurring. After success the page moves to /transactions; after a failure it shows an error and stays. |
| AddTransaction.SentRecordKeepsItsType | finwise-ai-assist-466efdb4/src/pages/AddTransaction.tsx:51-93 | For every form, a sent record has an amount above 0. It is listed under its own type on the transactions page and not under the other type. The record does not depend on whether saving succeeds. |
| AddTransaction.MissingFieldsComeFirst | finwise-ai-assist-466efdb4/src/pages/AddTransaction.tsx:54-71 | Empty fields are reported before the amount is read. |
| AddTransaction.CategoryNotCheckedAgainstType | finwise-ai-assist-466efdb4/src/pages/AddTransaction.tsx:73-82 | The category is not checked against the type's menu, so an income can be sent under "food". |
| Onboarding.Next | finwise-ai-assist-466efdb4/src/pages/Onboarding.tsx:30-45 | Step 1 with an empty income stays put with an error. Otherwise a step below 3 advances by exactly one, and step 3 finishes without moving. The step stays within 1..3. |
| Onboarding.Back | finwise-ai-assist-466efdb4/src/pages/Onboarding.tsx:47-51 | Back moves one step back above step 1 and does nothing on step 1. The step stays within 1..3. |
| Onboarding.ToggleGoal | finwise-ai-assist-466efdb4/src/pages/Onboarding.tsx:62-67 | Only the toggled box changes. |
| Onboarding.ToggleTwice | finwise-ai-assist-466efdb4/src/pages/Onboarding.tsx:62-67 | Toggling the same box twice restores the boxes. |
| Onboarding.NextThenBack | finwise-ai-assist-466efdb4/src/pages/Onboarding.tsx:40-51 | Next then Back from step 2 returns to the same state. |
| Onboarding.StepStaysInRange | finwise-ai-assist-466efdb4/src/pages/Onboarding.tsx:14-51 | Whatever the user does, the wizard stays on step 1, 2 or 3. |
| Onboarding.IncomeGuardsFirstStep | finwise-ai-assist-466efdb4/src/pages/Onboarding.tsx:31-38 | Without an income, no number of Next presses leaves the first step. |
| CategoryStyle.ColorIdentifiesCategory | finwise-ai-assist-466efdb4/src/lib/utils.ts:71-98 | Each of the eleven named categories can be read back from its colour, and none has the grey fallback. |
| CategoryStyle.ColorsTellCategoriesApart | finwise-ai-assist-466efdb4/src/lib/utils.ts:71-98 | The named categories have pairwise different colours. A category gets the grey fallback exactly when it is not named, "other" included. |
| CategoryStyle.IconIdentifiesCategory | finwise-ai-assist-466efdb4/src/lib/utils.ts:42-68 | Each named category can be read back from its icon, and none has the question mark. |
| CategoryStyle.IconsOfCategories | finwise-ai-assist-466efdb4/src/lib/utils.ts:42-68 | Income has the dollar icon and savings the piggy bank. The named icons are pairwise different, and the question mark goes exactly to the categories that are not named. |

## Left out

- Network, authentication and the document store API: token checks, HTTP
  framing and the 500 replies of caught store exceptions. The store is a map,
  or a sequence for query snapshots.
- Text formatting: ISO date strings, currency formatting and `toFixed` are left
  out. Dates are integers.
- Floating point: amounts are whole cents, so NaN, Infinity and rounding are
  not modelled. `parseFloat` is replaced by the `parsed` field of a `NumberField`.
- JavaScript coercion of request bodies: `targetAmount` and `amount` are taken
  to arrive as numbers. So `Number(targetAmount)` giving 0 after a truthy
  `"0"` is not modelled (goalRoutes.js line 58). Nor is `Number(amount)` in
  the contribute handler (goalRoutes.js line 141), which gives NaN for a
  missing or non-numeric amount and 0 for `""` or `null`.
- ProfileRoutes.SummarizeSpec: expense amounts are integers in the model. The
  expense route (userRoutes.js lines 31-36) stores `amount` as sent, without
  converting it. A string amount would make `sum + exp.amount` and
  `spent += exp.amount` (userRoutes.js lines 75 and 82) concatenate strings
  instead of adding numbers. The summary's promises hold only for numeric
  amounts.
- GoalRoutes.CreateGoal: a deadline is an optional integer and is stored as
  given. The falsy-deadline check is folded into `None`.
- The read-then-write race of the contribute handler: contributing is one
  atomic step.
- ProfileRoutes.SaveProfile: the store's merge write is modelled as replacing
  the five profile fields. Other fields of the user document are not modelled.
- ProfileRoutes.GetProfile: the store's date ordering is one particular
  ordering of the dates, newest first. Only the multiset and the date order are
  promised; the order among equal dates is not.
- `Object.entries` lists integer-like keys first. The model keeps plain
  insertion order, which agrees only for category names that are not integers.
- ProfileRoutes.SummarizeSpec, GoalRoutes.StatsFacts: category names inherited
  from `Object.prototype` are not modelled, and no route validates categories.
  For such a name the JavaScript objects misbehave. A goal category
  `toString` makes the count a string, and `__proto__` loses the write. An
  expense category `constructor` finds the inherited value, creates no own
  entry and is missing from `Object.entries`, so the per-category sums no
  longer add up to totalSpent. The model treats every name as a fresh key.
- The finance context: `createBudget`, `createSavingsGoal`,
  `updateSavingsGoal`, `addTransaction` and `getCategoryTotal` have no
  implementation in the client. They are a `succeeded` flag or a function
  parameter.
- Lower-casing: only ASCII letters are lower-cased. Full Unicode case mapping
  is not modelled.
- Navigation and toasts of the onboarding wizard: finishing is the `Finished`
  effect. The page does not save the profile.
- Rendering, icons as components, animation and routing of all pages.
