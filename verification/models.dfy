/**
 The FinWise records shared by the client and the backend: savings goals,
 transactions, budgets and assistant tips. Amounts are whole cents, points
 in time are integers (milliseconds), and the string-literal unions of the
 client's types are strings or small enumerations.
 */
module Models {
  import opened Basics

  type UserId = string
  type GoalId = string

  /** A transaction category. The client's union type names the twelve below;
      data read back from the store may carry any string. */
  type Category = string

  const Food: Category := "food"
  const Housing: Category := "housing"
  const Transportation: Category := "transportation"
  const Utilities: Category := "utilities"
  const Healthcare: Category := "healthcare"
  const Entertainment: Category := "entertainment"
  const Shopping: Category := "shopping"
  const Education: Category := "education"
  const Personal: Category := "personal"
  const Income: Category := "income"
  const Savings: Category := "savings"
  const Other: Category := "other"

  /** The categories offered for an expense, and for a new budget, in menu order. */
  const ExpenseCategories: seq<Category> :=
    [Food, Housing, Transportation, Utilities, Healthcare, Entertainment, Shopping, Education, Personal, Other]

  /** The categories offered for an income. */
  const IncomeCategories: seq<Category> := [Income, Savings, Other]

  datatype Frequency = Daily | Weekly | Monthly | Yearly

  /** A savings goal document as the goal routes store it. */
  datatype Goal = Goal(
    userId: UserId,
    name: string,
    targetAmount: int,
    currentAmount: int,
    deadline: Option<int>,
    category: string,
    priority: string,
    isCompleted: bool,
    createdAt: int,
    updatedAt: int)

  /** A goal together with its document id, as the routes return it and the client lists it. */
  datatype GoalRecord = GoalRecord(id: GoalId, goal: Goal)

  datatype Transaction = Transaction(
    id: string,
    userId: UserId,
    amount: int,
    date: int,
    description: string,
    category: Category,
    isIncome: bool,
    isRecurring: bool,
    recurringFrequency: Option<Frequency>)

  datatype Budget = Budget(
    id: string,
    userId: UserId,
    category: Category,
    limit: int,
    period: Frequency,
    startDate: int,
    endDate: Option<int>,
    isActive: bool,
    currentSpent: int)

  datatype AiTip = AiTip(
    id: string,
    userId: UserId,
    content: string,
    category: string,
    createdAt: int,
    isRead: bool,
    relevanceScore: int)

  /** One line of a budget summary: a category's spending against its limit. */
  datatype CategorySpend = CategorySpend(category: Category, spent: int, limit: int)

  /** An HTTP reply: a 2xx status with its body, or an error status with its message. */
  datatype Reply<T> = Success(status: int, value: T) | Failure(status: int, error: string)

  /** The completion flag agrees with the amounts. */
  predicate Consistent(g: Goal)
  {
    g.isCompleted == (g.currentAmount >= g.targetAmount)
  }

  function Amount(t: Transaction): int { t.amount }
  predicate IsIncome(t: Transaction) { t.isIncome }
  predicate IsExpense(t: Transaction) { !t.isIncome }
}
