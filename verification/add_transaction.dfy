/**
 The add-transaction form of the client (`src/pages/AddTransaction.tsx`):
 the category menus of the two transaction types and the submit handler's
 checks, payload and follow-up. Storing the transaction is the finance
 context's business and is outside this model; `succeeded` says whether
 the awaited call resolved, and `now` is the submission time.
 */
module AddTransaction {
  import opened Basics
  import opened Models
  import TransactionsPage

  datatype TxType = ExpenseType | IncomeType

  /** The form's fields. */
  datatype TxForm = TxForm(
    kind: TxType,
    amount: NumberField,
    description: string,
    category: Category,
    isRecurring: bool,
    frequency: Frequency)

  /** The record handed to `addTransaction`. */
  datatype NewTransaction = NewTransaction(
    amount: int,
    description: string,
    category: Category,
    isIncome: bool,
    isRecurring: bool,
    recurringFrequency: Option<Frequency>,
    date: int)

  datatype Toast = Toast(title: string, description: string, destructive: bool)

  /** What pressing Submit does: show an error without sending anything, or send the
      record and then either move to another page or show an error. */
  datatype Submission =
    | Rejected(error: Toast)
    | Sent(record: NewTransaction, navigateTo: Option<string>, failure: Option<Toast>)

  const MissingFields := Toast("Error", "Please fill all the required fields", true)
  const InvalidAmount := Toast("Error", "Please enter a valid amount", true)
  const SaveFailed := Toast("Error", "Failed to add transaction", true)

  /** The category menu shown for each type. */
  function OfferedCategories(kind: TxType): seq<Category>
  {
    match kind
    case ExpenseType => ExpenseCategories
    case IncomeType => IncomeCategories
  }

  /** The two menus share only "other"; income and savings are never offered for an expense. */
  lemma MenusOverlapInOther()
    ensures forall c :: c in OfferedCategories(ExpenseType) && c in OfferedCategories(IncomeType) <==> c == Other
    ensures Income !in OfferedCategories(ExpenseType) && Savings !in OfferedCategories(ExpenseType)
  {
  }

  /** `handleSubmit`. */
  function Submit(f: TxForm, now: int, succeeded: bool): (s: Submission)
    ensures s.Rejected? <==>
      f.amount.text == "" || f.description == "" || f.category == ""
      || f.amount.parsed.None? || f.amount.parsed.value <= 0
    ensures (f.amount.text == "" || f.description == "" || f.category == "") ==> s == Rejected(MissingFields)
    ensures (&& !(f.amount.text == "" || f.description == "" || f.category == "")
             && (f.amount.parsed.None? || f.amount.parsed.value <= 0))
      ==> s == Rejected(InvalidAmount)
    ensures s.Sent? ==>
      && s.record.amount == f.amount.parsed.value
      && s.record.amount > 0
      && s.record.description == f.description
      && s.record.category == f.category
      && (s.record.isIncome <==> f.kind == IncomeType)
      && s.record.isRecurring == f.isRecurring
      && (s.record.recurringFrequency.Some? <==> f.isRecurring)
      && (f.isRecurring ==> s.record.recurringFrequency == Some(f.frequency))
      && s.record.date == now
    ensures s.Sent? ==>
      (succeeded <==> s.navigateTo == Some("/transactions"))
      && (succeeded <==> s.failure.None?)
      && (!succeeded ==> s.failure == Some(SaveFailed))
  {
    if f.amount.text == "" || f.description == "" || f.category == "" then Rejected(MissingFields)
    else if f.amount.parsed.None? || f.amount.parsed.value <= 0 then Rejected(InvalidAmount)
    else
      var record := NewTransaction(
        f.amount.parsed.value, f.description, f.category, f.kind == IncomeType,
        f.isRecurring, if f.isRecurring then Some(f.frequency) else None, now);
      if succeeded then Sent(record, Some("/transactions"), None)
      else Sent(record, None, Some(SaveFailed))
  }

  /** Empty fields are reported before the amount is read: an empty description with
      an unreadable amount still asks for the missing fields. */
  lemma MissingFieldsComeFirst()
    ensures Submit(TxForm(ExpenseType, NumberField("x", None), "", Food, false, Monthly), 0, true)
         == Rejected(MissingFields)
  {
  }

  /** The category is not checked against the type's menu: switching the type keeps the
      earlier choice, so an income can be sent under an expense category. */
  lemma CategoryNotCheckedAgainstType()
    ensures var s := Submit(TxForm(IncomeType, NumberField("5", Some(500)), "pay", Food, false, Monthly), 0, true);
      s.Sent? && s.record.isIncome && s.record.category !in OfferedCategories(IncomeType)
  {
  }

  /** The type selector of the transactions page that shows transactions of `kind`. */
  function ViewOf(kind: TxType): TransactionsPage.TypeFilter
  {
    match kind
    case ExpenseType => TransactionsPage.ExpenseOnly
    case IncomeType => TransactionsPage.IncomeOnly
  }

  /** The transaction a sent record becomes once the store gives it an id and an owner. */
  function Stored(r: NewTransaction, id: string, uid: UserId): Transaction
  {
    Transaction(id, uid, r.amount, r.date, r.description, r.category, r.isIncome, r.isRecurring, r.recurringFrequency)
  }

  /** Whatever the form holds, a record that is sent has a positive amount, is listed
      under its own type on the transactions page and not under the other type, and does
      not depend on whether saving it succeeds. */
  lemma SentRecordKeepsItsType(f: TxForm, now: int, succeeded: bool, id: string, uid: UserId)
    ensures var s := Submit(f, now, succeeded);
      s.Sent? ==>
        && s.record.amount > 0
        && TransactionsPage.KeepsKind(ViewOf(f.kind), Stored(s.record, id, uid))
        && !TransactionsPage.KeepsKind(ViewOf(if f.kind == IncomeType then ExpenseType else IncomeType), Stored(s.record, id, uid))
        && Submit(f, now, !succeeded).Sent?
        && Submit(f, now, !succeeded).record == s.record
  {
  }
}
