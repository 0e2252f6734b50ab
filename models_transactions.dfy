/**
 * The records of src/models/transactions.ts: incomes, expenses, saving goals and notifications.
 * The schemas put no sign constraint on `amount`; only the payload validators require it to be positive.
 */
module ModelsTransactions {
  import opened Wrappers
  import opened JsValues

  datatype Income = Income(
    id: Id,
    amount: real,
    description: Option<string>,
    notes: Option<string>,
    date: Time,
    userId: Id,
    sourceId: Id,
    accountId: Id,
    createdAt: Time,
    updatedAt: Time)

  /** A new document: an absent `date` takes the schema default, the creation time. */
  function NewIncome(id: Id, userId: Id, amount: real, description: Option<string>, notes: Option<string>,
                     date: Option<Time>, sourceId: Id, accountId: Id, now: Time): (r: Income)
    ensures date.None? ==> r.date == now
    ensures date.Some? ==> r.date == date.value
    ensures r.id == id && r.userId == userId && r.amount == amount
    ensures r.description == description && r.notes == notes
    ensures r.sourceId == sourceId && r.accountId == accountId
    ensures r.createdAt == now && r.updatedAt == now
  {
    Income(id, amount, description, notes, date.GetOr(now), userId, sourceId, accountId, now, now)
  }

  datatype Expense = Expense(
    id: Id,
    amount: real,
    description: Option<string>,
    notes: Option<string>,
    merchant: Option<string>,
    date: Time,
    userId: Id,
    categoryId: Id,
    accountId: Id,
    createdAt: Time,
    updatedAt: Time)

  function NewExpense(id: Id, userId: Id, amount: real, description: Option<string>, notes: Option<string>,
                      merchant: Option<string>, date: Option<Time>, categoryId: Id, accountId: Id,
                      now: Time): (r: Expense)
    ensures date.None? ==> r.date == now
    ensures date.Some? ==> r.date == date.value
    ensures r.id == id && r.userId == userId && r.amount == amount
    ensures r.description == description && r.notes == notes && r.merchant == merchant
    ensures r.categoryId == categoryId && r.accountId == accountId
    ensures r.createdAt == now && r.updatedAt == now
  {
    Expense(id, amount, description, notes, merchant, date.GetOr(now), userId, categoryId, accountId, now, now)
  }

  datatype SavingGoal = SavingGoal(
    id: Id,
    name: string,
    targetAmount: real,
    currentAmount: Option<real>,   // not required: a stored goal may hold null
    deadline: Option<Time>,
    kind: string,                  // the schema's `type`: "monthly", "yearly" or "custom" by convention
    icon: Option<string>,
    color: Option<string>,
    isCompleted: bool,
    userId: Id,
    createdAt: Time,
    updatedAt: Time)

  predicate SavingGoalSchemaOk(g: SavingGoal) {
    g.name != "" && g.kind != ""
  }

  /** A new document: `currentAmount` defaults to 0 and `isCompleted` to false. */
  function NewSavingGoal(id: Id, userId: Id, name: string, targetAmount: real, currentAmount: Option<real>,
                         deadline: Option<Time>, kind: string, icon: Option<string>, color: Option<string>,
                         isCompleted: Option<bool>, now: Time): (g: SavingGoal)
    ensures currentAmount.None? ==> g.currentAmount == Some(0.0)
    ensures currentAmount.Some? ==> g.currentAmount == currentAmount
    ensures isCompleted.None? ==> !g.isCompleted
    ensures isCompleted.Some? ==> g.isCompleted == isCompleted.value
    ensures g.id == id && g.userId == userId && g.name == name && g.targetAmount == targetAmount
    ensures g.deadline == deadline && g.kind == kind && g.icon == icon && g.color == color
    ensures g.createdAt == now && g.updatedAt == now
  {
    SavingGoal(id, name, targetAmount, Some(currentAmount.GetOr(0.0)), deadline, kind, icon, color,
               isCompleted.GetOr(false), userId, now, now)
  }

  datatype Notification = Notification(
    id: Id,
    title: string,
    message: string,
    kind: string,                  // the schema's `type`: "alert", "info", "warning" or "success"
    isRead: bool,
    userId: Id,
    createdAt: Time,
    updatedAt: Time)

  predicate NotificationSchemaOk(n: Notification) {
    n.title != "" && n.message != "" && n.kind != ""
  }

  /** A new document: `isRead` defaults to false. */
  function NewNotification(id: Id, userId: Id, title: string, message: string, kind: string,
                           isRead: Option<bool>, now: Time): (n: Notification)
    ensures isRead.None? ==> !n.isRead
    ensures isRead.Some? ==> n.isRead == isRead.value
    ensures n.id == id && n.userId == userId && n.title == title && n.message == message && n.kind == kind
    ensures n.createdAt == now && n.updatedAt == now
  {
    Notification(id, title, message, kind, isRead.GetOr(false), userId, now, now)
  }
}
