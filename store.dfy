/**
 * The store the route handlers share, and the handlers themselves. Each handler either fails
 * and leaves the store as it was, or applies exactly the changes its contract names; every
 * handler keeps the integrity rules of `StoreInvariants`, the ledger identity among them.
 */
module Store {
  import opened Wrappers
  import opened JsValues
  import opened Http
  import opened Tables
  import opened ModelsCore
  import opened ModelsTransactions
  import opened ModelsAuth
  import opened Ledger
  import opened AccountRules
  import opened NotificationRules
  import opened AuthRules
  import opened StoreInvariants
  import Validators
  import Analytics
  import Savings

  /**
   * Where a database session fails, if it does: the first write, the second write, or the
   * commit. A failure aborts the transaction.
   */
  datatype Fault = NoFault | FirstWriteFails | SecondWriteFails | CommitFails

  /** The body of a successful registration: the new user, and the session cookie it is signed in with. */
  datatype Registered = Registered(id: Id, email: string, name: Option<string>, cookie: SessionCookie)

  function IncomeDate(x: Income): int { x.date }
  function ExpenseDate(x: Expense): int { x.date }
  function AccountCreated(a: BankAccount): int { a.createdAt }
  function NotificationCreated(n: Notification): int { n.createdAt }

  /** `{ userId: user, date: range }` on incomes. */
  function IncomesOf(incomes: seq<Income>, user: Id, w: DateRange): (r: seq<Income>)
    ensures forall x :: x in r <==> x in incomes && x.userId == user && InRange(w, x.date)
  {
    Where(incomes, (x: Income) => x.userId == user && InRange(w, x.date))
  }

  /** `{ userId: user, date: range }` on expenses. */
  function ExpensesOf(expenses: seq<Expense>, user: Id, w: DateRange): (r: seq<Expense>)
    ensures forall x :: x in r <==> x in expenses && x.userId == user && InRange(w, x.date)
  {
    Where(expenses, (x: Expense) => x.userId == user && InRange(w, x.date))
  }

  function NotificationsOf(ns: seq<Notification>, user: Id): (r: seq<Notification>)
    ensures forall n :: n in r <==> n in ns && n.userId == user
  {
    Where(ns, (n: Notification) => n.userId == user)
  }

  /** A `start`/`end` query parameter: absent or empty means no bound; otherwise `new Date(param)` must be valid. */
  predicate BoundOk(p: Platform, param: Option<string>) {
    param.None? || param.value == "" || p.toDate(JStr(param.value)).Some?
  }

  function BoundOf(p: Platform, param: Option<string>): Option<Time> {
    if param.Some? && param.value != "" then p.toDate(JStr(param.value)) else None
  }

  /** `Array.isArray(payload?.ids)`, with an unparsable body read as `{}`. */
  predicate HasIdArray(body: Option<Json>) {
    body.Some? && body.value.JObj? && "ids" in body.value.fields && body.value.fields["ids"].JArr?
  }

  /** `Array.isArray(payload?.ids) ? payload.ids : []` */
  function PayloadIds(body: Option<Json>): seq<Json> {
    if HasIdArray(body) then body.value.fields["ids"].items else []
  }

  /** Every listed id casts to an ObjectId. */
  predicate AllCastable(p: Platform, ids: seq<Json>) {
    forall i :: 0 <= i < |ids| ==> ids[i].JStr? && p.isObjectId(ids[i].s)
  }

  function IdStrings(ids: seq<Json>): (r: seq<Id>)
    requires forall i :: 0 <= i < |ids| ==> ids[i].JStr?
    ensures |r| == |ids| && forall i :: 0 <= i < |r| ==> ids[i] == JStr(r[i])
  {
    seq(|ids|, i requires 0 <= i < |ids| => ids[i].s)
  }

  function UserByEmail(users: seq<User>, email: string): (r: Option<User>)
    ensures r.Some? ==> r.value in users && r.value.email == email
    ensures r.None? <==> forall i :: 0 <= i < |users| ==> users[i].email != email
  {
    FindFirst(users, (u: User) => u.email == email)
  }

  function ResetByToken(resets: seq<PasswordReset>, token: string): (r: Option<PasswordReset>)
    ensures r.Some? ==> r.value in resets && r.value.token == token
    ensures r.None? <==> forall i :: 0 <= i < |resets| ==> resets[i].token != token
  {
    FindFirst(resets, (x: PasswordReset) => x.token == token)
  }

  /** The user document `POST /api/auth/register` creates. */
  function NewUser(id: Id, name: string, email: string, passwordHash: string, now: Time): User {
    User(id, Some(name), email, Some(passwordHash), None, None, now, now)
  }

  class Database {
    var users: seq<User>
    var resets: seq<PasswordReset>
    var accounts: seq<BankAccount>
    var categories: seq<Category>
    var sources: seq<IncomeSource>
    var incomes: seq<Income>
    var expenses: seq<Expense>
    var notifications: seq<Notification>
    /** The balance each account was created with. */
    ghost var opening: map<Id, real>

    ghost predicate Valid()
      reads this
    {
      StoreOk(users, resets, accounts, categories, sources, incomes, expenses, notifications, opening)
    }

    constructor ()
      ensures Valid()
      ensures users == [] && resets == [] && accounts == [] && categories == [] && sources == []
      ensures incomes == [] && expenses == [] && notifications == []
    {
      users, resets, accounts, categories, sources := [], [], [], [], [];
      incomes, expenses, notifications := [], [], [];
      opening := map[];
    }

    /**
     * In every valid store, a user's lifetime savings on the dashboard are the net change of
     * that user's account balances since the accounts were opened.
     */
    lemma SavingsMatchBalances(goals: seq<SavingGoal>, user: Id, month: DateRange, year: DateRange)
      requires Valid()
      ensures forall a :: a in AccountsOf(accounts, user) ==> a.id in opening
      ensures Analytics.DashboardMetrics(incomes, expenses, goals, accounts, user, month, year).totals.savings
              == Savings.NetChange(AccountsOf(accounts, user), opening)
    {
      Savings.LifetimeSavingsAreBalanceChange(incomes, expenses, goals, accounts, user, month, year, opening,
                                              SourceOwners(sources), CategoryOwners(categories));
    }

    /** `getUserFromRequest`: the caller's token names a user that exists. */
    predicate SignedIn(caller: Option<Id>)
      reads this
    {
      caller.Some? && caller.value in UserIds(users)
    }

    /** `findOne({ _id: id, userId: user })` finds an account. */
    predicate OwnsAccount(user: Id, id: Id)
      reads this
    {
      (id, user) in AccountOwners(accounts)
    }

    predicate OwnsSource(user: Id, id: Id)
      reads this
    {
      (id, user) in SourceOwners(sources)
    }

    predicate OwnsCategory(user: Id, id: Id)
      reads this
    {
      (id, user) in CategoryOwners(categories)
    }

    // ---- POST /api/incomes, GET /api/incomes -------------------------------------------------

    /**
     * Records an income: the payload must pass `incomeSchema`, the account and the source must
     * belong to the caller (the account is checked first), and then the income is inserted and
     * the account's balance raised by its amount, both or neither.
     */
    method PostIncome(p: Platform, caller: Option<Id>, body: Option<Json>, newId: Id, now: Time, fault: Fault)
      returns (r: Reply<Income>)
      requires Valid()
      modifies this`incomes, this`accounts
      ensures Valid()
      ensures r.Failed? ==> incomes == old(incomes) && accounts == old(accounts)
      ensures !SignedIn(caller) ==> r == Failed(401, Unauthenticated)
      ensures SignedIn(caller) && body.None? ==> r == Failed(500, Uncaught)
      ensures SignedIn(caller) && body.Some? && Validators.ParseIncome(p, body.value).None? ==>
        r.Failed? && r.status == 422
      ensures SignedIn(caller) && body.Some? && Validators.ParseIncome(p, body.value).Some? ==>
        var d := Validators.ParseIncome(p, body.value).value;
        var u := caller.value;
        if !p.isObjectId(d.accountId) || !p.isObjectId(d.sourceId) then r == Failed(500, Uncaught)
        else if !old(OwnsAccount(u, d.accountId)) then r == Failed(400, "Account not found")
        else if !old(OwnsSource(u, d.sourceId)) then r == Failed(400, "Income source not found")
        else if fault != NoFault || HasKey(old(incomes), IncomeKey, newId) then
          r == Failed(500, "Unable to create income")
        else
          r == Ok(201, NewIncome(newId, u, d.amount, d.description, d.notes, Some(d.date), d.sourceId, d.accountId, now))
      ensures r.Ok? ==> incomes == old(incomes) + [r.value]
                        && accounts == Credit(old(accounts), r.value.accountId, r.value.amount, now)
    {
      if !SignedIn(caller) {
        return Failed(401, Unauthenticated);
      }
      if body.None? {
        return Failed(500, Uncaught);
      }
      var parsed := Validators.ParseIncome(p, body.value);
      if parsed.None? {
        return Failed(422, InvalidInput);
      }
      r := CreateIncome(p, caller.value, parsed.value, newId, now, fault);
    }

    /** `POST /api/incomes` once the payload has passed validation, for the signed-in user `u`. */
    method CreateIncome(p: Platform, u: Id, d: Validators.IncomeInput, newId: Id, now: Time, fault: Fault)
      returns (r: Reply<Income>)
      requires Valid()
      modifies this`incomes, this`accounts
      ensures Valid()
      ensures r.Failed? ==> incomes == old(incomes) && accounts == old(accounts)
      ensures
        if !p.isObjectId(d.accountId) || !p.isObjectId(d.sourceId) then r == Failed(500, Uncaught)
        else if !old(OwnsAccount(u, d.accountId)) then r == Failed(400, "Account not found")
        else if !old(OwnsSource(u, d.sourceId)) then r == Failed(400, "Income source not found")
        else if fault != NoFault || HasKey(old(incomes), IncomeKey, newId) then
          r == Failed(500, "Unable to create income")
        else
          r == Ok(201, NewIncome(newId, u, d.amount, d.description, d.notes, Some(d.date), d.sourceId, d.accountId, now))
      ensures r.Ok? ==> incomes == old(incomes) + [r.value]
                        && accounts == Credit(old(accounts), r.value.accountId, r.value.amount, now)
    {
      if !p.isObjectId(d.accountId) || !p.isObjectId(d.sourceId) {
        return Failed(500, Uncaught);
      }
      if !OwnsAccount(u, d.accountId) {
        return Failed(400, "Account not found");
      }
      if !OwnsSource(u, d.sourceId) {
        return Failed(400, "Income source not found");
      }
      var x := NewIncome(newId, u, d.amount, d.description, d.notes, Some(d.date), d.sourceId, d.accountId, now);
      var committed := RecordIncome(x, now, fault);
      if committed {
        r := Ok(201, x);
      } else {
        r := Failed(500, "Unable to create income");
      }
    }

    /**
     * The session of `POST /api/incomes`: `Income.create`, then `$inc` on the account's balance,
     * then commit; a failure at any step, a taken id included, aborts both writes.
     */
    method RecordIncome(x: Income, now: Time, fault: Fault) returns (committed: bool)
      requires Valid()
      requires OwnsAccount(x.userId, x.accountId) && OwnsSource(x.userId, x.sourceId)
      modifies this`incomes, this`accounts
      ensures Valid()
      ensures committed <==> fault == NoFault && !HasKey(old(incomes), IncomeKey, x.id)
      ensures committed ==> incomes == old(incomes) + [x] && accounts == Credit(old(accounts), x.accountId, x.amount, now)
      ensures !committed ==> incomes == old(incomes) && accounts == old(accounts)
    {
      // The session's writes stay local until the commit; an abort discards them.
      var inserted := InsertUnique(incomes, IncomeKey, x);
      if fault == FirstWriteFails || inserted.None? {
        return false;
      }
      var sessionIncomes := inserted.value;
      if fault == SecondWriteFails {
        return false;   // abortTransaction
      }
      var sessionAccounts := Credit(accounts, x.accountId, x.amount, now);
      if fault == CommitFails {
        return false;   // abortTransaction
      }
      RecordIncomeKeepsStore(users, resets, accounts, categories, sources, incomes, expenses, notifications,
                             opening, x, now);
      incomes, accounts := sessionIncomes, sessionAccounts;
      committed := true;
    }

    /**
     * Lists the caller's incomes whose date lies within the given bounds (each bound applies
     * only when given), newest first.
     */
    method GetIncomes(p: Platform, caller: Option<Id>, start: Option<string>, end: Option<string>)
      returns (r: Reply<seq<Income>>)
      ensures !SignedIn(caller) ==> r == Failed(401, Unauthenticated)
      ensures SignedIn(caller) && !(BoundOk(p, start) && BoundOk(p, end)) ==> r == Failed(500, Uncaught)
      ensures SignedIn(caller) && BoundOk(p, start) && BoundOk(p, end) ==>
        var w := DateRange(BoundOf(p, start), BoundOf(p, end));
        r.Ok? && r.status == 200 && SortedDesc(r.value, IncomeDate)
        && multiset(r.value) == multiset(IncomesOf(incomes, caller.value, w))
        && forall x :: x in r.value <==> x in incomes && x.userId == caller.value && InRange(w, x.date)
    {
      if !SignedIn(caller) {
        return Failed(401, Unauthenticated);
      }
      var w := DateRange(None, None);
      if start.Some? && start.value != "" {
        var t := p.toDate(JStr(start.value));
        if t.None? {
          return Failed(500, Uncaught);
        }
        w := w.(start := t);
      }
      if end.Some? && end.value != "" {
        var t := p.toDate(JStr(end.value));
        if t.None? {
          return Failed(500, Uncaught);
        }
        w := w.(end := t);
      }
      var found := IncomesOf(incomes, caller.value, w);
      var sorted := SortDesc(found, IncomeDate);
      assert forall x :: x in sorted <==> x in multiset(found);
      r := Ok(200, sorted);
    }

    // ---- POST /api/expenses, GET /api/expenses -----------------------------------------------

    /**
     * Records an expense: the payload must pass `expenseSchema`, the account and the category
     * must belong to the caller (the account is checked first), and then the expense is inserted
     * and the account's balance lowered by its amount, both or neither.
     */
    method PostExpense(p: Platform, caller: Option<Id>, body: Option<Json>, newId: Id, now: Time, fault: Fault)
      returns (r: Reply<Expense>)
      requires Valid()
      modifies this`expenses, this`accounts
      ensures Valid()
      ensures r.Failed? ==> expenses == old(expenses) && accounts == old(accounts)
      ensures !SignedIn(caller) ==> r == Failed(401, Unauthenticated)
      ensures SignedIn(caller) && body.None? ==> r == Failed(500, Uncaught)
      ensures SignedIn(caller) && body.Some? && Validators.ParseExpense(p, body.value).None? ==>
        r.Failed? && r.status == 422
      ensures SignedIn(caller) && body.Some? && Validators.ParseExpense(p, body.value).Some? ==>
        var d := Validators.ParseExpense(p, body.value).value;
        var u := caller.value;
        if !p.isObjectId(d.accountId) || !p.isObjectId(d.categoryId) then r == Failed(500, Uncaught)
        else if !old(OwnsAccount(u, d.accountId)) then r == Failed(400, "Account not found")
        else if !old(OwnsCategory(u, d.categoryId)) then r == Failed(400, "Category not found")
        else if fault != NoFault || HasKey(old(expenses), ExpenseKey, newId) then
          r == Failed(500, "Unable to create expense")
        else
          r == Ok(201, NewExpense(newId, u, d.amount, d.description, d.notes, d.merchant, Some(d.date),
                                  d.categoryId, d.accountId, now))
      ensures r.Ok? ==> expenses == old(expenses) + [r.value]
                        && accounts == Debit(old(accounts), r.value.accountId, r.value.amount, now)
    {
      if !SignedIn(caller) {
        return Failed(401, Unauthenticated);
      }
      if body.None? {
        return Failed(500, Uncaught);
      }
      var parsed := Validators.ParseExpense(p, body.value);
      if parsed.None? {
        return Failed(422, InvalidInput);
      }
      r := CreateExpense(p, caller.value, parsed.value, newId, now, fault);
    }

    /** `POST /api/expenses` once the payload has passed validation, for the signed-in user `u`. */
    method CreateExpense(p: Platform, u: Id, d: Validators.ExpenseInput, newId: Id, now: Time, fault: Fault)
      returns (r: Reply<Expense>)
      requires Valid()
      modifies this`expenses, this`accounts
      ensures Valid()
      ensures r.Failed? ==> expenses == old(expenses) && accounts == old(accounts)
      ensures
        if !p.isObjectId(d.accountId) || !p.isObjectId(d.categoryId) then r == Failed(500, Uncaught)
        else if !old(OwnsAccount(u, d.accountId)) then r == Failed(400, "Account not found")
        else if !old(OwnsCategory(u, d.categoryId)) then r == Failed(400, "Category not found")
        else if fault != NoFault || HasKey(old(expenses), ExpenseKey, newId) then
          r == Failed(500, "Unable to create expense")
        else
          r == Ok(201, NewExpense(newId, u, d.amount, d.description, d.notes, d.merchant, Some(d.date),
                                  d.categoryId, d.accountId, now))
      ensures r.Ok? ==> expenses == old(expenses) + [r.value]
                        && accounts == Debit(old(accounts), r.value.accountId, r.value.amount, now)
    {
      if !p.isObjectId(d.accountId) || !p.isObjectId(d.categoryId) {
        return Failed(500, Uncaught);
      }
      if !OwnsAccount(u, d.accountId) {
        return Failed(400, "Account not found");
      }
      if !OwnsCategory(u, d.categoryId) {
        return Failed(400, "Category not found");
      }
      var x := NewExpense(newId, u, d.amount, d.description, d.notes, d.merchant, Some(d.date),
                          d.categoryId, d.accountId, now);
      var committed := RecordExpense(x, now, fault);
      if committed {
        r := Ok(201, x);
      } else {
        r := Failed(500, "Unable to create expense");
      }
    }

    /**
     * The session of `POST /api/expenses`: `Expense.create`, then `$inc` of the negated amount on
     * the account's balance, then commit; a failure at any step aborts both writes.
     */
    method RecordExpense(x: Expense, now: Time, fault: Fault) returns (committed: bool)
      requires Valid()
      requires OwnsAccount(x.userId, x.accountId) && OwnsCategory(x.userId, x.categoryId)
      modifies this`expenses, this`accounts
      ensures Valid()
      ensures committed <==> fault == NoFault && !HasKey(old(expenses), ExpenseKey, x.id)
      ensures committed ==> expenses == old(expenses) + [x] && accounts == Debit(old(accounts), x.accountId, x.amount, now)
      ensures !committed ==> expenses == old(expenses) && accounts == old(accounts)
    {
      // The session's writes stay local until the commit; an abort discards them.
      var inserted := InsertUnique(expenses, ExpenseKey, x);
      if fault == FirstWriteFails || inserted.None? {
        return false;
      }
      var sessionExpenses := inserted.value;
      if fault == SecondWriteFails {
        return false;   // abortTransaction
      }
      var sessionAccounts := Debit(accounts, x.accountId, x.amount, now);
      if fault == CommitFails {
        return false;   // abortTransaction
      }
      RecordExpenseKeepsStore(users, resets, accounts, categories, sources, incomes, expenses, notifications,
                              opening, x, now);
      expenses, accounts := sessionExpenses, sessionAccounts;
      committed := true;
    }

    /** Lists the caller's expenses within the given bounds, newest first. */
    method GetExpenses(p: Platform, caller: Option<Id>, start: Option<string>, end: Option<string>)
      returns (r: Reply<seq<Expense>>)
      ensures !SignedIn(caller) ==> r == Failed(401, Unauthenticated)
      ensures SignedIn(caller) && !(BoundOk(p, start) && BoundOk(p, end)) ==> r == Failed(500, Uncaught)
      ensures SignedIn(caller) && BoundOk(p, start) && BoundOk(p, end) ==>
        var w := DateRange(BoundOf(p, start), BoundOf(p, end));
        r.Ok? && r.status == 200 && SortedDesc(r.value, ExpenseDate)
        && multiset(r.value) == multiset(ExpensesOf(expenses, caller.value, w))
        && forall x :: x in r.value <==> x in expenses && x.userId == caller.value && InRange(w, x.date)
    {
      if !SignedIn(caller) {
        return Failed(401, Unauthenticated);
      }
      var w := DateRange(None, None);
      if start.Some? && start.value != "" {
        var t := p.toDate(JStr(start.value));
        if t.None? {
          return Failed(500, Uncaught);
        }
        w := w.(start := t);
      }
      if end.Some? && end.value != "" {
        var t := p.toDate(JStr(end.value));
        if t.None? {
          return Failed(500, Uncaught);
        }
        w := w.(end := t);
      }
      var found := ExpensesOf(expenses, caller.value, w);
      var sorted := SortDesc(found, ExpenseDate);
      assert forall x :: x in sorted <==> x in multiset(found);
      r := Ok(200, sorted);
    }

    // ---- POST /api/accounts, GET /api/accounts -----------------------------------------------

    /**
     * Creates an account with the schema defaults; when it is created as the default, every
     * other account of the caller loses its default flag. The two writes run outside a session.
     */
    method PostAccount(caller: Option<Id>, body: Option<Json>, newId: Id, now: Time)
      returns (r: Reply<BankAccount>)
      requires Valid()
      modifies this`accounts, this`opening
      ensures Valid()
      ensures r.Failed? ==> accounts == old(accounts) && opening == old(opening)
      ensures !SignedIn(caller) ==> r == Failed(401, Unauthenticated)
      ensures SignedIn(caller) && body.None? ==> r == Failed(500, Uncaught)
      ensures SignedIn(caller) && body.Some? && Validators.ParseAccount(body.value).None? ==>
        r.Failed? && r.status == 422
      ensures SignedIn(caller) && body.Some? && Validators.ParseAccount(body.value).Some? ==>
        var d := Validators.ParseAccount(body.value).value;
        var u := caller.value;
        var a := NewBankAccount(newId, u, d.name, d.kind, d.bankName, d.accountNumber, d.balance,
                                d.icon, d.color, d.isDefault, now);
        if HasKey(old(accounts), AccountKey, newId) then r == Failed(500, Uncaught)
        else
          r == Ok(201, a) && opening == old(opening)[newId := a.balance]
          && accounts == (if d.isDefault == Some(true) then ClearOtherDefaults(old(accounts) + [a], u, newId, now)
                          else old(accounts) + [a])
      ensures r.Ok? && r.value.isDefault ==>
        forall b :: b in accounts && b.userId == caller.value && b.isDefault ==> b == r.value
      ensures r.Ok? ==> forall i :: 0 <= i < |old(accounts)| && old(accounts)[i].userId != caller.value ==>
        accounts[i] == old(accounts)[i]
      ensures r.Ok? && !r.value.isDefault ==> accounts == old(accounts) + [r.value]
    {
      if !SignedIn(caller) {
        return Failed(401, Unauthenticated);
      }
      if body.None? {
        return Failed(500, Uncaught);
      }
      var parsed := Validators.ParseAccount(body.value);
      if parsed.None? {
        return Failed(422, InvalidInput);
      }
      var d, u := parsed.value, caller.value;
      var a := NewBankAccount(newId, u, d.name, d.kind, d.bankName, d.accountNumber, d.balance,
                              d.icon, d.color, d.isDefault, now);
      if HasKey(accounts, AccountKey, newId) {
        return Failed(500, Uncaught);
      }
      ValidatedAccountSatisfiesSchema(body.value, newId, u, now);
      InsertAccount(a, now);
      r := Ok(201, a);
    }

    /**
     * `BankAccount.create` followed, for a default account, by `updateMany` clearing the flag on
     * the owner's other accounts.
     */
    method InsertAccount(a: BankAccount, now: Time)
      requires Valid()
      requires BankAccountSchemaOk(a) && a.userId in UserIds(users) && !HasKey(accounts, AccountKey, a.id)
      modifies this`accounts, this`opening
      ensures Valid()
      ensures opening == old(opening)[a.id := a.balance]
      ensures accounts == (if a.isDefault then ClearOtherDefaults(old(accounts) + [a], a.userId, a.id, now)
                           else old(accounts) + [a])
      ensures a.isDefault ==> forall b :: b in accounts && b.userId == a.userId && b.isDefault ==> b == a
      ensures forall i :: 0 <= i < |old(accounts)| && old(accounts)[i].userId != a.userId ==>
        accounts[i] == old(accounts)[i]
    {
      NewAccountKeepsRules(accounts, UserIds(users), incomes, expenses, SourceOwners(sources),
                           CategoryOwners(categories), opening, a, now);
      accounts := WithAccount(accounts, a, now);
      opening := opening[a.id := a.balance];
    }

    /** Lists the caller's accounts, oldest first. */
    method GetAccounts(caller: Option<Id>) returns (r: Reply<seq<BankAccount>>)
      ensures !SignedIn(caller) ==> r == Failed(401, Unauthenticated)
      ensures SignedIn(caller) ==>
        r.Ok? && r.status == 200 && SortedAsc(r.value, AccountCreated)
        && multiset(r.value) == multiset(AccountsOf(accounts, caller.value))
        && forall a :: a in r.value <==> a in accounts && a.userId == caller.value
    {
      if !SignedIn(caller) {
        return Failed(401, Unauthenticated);
      }
      var found := AccountsOf(accounts, caller.value);
      var sorted := SortAsc(found, AccountCreated);
      assert forall a :: a in sorted <==> a in multiset(found);
      r := Ok(200, sorted);
    }

    // ---- GET /api/notifications, PATCH /api/notifications ------------------------------------

    /** Lists the caller's notifications, newest first. */
    method GetNotifications(caller: Option<Id>) returns (r: Reply<seq<Notification>>)
      ensures !SignedIn(caller) ==> r == Failed(401, Unauthenticated)
      ensures SignedIn(caller) ==>
        r.Ok? && r.status == 200 && SortedDesc(r.value, NotificationCreated)
        && multiset(r.value) == multiset(NotificationsOf(notifications, caller.value))
        && forall n :: n in r.value <==> n in notifications && n.userId == caller.value
    {
      if !SignedIn(caller) {
        return Failed(401, Unauthenticated);
      }
      var found := NotificationsOf(notifications, caller.value);
      var sorted := SortDesc(found, NotificationCreated);
      assert forall n :: n in sorted <==> n in multiset(found);
      r := Ok(200, sorted);
    }

    /**
     * Marks notifications read: with no ids (an unparsable body, no `ids` array, or an empty one)
     * every unread notification of the caller, otherwise exactly the caller's listed ones.
     */
    method PatchNotifications(p: Platform, caller: Option<Id>, body: Option<Json>, now: Time)
      returns (r: Reply<bool>)
      requires Valid()
      modifies this`notifications
      ensures Valid()
      ensures r.Failed? ==> notifications == old(notifications)
      ensures r.Ok? ==> r == Ok(200, true) && OnlyRaisesRead(old(notifications), notifications)
      ensures !SignedIn(caller) ==> r == Failed(401, Unauthenticated)
      ensures SignedIn(caller) && !HasIdArray(body) ==>
        r.Ok? && notifications == MarkAllRead(old(notifications), caller.value, now)
      ensures SignedIn(caller) && |PayloadIds(body)| == 0 ==>
        r.Ok? && notifications == MarkAllRead(old(notifications), caller.value, now)
      ensures SignedIn(caller) && |PayloadIds(body)| > 0 && !AllCastable(p, PayloadIds(body)) ==>
        r == Failed(500, Uncaught)
      ensures SignedIn(caller) && |PayloadIds(body)| > 0 && AllCastable(p, PayloadIds(body)) ==>
        r.Ok? && notifications == MarkIdsRead(old(notifications), caller.value, IdStrings(PayloadIds(body)), now)
    {
      if !SignedIn(caller) {
        return Failed(401, Unauthenticated);
      }
      var ids := PayloadIds(body);
      var before := notifications;
      if |ids| == 0 {
        notifications := MarkAllRead(notifications, caller.value, now);
        MarkAllReadEffect(before, caller.value, now);
      } else {
        if !AllCastable(p, ids) {
          return Failed(500, Uncaught);
        }
        notifications := MarkIdsRead(notifications, caller.value, IdStrings(ids), now);
        MarkIdsReadEffect(before, caller.value, IdStrings(ids), now);
      }
      assert forall i :: 0 <= i < |notifications| ==> NotificationSchemaOk(notifications[i]) == NotificationSchemaOk(before[i]);
      assert forall n :: n in notifications ==> NotificationSchemaOk(n);
      r := Ok(200, true);
    }
    // ---- POST /api/auth/register ----------------------------------------------------------

    /**
     * Registers a user: the payload must pass `registerSchema`, the lower-cased email must be
     * unused, and then the user is created and seeded with two accounts, two income sources and
     * four categories. A seed document whose id is taken is refused without undoing the rest, and
     * then the reply is the 500 of the catch block, with the user already created.
     */
    method Register(p: Platform, body: Option<Json>, newId: Id, ids: SeedIds, passwordHash: string, now: Time)
      returns (r: Reply<Registered>)
      requires Valid()
      modifies this`users, this`accounts, this`opening, this`sources, this`categories
      ensures Valid()
      ensures body.None? ==> r == Failed(500, "Unable to register") && unchanged(this)
      ensures body.Some? && Validators.ParseRegister(p, body.value).None? ==>
        r.Failed? && r.status == 422 && unchanged(this)
      ensures body.Some? && Validators.ParseRegister(p, body.value).Some? ==>
        var d := Validators.ParseRegister(p, body.value).value;
        var email := Lower(d.email);
        if UserByEmail(old(users), email).Some? then
          r == Failed(409, "An account with this email already exists") && unchanged(this)
        else if email == "" || HasKey(old(users), UserKey, newId) then
          r == Failed(500, "Unable to register") && unchanged(this)
        else
          users == old(users) + [NewUser(newId, d.name, email, passwordHash, now)]
          && accounts == InsertEach(old(accounts), AccountKey, SeedAccounts(ids, newId, now))
          && sources == InsertEach(old(sources), SourceKey, SeedSources(ids, newId, now))
          && categories == InsertEach(old(categories), CategoryKey, SeedCategories(ids, newId, now))
          && (if AllFresh(old(accounts), AccountKey, SeedAccounts(ids, newId, now))
                 && AllFresh(old(sources), SourceKey, SeedSources(ids, newId, now))
                 && AllFresh(old(categories), CategoryKey, SeedCategories(ids, newId, now))
              then r == Ok(201, Registered(newId, email, Some(d.name), SessionCookie(newId, SessionMaxAge)))
              else r == Failed(500, "Unable to register"))
      ensures r.Ok? ==> SignedIn(Some(r.value.id))
      ensures r.Ok? ==> forall b :: b in accounts && b.userId == r.value.id && b.isDefault ==>
        b == SeedAccounts(ids, newId, now)[0]
    {
      if body.None? {
        return Failed(500, "Unable to register");
      }
      var parsed := Validators.ParseRegister(p, body.value);
      if parsed.None? {
        return Failed(422, InvalidInput);
      }
      var d := parsed.value;
      var email := Lower(d.email);
      if UserByEmail(users, email).Some? {
        return Failed(409, "An account with this email already exists");
      }
      if email == "" || HasKey(users, UserKey, newId) {
        return Failed(500, "Unable to register");   // the schema's `required` or the duplicate key
      }
      r := CreateUser(NewUser(newId, d.name, email, passwordHash, now), ids, now);
    }

    /**
     * `User.create` followed by the three seeding `create` calls: the reply is 201 exactly when
     * every seed document was saved.
     */
    method CreateUser(u: User, ids: SeedIds, now: Time) returns (r: Reply<Registered>)
      requires Valid()
      requires UserSchemaOk(u) && !HasKey(users, UserKey, u.id) && UserByEmail(users, u.email).None?
      modifies this`users, this`accounts, this`opening, this`sources, this`categories
      ensures Valid()
      ensures users == old(users) + [u]
      ensures accounts == InsertEach(old(accounts), AccountKey, SeedAccounts(ids, u.id, now))
      ensures sources == InsertEach(old(sources), SourceKey, SeedSources(ids, u.id, now))
      ensures categories == InsertEach(old(categories), CategoryKey, SeedCategories(ids, u.id, now))
      ensures if AllFresh(old(accounts), AccountKey, SeedAccounts(ids, u.id, now))
                 && AllFresh(old(sources), SourceKey, SeedSources(ids, u.id, now))
                 && AllFresh(old(categories), CategoryKey, SeedCategories(ids, u.id, now))
              then r == Ok(201, Registered(u.id, u.email, u.name, SessionCookie(u.id, SessionMaxAge)))
              else r == Failed(500, "Unable to register")
      ensures r.Ok? ==> SignedIn(Some(u.id))
      ensures r.Ok? ==> forall b :: b in accounts && b.userId == u.id && b.isDefault ==>
        b == SeedAccounts(ids, u.id, now)[0]
    {
      InsertUserKeepsRules(users, accounts, u);
      users := users + [u];
      var accountsDone := SeedAccountsOf(ids, u.id, now);
      var sourcesDone := SeedSourcesOf(ids, u.id, now);
      var categoriesDone := SeedCategoriesOf(ids, u.id, now);
      if accountsDone && sourcesDone && categoriesDone {
        r := Ok(201, Registered(u.id, u.email, u.name, SessionCookie(u.id, SessionMaxAge)));
        assert users[|users| - 1].id == u.id;
      } else {
        r := Failed(500, "Unable to register");
      }
    }

    /** `BankAccount.create([...])` of the two seed accounts of a user who owns no account yet. */
    method SeedAccountsOf(ids: SeedIds, user: Id, now: Time) returns (complete: bool)
      requires Valid() && user in UserIds(users)
      requires forall b :: b in accounts ==> b.userId != user
      modifies this`accounts, this`opening
      ensures Valid()
      ensures accounts == InsertEach(old(accounts), AccountKey, SeedAccounts(ids, user, now))
      ensures complete <==> AllFresh(old(accounts), AccountKey, SeedAccounts(ids, user, now))
      ensures complete ==> forall b :: b in accounts && b.userId == user && b.isDefault ==>
        b == SeedAccounts(ids, user, now)[0]
    {
      var xs := SeedAccounts(ids, user, now);
      InsertEachTwo(accounts, AccountKey, xs);
      InsertEachAllFresh(accounts, AccountKey, xs);
      var a0 := SeedAccount(xs[0]);
      var a1 := SeedAccount(xs[1]);
      complete := a0 && a1;
    }

    /** `IncomeSource.create([...])` of the two seed sources. */
    method SeedSourcesOf(ids: SeedIds, user: Id, now: Time) returns (complete: bool)
      requires Valid()
      modifies this`sources
      ensures Valid()
      ensures sources == InsertEach(old(sources), SourceKey, SeedSources(ids, user, now))
      ensures complete <==> AllFresh(old(sources), SourceKey, SeedSources(ids, user, now))
    {
      var xs := SeedSources(ids, user, now);
      InsertEachTwo(sources, SourceKey, xs);
      InsertEachAllFresh(sources, SourceKey, xs);
      var s0 := SeedSource(xs[0]);
      var s1 := SeedSource(xs[1]);
      complete := s0 && s1;
    }

    /** `Category.create([...])` of the four seed categories. */
    method SeedCategoriesOf(ids: SeedIds, user: Id, now: Time) returns (complete: bool)
      requires Valid()
      modifies this`categories
      ensures Valid()
      ensures categories == InsertEach(old(categories), CategoryKey, SeedCategories(ids, user, now))
      ensures complete <==> AllFresh(old(categories), CategoryKey, SeedCategories(ids, user, now))
    {
      var xs := SeedCategories(ids, user, now);
      InsertEachFour(categories, CategoryKey, xs);
      InsertEachAllFresh(categories, CategoryKey, xs);
      var c0 := SeedCategory(xs[0]);
      var c1 := SeedCategory(xs[1]);
      var c2 := SeedCategory(xs[2]);
      var c3 := SeedCategory(xs[3]);
      complete := c0 && c1 && c2 && c3;
    }

    /** `BankAccount.create` of a seed account whose owner has no default account yet. */
    method SeedAccount(a: BankAccount) returns (inserted: bool)
      requires Valid()
      requires BankAccountSchemaOk(a) && a.userId in UserIds(users)
      requires a.isDefault ==> forall b :: b in accounts && b.userId == a.userId ==> !b.isDefault
      modifies this`accounts, this`opening
      ensures Valid()
      ensures inserted <==> !HasKey(old(accounts), AccountKey, a.id)
      ensures accounts == InsertIfFresh(old(accounts), AccountKey, a)
      ensures opening == if inserted then old(opening)[a.id := a.balance] else old(opening)
    {
      if HasKey(accounts, AccountKey, a.id) {
        return false;
      }
      if a.isDefault {
        AppendFirstDefaultKeepsOneDefault(accounts, a);
      } else {
        CreateKeepsOneDefault(accounts, a, a.createdAt);
      }
      AppendAccountKeepsRules(accounts, UserIds(users), incomes, expenses, SourceOwners(sources),
                              CategoryOwners(categories), opening, a);
      accounts := accounts + [a];
      opening := opening[a.id := a.balance];
      inserted := true;
    }

    /** `IncomeSource.create` of a seed source. */
    method SeedSource(x: IncomeSource) returns (inserted: bool)
      requires Valid() && IncomeSourceSchemaOk(x)
      modifies this`sources
      ensures Valid()
      ensures inserted <==> !HasKey(old(sources), SourceKey, x.id)
      ensures sources == InsertIfFresh(old(sources), SourceKey, x)
    {
      if HasKey(sources, SourceKey, x.id) {
        return false;
      }
      AppendSourceOwners(sources, x);
      assert UniqueBy(InsertUnique(sources, SourceKey, x).value, SourceKey);
      sources := sources + [x];
      inserted := true;
    }

    /** `Category.create` of a seed category. */
    method SeedCategory(x: Category) returns (inserted: bool)
      requires Valid() && CategorySchemaOk(x)
      modifies this`categories
      ensures Valid()
      ensures inserted <==> !HasKey(old(categories), CategoryKey, x.id)
      ensures categories == InsertIfFresh(old(categories), CategoryKey, x)
    {
      if HasKey(categories, CategoryKey, x.id) {
        return false;
      }
      AppendCategoryOwners(categories, x);
      assert UniqueBy(InsertUnique(categories, CategoryKey, x).value, CategoryKey);
      categories := categories + [x];
      inserted := true;
    }

    // ---- POST /api/auth/password/request, POST /api/auth/password/reset --------------------

    /**
     * Issues a reset token for the user with the lower-cased email, valid for 60 minutes. The
     * reply is the same whether or not such a user exists.
     */
    method RequestPasswordReset(p: Platform, body: Option<Json>, newId: Id, token: string, now: Time)
      returns (r: Reply<bool>)
      requires Valid()
      modifies this`resets
      ensures Valid()
      ensures r.Failed? ==> resets == old(resets)
      ensures body.None? ==> r == Failed(500, "Unable to request password reset")
      ensures body.Some? && Validators.ParseResetRequest(p, body.value).None? ==> r.Failed? && r.status == 422
      ensures body.Some? && Validators.ParseResetRequest(p, body.value).Some? ==>
        var found := UserByEmail(users, Lower(Validators.ParseResetRequest(p, body.value).value.email));
        if found.None? then r == Ok(200, true) && resets == old(resets)
        else if HasKey(old(resets), ResetKey, newId) || HasKey(old(resets), ResetToken, token) then
          r == Failed(500, "Unable to request password reset")
        else
          r == Ok(200, true) && resets == old(resets) + [NewPasswordReset(newId, token, found.value.id, now)]
    {
      if body.None? {
        return Failed(500, "Unable to request password reset");
      }
      var parsed := Validators.ParseResetRequest(p, body.value);
      if parsed.None? {
        return Failed(422, InvalidInput);
      }
      var found := UserByEmail(users, Lower(parsed.value.email));
      if found.None? {
        return Ok(200, true);
      }
      var x := NewPasswordReset(newId, token, found.value.id, now);
      if HasKey(resets, ResetKey, newId) || HasKey(resets, ResetToken, token) {
        return Failed(500, "Unable to request password reset");
      }
      assert UniqueBy(InsertUnique(resets, ResetKey, x).value, ResetKey);
      assert UniqueBy(InsertUnique(resets, ResetToken, x).value, ResetToken);
      resets := resets + [x];
      r := Ok(200, true);
    }

    /**
     * Consumes a reset token that exists and has not expired: the user's password is replaced
     * and the token deleted in one transaction, and the caller is signed in as that user.
     */
    method ResetPassword(body: Option<Json>, passwordHash: string, now: Time, fault: Fault)
      returns (r: Reply<SessionCookie>)
      requires Valid()
      modifies this`users, this`resets
      ensures Valid()
      ensures body.None? ==> r == Failed(500, "Unable to reset password") && unchanged(this)
      ensures body.Some? && Validators.ParseReset(body.value).None? ==>
        r.Failed? && r.status == 422 && unchanged(this)
      ensures body.Some? && Validators.ParseReset(body.value).Some? ==>
        var d := Validators.ParseReset(body.value).value;
        var found := ResetByToken(old(resets), d.token);
        if found.None? || !TokenUsable(found.value, now) then
          r == Failed(400, "Invalid or expired reset token") && unchanged(this)
        else if fault != NoFault then
          r == Failed(500, "Unable to reset password") && unchanged(this)
        else
          users == SetPassword(old(users), found.value.userId, passwordHash, now)
          && resets == RemoveReset(old(resets), found.value.id)
          && ResetByToken(resets, d.token).None?
          && r == (if found.value.userId in UserIds(old(users)) then Ok(200, SessionCookie(found.value.userId, SessionMaxAge))
                   else Failed(404, "User not found"))
    {
      if body.None? {
        return Failed(500, "Unable to reset password");
      }
      var parsed := Validators.ParseReset(body.value);
      if parsed.None? {
        return Failed(422, InvalidInput);
      }
      var found := ResetByToken(resets, parsed.value.token);
      if found.None? || !TokenUsable(found.value, now) {
        return Failed(400, "Invalid or expired reset token");
      }
      if fault != NoFault {
        return Failed(500, "Unable to reset password");   // abortTransaction, then the catch block
      }
      r := ConsumeReset(found.value, passwordHash, now);
    }

    /**
     * The transaction of the reset route: the record's user gets the new password and the record
     * is deleted; a user that no longer exists is reported only after the commit.
     */
    method ConsumeReset(rec: PasswordReset, passwordHash: string, now: Time) returns (r: Reply<SessionCookie>)
      requires Valid() && rec in resets
      modifies this`users, this`resets
      ensures Valid()
      ensures users == SetPassword(old(users), rec.userId, passwordHash, now)
      ensures resets == RemoveReset(old(resets), rec.id)
      ensures ResetByToken(resets, rec.token).None?
      ensures r == if rec.userId in UserIds(old(users)) then Ok(200, SessionCookie(rec.userId, SessionMaxAge))
                   else Failed(404, "User not found")
    {
      var userFound := rec.userId in UserIds(users);
      SetPasswordKeepsRules(users, rec.userId, passwordHash, now);
      RemoveResetKeepsRules(resets, rec.id);
      ConsumedTokenIsGone(resets, rec);
      users := SetPassword(users, rec.userId, passwordHash, now);
      resets := RemoveReset(resets, rec.id);
      if !userFound {
        return Failed(404, "User not found");
      }
      r := Ok(200, SessionCookie(rec.userId, SessionMaxAge));
    }
  }
}
