/**
 * The integrity rules the store keeps across every handler: unique ids and unique indexes,
 * required fields present, every record owned by an existing user or referring to records of
 * its own user, at most one default account per user, and the ledger identity.
 */
module StoreInvariants {
  import opened JsValues
  import opened Tables
  import opened ModelsCore
  import opened ModelsTransactions
  import opened ModelsAuth
  import opened Ledger
  import opened AccountRules
  import opened AuthRules

  function UserKey(u: User): Id { u.id }
  function ResetKey(r: PasswordReset): Id { r.id }
  function AccountKey(a: BankAccount): Id { a.id }
  function SourceKey(s: IncomeSource): Id { s.id }
  function CategoryKey(c: Category): Id { c.id }
  function IncomeKey(x: Income): Id { x.id }
  function ExpenseKey(x: Expense): Id { x.id }
  function NotificationKey(n: Notification): Id { n.id }

  /** The ids of the users, in order. */
  function UserIds(users: seq<User>): (r: seq<Id>)
    ensures |r| == |users| && forall i :: 0 <= i < |r| ==> r[i] == users[i].id
  {
    seq(|users|, i requires 0 <= i < |users| => users[i].id)
  }

  /** `(id, userId)` of every account: what ownership checks read. */
  function AccountOwners(s: seq<BankAccount>): (r: seq<(Id, Id)>)
    ensures |r| == |s| && forall i :: 0 <= i < |r| ==> r[i] == (s[i].id, s[i].userId)
  {
    seq(|s|, i requires 0 <= i < |s| => (s[i].id, s[i].userId))
  }

  function SourceOwners(s: seq<IncomeSource>): (r: seq<(Id, Id)>)
    ensures |r| == |s| && forall i :: 0 <= i < |r| ==> r[i] == (s[i].id, s[i].userId)
  {
    seq(|s|, i requires 0 <= i < |s| => (s[i].id, s[i].userId))
  }

  function CategoryOwners(s: seq<Category>): (r: seq<(Id, Id)>)
    ensures |r| == |s| && forall i :: 0 <= i < |r| ==> r[i] == (s[i].id, s[i].userId)
  {
    seq(|s|, i requires 0 <= i < |s| => (s[i].id, s[i].userId))
  }

  ghost predicate UsersOk(users: seq<User>) {
    UniqueBy(users, UserKey) && UsersIndexed(users) && forall u :: u in users ==> UserSchemaOk(u)
  }

  ghost predicate ResetsOk(resets: seq<PasswordReset>) {
    UniqueBy(resets, ResetKey) && ResetsIndexed(resets)
  }

  ghost predicate AccountsOk(accounts: seq<BankAccount>, userIds: seq<Id>) {
    UniqueBy(accounts, AccountKey) && OneDefaultPerUser(accounts)
    && forall a :: a in accounts ==> BankAccountSchemaOk(a) && a.userId in userIds
  }

  ghost predicate SourcesOk(sources: seq<IncomeSource>) {
    UniqueBy(sources, SourceKey) && forall s :: s in sources ==> IncomeSourceSchemaOk(s)
  }

  ghost predicate CategoriesOk(categories: seq<Category>) {
    UniqueBy(categories, CategoryKey) && forall c :: c in categories ==> CategorySchemaOk(c)
  }

  /** Every income's account and source exist and belong to the income's user. */
  ghost predicate IncomesOk(incomes: seq<Income>, accountOwners: seq<(Id, Id)>, sourceOwners: seq<(Id, Id)>) {
    UniqueBy(incomes, IncomeKey)
    && forall x :: x in incomes ==> (x.accountId, x.userId) in accountOwners && (x.sourceId, x.userId) in sourceOwners
  }

  /** Every expense's account and category exist and belong to the expense's user. */
  ghost predicate ExpensesOk(expenses: seq<Expense>, accountOwners: seq<(Id, Id)>, categoryOwners: seq<(Id, Id)>) {
    UniqueBy(expenses, ExpenseKey)
    && forall x :: x in expenses ==> (x.accountId, x.userId) in accountOwners && (x.categoryId, x.userId) in categoryOwners
  }

  ghost predicate NotificationsOk(ns: seq<Notification>) {
    UniqueBy(ns, NotificationKey) && forall n :: n in ns ==> NotificationSchemaOk(n)
  }

  /** All of the integrity rules, over the store's collections and the opening balances. */
  ghost predicate StoreOk(users: seq<User>, resets: seq<PasswordReset>, accounts: seq<BankAccount>,
                          categories: seq<Category>, sources: seq<IncomeSource>, incomes: seq<Income>,
                          expenses: seq<Expense>, notifications: seq<Notification>, opening: map<Id, real>) {
    UsersOk(users) && ResetsOk(resets) && AccountsOk(accounts, UserIds(users))
    && SourcesOk(sources) && CategoriesOk(categories)
    && IncomesOk(incomes, AccountOwners(accounts), SourceOwners(sources))
    && ExpensesOk(expenses, AccountOwners(accounts), CategoryOwners(categories))
    && NotificationsOk(notifications)
    && Balanced(accounts, incomes, expenses, opening)
  }

  /** The fields of the accounts that the integrity rules read, other than balance and default flag. */
  predicate SameKeys(before: seq<BankAccount>, after: seq<BankAccount>) {
    |after| == |before| &&
    forall i :: 0 <= i < |after| ==>
      after[i].id == before[i].id && after[i].userId == before[i].userId
      && after[i].name == before[i].name && after[i].kind == before[i].kind
  }

  /** An update that keeps ids, owners and required fields keeps the owner table and the account rules. */
  lemma SameKeysKeepInvariants(before: seq<BankAccount>, after: seq<BankAccount>, userIds: seq<Id>)
    requires SameKeys(before, after)
    requires UniqueBy(before, AccountKey)
    requires forall a :: a in before ==> BankAccountSchemaOk(a) && a.userId in userIds
    ensures AccountOwners(after) == AccountOwners(before)
    ensures UniqueBy(after, AccountKey)
    ensures forall a :: a in after ==> BankAccountSchemaOk(a) && a.userId in userIds
  {
    forall a | a in after
      ensures BankAccountSchemaOk(a) && a.userId in userIds
    {
      var i :| 0 <= i < |after| && after[i] == a;
      assert before[i] in before;
    }
  }

  /** `$inc` on a balance keeps every rule but the ledger identity, which the ledger lemmas restore. */
  lemma CreditKeepsAccountsOk(accounts: seq<BankAccount>, userIds: seq<Id>, id: Id, delta: real, now: Time)
    requires AccountsOk(accounts, userIds)
    ensures AccountsOk(Credit(accounts, id, delta, now), userIds)
    ensures AccountOwners(Credit(accounts, id, delta, now)) == AccountOwners(accounts)
  {
    var r := Credit(accounts, id, delta, now);
    SameKeysKeepInvariants(accounts, r, userIds);
    assert forall i :: 0 <= i < |r| ==> r[i].isDefault == accounts[i].isDefault;
  }

  /** The same for the `$inc` of an expense. */
  lemma DebitKeepsAccountsOk(accounts: seq<BankAccount>, userIds: seq<Id>, id: Id, amount: real, now: Time)
    requires AccountsOk(accounts, userIds)
    ensures AccountsOk(Debit(accounts, id, amount, now), userIds)
    ensures AccountOwners(Debit(accounts, id, amount, now)) == AccountOwners(accounts)
  {
    CreditKeepsAccountsOk(accounts, userIds, id, -amount, now);
  }

  /**
   * Recording an income with a fresh id, whose account and source belong to its user, keeps the
   * income rules, and with its account credited keeps the account rules and the ledger identity.
   */
  lemma RecordIncomeKeepsRules(accounts: seq<BankAccount>, userIds: seq<Id>, incomes: seq<Income>,
                               expenses: seq<Expense>, sourceOwners: seq<(Id, Id)>,
                               categoryOwners: seq<(Id, Id)>, opening: map<Id, real>, x: Income, now: Time)
    requires AccountsOk(accounts, userIds)
    requires IncomesOk(incomes, AccountOwners(accounts), sourceOwners)
    requires ExpensesOk(expenses, AccountOwners(accounts), categoryOwners)
    requires Balanced(accounts, incomes, expenses, opening)
    requires (x.accountId, x.userId) in AccountOwners(accounts) && (x.sourceId, x.userId) in sourceOwners
    requires !HasKey(incomes, IncomeKey, x.id)
    ensures var r := Credit(accounts, x.accountId, x.amount, now);
            AccountsOk(r, userIds)
            && IncomesOk(incomes + [x], AccountOwners(r), sourceOwners)
            && ExpensesOk(expenses, AccountOwners(r), categoryOwners)
            && Balanced(r, incomes + [x], expenses, opening)
  {
    CreditKeepsAccountsOk(accounts, userIds, x.accountId, x.amount, now);
    RecordIncomeKeepsBalanced(accounts, incomes, expenses, opening, x, now);
    assert UniqueBy(InsertUnique(incomes, IncomeKey, x).value, IncomeKey);
  }

  /** The same for an expense, whose account is debited. */
  lemma RecordExpenseKeepsRules(accounts: seq<BankAccount>, userIds: seq<Id>, incomes: seq<Income>,
                                expenses: seq<Expense>, sourceOwners: seq<(Id, Id)>,
                                categoryOwners: seq<(Id, Id)>, opening: map<Id, real>, x: Expense, now: Time)
    requires AccountsOk(accounts, userIds)
    requires IncomesOk(incomes, AccountOwners(accounts), sourceOwners)
    requires ExpensesOk(expenses, AccountOwners(accounts), categoryOwners)
    requires Balanced(accounts, incomes, expenses, opening)
    requires (x.accountId, x.userId) in AccountOwners(accounts) && (x.categoryId, x.userId) in categoryOwners
    requires !HasKey(expenses, ExpenseKey, x.id)
    ensures var r := Debit(accounts, x.accountId, x.amount, now);
            AccountsOk(r, userIds)
            && IncomesOk(incomes, AccountOwners(r), sourceOwners)
            && ExpensesOk(expenses + [x], AccountOwners(r), categoryOwners)
            && Balanced(r, incomes, expenses + [x], opening)
  {
    DebitKeepsAccountsOk(accounts, userIds, x.accountId, x.amount, now);
    RecordExpenseKeepsBalanced(accounts, incomes, expenses, opening, x, now);
    assert UniqueBy(InsertUnique(expenses, ExpenseKey, x).value, ExpenseKey);
  }

  /** Recording an income, as the store sees it: every integrity rule survives. */
  lemma RecordIncomeKeepsStore(users: seq<User>, resets: seq<PasswordReset>, accounts: seq<BankAccount>,
                               categories: seq<Category>, sources: seq<IncomeSource>, incomes: seq<Income>,
                               expenses: seq<Expense>, notifications: seq<Notification>, opening: map<Id, real>,
                               x: Income, now: Time)
    requires StoreOk(users, resets, accounts, categories, sources, incomes, expenses, notifications, opening)
    requires (x.accountId, x.userId) in AccountOwners(accounts) && (x.sourceId, x.userId) in SourceOwners(sources)
    requires !HasKey(incomes, IncomeKey, x.id)
    ensures StoreOk(users, resets, Credit(accounts, x.accountId, x.amount, now), categories, sources,
                    incomes + [x], expenses, notifications, opening)
  {
    RecordIncomeKeepsRules(accounts, UserIds(users), incomes, expenses, SourceOwners(sources),
                           CategoryOwners(categories), opening, x, now);
  }

  /** Recording an expense, as the store sees it: every integrity rule survives. */
  lemma RecordExpenseKeepsStore(users: seq<User>, resets: seq<PasswordReset>, accounts: seq<BankAccount>,
                                categories: seq<Category>, sources: seq<IncomeSource>, incomes: seq<Income>,
                                expenses: seq<Expense>, notifications: seq<Notification>, opening: map<Id, real>,
                                x: Expense, now: Time)
    requires StoreOk(users, resets, accounts, categories, sources, incomes, expenses, notifications, opening)
    requires (x.accountId, x.userId) in AccountOwners(accounts) && (x.categoryId, x.userId) in CategoryOwners(categories)
    requires !HasKey(expenses, ExpenseKey, x.id)
    ensures StoreOk(users, resets, Debit(accounts, x.accountId, x.amount, now), categories, sources,
                    incomes, expenses + [x], notifications, opening)
  {
    RecordExpenseKeepsRules(accounts, UserIds(users), incomes, expenses, SourceOwners(sources),
                            CategoryOwners(categories), opening, x, now);
  }

  /** An owner entry names an existing account, so a fresh id is referenced by no income or expense. */
  lemma FreshAccountUnreferenced(accounts: seq<BankAccount>, incomes: seq<Income>, expenses: seq<Expense>,
                                 sourceOwners: seq<(Id, Id)>, categoryOwners: seq<(Id, Id)>, id: Id)
    requires IncomesOk(incomes, AccountOwners(accounts), sourceOwners)
    requires ExpensesOk(expenses, AccountOwners(accounts), categoryOwners)
    requires !HasKey(accounts, AccountKey, id)
    ensures forall x :: x in incomes ==> x.accountId != id
    ensures forall x :: x in expenses ==> x.accountId != id
    ensures forall b :: b in accounts ==> b.id != id
  {
    var owners := AccountOwners(accounts);
    forall x | x in incomes
      ensures x.accountId != id
    {
      var k :| 0 <= k < |owners| && owners[k] == (x.accountId, x.userId);
      assert AccountKey(accounts[k]) == x.accountId;
    }
    forall x | x in expenses
      ensures x.accountId != id
    {
      var k :| 0 <= k < |owners| && owners[k] == (x.accountId, x.userId);
      assert AccountKey(accounts[k]) == x.accountId;
    }
    forall b | b in accounts
      ensures b.id != id
    {
      var k :| 0 <= k < |accounts| && accounts[k] == b;
      assert AccountKey(accounts[k]) == b.id;
    }
  }

  /** Appending an account with a fresh id, for an existing user, that keeps one default per user. */
  lemma AppendAccountKeepsRules(accounts: seq<BankAccount>, userIds: seq<Id>, incomes: seq<Income>,
                                expenses: seq<Expense>, sourceOwners: seq<(Id, Id)>,
                                categoryOwners: seq<(Id, Id)>, opening: map<Id, real>, a: BankAccount)
    requires AccountsOk(accounts, userIds)
    requires IncomesOk(incomes, AccountOwners(accounts), sourceOwners)
    requires ExpensesOk(expenses, AccountOwners(accounts), categoryOwners)
    requires Balanced(accounts, incomes, expenses, opening)
    requires BankAccountSchemaOk(a) && a.userId in userIds && !HasKey(accounts, AccountKey, a.id)
    requires OneDefaultPerUser(accounts + [a])
    ensures AccountsOk(accounts + [a], userIds)
    ensures IncomesOk(incomes, AccountOwners(accounts + [a]), sourceOwners)
    ensures ExpensesOk(expenses, AccountOwners(accounts + [a]), categoryOwners)
    ensures Balanced(accounts + [a], incomes, expenses, opening[a.id := a.balance])
  {
    FreshAccountUnreferenced(accounts, incomes, expenses, sourceOwners, categoryOwners, a.id);
    NewAccountKeepsBalanced(accounts, incomes, expenses, opening, a);
    AppendAccountOwners(accounts, a);
    assert UniqueBy(InsertUnique(accounts, AccountKey, a).value, AccountKey);
  }

  /** The accounts after `BankAccount.create` of `a`, and for a default account the `updateMany` after it. */
  function WithAccount(accounts: seq<BankAccount>, a: BankAccount, now: Time): seq<BankAccount> {
    if a.isDefault then ClearOtherDefaults(accounts + [a], a.userId, a.id, now) else accounts + [a]
  }

  /**
   * Creating an account with a fresh id for an existing user keeps the account rules, keeps every
   * income and expense pointing at an account of its own user, and keeps the ledger identity
   * once the new balance is recorded as that account's opening balance.
   */
  lemma NewAccountKeepsRules(accounts: seq<BankAccount>, userIds: seq<Id>, incomes: seq<Income>,
                             expenses: seq<Expense>, sourceOwners: seq<(Id, Id)>,
                             categoryOwners: seq<(Id, Id)>, opening: map<Id, real>, a: BankAccount, now: Time)
    requires AccountsOk(accounts, userIds)
    requires IncomesOk(incomes, AccountOwners(accounts), sourceOwners)
    requires ExpensesOk(expenses, AccountOwners(accounts), categoryOwners)
    requires Balanced(accounts, incomes, expenses, opening)
    requires BankAccountSchemaOk(a) && a.userId in userIds && !HasKey(accounts, AccountKey, a.id)
    ensures var r := WithAccount(accounts, a, now);
            AccountsOk(r, userIds)
            && IncomesOk(incomes, AccountOwners(r), sourceOwners)
            && ExpensesOk(expenses, AccountOwners(r), categoryOwners)
            && Balanced(r, incomes, expenses, opening[a.id := a.balance])
            && (a.isDefault ==> forall b :: b in r && b.userId == a.userId && b.isDefault ==> b == a)
            && forall i :: 0 <= i < |accounts| && accounts[i].userId != a.userId ==> r[i] == accounts[i]
  {
    CreateKeepsOneDefault(accounts, a, now);
    var s := accounts + [a];
    if !a.isDefault {
      AppendAccountKeepsRules(accounts, userIds, incomes, expenses, sourceOwners, categoryOwners, opening, a);
    } else {
      FreshAccountUnreferenced(accounts, incomes, expenses, sourceOwners, categoryOwners, a.id);
      NewAccountKeepsBalanced(accounts, incomes, expenses, opening, a);
      AppendAccountOwners(accounts, a);
      var cleared := ClearOtherDefaults(s, a.userId, a.id, now);
      ClearKeepsKeys(s, a.userId, a.id, now);
      SameKeysKeepInvariants(s, cleared, userIds);
      BalancedReadsBalances(s, cleared, incomes, expenses, opening[a.id := a.balance]);
      ClearLeavesSoleDefault(s, a, now);
    }
  }

  /**
   * Inserting a user with a fresh id and an email no user has keeps the user rules; the new id
   * is owned by no account yet.
   */
  lemma InsertUserKeepsRules(users: seq<User>, accounts: seq<BankAccount>, u: User)
    requires UsersOk(users) && AccountsOk(accounts, UserIds(users))
    requires UserSchemaOk(u) && !HasKey(users, UserKey, u.id)
    requires forall i :: 0 <= i < |users| ==> users[i].email != u.email
    ensures UsersOk(users + [u]) && AccountsOk(accounts, UserIds(users + [u]))
    ensures UserIds(users + [u]) == UserIds(users) + [u.id]
    ensures forall b :: b in accounts ==> b.userId != u.id
  {
    AppendUserIds(users, u);
    assert UniqueBy(InsertUnique(users, UserKey, u).value, UserKey);
    assert UniqueBy(InsertUnique(users, UserEmail, u).value, UserEmail);
    forall b | b in accounts ensures b.userId != u.id {
      var k :| 0 <= k < |users| && UserIds(users)[k] == b.userId;
      assert UserKey(users[k]) == b.userId;
    }
  }

  /** Setting a password changes neither ids nor emails. */
  lemma SetPasswordKeepsRules(users: seq<User>, id: Id, hash: string, now: Time)
    requires UsersOk(users)
    ensures UsersOk(SetPassword(users, id, hash, now))
    ensures UserIds(SetPassword(users, id, hash, now)) == UserIds(users)
  {
    var r := SetPassword(users, id, hash, now);
    assert forall i :: 0 <= i < |r| ==> r[i].id == users[i].id && r[i].email == users[i].email;
    forall v | v in r ensures UserSchemaOk(v) {
      var i :| 0 <= i < |r| && r[i] == v;
      assert users[i] in users;
    }
  }

  /** Deleting a reset record keeps both of its unique indexes. */
  lemma RemoveResetKeepsRules(resets: seq<PasswordReset>, id: Id)
    requires ResetsOk(resets)
    ensures ResetsOk(RemoveReset(resets, id))
  {
    RemoveResetKeepsUnique(resets, id, ResetKey);
    RemoveResetKeepsUnique(resets, id, ResetToken);
  }

  /** Appending one account extends the owner table by its entry. */
  lemma AppendAccountOwners(accounts: seq<BankAccount>, a: BankAccount)
    ensures AccountOwners(accounts + [a]) == AccountOwners(accounts) + [(a.id, a.userId)]
  {
  }

  lemma AppendSourceOwners(sources: seq<IncomeSource>, s: IncomeSource)
    ensures SourceOwners(sources + [s]) == SourceOwners(sources) + [(s.id, s.userId)]
  {
  }

  lemma AppendCategoryOwners(categories: seq<Category>, c: Category)
    ensures CategoryOwners(categories + [c]) == CategoryOwners(categories) + [(c.id, c.userId)]
  {
  }

  lemma AppendUserIds(users: seq<User>, u: User)
    ensures UserIds(users + [u]) == UserIds(users) + [u.id]
  {
  }
}
