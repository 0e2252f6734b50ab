/**
 * How the dashboard's lifetime figures relate to the ledger: in a store whose records keep the
 * integrity rules, a user's lifetime savings (income minus expenses, as `getDashboardMetrics`
 * sums them) are exactly how far the balances of that user's accounts have moved from the
 * balances they were opened with.
 */
module Savings {
  import opened Wrappers
  import opened JsValues
  import opened Tables
  import opened ModelsCore
  import opened ModelsTransactions
  import opened Ledger
  import opened AccountRules
  import opened Analytics
  import opened StoreInvariants

  /** The sum over the accounts of how far each balance has moved from its opening balance. */
  function NetChange(accounts: seq<BankAccount>, opening: map<Id, real>): real
    requires forall a :: a in accounts ==> a.id in opening
  {
    if accounts == [] then 0.0
    else
      var init, last := accounts[..|accounts| - 1], accounts[|accounts| - 1];
      assert forall a :: a in init ==> a in accounts;
      NetChange(init, opening) + (last.balance - opening[last.id])
  }

  /** The incomes recorded against the accounts, account by account. */
  function AccountIncome(incomes: seq<Income>, accounts: seq<BankAccount>): (r: real)
    ensures incomes == [] ==> r == 0.0
  {
    if accounts == [] then 0.0
    else AccountIncome(incomes, accounts[..|accounts| - 1]) + IncomeTotal(incomes, accounts[|accounts| - 1].id)
  }

  /** The expenses recorded against the accounts, account by account. */
  function AccountExpense(expenses: seq<Expense>, accounts: seq<BankAccount>): (r: real)
    ensures expenses == [] ==> r == 0.0
  {
    if accounts == [] then 0.0
    else AccountExpense(expenses, accounts[..|accounts| - 1]) + ExpenseTotal(expenses, accounts[|accounts| - 1].id)
  }

  /** A prefix of a collection with a unique index keeps it unique. */
  lemma PrefixKeepsUnique(accounts: seq<BankAccount>, n: nat)
    requires n <= |accounts| && UniqueBy(accounts, AccountKey)
    ensures UniqueBy(accounts[..n], AccountKey)
  {
    assert forall i :: 0 <= i < n ==> accounts[..n][i] == accounts[i];
  }

  /** In a balanced ledger, the accounts' net change is their incomes minus their expenses. */
  lemma {:induction false} NetChangeIsAccountFlow(accounts: seq<BankAccount>, incomes: seq<Income>,
                                                  expenses: seq<Expense>, opening: map<Id, real>)
    requires Balanced(accounts, incomes, expenses, opening)
    ensures NetChange(accounts, opening) == AccountIncome(incomes, accounts) - AccountExpense(expenses, accounts)
  {
    if accounts != [] {
      var init, last := accounts[..|accounts| - 1], accounts[|accounts| - 1];
      assert forall a :: a in init ==> a in accounts;
      assert last in accounts;
      NetChangeIsAccountFlow(init, incomes, expenses, opening);
    }
  }

  /** One more income adds its amount once when it references one of the accounts, and nothing otherwise. */
  lemma {:induction false} AccountIncomeAppend(incomes: seq<Income>, x: Income, accounts: seq<BankAccount>)
    requires UniqueBy(accounts, AccountKey)
    ensures AccountIncome(incomes + [x], accounts)
            == AccountIncome(incomes, accounts) + (if HasKey(accounts, AccountKey, x.accountId) then x.amount else 0.0)
  {
    if accounts != [] {
      var init, last := accounts[..|accounts| - 1], accounts[|accounts| - 1];
      PrefixKeepsUnique(accounts, |accounts| - 1);
      AccountIncomeAppend(incomes, x, init);
      IncomeTotalAppend(incomes, x, last.id);
      assert HasKey(init, AccountKey, x.accountId) ==> HasKey(accounts, AccountKey, x.accountId);
      assert last.id == x.accountId ==> !HasKey(init, AccountKey, x.accountId);
      if HasKey(accounts, AccountKey, x.accountId) && last.id != x.accountId {
        var i :| 0 <= i < |accounts| && AccountKey(accounts[i]) == x.accountId;
        assert init[i] == accounts[i];
      }
    }
  }

  /** One more expense adds its amount once when it references one of the accounts, and nothing otherwise. */
  lemma {:induction false} AccountExpenseAppend(expenses: seq<Expense>, x: Expense, accounts: seq<BankAccount>)
    requires UniqueBy(accounts, AccountKey)
    ensures AccountExpense(expenses + [x], accounts)
            == AccountExpense(expenses, accounts) + (if HasKey(accounts, AccountKey, x.accountId) then x.amount else 0.0)
  {
    if accounts != [] {
      var init, last := accounts[..|accounts| - 1], accounts[|accounts| - 1];
      PrefixKeepsUnique(accounts, |accounts| - 1);
      AccountExpenseAppend(expenses, x, init);
      ExpenseTotalAppend(expenses, x, last.id);
      assert HasKey(init, AccountKey, x.accountId) ==> HasKey(accounts, AccountKey, x.accountId);
      assert last.id == x.accountId ==> !HasKey(init, AccountKey, x.accountId);
      if HasKey(accounts, AccountKey, x.accountId) && last.id != x.accountId {
        var i :| 0 <= i < |accounts| && AccountKey(accounts[i]) == x.accountId;
        assert init[i] == accounts[i];
      }
    }
  }

  /**
   * When an income references one of the accounts exactly when it is the user's, the incomes
   * recorded against those accounts are the user's lifetime income as `getSum` computes it.
   */
  lemma {:induction false} AccountIncomeIsGetSum(incomes: seq<Income>, accounts: seq<BankAccount>, user: Id)
    requires UniqueBy(accounts, AccountKey)
    requires forall x :: x in incomes ==> (HasKey(accounts, AccountKey, x.accountId) <==> x.userId == user)
    ensures AccountIncome(incomes, accounts) == GetSum(IncomeEntries(incomes), user, DateRange(None, None))
  {
    if incomes != [] {
      var init, last := incomes[..|incomes| - 1], incomes[|incomes| - 1];
      assert incomes == init + [last];
      assert forall x :: x in init ==> x in incomes;
      assert last in incomes;
      AccountIncomeIsGetSum(init, accounts, user);
      AccountIncomeAppend(init, last, accounts);
      var e := Entry(last.userId, last.date, last.amount);
      IncomeEntriesAppend(init, last);
      GetSumAppend(IncomeEntries(init), e, user, DateRange(None, None));
    }
  }

  /**
   * When an expense references one of the accounts exactly when it is the user's, the expenses
   * recorded against those accounts are the user's lifetime expenses as `getSum` computes them.
   */
  lemma {:induction false} AccountExpenseIsGetSum(expenses: seq<Expense>, accounts: seq<BankAccount>, user: Id)
    requires UniqueBy(accounts, AccountKey)
    requires forall x :: x in expenses ==> (HasKey(accounts, AccountKey, x.accountId) <==> x.userId == user)
    ensures AccountExpense(expenses, accounts) == GetSum(ExpenseEntries(expenses), user, DateRange(None, None))
  {
    if expenses != [] {
      var init, last := expenses[..|expenses| - 1], expenses[|expenses| - 1];
      assert expenses == init + [last];
      assert forall x :: x in init ==> x in expenses;
      assert last in expenses;
      AccountExpenseIsGetSum(init, accounts, user);
      AccountExpenseAppend(init, last, accounts);
      var e := Entry(last.userId, last.date, last.amount);
      ExpenseEntriesAppend(init, last);
      GetSumAppend(ExpenseEntries(init), e, user, DateRange(None, None));
    }
  }

  /**
   * With unique account ids, a reference to an existing account `(accountId, owner)` points at
   * one of the user's accounts exactly when `owner` is the user.
   */
  lemma OwnedReference(accounts: seq<BankAccount>, user: Id, accountId: Id, owner: Id)
    requires UniqueBy(accounts, AccountKey)
    requires (accountId, owner) in AccountOwners(accounts)
    ensures HasKey(AccountsOf(accounts, user), AccountKey, accountId) <==> owner == user
  {
    var ua := AccountsOf(accounts, user);
    var i :| 0 <= i < |accounts| && AccountOwners(accounts)[i] == (accountId, owner);
    if owner == user {
      assert accounts[i] in ua;
      var k :| 0 <= k < |ua| && ua[k] == accounts[i];
      assert AccountKey(ua[k]) == accountId;
    }
    if HasKey(ua, AccountKey, accountId) {
      var k :| 0 <= k < |ua| && AccountKey(ua[k]) == accountId;
      assert ua[k] in accounts;
      var j :| 0 <= j < |accounts| && accounts[j] == ua[k];
      assert j == i;
    }
  }

  /**
   * The dashboard's lifetime savings for a user are the net change of that user's account
   * balances since each account was opened, in any store that keeps the integrity rules.
   */
  lemma LifetimeSavingsAreBalanceChange(incomes: seq<Income>, expenses: seq<Expense>, goals: seq<SavingGoal>,
                                        accounts: seq<BankAccount>, user: Id, month: DateRange, year: DateRange,
                                        opening: map<Id, real>, sourceOwners: seq<(Id, Id)>,
                                        categoryOwners: seq<(Id, Id)>)
    requires UniqueBy(accounts, AccountKey)
    requires Balanced(accounts, incomes, expenses, opening)
    requires IncomesOk(incomes, AccountOwners(accounts), sourceOwners)
    requires ExpensesOk(expenses, AccountOwners(accounts), categoryOwners)
    ensures forall a :: a in AccountsOf(accounts, user) ==> a.id in opening
    ensures DashboardMetrics(incomes, expenses, goals, accounts, user, month, year).totals.savings
            == NetChange(AccountsOf(accounts, user), opening)
  {
    var ua := AccountsOf(accounts, user);
    WhereKeepsUnique(accounts, (a: BankAccount) => a.userId == user, AccountKey);
    assert Balanced(ua, incomes, expenses, opening);
    NetChangeIsAccountFlow(ua, incomes, expenses, opening);
    forall x | x in incomes
      ensures HasKey(ua, AccountKey, x.accountId) <==> x.userId == user
    {
      OwnedReference(accounts, user, x.accountId, x.userId);
    }
    forall x | x in expenses
      ensures HasKey(ua, AccountKey, x.accountId) <==> x.userId == user
    {
      OwnedReference(accounts, user, x.accountId, x.userId);
    }
    AccountIncomeIsGetSum(incomes, ua, user);
    AccountExpenseIsGetSum(expenses, ua, user);
  }
}
