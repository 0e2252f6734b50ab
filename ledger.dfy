/**
 * The ledger rule behind `POST /api/incomes` and `POST /api/expenses`: recording an income adds its
 * amount to the referenced account's `balance`, recording an expense subtracts it, so every
 * account holds the balance it was created with plus its incomes minus its expenses.
 */
module Ledger {
  import opened JsValues
  import opened ModelsCore
  import opened ModelsTransactions

  /** The sum of the amounts of the incomes recorded against `account`. */
  function IncomeTotal(incomes: seq<Income>, account: Id): real {
    if incomes == [] then 0.0
    else
      var last := incomes[|incomes| - 1];
      IncomeTotal(incomes[..|incomes| - 1], account) + (if last.accountId == account then last.amount else 0.0)
  }

  /** The sum of the amounts of the expenses recorded against `account`. */
  function ExpenseTotal(expenses: seq<Expense>, account: Id): real {
    if expenses == [] then 0.0
    else
      var last := expenses[|expenses| - 1];
      ExpenseTotal(expenses[..|expenses| - 1], account) + (if last.accountId == account then last.amount else 0.0)
  }

  /**
   * The ledger identity: every account's balance is its opening balance (the balance it was
   * created with) plus its incomes minus its expenses.
   */
  ghost predicate Balanced(accounts: seq<BankAccount>, incomes: seq<Income>, expenses: seq<Expense>,
                           opening: map<Id, real>) {
    forall a :: a in accounts ==>
      a.id in opening && a.balance == opening[a.id] + IncomeTotal(incomes, a.id) - ExpenseTotal(expenses, a.id)
  }

  /**
   * `BankAccount.findByIdAndUpdate(id, { $inc: { balance: delta } })`: the account with that id
   * gains `delta` and its `updatedAt` becomes `now`; every other account is unchanged.
   */
  function Credit(accounts: seq<BankAccount>, id: Id, delta: real, now: Time): (r: seq<BankAccount>)
    ensures |r| == |accounts|
    ensures forall i :: 0 <= i < |r| && accounts[i].id != id ==> r[i] == accounts[i]
    ensures forall i :: 0 <= i < |r| && accounts[i].id == id ==>
      r[i] == accounts[i].(balance := accounts[i].balance + delta, updatedAt := now)
  {
    seq(|accounts|, i requires 0 <= i < |accounts| =>
      if accounts[i].id == id then accounts[i].(balance := accounts[i].balance + delta, updatedAt := now)
      else accounts[i])
  }

  /** `$inc: { balance: -amount }`, the update an expense makes. */
  function Debit(accounts: seq<BankAccount>, id: Id, amount: real, now: Time): seq<BankAccount> {
    Credit(accounts, id, -amount, now)
  }

  lemma IncomeTotalAppend(incomes: seq<Income>, x: Income, account: Id)
    ensures IncomeTotal(incomes + [x], account)
            == IncomeTotal(incomes, account) + (if x.accountId == account then x.amount else 0.0)
  {
    assert (incomes + [x])[..|incomes|] == incomes;
  }

  lemma ExpenseTotalAppend(expenses: seq<Expense>, x: Expense, account: Id)
    ensures ExpenseTotal(expenses + [x], account)
            == ExpenseTotal(expenses, account) + (if x.accountId == account then x.amount else 0.0)
  {
    assert (expenses + [x])[..|expenses|] == expenses;
  }

  /** Recording an income together with its `$inc` keeps every account balanced. */
  lemma RecordIncomeKeepsBalanced(accounts: seq<BankAccount>, incomes: seq<Income>, expenses: seq<Expense>,
                                  opening: map<Id, real>, x: Income, now: Time)
    requires Balanced(accounts, incomes, expenses, opening)
    ensures Balanced(Credit(accounts, x.accountId, x.amount, now), incomes + [x], expenses, opening)
  {
    var r := Credit(accounts, x.accountId, x.amount, now);
    forall a | a in r
      ensures a.id in opening
      ensures a.balance == opening[a.id] + IncomeTotal(incomes + [x], a.id) - ExpenseTotal(expenses, a.id)
    {
      var i :| 0 <= i < |r| && r[i] == a;
      assert accounts[i] in accounts;
      IncomeTotalAppend(incomes, x, a.id);
    }
  }

  /** Recording an expense together with its `$inc` of the negated amount keeps every account balanced. */
  lemma RecordExpenseKeepsBalanced(accounts: seq<BankAccount>, incomes: seq<Income>, expenses: seq<Expense>,
                                   opening: map<Id, real>, x: Expense, now: Time)
    requires Balanced(accounts, incomes, expenses, opening)
    ensures Balanced(Debit(accounts, x.accountId, x.amount, now), incomes, expenses + [x], opening)
  {
    var r := Debit(accounts, x.accountId, x.amount, now);
    forall a | a in r
      ensures a.id in opening
      ensures a.balance == opening[a.id] + IncomeTotal(incomes, a.id) - ExpenseTotal(expenses + [x], a.id)
    {
      var i :| 0 <= i < |r| && r[i] == a;
      assert accounts[i] in accounts;
      ExpenseTotalAppend(expenses, x, a.id);
    }
  }

  /** No income references `account`, so its income total is zero. */
  lemma {:induction false} IncomeTotalUnreferenced(incomes: seq<Income>, account: Id)
    requires forall x :: x in incomes ==> x.accountId != account
    ensures IncomeTotal(incomes, account) == 0.0
  {
    if incomes != [] {
      var init := incomes[..|incomes| - 1];
      assert forall x :: x in init ==> x in incomes;
      assert incomes[|incomes| - 1] in incomes;
      IncomeTotalUnreferenced(init, account);
    }
  }

  /** No expense references `account`, so its expense total is zero. */
  lemma {:induction false} ExpenseTotalUnreferenced(expenses: seq<Expense>, account: Id)
    requires forall x :: x in expenses ==> x.accountId != account
    ensures ExpenseTotal(expenses, account) == 0.0
  {
    if expenses != [] {
      var init := expenses[..|expenses| - 1];
      assert forall x :: x in init ==> x in expenses;
      assert expenses[|expenses| - 1] in expenses;
      ExpenseTotalUnreferenced(init, account);
    }
  }

  /**
   * A new account that no transaction references yet, with its creation balance as opening
   * balance, keeps the ledger balanced.
   */
  lemma NewAccountKeepsBalanced(accounts: seq<BankAccount>, incomes: seq<Income>, expenses: seq<Expense>,
                                opening: map<Id, real>, a: BankAccount)
    requires Balanced(accounts, incomes, expenses, opening)
    requires forall b :: b in accounts ==> b.id != a.id
    requires forall x :: x in incomes ==> x.accountId != a.id
    requires forall x :: x in expenses ==> x.accountId != a.id
    ensures Balanced(accounts + [a], incomes, expenses, opening[a.id := a.balance])
  {
    IncomeTotalUnreferenced(incomes, a.id);
    ExpenseTotalUnreferenced(expenses, a.id);
  }

  /** The ledger identity reads only ids and balances: changing any other field keeps it. */
  lemma BalancedReadsBalances(before: seq<BankAccount>, after: seq<BankAccount>, incomes: seq<Income>,
                              expenses: seq<Expense>, opening: map<Id, real>)
    requires Balanced(before, incomes, expenses, opening)
    requires |after| == |before|
    requires forall i :: 0 <= i < |after| ==> after[i].id == before[i].id && after[i].balance == before[i].balance
    ensures Balanced(after, incomes, expenses, opening)
  {
    forall a | a in after
      ensures a.id in opening && a.balance == opening[a.id] + IncomeTotal(incomes, a.id) - ExpenseTotal(expenses, a.id)
    {
      var i :| 0 <= i < |after| && after[i] == a;
      assert before[i] in before;
    }
  }

  /**
   * An income and an expense of the same amount on one account cancel out: the balances after
   * both `$inc`s are the balances before.
   */
  lemma IncomeThenExpenseRestoresBalance(accounts: seq<BankAccount>, id: Id, amount: real, t1: Time, t2: Time)
    ensures var r := Debit(Credit(accounts, id, amount, t1), id, amount, t2);
            |r| == |accounts| && forall i :: 0 <= i < |r| ==> r[i].balance == accounts[i].balance && r[i].id == accounts[i].id
  {
  }

  /**
   * In a balanced ledger, recording an income and then an expense of the same amount on one
   * account leaves that account's balance where it was.
   */
  lemma PairedEntriesNetZero(accounts: seq<BankAccount>, incomes: seq<Income>, expenses: seq<Expense>,
                             opening: map<Id, real>, x: Income, y: Expense, a: BankAccount)
    requires Balanced(accounts, incomes, expenses, opening)
    requires a in accounts && x.accountId == a.id && y.accountId == a.id && x.amount == y.amount
    ensures IncomeTotal(incomes + [x], a.id) - ExpenseTotal(expenses + [y], a.id)
            == a.balance - opening[a.id]
  {
    IncomeTotalAppend(incomes, x, a.id);
    ExpenseTotalAppend(expenses, y, a.id);
  }
}
