/**
 * The read-side rollups of src/lib/analytics.ts: windowed sums and savings, the monthly-goal and
 * low-balance alerts, the per-category expense breakdown, the month buckets behind the
 * income-versus-expense trend, and the report summary. Local-calendar functions (month start,
 * month arithmetic, month keys and labels) are parameters.
 */
module Analytics {
  import opened Wrappers
  import opened JsValues
  import opened Tables
  import opened ModelsCore
  import opened ModelsTransactions

  // ---- getSum ------------------------------------------------------------------------------

  /** An income or an expense as `getSum` and the trend read it: owner, date and amount. */
  datatype Entry = Entry(userId: Id, date: Time, amount: real)

  function IncomeEntries(incomes: seq<Income>): (r: seq<Entry>)
    ensures |r| == |incomes|
    ensures forall i :: 0 <= i < |r| ==> r[i] == Entry(incomes[i].userId, incomes[i].date, incomes[i].amount)
  {
    seq(|incomes|, i requires 0 <= i < |incomes| => Entry(incomes[i].userId, incomes[i].date, incomes[i].amount))
  }

  /** The same view of the expenses; the two collections share these three fields but no type. */
  function ExpenseEntries(expenses: seq<Expense>): (r: seq<Entry>)
    ensures |r| == |expenses|
    ensures forall i :: 0 <= i < |r| ==> r[i] == Entry(expenses[i].userId, expenses[i].date, expenses[i].amount)
  {
    seq(|expenses|, i requires 0 <= i < |expenses| => Entry(expenses[i].userId, expenses[i].date, expenses[i].amount))
  }

  lemma IncomeEntriesAppend(incomes: seq<Income>, x: Income)
    ensures IncomeEntries(incomes + [x]) == IncomeEntries(incomes) + [Entry(x.userId, x.date, x.amount)]
  {
  }

  lemma ExpenseEntriesAppend(expenses: seq<Expense>, x: Expense)
    ensures ExpenseEntries(expenses + [x]) == ExpenseEntries(expenses) + [Entry(x.userId, x.date, x.amount)]
  {
  }

  /** `$sum: "$amount"` over the entries, in order. */
  function Total(es: seq<Entry>): real {
    if es == [] then 0.0 else Total(es[..|es| - 1]) + es[|es| - 1].amount
  }

  /** The `$match` stage: the user's entries within the window, each bound applying only when given. */
  predicate Matches(e: Entry, user: Id, w: DateRange) {
    e.userId == user && InRange(w, e.date)
  }

  function Matching(es: seq<Entry>, user: Id, w: DateRange): (r: seq<Entry>)
    ensures forall e :: e in r <==> e in es && Matches(e, user, w)
  {
    Where(es, (e: Entry) => Matches(e, user, w))
  }

  /**
   * `getSum`: the total of the matching amounts, and `result[0]?.total || 0` makes it 0 when no
   * entry matches.
   */
  function GetSum(es: seq<Entry>, user: Id, w: DateRange): (r: real)
    ensures (forall i :: 0 <= i < |es| ==> !Matches(es[i], user, w)) ==> r == 0.0
  {
    var m := Matching(es, user, w);
    assert m != [] ==> m[0] in m;
    Total(m)
  }

  /** One more entry adds its amount when it matches, and nothing otherwise. */
  lemma GetSumAppend(es: seq<Entry>, x: Entry, user: Id, w: DateRange)
    ensures GetSum(es + [x], user, w) == GetSum(es, user, w) + (if Matches(x, user, w) then x.amount else 0.0)
  {
    WhereAppend(es, (e: Entry) => Matches(e, user, w), x);
    var m := Matching(es, user, w);
    var m' := Matching(es + [x], user, w);
    assert GetSum(es + [x], user, w) == Total(m') && GetSum(es, user, w) == Total(m);
    if Matches(x, user, w) {
      assert m' == m + [x];
      assert m'[..|m'| - 1] == m;
      assert Total(m') == Total(m) + x.amount;
    } else {
      assert m' == m;
    }
  }

  /** Every bound of `inner` is at least as tight as the matching bound of `outer`. */
  predicate Within(inner: DateRange, outer: DateRange) {
    (outer.start.None? || (inner.start.Some? && outer.start.value <= inner.start.value))
    && (outer.end.None? || (inner.end.Some? && inner.end.value <= outer.end.value))
  }

  /**
   * With amounts that are never negative, a narrower window never sums to more: the month's
   * income is at most the year's, and the year's at most the lifetime total.
   */
  lemma {:induction false} GetSumMonotone(es: seq<Entry>, user: Id, inner: DateRange, outer: DateRange)
    requires Within(inner, outer)
    requires forall i :: 0 <= i < |es| ==> es[i].amount >= 0.0
    ensures 0.0 <= GetSum(es, user, inner) <= GetSum(es, user, outer)
  {
    if es != [] {
      var init, last := es[..|es| - 1], es[|es| - 1];
      assert es == init + [last];
      GetSumMonotone(init, user, inner, outer);
      GetSumAppend(init, last, user, inner);
      GetSumAppend(init, last, user, outer);
    }
  }

  /** With positive amounts, a window sums to zero exactly when no entry matches (`countDocuments` is 0). */
  lemma {:induction false} GetSumZeroIffNoMatch(es: seq<Entry>, user: Id, w: DateRange)
    requires forall i :: 0 <= i < |es| ==> es[i].amount > 0.0
    ensures GetSum(es, user, w) >= 0.0
    ensures GetSum(es, user, w) == 0.0 <==> |Matching(es, user, w)| == 0
  {
    if es != [] {
      var init, last := es[..|es| - 1], es[|es| - 1];
      assert es == init + [last];
      GetSumZeroIffNoMatch(init, user, w);
      GetSumAppend(init, last, user, w);
      WhereAppend(init, (e: Entry) => Matches(e, user, w), last);
    }
  }

  // ---- getDashboardMetrics -----------------------------------------------------------------

  /** Income, expenses and savings over one window. */
  datatype Window = Window(income: real, expenses: real, savings: real)

  /** `Math.round`: the nearest integer, halves rounded up. */
  function Round(x: real): (n: int)
    ensures x - 0.5 < n as real <= x + 0.5
  {
    (x + 0.5).Floor
  }

  /**
   * Progress towards a goal in percent: capped at 100, 0 without a target (`targetAmount` is
   * falsy at 0), and a missing `currentAmount` counts as 0.
   */
  function Progress(g: SavingGoal): (p: int)
    ensures p <= 100
    ensures g.targetAmount == 0.0 ==> p == 0
    ensures g.targetAmount > 0.0 && g.currentAmount.GetOr(0.0) >= 0.0 ==> 0 <= p
    ensures g.targetAmount != 0.0 ==>
      var ratio := g.currentAmount.GetOr(0.0) / g.targetAmount * 100.0;
      (p == 100 <==> ratio >= 99.5) && (p < 100 ==> ratio - 0.5 < p as real <= ratio + 0.5)
  {
    var current := g.currentAmount.GetOr(0.0);
    if g.targetAmount != 0.0 then
      var pct := Round(current / g.targetAmount * 100.0);
      if pct < 100 then pct else 100
    else 0
  }

  /** Below three quarters of the target, and never without a target. */
  predicate AtRisk(g: SavingGoal) {
    g.targetAmount != 0.0 && g.currentAmount.GetOr(0.0) < g.targetAmount * 0.75
  }

  /** With a positive target, a goal at risk shows at most 75 percent, and one not at risk at least 75. */
  lemma AtRiskMatchesProgress(g: SavingGoal)
    requires g.targetAmount > 0.0
    ensures AtRisk(g) ==> Progress(g) <= 75
    ensures !AtRisk(g) ==> Progress(g) >= 75
  {
    var current, t := g.currentAmount.GetOr(0.0), g.targetAmount;
    var pct := current / t * 100.0;
    assert pct * t == current * 100.0;
    if current < t * 0.75 {
      assert pct < 75.0;
    } else {
      assert pct >= 75.0;
    }
  }

  datatype GoalAlert = GoalAlert(id: Id, name: string, progress: int, atRisk: bool)

  function AlertOf(g: SavingGoal): GoalAlert {
    GoalAlert(g.id, g.name, Progress(g), AtRisk(g))
  }

  /** The user's saving goals, `SavingGoal.find({ userId })`. */
  function GoalsOf(goals: seq<SavingGoal>, user: Id): (r: seq<SavingGoal>)
    ensures forall g :: g in r <==> g in goals && g.userId == user
  {
    Where(goals, (g: SavingGoal) => g.userId == user)
  }

  /** The savings alerts: the user's goals of type "monthly", each with its progress and risk, in order. */
  function GoalAlerts(goals: seq<SavingGoal>, user: Id): (r: seq<GoalAlert>)
    ensures forall a :: a in r <==> exists g :: g in goals && g.userId == user && g.kind == "monthly" && a == AlertOf(g)
    ensures forall a :: a in r ==> a.progress <= 100
    ensures |r| <= |goals|
  {
    Select(Where(goals, (g: SavingGoal) => g.userId == user && g.kind == "monthly"), AlertOf)
  }

  datatype LowBalance = LowBalance(id: Id, name: string, balance: real)

  function LowBalanceOf(a: BankAccount): LowBalance {
    LowBalance(a.id, a.name, a.balance)
  }

  /** The low-balance alerts: exactly the user's accounts with a balance below 50, in order. */
  function LowBalanceAccounts(accounts: seq<BankAccount>, user: Id): (r: seq<LowBalance>)
    ensures forall x :: x in r <==> exists a :: a in accounts && a.userId == user && a.balance < 50.0 && x == LowBalanceOf(a)
    ensures forall x :: x in r ==> x.balance < 50.0
  {
    Select(Where(accounts, (a: BankAccount) => a.userId == user && a.balance < 50.0), LowBalanceOf)
  }

  datatype Dashboard = Dashboard(
    totals: Window, monthly: Window, yearly: Window,
    goals: seq<SavingGoal>, savingsAlerts: seq<GoalAlert>, lowBalance: seq<LowBalance>)

  /**
   * `getDashboardMetrics` for the windows the calendar gives for the current month and year:
   * each window's savings are its income minus its expenses.
   */
  function DashboardMetrics(incomes: seq<Income>, expenses: seq<Expense>, goals: seq<SavingGoal>,
                            accounts: seq<BankAccount>, user: Id, month: DateRange, year: DateRange): (d: Dashboard)
    ensures d.totals.income == GetSum(IncomeEntries(incomes), user, DateRange(None, None))
    ensures d.totals.expenses == GetSum(ExpenseEntries(expenses), user, DateRange(None, None))
    ensures d.monthly.income == GetSum(IncomeEntries(incomes), user, month)
    ensures d.monthly.expenses == GetSum(ExpenseEntries(expenses), user, month)
    ensures d.yearly.income == GetSum(IncomeEntries(incomes), user, year)
    ensures d.yearly.expenses == GetSum(ExpenseEntries(expenses), user, year)
    ensures d.totals.savings == d.totals.income - d.totals.expenses
    ensures d.monthly.savings == d.monthly.income - d.monthly.expenses
    ensures d.yearly.savings == d.yearly.income - d.yearly.expenses
    ensures d.savingsAlerts == GoalAlerts(goals, user) && d.lowBalance == LowBalanceAccounts(accounts, user)
    ensures forall g :: g in d.goals <==> g in goals && g.userId == user
  {
    var ins, outs := IncomeEntries(incomes), ExpenseEntries(expenses);
    var lifetime := DateRange(None, None);
    Dashboard(
      Window(GetSum(ins, user, lifetime), GetSum(outs, user, lifetime),
             GetSum(ins, user, lifetime) - GetSum(outs, user, lifetime)),
      Window(GetSum(ins, user, month), GetSum(outs, user, month),
             GetSum(ins, user, month) - GetSum(outs, user, month)),
      Window(GetSum(ins, user, year), GetSum(outs, user, year),
             GetSum(ins, user, year) - GetSum(outs, user, year)),
      GoalsOf(goals, user), GoalAlerts(goals, user), LowBalanceAccounts(accounts, user))
  }

  /**
   * With amounts never negative and the month inside the year, the dashboard's sums are
   * ordered: month, then year, then lifetime.
   */
  lemma DashboardWindowsNest(incomes: seq<Income>, expenses: seq<Expense>, goals: seq<SavingGoal>,
                             accounts: seq<BankAccount>, user: Id, month: DateRange, year: DateRange)
    requires Within(month, year)
    requires forall x :: x in incomes ==> x.amount >= 0.0
    requires forall x :: x in expenses ==> x.amount >= 0.0
    ensures var d := DashboardMetrics(incomes, expenses, goals, accounts, user, month, year);
            0.0 <= d.monthly.income <= d.yearly.income <= d.totals.income
            && 0.0 <= d.monthly.expenses <= d.yearly.expenses <= d.totals.expenses
  {
    var ins, outs := IncomeEntries(incomes), ExpenseEntries(expenses);
    assert forall i :: 0 <= i < |ins| ==> incomes[i] in incomes;
    assert forall i :: 0 <= i < |outs| ==> expenses[i] in expenses;
    GetSumMonotone(ins, user, month, year);
    GetSumMonotone(ins, user, year, DateRange(None, None));
    GetSumMonotone(outs, user, month, year);
    GetSumMonotone(outs, user, year, DateRange(None, None));
  }
  // ---- getCategoryBreakdown ----------------------------------------------------------------

  /** The sum of the amounts of the expenses. */
  function ExpenseSum(xs: seq<Expense>): real {
    if xs == [] then 0.0 else ExpenseSum(xs[..|xs| - 1]) + xs[|xs| - 1].amount
  }

  /** The `$group` accumulator `$sum: "$amount"` for one category. */
  function CategorySum(xs: seq<Expense>, category: Id): (r: real)
    ensures (forall i :: 0 <= i < |xs| ==> xs[i].categoryId != category) ==> r == 0.0
  {
    if xs == [] then 0.0
    else
      var last := xs[|xs| - 1];
      CategorySum(xs[..|xs| - 1], category) + (if last.categoryId == category then last.amount else 0.0)
  }

  /** The group keys: each category id once, in the order of its first expense. */
  function CategoryIds(xs: seq<Expense>): (r: seq<Id>)
    ensures forall i, j :: 0 <= i < j < |r| ==> r[i] != r[j]
    ensures forall c :: c in r <==> exists i :: 0 <= i < |xs| && xs[i].categoryId == c
  {
    if xs == [] then []
    else
      var init, last := xs[..|xs| - 1], xs[|xs| - 1];
      var r := CategoryIds(init);
      assert forall i :: 0 <= i < |init| ==> init[i] == xs[i];
      if last.categoryId in r then r else r + [last.categoryId]
  }

  /** The sum of the group totals of the categories `cs`. */
  function GroupTotal(xs: seq<Expense>, cs: seq<Id>): real {
    if cs == [] then 0.0 else GroupTotal(xs, cs[..|cs| - 1]) + CategorySum(xs, cs[|cs| - 1])
  }

  /** One more expense adds its amount to the group totals exactly once when its category is among distinct `cs`. */
  lemma {:induction false} GroupTotalAppend(xs: seq<Expense>, x: Expense, cs: seq<Id>)
    requires forall i, j :: 0 <= i < j < |cs| ==> cs[i] != cs[j]
    ensures GroupTotal(xs + [x], cs) == GroupTotal(xs, cs) + (if x.categoryId in cs then x.amount else 0.0)
  {
    assert (xs + [x])[..|xs|] == xs;
    if cs != [] {
      var init := cs[..|cs| - 1];
      GroupTotalAppend(xs, x, init);
      assert cs == init + [cs[|cs| - 1]];
      assert x.categoryId == cs[|cs| - 1] ==> x.categoryId !in init;
    }
  }

  /** The group totals partition the total: summed over all categories they give every expense once. */
  lemma {:induction false} GroupsPartitionTotal(xs: seq<Expense>)
    ensures GroupTotal(xs, CategoryIds(xs)) == ExpenseSum(xs)
  {
    if xs != [] {
      var init, last := xs[..|xs| - 1], xs[|xs| - 1];
      assert xs == init + [last];
      var ids := CategoryIds(init);
      GroupsPartitionTotal(init);
      GroupTotalAppend(init, last, ids);
      if last.categoryId !in ids {
        assert forall i :: 0 <= i < |init| ==> init[i].categoryId != last.categoryId;
        assert (ids + [last.categoryId])[..|ids|] == ids;
      }
    }
  }

  /** The user's expenses dated within `[start, end]`. */
  function ExpensesIn(expenses: seq<Expense>, user: Id, start: Time, end: Time): (r: seq<Expense>)
    ensures forall x :: x in r <==> x in expenses && x.userId == user && start <= x.date <= end
  {
    Where(expenses, (x: Expense) => x.userId == user && start <= x.date <= end)
  }

  datatype BreakdownItem = BreakdownItem(id: Id, name: string, amount: real, icon: Option<string>, color: Option<string>)

  /**
   * One row of the breakdown: the group's total, and the name, icon and colour of the category
   * with that id if any (the lookup reads every user's categories), otherwise "Uncategorised".
   */
  function ItemFor(xs: seq<Expense>, categories: seq<Category>, id: Id): (r: BreakdownItem)
    ensures r.id == id && r.amount == CategorySum(xs, id)
    ensures (forall i :: 0 <= i < |categories| ==> categories[i].id != id) ==>
      r.name == "Uncategorised" && r.icon.None? && r.color.None?
    ensures (exists c :: c in categories && c.id == id) ==>
      exists c :: c in categories && c.id == id && r.name == c.name && r.icon == c.icon && r.color == c.color
  {
    match FindFirst(categories, (c: Category) => c.id == id)
    case None => BreakdownItem(id, "Uncategorised", CategorySum(xs, id), None, None)
    case Some(c) => BreakdownItem(id, c.name, CategorySum(xs, id), c.icon, c.color)
  }

  function Items(xs: seq<Expense>, categories: seq<Category>, cs: seq<Id>): (r: seq<BreakdownItem>)
    ensures |r| == |cs| && forall i :: 0 <= i < |cs| ==> r[i] == ItemFor(xs, categories, cs[i])
  {
    seq(|cs|, i requires 0 <= i < |cs| => ItemFor(xs, categories, cs[i]))
  }

  /** The sum of a breakdown's amounts. */
  function ItemsTotal(items: seq<BreakdownItem>): real {
    if items == [] then 0.0 else ItemsTotal(items[..|items| - 1]) + items[|items| - 1].amount
  }

  lemma {:induction false} ItemsTotalIsGroupTotal(xs: seq<Expense>, categories: seq<Category>, cs: seq<Id>)
    ensures ItemsTotal(Items(xs, categories, cs)) == GroupTotal(xs, cs)
  {
    if cs != [] {
      var items := Items(xs, categories, cs);
      ItemsTotalIsGroupTotal(xs, categories, cs[..|cs| - 1]);
      assert items[..|items| - 1] == Items(xs, categories, cs[..|cs| - 1]);
    }
  }

  /**
   * `getCategoryBreakdown`: one row per category id among the user's expenses in the window,
   * carrying the sum of those expenses.
   */
  function CategoryBreakdown(expenses: seq<Expense>, categories: seq<Category>, user: Id, start: Time, end: Time)
    : (r: seq<BreakdownItem>)
    ensures forall i, j :: 0 <= i < j < |r| ==> r[i].id != r[j].id
    ensures forall i :: 0 <= i < |r| ==>
      exists x :: x in expenses && x.userId == user && start <= x.date <= end && x.categoryId == r[i].id
    ensures forall x :: x in expenses && x.userId == user && start <= x.date <= end ==>
      exists i :: 0 <= i < |r| && r[i].id == x.categoryId
    ensures forall i :: 0 <= i < |r| ==> r[i] == ItemFor(ExpensesIn(expenses, user, start, end), categories, r[i].id)
  {
    var m := ExpensesIn(expenses, user, start, end);
    var ids := CategoryIds(m);
    var r := Items(m, categories, ids);
    BreakdownCovers(expenses, user, start, end, r, ids);
    r
  }

  /** The rows' ids are the category ids of the window's expenses, each once. */
  lemma BreakdownCovers(expenses: seq<Expense>, user: Id, start: Time, end: Time, r: seq<BreakdownItem>, ids: seq<Id>)
    requires ids == CategoryIds(ExpensesIn(expenses, user, start, end))
    requires |r| == |ids| && forall i :: 0 <= i < |r| ==> r[i].id == ids[i]
    ensures forall i, j :: 0 <= i < j < |r| ==> r[i].id != r[j].id
    ensures forall i :: 0 <= i < |r| ==>
      exists x :: x in expenses && x.userId == user && start <= x.date <= end && x.categoryId == r[i].id
    ensures forall x :: x in expenses && x.userId == user && start <= x.date <= end ==>
      exists i :: 0 <= i < |r| && r[i].id == x.categoryId
  {
    var m := ExpensesIn(expenses, user, start, end);
    forall i | 0 <= i < |r|
      ensures exists x :: x in expenses && x.userId == user && start <= x.date <= end && x.categoryId == r[i].id
    {
      assert ids[i] in ids;
      var k :| 0 <= k < |m| && m[k].categoryId == ids[i];
      assert m[k] in m;
    }
    forall x | x in expenses && x.userId == user && start <= x.date <= end
      ensures exists i :: 0 <= i < |r| && r[i].id == x.categoryId
    {
      assert x in m;
      var k :| 0 <= k < |m| && m[k] == x;
      assert x.categoryId in ids;
      var i :| 0 <= i < |ids| && ids[i] == x.categoryId;
      assert r[i].id == x.categoryId;
    }
  }

  /** The breakdown's amounts add up to the expense total of the same window, as `getSum` computes it. */
  lemma BreakdownAddsUpToGetSum(expenses: seq<Expense>, categories: seq<Category>, user: Id, start: Time, end: Time)
    ensures ItemsTotal(CategoryBreakdown(expenses, categories, user, start, end))
            == GetSum(ExpenseEntries(expenses), user, DateRange(Some(start), Some(end)))
  {
    var m := ExpensesIn(expenses, user, start, end);
    ItemsTotalIsGroupTotal(m, categories, CategoryIds(m));
    GroupsPartitionTotal(m);
    ExpenseSumIsGetSum(expenses, user, start, end);
  }

  /** Summing the window's expenses directly is `getSum` over their entries. */
  lemma {:induction false} ExpenseSumIsGetSum(expenses: seq<Expense>, user: Id, start: Time, end: Time)
    ensures ExpenseSum(ExpensesIn(expenses, user, start, end))
            == GetSum(ExpenseEntries(expenses), user, DateRange(Some(start), Some(end)))
  {
    var w := DateRange(Some(start), Some(end));
    if expenses != [] {
      var init, last := expenses[..|expenses| - 1], expenses[|expenses| - 1];
      assert expenses == init + [last];
      ExpenseSumIsGetSum(init, user, start, end);
      var e := Entry(last.userId, last.date, last.amount);
      assert ExpenseEntries(expenses) == ExpenseEntries(init) + [e];
      GetSumAppend(ExpenseEntries(init), e, user, w);
      ExpensesInAppend(init, last, user, start, end);
    }
  }

  lemma ExpensesInAppend(xs: seq<Expense>, x: Expense, user: Id, start: Time, end: Time)
    ensures ExpenseSum(ExpensesIn(xs + [x], user, start, end))
            == ExpenseSum(ExpensesIn(xs, user, start, end)) + (if x.userId == user && start <= x.date <= end then x.amount else 0.0)
  {
    WhereAppend(xs, (x: Expense) => x.userId == user && start <= x.date <= end, x);
    var m := ExpensesIn(xs, user, start, end);
    var m' := ExpensesIn(xs + [x], user, start, end);
    if x.userId == user && start <= x.date <= end {
      assert m' == m + [x];
      assert m'[..|m'| - 1] == m;
    } else {
      assert m' == m;
    }
  }

  // ---- getIncomeVsExpenseTrend -------------------------------------------------------------

  /** A local calendar month, `getFullYear()` and `getMonth() + 1`. */
  datatype MonthKey = MonthKey(year: int, month: int)

  /**
   * The local-calendar functions the trend uses: the month an instant falls in, date-fns
   * `startOfMonth` and `subMonths`, and the short month name `toLocaleString` prints.
   */
  datatype Calendar = Calendar(
    monthKey: Time -> MonthKey,
    startOfMonth: Time -> Time,
    subMonths: (Time, int) -> Time,
    monthName: Time -> string)

  /** The total of the entries whose date falls in month `k`. */
  function BucketSum(es: seq<Entry>, key: Time -> MonthKey, k: MonthKey): (r: real)
    ensures (forall i :: 0 <= i < |es| ==> key(es[i].date) != k) ==> r == 0.0
  {
    if es == [] then 0.0
    else
      var last := es[|es| - 1];
      BucketSum(es[..|es| - 1], key, k) + (if key(last.date) == k then last.amount else 0.0)
  }

  /** A month's bucket is part of the total: with amounts never negative it lies between 0 and the total. */
  lemma {:induction false} BucketSumBounded(es: seq<Entry>, key: Time -> MonthKey, k: MonthKey)
    requires forall i :: 0 <= i < |es| ==> es[i].amount >= 0.0
    ensures 0.0 <= BucketSum(es, key, k) <= Total(es)
  {
    if es != [] {
      BucketSumBounded(es[..|es| - 1], key, k);
    }
  }

  /** `accumulator[key] ?? 0`. */
  function Lookup(acc: map<MonthKey, real>, k: MonthKey): real {
    if k in acc then acc[k] else 0.0
  }

  /**
   * `mapByMonth`: one pass over the entries adding each amount to its month's running total.
   * A month is a key exactly when some entry falls in it, and its value is that month's bucket.
   */
  method MapByMonth(es: seq<Entry>, key: Time -> MonthKey) returns (acc: map<MonthKey, real>)
    ensures forall k :: k in acc <==> exists i :: 0 <= i < |es| && key(es[i].date) == k
    ensures forall k :: Lookup(acc, k) == BucketSum(es, key, k)
  {
    acc := map[];
    var n := 0;
    while n < |es|
      invariant 0 <= n <= |es|
      invariant forall k :: k in acc <==> exists i :: 0 <= i < n && key(es[i].date) == k
      invariant forall k :: Lookup(acc, k) == BucketSum(es[..n], key, k)
    {
      var item := es[n];
      var k := key(item.date);
      assert es[..n + 1][..n] == es[..n];
      acc := acc[k := Lookup(acc, k) + item.amount];
      n := n + 1;
    }
    assert es[..n] == es;
  }

  datatype TrendPoint = TrendPoint(month: string, income: real, expense: real)

  /** The trend's query window: from the start of the month `months - 1` back, up to now. */
  function TrendWindow(cal: Calendar, now: Time, months: int): DateRange {
    DateRange(Some(cal.startOfMonth(cal.subMonths(now, months - 1))), Some(now))
  }

  /**
   * The loop of `getIncomeVsExpenseTrend`: for `i` from `months - 1` down to 0, the month `i`
   * back from now, labelled and looked up in the two month maps (0 for a missing month).
   */
  method TrendPoints(incomeByMonth: map<MonthKey, real>, expenseByMonth: map<MonthKey, real>,
                     months: int, now: Time, cal: Calendar) returns (data: seq<TrendPoint>)
    ensures |data| == if months > 0 then months else 0
    ensures forall j :: 0 <= j < |data| ==>
      var day := cal.subMonths(now, months - 1 - j);
      data[j] == TrendPoint(cal.monthName(day), Lookup(incomeByMonth, cal.monthKey(day)),
                            Lookup(expenseByMonth, cal.monthKey(day)))
  {
    data := [];
    var i := months - 1;
    while i >= 0
      invariant |data| == months - 1 - i
      invariant i >= -1 || data == []
      invariant forall j :: 0 <= j < |data| ==>
        var day := cal.subMonths(now, months - 1 - j);
        data[j] == TrendPoint(cal.monthName(day), Lookup(incomeByMonth, cal.monthKey(day)),
                              Lookup(expenseByMonth, cal.monthKey(day)))
      decreases i
    {
      var monthDate := cal.subMonths(now, i);
      var k := cal.monthKey(monthDate);
      data := data + [TrendPoint(cal.monthName(monthDate), Lookup(incomeByMonth, k), Lookup(expenseByMonth, k))];
      i := i - 1;
    }
  }

  /** With amounts never negative, a month's bucket of a window lies between 0 and the window's sum. */
  lemma BucketWithinWindow(es: seq<Entry>, user: Id, w: DateRange, key: Time -> MonthKey, k: MonthKey)
    requires forall i :: 0 <= i < |es| ==> es[i].amount >= 0.0
    ensures 0.0 <= BucketSum(Matching(es, user, w), key, k) <= GetSum(es, user, w)
  {
    var m := Matching(es, user, w);
    assert forall i :: 0 <= i < |m| ==> m[i] in m;
    BucketSumBounded(m, key, k);
  }

  /**
   * `getIncomeVsExpenseTrend`: one point per month, oldest first, for the `months` months up to
   * the current one (none when `months` is not positive). Point `j` is the month `months - 1 - j`
   * back; its income and expense are the totals of the user's entries in the window that fall in
   * that month, 0 for a month without any, and never more than the window's total.
   */
  method IncomeVsExpenseTrend(incomes: seq<Income>, expenses: seq<Expense>, user: Id,
                              months: int, now: Time, cal: Calendar) returns (data: seq<TrendPoint>)
    ensures |data| == if months > 0 then months else 0
    ensures forall j :: 0 <= j < |data| ==>
      var day := cal.subMonths(now, months - 1 - j);
      data[j].month == cal.monthName(day)
      && data[j].income == BucketSum(Matching(IncomeEntries(incomes), user, TrendWindow(cal, now, months)), cal.monthKey, cal.monthKey(day))
      && data[j].expense == BucketSum(Matching(ExpenseEntries(expenses), user, TrendWindow(cal, now, months)), cal.monthKey, cal.monthKey(day))
    ensures (forall x :: x in incomes ==> x.amount >= 0.0) ==> forall j :: 0 <= j < |data| ==>
      0.0 <= data[j].income <= GetSum(IncomeEntries(incomes), user, TrendWindow(cal, now, months))
    ensures (forall x :: x in expenses ==> x.amount >= 0.0) ==> forall j :: 0 <= j < |data| ==>
      0.0 <= data[j].expense <= GetSum(ExpenseEntries(expenses), user, TrendWindow(cal, now, months))
  {
    var w := TrendWindow(cal, now, months);
    var incomeEntries := IncomeEntries(incomes);
    var expenseEntries := ExpenseEntries(expenses);
    var incomeByMonth := MapByMonth(Matching(incomeEntries, user, w), cal.monthKey);
    var expenseByMonth := MapByMonth(Matching(expenseEntries, user, w), cal.monthKey);
    data := TrendPoints(incomeByMonth, expenseByMonth, months, now, cal);
    if forall x :: x in incomes ==> x.amount >= 0.0 {
      assert forall i :: 0 <= i < |incomeEntries| ==> incomes[i] in incomes;
      forall j | 0 <= j < |data|
        ensures 0.0 <= data[j].income <= GetSum(incomeEntries, user, w)
      {
        BucketWithinWindow(incomeEntries, user, w, cal.monthKey, cal.monthKey(cal.subMonths(now, months - 1 - j)));
      }
    }
    if forall x :: x in expenses ==> x.amount >= 0.0 {
      assert forall i :: 0 <= i < |expenseEntries| ==> expenses[i] in expenses;
      forall j | 0 <= j < |data|
        ensures 0.0 <= data[j].expense <= GetSum(expenseEntries, user, w)
      {
        BucketWithinWindow(expenseEntries, user, w, cal.monthKey, cal.monthKey(cal.subMonths(now, months - 1 - j)));
      }
    }
  }

  // ---- getReportSummary --------------------------------------------------------------------

  /** A sum with the number of entries that went into it. */
  datatype Tally = Tally(total: real, count: nat)

  datatype Report = Report(income: Tally, expenses: Tally, savings: real, goals: seq<SavingGoal>)

  /** `countDocuments` with the same filter as `getSum`. */
  function Count(es: seq<Entry>, user: Id, w: DateRange): (n: nat)
    ensures n <= |es|
    ensures n == 0 <==> forall i :: 0 <= i < |es| ==> !Matches(es[i], user, w)
  {
    var m := Matching(es, user, w);
    assert m != [] ==> m[0] in m;
    assert forall i :: 0 <= i < |es| ==> es[i] in es;
    |m|
  }

  /** One more entry adds one to the count when it matches, and nothing otherwise. */
  lemma CountAppend(es: seq<Entry>, x: Entry, user: Id, w: DateRange)
    ensures Count(es + [x], user, w) == Count(es, user, w) + (if Matches(x, user, w) then 1 else 0)
  {
    WhereAppend(es, (e: Entry) => Matches(e, user, w), x);
  }

  /**
   * `getReportSummary` over `[start, end]`: each side's total and count, the savings as income
   * minus expenses, and all of the user's goals.
   */
  function ReportSummary(incomes: seq<Income>, expenses: seq<Expense>, goals: seq<SavingGoal>,
                         user: Id, start: Time, end: Time): (r: Report)
    ensures var w := DateRange(Some(start), Some(end));
            r.income == Tally(GetSum(IncomeEntries(incomes), user, w), Count(IncomeEntries(incomes), user, w))
            && r.expenses == Tally(GetSum(ExpenseEntries(expenses), user, w), Count(ExpenseEntries(expenses), user, w))
    ensures r.savings == r.income.total - r.expenses.total
    ensures forall g :: g in r.goals <==> g in goals && g.userId == user
  {
    var w := DateRange(Some(start), Some(end));
    var ins, outs := IncomeEntries(incomes), ExpenseEntries(expenses);
    var income := Tally(GetSum(ins, user, w), Count(ins, user, w));
    var spent := Tally(GetSum(outs, user, w), Count(outs, user, w));
    Report(income, spent, income.total - spent.total, GoalsOf(goals, user))
  }

  /**
   * With positive amounts an empty side of the report is exactly a side that sums to 0, and
   * neither total is negative.
   */
  lemma ReportTotalsAgreeWithCounts(incomes: seq<Income>, expenses: seq<Expense>, goals: seq<SavingGoal>,
                                    user: Id, start: Time, end: Time)
    requires forall x :: x in incomes ==> x.amount > 0.0
    requires forall x :: x in expenses ==> x.amount > 0.0
    ensures var r := ReportSummary(incomes, expenses, goals, user, start, end);
            0.0 <= r.income.total && (r.income.total == 0.0 <==> r.income.count == 0)
            && 0.0 <= r.expenses.total && (r.expenses.total == 0.0 <==> r.expenses.count == 0)
  {
    var w := DateRange(Some(start), Some(end));
    var ins, outs := IncomeEntries(incomes), ExpenseEntries(expenses);
    assert forall i :: 0 <= i < |ins| ==> incomes[i] in incomes;
    assert forall i :: 0 <= i < |outs| ==> expenses[i] in expenses;
    GetSumZeroIffNoMatch(ins, user, w);
    GetSumZeroIffNoMatch(outs, user, w);
  }

  /**
   * The report over a month and the dashboard's figures for that month agree. Both are built on
   * `getSum` over the same window, so this holds by their definitions.
   */
  lemma ReportAgreesWithDashboard(incomes: seq<Income>, expenses: seq<Expense>, goals: seq<SavingGoal>,
                                  accounts: seq<BankAccount>, user: Id, start: Time, end: Time, year: DateRange)
    ensures var r := ReportSummary(incomes, expenses, goals, user, start, end);
            var d := DashboardMetrics(incomes, expenses, goals, accounts, user, DateRange(Some(start), Some(end)), year);
            r.income.total == d.monthly.income && r.expenses.total == d.monthly.expenses
            && r.savings == d.monthly.savings
  {
  }
}
