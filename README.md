# savr ledger and account store, modelled in Dafny

savr is a personal-finance web application. Its server keeps, per user, bank accounts, income
sources, expense categories, incomes, expenses, saving goals and notifications. It also keeps
the user records behind sign-up and password reset. This project models the server-side rules
of that store:

- **The ledger.** Recording an income adds its amount to the referenced account's balance, and
  recording an expense subtracts it, both in one transaction. So every account always holds its
  opening balance plus its incomes minus its expenses.
- **The accounts.** Creating an account can make it the user's default account, and that clears
  the flag on the user's other accounts.
- **The notifications.** "Mark all read" and "mark these read" are scoped to the caller and only
  ever set the read flag.
- **Registration.** A new user is created with a lower-cased email that must not be taken
  already, and is seeded with two accounts, two income sources and four categories.
- **Password reset.** A request issues a token valid for 60 minutes, and the reset consumes the
  token and sets the new password in one transaction.
- **The read-side rollups** of `src/lib/analytics.ts`:
  - the windowed sums and savings of the dashboard;
  - the monthly-goal and low-balance alerts;
  - the per-category expense breakdown;
  - the month buckets of the income-versus-expense trend;
  - the report summary.

The store is one class, `Store.Database`. It holds the collections the modelled routes read and
write, each as a sequence of records in insertion order, and its `Valid()` predicate is the store's integrity rules:

- unique ids and unique indexes;
- required fields present;
- every account owned by an existing user;
- every income and expense referring to an account, and to a source or category, that belong to
  its own user;
- at most one default account per user;
- the ledger identity, over a ghost map of each account's opening balance.

Each route handler is a method of the class. It keeps `Valid()`, its `ensures` give every
response status and message, and it states the new contents of each collection it writes. Pure
record-level rules (the ledger, default accounts, notifications, tokens, seeding, the
validators, the analytics) are functions with lemmas in their own modules.

What the model takes from outside is passed in: the request's JSON body, the caller's id, the
clock reading, the ids the driver assigns, the random reset token, the password hash, and the
calendar. A fault parameter says which step of a transaction fails. The query helpers the model
does not define are fields of `JsValues.Platform` (`Calendar` for the calendar):

- the validator library's email pattern;
- the `Date` constructor;
- ObjectId casting;
- date-fns month arithmetic and local month names.

Modules, in dependency order:

- `Wrappers`, `Tables` (collections with unique indexes, filters, sorts), `JsValues`, `Http`.
- `ModelsCore`, `ModelsTransactions`, `ModelsAuth`: the documents and their schema defaults.
- `Ledger`, `Validators`, `AccountRules`, `NotificationRules`, `AuthRules`.
- `StoreInvariants`: the integrity rules, and lemmas that each write keeps them.
- `Analytics`, then `Savings`: how the dashboard's lifetime savings relate to the ledger.
- `Store`: the `Database` class with the route handlers.

Two behaviours of the code worth knowing:

- **Default account.** A new default account is inserted first, and its siblings are cleared
  afterwards by a separate `updateMany`. The two writes are not in a transaction
  (src/app/api/accounts/route.ts:38-55).
- **Failed seeding at registration.** When seeding fails part-way, the code answers 500 and keeps
  the user and the seeds already saved. It does not roll back (src/app/api/auth/register/route.ts:38-67, 92-95).

## Model

| member | source | states |
|---|---|---|
| `JsValues.JsLength` | src/lib/validators.ts:5-7 | A string's JavaScript length, in UTF-16 code units, is at least its number of characters and at most twice that number. |
| `JsValues.LowerIdempotent` | src/app/api/auth/register/route.ts:21-30 | Lower-casing is idempotent. So the lower-cased email the duplicate check looks up is the email that is stored. |
| `ModelsCore.NewBankAccount` | src/models/core.ts:4-14 | A new account with no balance gets 0, and with no flag is not the default. A given balance or flag is kept. It keeps the given id, owner, name, kind, bank name, account number, icon and color, and both timestamps are the creation time. |
| `ModelsTransactions.NewIncome` | src/models/transactions.ts:4-12 | A new income with no date is dated at its creation time, and a given date is kept. It keeps its id, owner, amount, description, notes, source and account, and both timestamps are the creation time. |
| `ModelsTransactions.NewExpense` | src/models/transactions.ts:17-26 | The same for an expense, with its merchant, and its category in place of a source. |
| `ModelsTransactions.NewSavingGoal` | src/models/transactions.ts:31-41 | A new goal with no current amount holds 0, and with no flag is not completed. A given amount or flag is kept, and so are its id, owner, name, target, deadline, kind, icon and color. |
| `ModelsTransactions.NewNotification` | src/models/transactions.ts:46-52 | A new notification with no flag is unread, and a given flag is kept. It keeps its id, owner, title, message and kind. |
| `ModelsAuth.InsertSession` | src/models/auth.ts:32-36 | Inserting a session fails exactly when its token is already taken. An insert that succeeds appends the session and keeps the session tokens unique. |
| `ModelsAuth.InsertOAuthAccount` | src/models/auth.ts:13-28 | Inserting an OAuth link fails exactly when its (provider, providerAccountId) pair is taken. An insert that succeeds appends the link and keeps the pairs unique. |
| `Tables.InsertUnique` | src/app/api/incomes/route.ts:82-90 | A create on a collection with a unique index fails exactly when the key is taken. Otherwise the document is appended and the index stays unique. |
| `Tables.InsertIfFresh` | src/app/api/auth/register/route.ts:39-56 | One document of a batch create is saved exactly when its key is free. Nothing else changes. |
| `Tables.InsertEach` | src/app/api/auth/register/route.ts:38-67 | A batch create leaves only old documents and documents of the batch. It grows the collection by at most the batch's size, and keeps the index unique. |
| `Tables.InsertEachAllFresh` | src/app/api/auth/register/route.ts:38-67 | A batch create saves every document exactly when all the keys are free and distinct. In that case the result is the old collection followed by the batch. |
| `Tables.Where` | src/app/api/incomes/route.ts:20-31 | A find returns exactly the documents that match the filter, and never more documents than the collection holds. |
| `Tables.SortDesc` | src/app/api/incomes/route.ts:31-34 | A sort by date, newest first, returns a sorted permutation of its input. |
| `Tables.SortAsc` | src/app/api/accounts/route.ts:15 | A sort by creation time, oldest first, returns a sorted permutation of its input. |
| `Tables.FindFirst` | src/lib/analytics.ts:127 | `Array.find` returns the first element that satisfies the predicate, or none exactly when no element does. |
| `Ledger.Credit` | src/app/api/incomes/route.ts:92-96 | `$inc` adds the delta to the balance of the account with that id and stamps it. Every other account is unchanged. |
| `Ledger.RecordIncomeKeepsBalanced` | src/app/api/incomes/route.ts:82-96 | In a balanced ledger, appending an income and crediting its account keeps every balance equal to its opening balance plus incomes minus expenses. |
| `Ledger.RecordExpenseKeepsBalanced` | src/app/api/expenses/route.ts:80-95 | The same for appending an expense and debiting its account. |
| `Ledger.NewAccountKeepsBalanced` | src/app/api/accounts/route.ts:38-48 | A new account that no transaction references, opened at its creation balance, keeps the ledger balanced. |
| `Ledger.BalancedReadsBalances` | src/app/api/accounts/route.ts:50-55 | An update that keeps ids and balances, such as clearing default flags, keeps the ledger balanced. |
| `Ledger.IncomeThenExpenseRestoresBalance` | src/app/api/expenses/route.ts:91-95 | Crediting and then debiting the same amount on one account restores every balance. |
| `Ledger.PairedEntriesNetZero` | src/app/api/expenses/route.ts:91-95 | In a balanced ledger, an income and an expense of the same amount on one account leave its net flow unchanged. |
| `Validators.ParseRegister` | src/lib/validators.ts:3-9 | A body is accepted exactly when it is strict and has an email of the library's pattern, a password string of at least 8 code units and a name string of 2 to 100. It is then accepted with those three values. |
| `Validators.ParseLogin` | src/lib/validators.ts:11-16 | A body is accepted exactly when it is strict and has an email of the library's pattern and a non-empty password string. It is then accepted with those values. |
| `Validators.ParseResetRequest` | src/lib/validators.ts:18-22 | An accepted reset request is strict and carries the body's email. A body without an email is refused. A strict body with an email is accepted with it. |
| `Validators.ParseReset` | src/lib/validators.ts:24-29 | A body is accepted exactly when it is strict and has a token string of at least 1 code unit and a password string of at least 8. It is then accepted with those values. A short password is refused. |
| `Validators.ParseAccount` | src/lib/validators.ts:31-42 | A body is accepted exactly when it is strict and meets all eight field rules: a name string of 2 to 100; a kind among bank/cash/custom; bank name, account number and icon absent, null or strings of at most 120; a color absent, null or a string of at most 32; a balance absent or a number; a default flag absent or a boolean. It is then accepted with the body's values. |
| `Validators.ParseSource` | src/lib/validators.ts:44-50 | A body is accepted exactly when it is strict and has a name string of 2 to 100, and an icon and a color that are absent, null or strings of at most 120 and 32. It is then accepted with those values. |
| `Validators.ParseCategory` | src/lib/validators.ts:52-59 | The same, with a budget that is absent, null or a non-negative number. A negative budget is refused. |
| `Validators.ParseIncome` | src/lib/validators.ts:61-70 | A body is accepted exactly when it is strict and has a positive amount, a description and notes that are absent, null or strings of at most 255 and 500, a date the `Date` constructor accepts, and source and account id strings that are not empty. It is then accepted with those values and the coerced date. A non-positive amount or an extra key is refused. |
| `Validators.ParseExpense` | src/lib/validators.ts:72-82 | The same for an expense, with a merchant that is absent, null or a string of at most 120, and a category id in place of a source id. |
| `Validators.ParseGoal` | src/lib/validators.ts:84-95 | A body is accepted exactly when it is strict and meets every rule: a name string of 2 to 120; a positive target; a current amount absent or a non-negative number; a deadline absent, null or one the `Date` constructor accepts; a kind among monthly/yearly/custom; an icon and a color absent, null or strings of at most 120 and 32; a completed flag absent or a boolean. It is then accepted with those values. A non-positive target is refused. |
| `Validators.ParseReportQuery` | src/lib/validators.ts:97-103 | A query is accepted exactly when it is an object whose range is absent or known, and whose start and end are absent or accepted by the `Date` constructor. An accepted query keeps the body's range, or has this month when the range is absent, and its bounds are the coerced dates, absent when not given. A body with an unknown range, or with a start or end the `Date` constructor refuses, is refused. |
| `AccountRules.AccountsOf` | src/lib/analytics.ts:51 | The user's accounts are exactly the accounts with that owner. |
| `AccountRules.ClearOtherDefaults` | src/app/api/accounts/route.ts:50-55 | `updateMany` clears the default flag on every other account of the user and stamps those accounts. No other account changes. |
| `AccountRules.ClearLeavesSoleDefault` | src/app/api/accounts/route.ts:38-55 | After the clear, the new account is its user's only default account. |
| `AccountRules.AppendFirstDefaultKeepsOneDefault` | src/app/api/auth/register/route.ts:39-47 | Adding a default account for a user with no default keeps at most one default per user. |
| `AccountRules.CreateKeepsOneDefault` | src/app/api/accounts/route.ts:38-55 | Creating an account, and clearing siblings when it is the default, keeps at most one default per user. |
| `AccountRules.ClearKeepsKeys` | src/app/api/accounts/route.ts:50-55 | Clearing flags keeps each account's id, owner, name, kind and balance. |
| `AccountRules.ValidatedAccountSatisfiesSchema` | src/lib/validators.ts:31-42 | An account built from an accepted body meets the schema's required fields (src/models/core.ts:5-6). |
| `NotificationRules.MarkAllRead` | src/app/api/notifications/route.ts:34-38 | Exactly the caller's unread notifications become read and are stamped. All others are unchanged. |
| `NotificationRules.MarkIdsRead` | src/app/api/notifications/route.ts:39-43 | Exactly the caller's notifications whose ids are listed become read and are stamped. All others are unchanged. |
| `NotificationRules.MarkAllReadEffect` | src/app/api/notifications/route.ts:34-38 | Afterwards a notification is read if and only if it was read before or belongs to the caller. Nothing but the flag and timestamp changes. Other users' notifications are untouched. |
| `NotificationRules.MarkIdsReadEffect` | src/app/api/notifications/route.ts:39-43 | Afterwards a notification is read if and only if it was read before or is listed and the caller's. No flag is cleared. |
| `NotificationRules.MarkAllReadIdempotent` | src/app/api/notifications/route.ts:34-38 | Marking all read a second time, at any clock reading, changes nothing. |
| `NotificationRules.MarkIdsReadIdempotent` | src/app/api/notifications/route.ts:39-43 | Marking the same ids a second time at the same clock reading changes nothing. |
| `AuthRules.NewPasswordReset` | src/app/api/auth/password/request/route.ts:25-34 | An issued reset record expires exactly 60 minutes after issue, and carries the token and the user. |
| `AuthRules.IssuedTokenLifetime` | src/app/api/auth/password/reset/route.ts:21-25 | A freshly issued token is accepted exactly up to 3,600,000 ms after issue, the last millisecond included. |
| `AuthRules.RemoveReset` | src/app/api/auth/password/reset/route.ts:44 | `deleteOne` leaves exactly the records with other ids. |
| `AuthRules.ConsumedTokenIsGone` | src/app/api/auth/password/reset/route.ts:44 | With tokens unique, once a record is deleted no record carries its token. |
| `AuthRules.SetPassword` | src/app/api/auth/password/reset/route.ts:38-42 | The user with that id gets the new hash and is stamped. Every other user is unchanged. |
| `AuthRules.SeedAccounts` | src/app/api/auth/register/route.ts:39-56 | Sign-up seeds "Cash", the default account, and "Primary Bank", not a default. Both are the user's, hold balance 0 and meet the schema. |
| `AuthRules.SeedSources` | src/app/api/auth/register/route.ts:57-60 | Sign-up seeds two income sources, both the user's and meeting the schema. |
| `AuthRules.SeedCategories` | src/app/api/auth/register/route.ts:61-66 | Sign-up seeds four categories, all the user's, without a budget and meeting the schema. |
| `StoreInvariants.CreditKeepsAccountsOk` | src/app/api/incomes/route.ts:92-96 | A balance increment keeps the account rules and the owner table. |
| `StoreInvariants.DebitKeepsAccountsOk` | src/app/api/expenses/route.ts:91-95 | A balance decrement keeps the account rules and the owner table. |
| `StoreInvariants.RecordIncomeKeepsRules` | src/app/api/incomes/route.ts:63-96 | An income with a fresh id, whose account and source belong to its user, keeps the income, account and ledger rules once it is recorded and credited. |
| `StoreInvariants.RecordExpenseKeepsRules` | src/app/api/expenses/route.ts:62-95 | The same for an expense whose account and category belong to its user. |
| `StoreInvariants.RecordIncomeKeepsStore` | src/app/api/incomes/route.ts:76-98 | Recording an income keeps every integrity rule of the store. |
| `StoreInvariants.RecordExpenseKeepsStore` | src/app/api/expenses/route.ts:75-97 | Recording an expense keeps every integrity rule of the store. |
| `StoreInvariants.NewAccountKeepsRules` | src/app/api/accounts/route.ts:38-55 | Creating an account for an existing user keeps the account and ledger rules. A default account is afterwards its user's only default, and other users' accounts are untouched. |
| `StoreInvariants.InsertUserKeepsRules` | src/app/api/auth/register/route.ts:29-33 | Adding a user with a fresh id and email keeps the user rules. The new user owns no account yet. |
| `StoreInvariants.SetPasswordKeepsRules` | src/app/api/auth/password/reset/route.ts:38-42 | Setting a password keeps the user rules and the set of user ids. |
| `StoreInvariants.RemoveResetKeepsRules` | src/app/api/auth/password/reset/route.ts:44 | Deleting a reset record keeps the reset rules. |
| `Analytics.Matching` | src/lib/analytics.ts:9-19 | The `$match` stage keeps exactly the user's entries within the window. Each bound applies only when given. |
| `Analytics.GetSum` | src/lib/analytics.ts:8-23 | `getSum` is 0 when no entry matches. |
| `Analytics.GetSumAppend` | src/lib/analytics.ts:18-22 | One more entry adds its amount to the sum when it matches, and nothing otherwise. |
| `Analytics.GetSumMonotone` | src/lib/analytics.ts:25-49 | With amounts never negative, a tighter window never sums to more. |
| `Analytics.GetSumZeroIffNoMatch` | src/lib/analytics.ts:190-200 | With positive amounts, a window sums to 0 exactly when no entry matches, and never below 0. |
| `Analytics.Round` | src/lib/analytics.ts:62 | `Math.round` gives the integer nearest its argument, with halves rounded up. |
| `Analytics.Progress` | src/lib/analytics.ts:61-63 | A goal's progress is at most 100. It is 0 without a target, and not negative for a positive target and a non-negative current amount. With a target it is the current-to-target percentage rounded to the nearest integer, and 100 exactly when that percentage is at least 99.5. |
| `Analytics.AtRiskMatchesProgress` | src/lib/analytics.ts:61-64 | With a positive target, a goal at risk shows at most 75 percent, and a goal not at risk shows at least 75. |
| `Analytics.GoalsOf` | src/lib/analytics.ts:50 | The user's goals are exactly the goals with that owner. |
| `Analytics.GoalAlerts` | src/lib/analytics.ts:58-66 | The alerts are exactly those of the user's monthly goals, each carrying the goal's progress and risk. No alert shows more than 100. |
| `Analytics.LowBalanceAccounts` | src/lib/analytics.ts:68-70 | An account is alerted exactly when it is the user's and its balance is below 50. |
| `Analytics.DashboardMetrics` | src/lib/analytics.ts:25-102 | The lifetime, month and year windows carry the windowed sums, and each window's savings are its income minus its expenses. The alerts and goals are the user's. |
| `Analytics.DashboardWindowsNest` | src/lib/analytics.ts:28-49 | With the month inside the year and amounts never negative, 0 ≤ month ≤ year ≤ lifetime, for income and for expenses. |
| `Analytics.CategorySum` | src/lib/analytics.ts:115-120 | A category that no expense has sums to 0. |
| `Analytics.CategoryIds` | src/lib/analytics.ts:115-123 | The group keys are distinct, and are exactly the categories that occur among the expenses. |
| `Analytics.GroupsPartitionTotal` | src/lib/analytics.ts:115-120 | Summed over all groups, the group totals are the total of the expenses, so each expense counts once. |
| `Analytics.ExpensesIn` | src/lib/analytics.ts:109-114 | The window's expenses are exactly the user's expenses dated within both bounds. |
| `Analytics.ItemFor` | src/lib/analytics.ts:126-134 | A row takes the name, icon and color of a category with its id, or "Uncategorised" with no icon or color when there is none. Its amount is the group's sum. |
| `Analytics.ItemsTotalIsGroupTotal` | src/lib/analytics.ts:126-135 | The rows' amounts add up to the group totals. |
| `Analytics.CategoryBreakdown` | src/lib/analytics.ts:105-136 | The breakdown's rows have distinct ids. Each id is the category of some expense in the window, every such expense's category has a row, and each row is its group. |
| `Analytics.BreakdownCovers` | src/lib/analytics.ts:115-129 | The rows are exactly the categories of the window's expenses, each once. |
| `Analytics.BreakdownAddsUpToGetSum` | src/lib/analytics.ts:105-136 | The breakdown's amounts add up to `getSum` of the user's expenses over the same window. |
| `Analytics.BucketSum` | src/lib/analytics.ts:156-164 | A month in which no entry falls has a bucket of 0. |
| `Analytics.BucketSumBounded` | src/lib/analytics.ts:159-162 | With amounts never negative, a month's bucket lies between 0 and the total. |
| `Analytics.MapByMonth` | src/lib/analytics.ts:156-164 | The reduce has a key exactly for each month in which some entry falls, and each key's value is that month's bucket. A missing key reads as 0. |
| `Analytics.TrendPoints` | src/lib/analytics.ts:169-178 | There is one point per month, for i from months − 1 down to 0, each labelled with its month and looked up in both maps. There are no points when months ≤ 0. |
| `Analytics.BucketWithinWindow` | src/lib/analytics.ts:141-164 | With amounts never negative, a month's bucket of the window never exceeds the window's `getSum`. |
| `Analytics.IncomeVsExpenseTrend` | src/lib/analytics.ts:138-181 | There are max(months, 0) points, oldest first. Point j is month months−1−j back. Its income and expense are the totals of the user's entries in the window that fall in that month. With amounts never negative, each lies between 0 and the window's sum. |
| `Analytics.Count` | src/lib/analytics.ts:193-194 | `countDocuments` is at most the number of entries, and is 0 exactly when none matches. |
| `Analytics.CountAppend` | src/lib/analytics.ts:193-194 | One more entry adds one to the count when it matches the owner and window, and nothing otherwise. |
| `Analytics.ReportSummary` | src/lib/analytics.ts:183-204 | Each side's total is `getSum` over `[start, end]` and its count the number of matches. Savings are income minus expenses, and the goals are the user's. |
| `Analytics.ReportTotalsAgreeWithCounts` | src/lib/analytics.ts:190-200 | With positive amounts, each side's total is not negative, and is 0 exactly when its count is 0. |
| `Analytics.ReportAgreesWithDashboard` | src/lib/analytics.ts:190-201 | The report over a month agrees with the dashboard's figures for that month. |
| `Savings.NetChangeIsAccountFlow` | src/app/api/incomes/route.ts:92-96 | In a balanced ledger, the accounts' net change since opening is their incomes minus their expenses. |
| `Savings.AccountIncomeIsGetSum` | src/lib/analytics.ts:44 | When an income references one of the accounts exactly when it is the user's, the incomes recorded against those accounts are the user's lifetime income. |
| `Savings.AccountExpenseIsGetSum` | src/lib/analytics.ts:45 | The same for expenses. |
| `Savings.OwnedReference` | src/app/api/incomes/route.ts:63-74 | With unique account ids, a reference checked against the owner table points at one of the user's accounts exactly when it belongs to the user. |
| `Savings.LifetimeSavingsAreBalanceChange` | src/lib/analytics.ts:44-54 | In a store that keeps the integrity rules, the dashboard's lifetime savings are the net change of the user's account balances since each account was opened. |
| `Store.IncomesOf` | src/app/api/incomes/route.ts:20-31 | The income query returns exactly the caller's incomes within the given bounds. |
| `Store.ExpensesOf` | src/app/api/expenses/route.ts:19-30 | The expense query returns exactly the caller's expenses within the given bounds. |
| `Store.NotificationsOf` | src/app/api/notifications/route.ts:16 | The notification query returns exactly the caller's notifications. |
| `Store.UserByEmail` | src/app/api/auth/register/route.ts:21 | `findOne({ email })` finds a user with that email, or none exactly when no user has it. |
| `Store.ResetByToken` | src/app/api/auth/password/reset/route.ts:21 | `findOne({ token })` finds a record with that token, or none exactly when no record has it. |
| `Store.Database.SavingsMatchBalances` | src/lib/analytics.ts:44-54 | In every valid store, each user's lifetime savings on the dashboard equal the net change of their balances. |
| `Store.Database.PostIncome` | src/app/api/incomes/route.ts:48-119 | See the bullets below this table. |
| `Store.Database.CreateIncome` | src/app/api/incomes/route.ts:60-119 | The account and source lookups, then the transaction: a 400 for each missing reference and a 500 for a failed session, with nothing changed. On success a 201 with the new income. |
| `Store.Database.RecordIncome` | src/app/api/incomes/route.ts:76-98 | The transaction commits exactly when no step fails and the id is free. Then the income is appended and its account credited, and otherwise nothing changes. |
| `Store.Database.GetIncomes` | src/app/api/incomes/route.ts:10-46 | 401 when signed out, and 500 for an unparseable bound. Otherwise 200 with exactly the caller's incomes in the window, newest first. |
| `Store.Database.PostExpense` | src/app/api/expenses/route.ts:47-116 | The same as `PostIncome` for expenses: a 400 for a missing account or category, and the account debited. |
| `Store.Database.CreateExpense` | src/app/api/expenses/route.ts:60-116 | The same as `CreateIncome` for expenses. |
| `Store.Database.RecordExpense` | src/app/api/expenses/route.ts:75-97 | The same as `RecordIncome` for expenses, with the account debited. |
| `Store.Database.GetExpenses` | src/app/api/expenses/route.ts:10-45 | The same as `GetIncomes` for expenses. |
| `Store.Database.PostAccount` | src/app/api/accounts/route.ts:22-60 | See the bullets below this table. |
| `Store.Database.InsertAccount` | src/app/api/accounts/route.ts:38-55 | The account is appended and opened at its balance. A default account clears the other defaults of its user and is then its user's only default. Other users' accounts are untouched. |
| `Store.Database.GetAccounts` | src/app/api/accounts/route.ts:8-20 | 401 when signed out. Otherwise 200 with exactly the caller's accounts, oldest first. |
| `Store.Database.GetNotifications` | src/app/api/notifications/route.ts:9-21 | 401 when signed out. Otherwise 200 with exactly the caller's notifications, newest first. |
| `Store.Database.PatchNotifications` | src/app/api/notifications/route.ts:23-47 | See the bullets below this table. |
| `Store.Database.Register` | src/app/api/auth/register/route.ts:11-96 | See the bullets below this table. |
| `Store.Database.CreateUser` | src/app/api/auth/register/route.ts:29-91 | See the bullets below this table. |
| `Store.Database.SeedAccountsOf` | src/app/api/auth/register/route.ts:39-56 | The seed accounts are batch-created. The batch completes exactly when their ids are free, and then "Cash" is the user's only default. |
| `Store.Database.SeedSourcesOf` | src/app/api/auth/register/route.ts:57-60 | The seed sources are batch-created, completing exactly when their ids are free. |
| `Store.Database.SeedCategoriesOf` | src/app/api/auth/register/route.ts:61-66 | The seed categories are batch-created, completing exactly when their ids are free. |
| `Store.Database.SeedAccount` | src/app/api/auth/register/route.ts:39-56 | One seed account is saved exactly when its id is free, and is opened at its balance. |
| `Store.Database.SeedSource` | src/app/api/auth/register/route.ts:57-60 | One seed source is saved exactly when its id is free. |
| `Store.Database.SeedCategory` | src/app/api/auth/register/route.ts:61-66 | One seed category is saved exactly when its id is free. |
| `Store.Database.RequestPasswordReset` | src/app/api/auth/password/request/route.ts:9-45 | See the bullets below this table. |
| `Store.Database.ResetPassword` | src/app/api/auth/password/reset/route.ts:11-78 | See the bullets below this table. |
| `Store.Database.ConsumeReset` | src/app/api/auth/password/reset/route.ts:32-56 | The password is set and the record deleted, so its token no longer finds a record. The reply is 200 with a 7-day session cookie, or 404 "User not found" when the user is gone. |

The rows that point below this table, in full:

- **`Store.Database.PostIncome`**
  - 401 when signed out, and a 500 for an unreadable body.
  - A 422 when the validator refuses the body.
  - Otherwise the outcome of `CreateIncome`, where an id the driver cannot cast is a 500.
  - It always keeps the store's integrity rules.
  - On success the income is appended to the incomes.
- **`Store.Database.PostAccount`**
  - 401, 500 for an unreadable body, and 422 when validation fails.
  - On success a 201 with the new account.
  - A default account leaves the user no other default.
  - Other users' accounts are untouched.
- **`Store.Database.PatchNotifications`**
  - 401 when signed out.
  - A missing or non-array `ids`, or an empty array, marks all of the caller's notifications read.
  - A non-empty array with an uncastable id is a 500, with nothing changed.
  - Otherwise the listed notifications are marked read.
  - No flag is ever cleared.
- **`Store.Database.Register`**
  - 500 "Unable to register" for an unreadable body, with nothing changed.
  - 422 when validation fails.
  - 409 when the lower-cased email is taken.
  - Otherwise the user is created with the lower-cased email and the seeds.
  - An empty lower-cased email, or a taken user id, is a 500 with nothing changed.
  - A reply of 201 means the user is signed in and has no default account other than the seeded "Cash".
- **`Store.Database.CreateUser`**
  - The user is appended and the three seed batches are created.
  - The reply is 201, with the user's id, email and name and a 7-day cookie, exactly when every seed was saved.
  - Otherwise the reply is 500 "Unable to register".
- **`Store.Database.RequestPasswordReset`**
  - 500 for an unreadable body, and 422 when validation fails.
  - The same 200 for an unknown email as for a known one.
  - For a known email, a record is added with the user, the token and an expiry 60 minutes later.
  - A taken token or record id is a 500, with nothing changed.
- **`Store.Database.ResetPassword`**
  - 500 for an unreadable body, and 422 when validation fails.
  - 400 "Invalid or expired reset token" for an unknown token, or one whose expiry is before now.
  - A failed transaction is a 500 with nothing changed.
  - Otherwise the outcome of `ConsumeReset`.

## Left out

- The amend and remove handlers for incomes and expenses, and the routes for categories, income
  sources, saving goals, login, session, logout, dashboard and reports. They are not part of this
  model. Only the validators of the bodies they accept are modelled, along with the analytics
  functions the dashboard and reports routes call.
- Concurrency: every handler runs alone, so interleaved requests are not modelled. In particular
  there is no race between the account insert and the `updateMany` of `POST /api/accounts`. The
  model performs both steps together and does not model a failure between them.
- Numbers are exact reals. Binary floating point and `NaN` are not modelled, so `|| 0` and
  `?? 0` matter only for missing values.
- PostIncome: a 422 is stated by its status only. The message joins the validator's form errors,
  and the validator library's message text is not modelled. Likewise for PostExpense,
  PostAccount, Register, RequestPasswordReset and ResetPassword.
- `JsValues.Lower` lower-cases ASCII letters only. `toLowerCase` also folds other alphabets.
- Ids are compared as strings. An id string that the driver cannot cast to an ObjectId is a 500
  wherever the handler casts it.
- PatchNotifications: an element of `ids` that is not a string is a 500 by the model's choice.
  The driver's cast rule for such values is not captured: it passes `null` through, so
  `{"ids": [null]}` marks nothing and answers 200, and it casts an object through its `_id`.
- Register: seed inserts fail only on an id collision. Other per-document failures are not
  modelled. Within each batch the documents are saved in order, and each is saved exactly when
  its id is free.
- The calendar (date-fns `startOfMonth`, `subMonths`, `endOfMonth`, `startOfYear`, local month
  keys and month names) is a parameter. The dashboard's month and year windows are given as date
  ranges.
- The month key of the trend is the pair (year, month) rather than the string
  `` `${year}-${month}` ``. The string is injective for months 1 to 12, so the buckets are the same.
- Cryptography is not modelled: the password hash, the JWT in the session cookie and the random
  reset token are inputs. The cookie is modelled by its subject and `maxAge`.
- The password-reset request uses a second client (Prisma) for users and reset records. The
  model treats both as the same collections as the other routes.
- The breakdown's `$group` stage emits its groups in order of each category's first expense.
  MongoDB does not guarantee any order there.
- `populate`, `toObject` and the string forms of ids in responses are not modelled. A response
  carries the stored record.
- AccountsOf: the order of the result is not stated. `find` without a sort promises no order, so
  the model states membership only.
- IncomeVsExpenseTrend: `months` is a required parameter. The source declares a default of 6, and
  every caller passes 6.
- The store rules do not require the owner of a source, category, notification or reset record to
  be an existing user. MongoDB enforces no references, and the routes that create sources and
  categories are not part of this model.
- Email sending and logging (`console.info`, `console.error`) are not modelled.
