/**
 * The zod schemas of src/lib/validators.ts as parse functions: `safeParse(payload)` either fails
 * (None) or yields the parsed data (Some), with `.optional()` and `.nullable()` values that are
 * missing or null both read as None, as the routes' `?? null` treats them. `.strict()` schemas
 * reject unknown keys; string bounds count UTF-16 code units.
 */
module Validators {
  import opened Wrappers
  import opened JsValues

  type Fields = map<string, Json>

  // ---- field rules --------------------------------------------------------------------------

  /** `z.string().min(lo).max(hi)` */
  predicate IsText(f: Fields, k: string, lo: nat, hi: nat) {
    k in f && f[k].JStr? && lo <= JsLength(f[k].s) <= hi
  }

  /** `z.string().min(lo)` */
  predicate IsTextFrom(f: Fields, k: string, lo: nat) {
    k in f && f[k].JStr? && lo <= JsLength(f[k].s)
  }

  /** `z.string().email()` */
  predicate IsEmail(p: Platform, f: Fields, k: string) {
    k in f && f[k].JStr? && p.isEmail(f[k].s)
  }

  /** `z.string().max(hi).optional().nullable()` */
  predicate IsOptText(f: Fields, k: string, hi: nat) {
    k !in f || f[k].JNull? || (f[k].JStr? && JsLength(f[k].s) <= hi)
  }

  /** `z.enum(options)` */
  predicate IsEnum(f: Fields, k: string, options: set<string>) {
    k in f && f[k].JStr? && f[k].s in options
  }

  /** `z.number().positive()` */
  predicate IsPositive(f: Fields, k: string) {
    k in f && f[k].JNum? && f[k].n > 0.0
  }

  /** `z.number().optional()` */
  predicate IsOptNumber(f: Fields, k: string) {
    k !in f || f[k].JNum?
  }

  /** `z.number().min(0).optional()` */
  predicate IsOptNonNegative(f: Fields, k: string) {
    k !in f || (f[k].JNum? && f[k].n >= 0.0)
  }

  /** `z.number().nonnegative().optional().nullable()` */
  predicate IsOptNullableNonNegative(f: Fields, k: string) {
    k !in f || f[k].JNull? || (f[k].JNum? && f[k].n >= 0.0)
  }

  /** `z.boolean().optional()` */
  predicate IsOptBool(f: Fields, k: string) {
    k !in f || f[k].JBool?
  }

  /** `z.coerce.date()`: `new Date(value)` must be a valid date; a missing value is `new Date(undefined)`, invalid. */
  predicate IsDate(p: Platform, f: Fields, k: string) {
    k in f && p.toDate(f[k]).Some?
  }

  /** `z.coerce.date().optional()`: a missing value passes; any present value is coerced. */
  predicate IsOptDate(p: Platform, f: Fields, k: string) {
    k !in f || p.toDate(f[k]).Some?
  }

  /** `z.coerce.date().optional().nullable()`: missing and null pass; anything else is coerced. */
  predicate IsOptNullableDate(p: Platform, f: Fields, k: string) {
    k !in f || f[k].JNull? || p.toDate(f[k]).Some?
  }

  function TextOf(f: Fields, k: string): string
    requires k in f && f[k].JStr?
  {
    f[k].s
  }

  function OptTextOf(f: Fields, k: string): Option<string> {
    if k in f && f[k].JStr? then Some(f[k].s) else None
  }

  function OptNumberOf(f: Fields, k: string): Option<real> {
    if k in f && f[k].JNum? then Some(f[k].n) else None
  }

  function OptBoolOf(f: Fields, k: string): Option<bool> {
    if k in f && f[k].JBool? then Some(f[k].b) else None
  }

  function DateOf(p: Platform, f: Fields, k: string): Time
    requires IsDate(p, f, k)
  {
    p.toDate(f[k]).value
  }

  function OptDateOf(p: Platform, f: Fields, k: string): Option<Time> {
    if k in f && !f[k].JNull? then p.toDate(f[k]) else None
  }

  /** The value under key `k` of an object payload. */
  function Field(body: Json, k: string): Option<Json> {
    if body.JObj? && k in body.fields then Some(body.fields[k]) else None
  }

  /** `.strict()`: the payload is an object and has no key outside `keys`. */
  predicate Strict(body: Json, keys: set<string>) {
    body.JObj? && body.fields.Keys <= keys
  }

  /** A present optional text is within `hi` code units. */
  predicate AtMost(s: Option<string>, hi: nat) {
    s.None? || JsLength(s.value) <= hi
  }

  // ---- parsed payloads ----------------------------------------------------------------------

  datatype RegisterInput = RegisterInput(email: string, password: string, name: string)
  datatype LoginInput = LoginInput(email: string, password: string)
  datatype ResetRequestInput = ResetRequestInput(email: string)
  datatype ResetInput = ResetInput(token: string, password: string)
  datatype AccountInput = AccountInput(
    name: string, kind: string, bankName: Option<string>, accountNumber: Option<string>,
    icon: Option<string>, color: Option<string>, balance: Option<real>, isDefault: Option<bool>)
  datatype SourceInput = SourceInput(name: string, icon: Option<string>, color: Option<string>)
  datatype CategoryInput = CategoryInput(name: string, icon: Option<string>, color: Option<string>, budget: Option<real>)
  datatype IncomeInput = IncomeInput(
    amount: real, description: Option<string>, notes: Option<string>, date: Time,
    sourceId: string, accountId: string)
  datatype ExpenseInput = ExpenseInput(
    amount: real, description: Option<string>, notes: Option<string>, merchant: Option<string>,
    date: Time, categoryId: string, accountId: string)
  datatype GoalInput = GoalInput(
    name: string, targetAmount: real, currentAmount: Option<real>, deadline: Option<Time>,
    kind: string, icon: Option<string>, color: Option<string>, isCompleted: Option<bool>)
  datatype ReportQuery = ReportQuery(range: string, start: Option<Time>, end: Option<Time>)

  const AccountKinds: set<string> := {"bank", "cash", "custom"}
  const GoalKinds: set<string> := {"monthly", "yearly", "custom"}
  const ReportRanges: set<string> := {"thisMonth", "lastMonth", "thisYear", "lastYear", "30d", "custom"}

  const RegisterKeys: set<string> := {"email", "password", "name"}
  const LoginKeys: set<string> := {"email", "password"}
  const ResetRequestKeys: set<string> := {"email"}
  const ResetKeys: set<string> := {"token", "password"}
  const AccountKeys: set<string> :=
    {"name", "type", "bankName", "accountNumber", "icon", "color", "balance", "isDefault"}
  const SourceKeys: set<string> := {"name", "icon", "color"}
  const CategoryKeys: set<string> := {"name", "icon", "color", "budget"}
  const IncomeKeys: set<string> := {"amount", "description", "notes", "date", "sourceId", "accountId"}
  const ExpenseKeys: set<string> :=
    {"amount", "description", "notes", "merchant", "date", "categoryId", "accountId"}
  const GoalKeys: set<string> :=
    {"name", "targetAmount", "currentAmount", "deadline", "type", "icon", "color", "isCompleted"}

  // ---- schemas ------------------------------------------------------------------------------

  /** `registerSchema` */
  function ParseRegister(p: Platform, body: Json): (r: Option<RegisterInput>)
    ensures r.Some? ==> Strict(body, RegisterKeys)
    ensures r.Some? ==> p.isEmail(r.value.email) && Field(body, "email") == Some(JStr(r.value.email))
    ensures r.Some? ==> JsLength(r.value.password) >= 8
    ensures r.Some? ==> 2 <= JsLength(r.value.name) <= 100
    ensures (body.JObj? && "password" in body.fields && body.fields["password"].JStr?
            && JsLength(body.fields["password"].s) < 8)
            ==> r.None?
    ensures (Strict(body, RegisterKeys) && IsEmail(p, body.fields, "email")
             && IsTextFrom(body.fields, "password", 8) && IsText(body.fields, "name", 2, 100))
            ==> r == Some(RegisterInput(body.fields["email"].s, body.fields["password"].s, body.fields["name"].s))
    ensures r.Some? ==> Strict(body, RegisterKeys) && IsEmail(p, body.fields, "email")
                        && IsTextFrom(body.fields, "password", 8) && IsText(body.fields, "name", 2, 100)
  {
    if Strict(body, RegisterKeys) && IsEmail(p, body.fields, "email")
       && IsTextFrom(body.fields, "password", 8) && IsText(body.fields, "name", 2, 100)
    then
      var f := body.fields;
      Some(RegisterInput(TextOf(f, "email"), TextOf(f, "password"), TextOf(f, "name")))
    else None
  }

  /** `loginSchema` */
  function ParseLogin(p: Platform, body: Json): (r: Option<LoginInput>)
    ensures r.Some? ==> Strict(body, LoginKeys) && p.isEmail(r.value.email)
    ensures r.Some? ==> JsLength(r.value.password) >= 1
    ensures (Strict(body, LoginKeys) && IsEmail(p, body.fields, "email") && IsTextFrom(body.fields, "password", 1))
            ==> r == Some(LoginInput(body.fields["email"].s, body.fields["password"].s))
    ensures r.Some? ==> Strict(body, LoginKeys) && IsEmail(p, body.fields, "email") && IsTextFrom(body.fields, "password", 1)
  {
    if Strict(body, LoginKeys) && IsEmail(p, body.fields, "email") && IsTextFrom(body.fields, "password", 1)
    then Some(LoginInput(TextOf(body.fields, "email"), TextOf(body.fields, "password")))
    else None
  }

  /** `requestResetSchema` */
  function ParseResetRequest(p: Platform, body: Json): (r: Option<ResetRequestInput>)
    ensures r.Some? ==> Strict(body, ResetRequestKeys) && p.isEmail(r.value.email)
    ensures r.Some? ==> Field(body, "email") == Some(JStr(r.value.email))
    ensures (body.JObj? && "email" !in body.fields)
            ==> r.None?
    ensures (Strict(body, ResetRequestKeys) && IsEmail(p, body.fields, "email"))
            ==> r == Some(ResetRequestInput(body.fields["email"].s))
  {
    if Strict(body, ResetRequestKeys) && IsEmail(p, body.fields, "email")
    then Some(ResetRequestInput(TextOf(body.fields, "email")))
    else None
  }

  /** `resetPasswordSchema` */
  function ParseReset(body: Json): (r: Option<ResetInput>)
    ensures r.Some? ==> Strict(body, ResetKeys)
    ensures r.Some? ==> JsLength(r.value.token) >= 1 && JsLength(r.value.password) >= 8
    ensures r.Some? ==> Field(body, "token") == Some(JStr(r.value.token))
    ensures (body.JObj? && "password" in body.fields && body.fields["password"].JStr?
            && JsLength(body.fields["password"].s) < 8)
            ==> r.None?
    ensures (Strict(body, ResetKeys) && IsTextFrom(body.fields, "token", 1) && IsTextFrom(body.fields, "password", 8))
            ==> r == Some(ResetInput(body.fields["token"].s, body.fields["password"].s))
    ensures r.Some? ==> Strict(body, ResetKeys) && IsTextFrom(body.fields, "token", 1) && IsTextFrom(body.fields, "password", 8)
  {
    if Strict(body, ResetKeys) && IsTextFrom(body.fields, "token", 1) && IsTextFrom(body.fields, "password", 8)
    then Some(ResetInput(TextOf(body.fields, "token"), TextOf(body.fields, "password")))
    else None
  }

  /** `accountPayloadSchema`: `balance` may be any number, negative included. */
  function ParseAccount(body: Json): (r: Option<AccountInput>)
    ensures r.Some? ==> Strict(body, AccountKeys)
    ensures r.Some? ==> 2 <= JsLength(r.value.name) <= 100 && r.value.kind in AccountKinds
    ensures r.Some? ==> AtMost(r.value.bankName, 120) && AtMost(r.value.accountNumber, 120)
                        && AtMost(r.value.icon, 120) && AtMost(r.value.color, 32)
    ensures r.Some? ==> r.value.balance == OptNumberOf(body.fields, "balance")
    ensures r.Some? ==> r.value.isDefault == OptBoolOf(body.fields, "isDefault")
    ensures r.Some? ==> Field(body, "name") == Some(JStr(r.value.name)) && Field(body, "type") == Some(JStr(r.value.kind))
    ensures (Strict(body, AccountKeys) && IsText(body.fields, "name", 2, 100)
             && IsEnum(body.fields, "type", AccountKinds)
             && IsOptText(body.fields, "bankName", 120) && IsOptText(body.fields, "accountNumber", 120)
             && IsOptText(body.fields, "icon", 120) && IsOptText(body.fields, "color", 32)
             && IsOptNumber(body.fields, "balance") && IsOptBool(body.fields, "isDefault"))
            ==> r == Some(AccountInput(body.fields["name"].s, body.fields["type"].s, OptTextOf(body.fields, "bankName"),
                                       OptTextOf(body.fields, "accountNumber"), OptTextOf(body.fields, "icon"),
                                       OptTextOf(body.fields, "color"), OptNumberOf(body.fields, "balance"),
                                       OptBoolOf(body.fields, "isDefault")))
    ensures r.Some? ==> Strict(body, AccountKeys) && IsText(body.fields, "name", 2, 100)
                        && IsEnum(body.fields, "type", AccountKinds)
                        && IsOptText(body.fields, "bankName", 120) && IsOptText(body.fields, "accountNumber", 120)
                        && IsOptText(body.fields, "icon", 120) && IsOptText(body.fields, "color", 32)
                        && IsOptNumber(body.fields, "balance") && IsOptBool(body.fields, "isDefault")
  {
    if Strict(body, AccountKeys) && IsText(body.fields, "name", 2, 100)
       && IsEnum(body.fields, "type", AccountKinds)
       && IsOptText(body.fields, "bankName", 120) && IsOptText(body.fields, "accountNumber", 120)
       && IsOptText(body.fields, "icon", 120) && IsOptText(body.fields, "color", 32)
       && IsOptNumber(body.fields, "balance") && IsOptBool(body.fields, "isDefault")
    then
      var f := body.fields;
      Some(AccountInput(TextOf(f, "name"), TextOf(f, "type"), OptTextOf(f, "bankName"),
                        OptTextOf(f, "accountNumber"), OptTextOf(f, "icon"), OptTextOf(f, "color"),
                        OptNumberOf(f, "balance"), OptBoolOf(f, "isDefault")))
    else None
  }

  /** `incomeSourceSchema` */
  function ParseSource(body: Json): (r: Option<SourceInput>)
    ensures r.Some? ==> Strict(body, SourceKeys) && 2 <= JsLength(r.value.name) <= 100
    ensures r.Some? ==> AtMost(r.value.icon, 120) && AtMost(r.value.color, 32)
    ensures (Strict(body, SourceKeys) && IsText(body.fields, "name", 2, 100)
             && IsOptText(body.fields, "icon", 120) && IsOptText(body.fields, "color", 32))
            ==> r == Some(SourceInput(body.fields["name"].s, OptTextOf(body.fields, "icon"), OptTextOf(body.fields, "color")))
    ensures r.Some? ==> Strict(body, SourceKeys) && IsText(body.fields, "name", 2, 100)
                        && IsOptText(body.fields, "icon", 120) && IsOptText(body.fields, "color", 32)
  {
    if Strict(body, SourceKeys) && IsText(body.fields, "name", 2, 100)
       && IsOptText(body.fields, "icon", 120) && IsOptText(body.fields, "color", 32)
    then
      var f := body.fields;
      Some(SourceInput(TextOf(f, "name"), OptTextOf(f, "icon"), OptTextOf(f, "color")))
    else None
  }

  /** `categorySchema`: a present `budget` is non-negative. */
  function ParseCategory(body: Json): (r: Option<CategoryInput>)
    ensures r.Some? ==> Strict(body, CategoryKeys) && 2 <= JsLength(r.value.name) <= 100
    ensures r.Some? ==> AtMost(r.value.icon, 120) && AtMost(r.value.color, 32)
    ensures r.Some? && r.value.budget.Some? ==> r.value.budget.value >= 0.0
    ensures (body.JObj? && "budget" in body.fields && body.fields["budget"].JNum?
            && body.fields["budget"].n < 0.0)
            ==> r.None?
    ensures (Strict(body, CategoryKeys) && IsText(body.fields, "name", 2, 100)
             && IsOptText(body.fields, "icon", 120) && IsOptText(body.fields, "color", 32)
             && IsOptNullableNonNegative(body.fields, "budget"))
            ==> r == Some(CategoryInput(body.fields["name"].s, OptTextOf(body.fields, "icon"),
                                        OptTextOf(body.fields, "color"), OptNumberOf(body.fields, "budget")))
    ensures r.Some? ==> Strict(body, CategoryKeys) && IsText(body.fields, "name", 2, 100)
                        && IsOptText(body.fields, "icon", 120) && IsOptText(body.fields, "color", 32)
                        && IsOptNullableNonNegative(body.fields, "budget")
  {
    if Strict(body, CategoryKeys) && IsText(body.fields, "name", 2, 100)
       && IsOptText(body.fields, "icon", 120) && IsOptText(body.fields, "color", 32)
       && IsOptNullableNonNegative(body.fields, "budget")
    then
      var f := body.fields;
      Some(CategoryInput(TextOf(f, "name"), OptTextOf(f, "icon"), OptTextOf(f, "color"), OptNumberOf(f, "budget")))
    else None
  }

  /** `incomeSchema`: a strictly positive amount, bounded texts, non-empty references. */
  function ParseIncome(p: Platform, body: Json): (r: Option<IncomeInput>)
    ensures r.Some? ==> Strict(body, IncomeKeys)
    ensures r.Some? ==> r.value.amount > 0.0 && Field(body, "amount") == Some(JNum(r.value.amount))
    ensures r.Some? ==> AtMost(r.value.description, 255) && AtMost(r.value.notes, 500)
    ensures r.Some? ==> r.value.description == OptTextOf(body.fields, "description")
                        && r.value.notes == OptTextOf(body.fields, "notes")
    ensures r.Some? ==> Field(body, "date").Some? && p.toDate(Field(body, "date").value) == Some(r.value.date)
    ensures r.Some? ==> r.value.sourceId != "" && Field(body, "sourceId") == Some(JStr(r.value.sourceId))
    ensures r.Some? ==> r.value.accountId != "" && Field(body, "accountId") == Some(JStr(r.value.accountId))
    ensures (body.JObj? && "amount" in body.fields && body.fields["amount"].JNum?
            && body.fields["amount"].n <= 0.0)
            ==> r.None?
    ensures (body.JObj? && !(body.fields.Keys <= IncomeKeys))
            ==> r.None?
    ensures (Strict(body, IncomeKeys) && IsPositive(body.fields, "amount")
             && IsOptText(body.fields, "description", 255) && IsOptText(body.fields, "notes", 500)
             && IsDate(p, body.fields, "date")
             && IsTextFrom(body.fields, "sourceId", 1) && IsTextFrom(body.fields, "accountId", 1))
            ==> r == Some(IncomeInput(body.fields["amount"].n, OptTextOf(body.fields, "description"),
                                      OptTextOf(body.fields, "notes"), p.toDate(body.fields["date"]).value,
                                      body.fields["sourceId"].s, body.fields["accountId"].s))
    ensures r.Some? ==> Strict(body, IncomeKeys) && IsPositive(body.fields, "amount")
                        && IsOptText(body.fields, "description", 255) && IsOptText(body.fields, "notes", 500)
                        && IsDate(p, body.fields, "date")
                        && IsTextFrom(body.fields, "sourceId", 1) && IsTextFrom(body.fields, "accountId", 1)
  {
    if Strict(body, IncomeKeys) && IsPositive(body.fields, "amount")
       && IsOptText(body.fields, "description", 255) && IsOptText(body.fields, "notes", 500)
       && IsDate(p, body.fields, "date")
       && IsTextFrom(body.fields, "sourceId", 1) && IsTextFrom(body.fields, "accountId", 1)
    then
      var f := body.fields;
      Some(IncomeInput(f["amount"].n, OptTextOf(f, "description"), OptTextOf(f, "notes"),
                       DateOf(p, f, "date"), TextOf(f, "sourceId"), TextOf(f, "accountId")))
    else None
  }

  /** `expenseSchema`: the income rules plus a `merchant` of at most 120 code units and a non-empty `categoryId`. */
  function ParseExpense(p: Platform, body: Json): (r: Option<ExpenseInput>)
    ensures r.Some? ==> Strict(body, ExpenseKeys)
    ensures r.Some? ==> r.value.amount > 0.0 && Field(body, "amount") == Some(JNum(r.value.amount))
    ensures r.Some? ==> AtMost(r.value.description, 255) && AtMost(r.value.notes, 500)
                        && AtMost(r.value.merchant, 120)
    ensures r.Some? ==> r.value.description == OptTextOf(body.fields, "description")
                        && r.value.notes == OptTextOf(body.fields, "notes")
                        && r.value.merchant == OptTextOf(body.fields, "merchant")
    ensures r.Some? ==> Field(body, "date").Some? && p.toDate(Field(body, "date").value) == Some(r.value.date)
    ensures r.Some? ==> r.value.categoryId != "" && Field(body, "categoryId") == Some(JStr(r.value.categoryId))
    ensures r.Some? ==> r.value.accountId != "" && Field(body, "accountId") == Some(JStr(r.value.accountId))
    ensures (body.JObj? && "amount" in body.fields && body.fields["amount"].JNum?
            && body.fields["amount"].n <= 0.0)
            ==> r.None?
    ensures (body.JObj? && !(body.fields.Keys <= ExpenseKeys))
            ==> r.None?
    ensures (Strict(body, ExpenseKeys) && IsPositive(body.fields, "amount")
             && IsOptText(body.fields, "description", 255) && IsOptText(body.fields, "notes", 500)
             && IsOptText(body.fields, "merchant", 120) && IsDate(p, body.fields, "date")
             && IsTextFrom(body.fields, "categoryId", 1) && IsTextFrom(body.fields, "accountId", 1))
            ==> r == Some(ExpenseInput(body.fields["amount"].n, OptTextOf(body.fields, "description"),
                                       OptTextOf(body.fields, "notes"), OptTextOf(body.fields, "merchant"),
                                       p.toDate(body.fields["date"]).value,
                                       body.fields["categoryId"].s, body.fields["accountId"].s))
    ensures r.Some? ==> Strict(body, ExpenseKeys) && IsPositive(body.fields, "amount")
                        && IsOptText(body.fields, "description", 255) && IsOptText(body.fields, "notes", 500)
                        && IsOptText(body.fields, "merchant", 120) && IsDate(p, body.fields, "date")
                        && IsTextFrom(body.fields, "categoryId", 1) && IsTextFrom(body.fields, "accountId", 1)
  {
    if Strict(body, ExpenseKeys) && IsPositive(body.fields, "amount")
       && IsOptText(body.fields, "description", 255) && IsOptText(body.fields, "notes", 500)
       && IsOptText(body.fields, "merchant", 120) && IsDate(p, body.fields, "date")
       && IsTextFrom(body.fields, "categoryId", 1) && IsTextFrom(body.fields, "accountId", 1)
    then
      var f := body.fields;
      Some(ExpenseInput(f["amount"].n, OptTextOf(f, "description"), OptTextOf(f, "notes"),
                        OptTextOf(f, "merchant"), DateOf(p, f, "date"), TextOf(f, "categoryId"),
                        TextOf(f, "accountId")))
    else None
  }

  /** `savingGoalSchema`: a positive target, a non-negative current amount when present, a known kind. */
  function ParseGoal(p: Platform, body: Json): (r: Option<GoalInput>)
    ensures r.Some? ==> Strict(body, GoalKeys) && 2 <= JsLength(r.value.name) <= 120
    ensures r.Some? ==> r.value.targetAmount > 0.0 && r.value.kind in GoalKinds
    ensures r.Some? && r.value.currentAmount.Some? ==> r.value.currentAmount.value >= 0.0
    ensures r.Some? ==> AtMost(r.value.icon, 120) && AtMost(r.value.color, 32)
    ensures (body.JObj? && "targetAmount" in body.fields && body.fields["targetAmount"].JNum?
            && body.fields["targetAmount"].n <= 0.0)
            ==> r.None?
    ensures (Strict(body, GoalKeys) && IsText(body.fields, "name", 2, 120)
             && IsPositive(body.fields, "targetAmount") && IsOptNonNegative(body.fields, "currentAmount")
             && IsOptNullableDate(p, body.fields, "deadline") && IsEnum(body.fields, "type", GoalKinds)
             && IsOptText(body.fields, "icon", 120) && IsOptText(body.fields, "color", 32)
             && IsOptBool(body.fields, "isCompleted"))
            ==> r == Some(GoalInput(body.fields["name"].s, body.fields["targetAmount"].n,
                                    OptNumberOf(body.fields, "currentAmount"), OptDateOf(p, body.fields, "deadline"),
                                    body.fields["type"].s, OptTextOf(body.fields, "icon"),
                                    OptTextOf(body.fields, "color"), OptBoolOf(body.fields, "isCompleted")))
    ensures r.Some? ==> Strict(body, GoalKeys) && IsText(body.fields, "name", 2, 120)
                        && IsPositive(body.fields, "targetAmount") && IsOptNonNegative(body.fields, "currentAmount")
                        && IsOptNullableDate(p, body.fields, "deadline") && IsEnum(body.fields, "type", GoalKinds)
                        && IsOptText(body.fields, "icon", 120) && IsOptText(body.fields, "color", 32)
                        && IsOptBool(body.fields, "isCompleted")
  {
    if Strict(body, GoalKeys) && IsText(body.fields, "name", 2, 120)
       && IsPositive(body.fields, "targetAmount") && IsOptNonNegative(body.fields, "currentAmount")
       && IsOptNullableDate(p, body.fields, "deadline") && IsEnum(body.fields, "type", GoalKinds)
       && IsOptText(body.fields, "icon", 120) && IsOptText(body.fields, "color", 32)
       && IsOptBool(body.fields, "isCompleted")
    then
      var f := body.fields;
      Some(GoalInput(TextOf(f, "name"), f["targetAmount"].n, OptNumberOf(f, "currentAmount"),
                     OptDateOf(p, f, "deadline"), TextOf(f, "type"), OptTextOf(f, "icon"),
                     OptTextOf(f, "color"), OptBoolOf(f, "isCompleted")))
    else None
  }

  /**
   * `reportQuerySchema`: not strict (unknown keys are dropped); a missing `range` becomes
   * "thisMonth"; `start` and `end` are optional dates.
   */
  function ParseReportQuery(p: Platform, body: Json): (r: Option<ReportQuery>)
    ensures r.Some? ==> body.JObj? && r.value.range in ReportRanges
    ensures (body.JObj? && "range" !in body.fields && IsOptDate(p, body.fields, "start")
            && IsOptDate(p, body.fields, "end"))
            ==> r.Some? && r.value.range == "thisMonth"
    ensures (body.JObj? && ("range" !in body.fields || IsEnum(body.fields, "range", ReportRanges))
             && IsOptDate(p, body.fields, "start") && IsOptDate(p, body.fields, "end"))
            ==> r.Some?
    ensures r.Some? && "range" in body.fields ==> Field(body, "range") == Some(JStr(r.value.range))
    ensures body.JObj? && "range" in body.fields && !IsEnum(body.fields, "range", ReportRanges) ==> r.None?
    ensures r.Some? && "start" !in body.fields ==> r.value.start.None?
    ensures r.Some? && "start" in body.fields ==> r.value.start == p.toDate(body.fields["start"])
    ensures r.Some? && "end" !in body.fields ==> r.value.end.None?
    ensures r.Some? && "end" in body.fields ==> r.value.end == p.toDate(body.fields["end"])
    ensures r.Some? ==> body.JObj? && ("range" !in body.fields || IsEnum(body.fields, "range", ReportRanges))
                        && IsOptDate(p, body.fields, "start") && IsOptDate(p, body.fields, "end")
  {
    if body.JObj? && ("range" !in body.fields || IsEnum(body.fields, "range", ReportRanges))
       && IsOptDate(p, body.fields, "start") && IsOptDate(p, body.fields, "end")
    then
      var f := body.fields;
      var range := if "range" in f then f["range"].s else "thisMonth";
      var start := if "start" in f then p.toDate(f["start"]) else None;
      var end := if "end" in f then p.toDate(f["end"]) else None;
      Some(ReportQuery(range, start, end))
    else None
  }
}
