/**
 * The records of src/models/core.ts: bank accounts, expense categories and income sources.
 * Required `ObjectId` fields are plain fields; optional ones are `Option`s. Every schema has
 * `timestamps`, so every record carries `createdAt` and `updatedAt`.
 */
module ModelsCore {
  import opened Wrappers
  import opened JsValues

  datatype BankAccount = BankAccount(
    id: Id,
    name: string,
    kind: string,            // the schema's `type`: "bank", "cash" or "custom" by convention
    bankName: Option<string>,
    accountNumber: Option<string>,
    balance: real,
    icon: Option<string>,
    color: Option<string>,
    isDefault: bool,
    userId: Id,
    createdAt: Time,
    updatedAt: Time)

  /** The required-field validation the store runs on insert: a required string must be non-empty. */
  predicate BankAccountSchemaOk(a: BankAccount) {
    a.name != "" && a.kind != ""
  }

  /**
   * A new document: an absent `balance` takes the schema default 0, an absent `isDefault`
   * the schema default false, and both timestamps are the creation time.
   */
  function NewBankAccount(id: Id, userId: Id, name: string, kind: string, bankName: Option<string>,
                          accountNumber: Option<string>, balance: Option<real>, icon: Option<string>,
                          color: Option<string>, isDefault: Option<bool>, now: Time): (a: BankAccount)
    ensures balance.None? ==> a.balance == 0.0
    ensures balance.Some? ==> a.balance == balance.value
    ensures isDefault.None? ==> !a.isDefault
    ensures isDefault.Some? ==> a.isDefault == isDefault.value
    ensures a.name == name && a.kind == kind && a.bankName == bankName && a.accountNumber == accountNumber
    ensures a.icon == icon && a.color == color
    ensures a.id == id && a.userId == userId && a.createdAt == now && a.updatedAt == now
  {
    BankAccount(id, name, kind, bankName, accountNumber, balance.GetOr(0.0), icon, color,
                isDefault.GetOr(false), userId, now, now)
  }

  datatype Category = Category(
    id: Id,
    name: string,
    icon: Option<string>,
    color: Option<string>,
    budget: Option<real>,
    userId: Id,
    createdAt: Time,
    updatedAt: Time)

  predicate CategorySchemaOk(c: Category) {
    c.name != ""
  }

  datatype IncomeSource = IncomeSource(
    id: Id,
    name: string,
    icon: Option<string>,
    color: Option<string>,
    userId: Id,
    createdAt: Time,
    updatedAt: Time)

  predicate IncomeSourceSchemaOk(s: IncomeSource) {
    s.name != ""
  }
}
