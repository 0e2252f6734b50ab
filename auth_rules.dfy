/**
 * The record-level rules of registration and password reset: the documents a new user is
 * seeded with, the reset token's 60-minute lifetime, and what consuming a token removes.
 */
module AuthRules {
  import opened Wrappers
  import opened JsValues
  import opened ModelsCore
  import opened ModelsAuth
  import Tables

  /** `RESET_TOKEN_EXPIRY_MINUTES` */
  const ResetTokenExpiryMinutes: int := 60
  /** The token lifetime in milliseconds. */
  const ResetTokenLifetime: int := ResetTokenExpiryMinutes * 60 * 1000

  /** The reset record `POST /api/auth/password/request` creates at time `now`. */
  function NewPasswordReset(id: Id, token: string, userId: Id, now: Time): (r: PasswordReset)
    ensures r.expires - now == 60 * 60 * 1000
    ensures r.id == id && r.token == token && r.userId == userId
  {
    PasswordReset(id, token, userId, now + ResetTokenLifetime, now, now)
  }

  /** The reset route refuses a record with `expires < now`: expiring exactly now is still accepted. */
  predicate TokenUsable(r: PasswordReset, now: Time) {
    !(r.expires < now)
  }

  /** A freshly issued token is usable for exactly the next 60 minutes, the last millisecond included. */
  lemma IssuedTokenLifetime(id: Id, token: string, userId: Id, issued: Time, now: Time)
    ensures TokenUsable(NewPasswordReset(id, token, userId, issued), now) <==> now <= issued + 3_600_000
  {
  }

  /** `PasswordReset.deleteOne({ _id: id })` on a collection with unique ids. */
  function RemoveReset(resets: seq<PasswordReset>, id: Id): (r: seq<PasswordReset>)
    ensures forall x :: x in r <==> x in resets && x.id != id
    ensures |r| <= |resets|
  {
    Tables.Where(resets, (x: PasswordReset) => x.id != id)
  }

  /** Deleting a record keeps every unique index of the table. */
  lemma RemoveResetKeepsUnique<K>(resets: seq<PasswordReset>, id: Id, key: PasswordReset -> K)
    requires Tables.UniqueBy(resets, key)
    ensures Tables.UniqueBy(RemoveReset(resets, id), key)
  {
    Tables.WhereKeepsUnique(resets, (x: PasswordReset) => x.id != id, key);
  }

  /**
   * Consuming a record removes its token from the table: with tokens unique, no other record
   * carries it, so a second reset with the same token is refused.
   */
  lemma ConsumedTokenIsGone(resets: seq<PasswordReset>, used: PasswordReset)
    requires ResetsIndexed(resets)
    requires used in resets
    ensures forall x :: x in RemoveReset(resets, used.id) ==> x.token != used.token
  {
    forall x | x in RemoveReset(resets, used.id)
      ensures x.token != used.token
    {
      var i :| 0 <= i < |resets| && resets[i] == x;
      var j :| 0 <= j < |resets| && resets[j] == used;
      assert i != j;
      if i < j { assert ResetToken(resets[i]) != ResetToken(resets[j]); }
      else { assert ResetToken(resets[j]) != ResetToken(resets[i]); }
    }
  }

  /** `User.findByIdAndUpdate(id, { password })`: that user's password becomes `hash`, stamped `now`. */
  function SetPassword(users: seq<User>, id: Id, hash: string, now: Time): (r: seq<User>)
    ensures |r| == |users|
    ensures forall i :: 0 <= i < |r| && users[i].id == id ==>
      r[i] == users[i].(password := Some(hash), updatedAt := now)
    ensures forall i :: 0 <= i < |r| && users[i].id != id ==> r[i] == users[i]
  {
    seq(|users|, i requires 0 <= i < |users| =>
      if users[i].id == id then users[i].(password := Some(hash), updatedAt := now) else users[i])
  }

  /** The ids the driver assigns to the documents a registration seeds. */
  datatype SeedIds = SeedIds(
    cash: Id, bank: Id,
    salary: Id, freelance: Id,
    groceries: Id, rent: Id, entertainment: Id, utilities: Id)

  /** The two seeded accounts: "Cash" (the default) and "Primary Bank" (default by the schema default, false). */
  function SeedAccounts(ids: SeedIds, userId: Id, now: Time): (r: seq<BankAccount>)
    ensures |r| == 2 && r[0].name == "Cash" && r[1].name == "Primary Bank"
    ensures forall a :: a in r ==> a.userId == userId && a.balance == 0.0 && BankAccountSchemaOk(a)
    ensures r[0].isDefault && !r[1].isDefault
  {
    [NewBankAccount(ids.cash, userId, "Cash", "cash", None, None, Some(0.0), Some("wallet"), None, Some(true), now),
     NewBankAccount(ids.bank, userId, "Primary Bank", "bank", Some("My Bank"), None, Some(0.0), Some("building"),
                    None, None, now)]
  }

  /** The two seeded income sources. */
  function SeedSources(ids: SeedIds, userId: Id, now: Time): (r: seq<IncomeSource>)
    ensures |r| == 2
    ensures forall s :: s in r ==> s.userId == userId && IncomeSourceSchemaOk(s)
  {
    [IncomeSource(ids.salary, "Salary", Some("briefcase"), None, userId, now, now),
     IncomeSource(ids.freelance, "Freelance", Some("laptop"), None, userId, now, now)]
  }

  /** The four seeded expense categories, none with a budget. */
  function SeedCategories(ids: SeedIds, userId: Id, now: Time): (r: seq<Category>)
    ensures |r| == 4
    ensures forall c :: c in r ==> c.userId == userId && c.budget.None? && CategorySchemaOk(c)
  {
    [Category(ids.groceries, "Groceries", Some("shopping-basket"), Some("#22c55e"), None, userId, now, now),
     Category(ids.rent, "Rent", Some("home"), Some("#3b82f6"), None, userId, now, now),
     Category(ids.entertainment, "Entertainment", Some("ticket"), Some("#f97316"), None, userId, now, now),
     Category(ids.utilities, "Utilities", Some("lightbulb"), Some("#a855f7"), None, userId, now, now)]
  }
}
