/**
 * The default-account rule of `POST /api/accounts`: a new account created with `isDefault`
 * clears the flag on every other account of the same user, so each user has at most one
 * default account.
 */
module AccountRules {
  import opened Wrappers
  import opened JsValues
  import opened ModelsCore
  import Tables
  import Validators

  /** `BankAccount.find({ userId: user })`: the user's accounts, in collection order. */
  function AccountsOf(accounts: seq<BankAccount>, user: Id): (r: seq<BankAccount>)
    ensures forall a :: a in r <==> a in accounts && a.userId == user
  {
    Tables.Where(accounts, (a: BankAccount) => a.userId == user)
  }

  /** At most one default account per user. */
  ghost predicate OneDefaultPerUser(accounts: seq<BankAccount>) {
    forall i, j :: 0 <= i < j < |accounts| && accounts[i].isDefault && accounts[j].isDefault ==>
      accounts[i].userId != accounts[j].userId
  }

  /** The filter `{ userId: user, _id: { $ne: keep } }`. */
  predicate SiblingOf(a: BankAccount, user: Id, keep: Id) {
    a.userId == user && a.id != keep
  }

  /**
   * `updateMany({ userId: user, _id: { $ne: keep } }, { isDefault: false })`: every matched
   * account loses its default flag and is stamped `now`; no other account changes.
   */
  function ClearOtherDefaults(accounts: seq<BankAccount>, user: Id, keep: Id, now: Time): (r: seq<BankAccount>)
    ensures |r| == |accounts|
    ensures forall i :: 0 <= i < |r| && SiblingOf(accounts[i], user, keep) ==>
      r[i] == accounts[i].(isDefault := false, updatedAt := now)
    ensures forall i :: 0 <= i < |r| && !SiblingOf(accounts[i], user, keep) ==> r[i] == accounts[i]
  {
    seq(|accounts|, i requires 0 <= i < |accounts| =>
      if SiblingOf(accounts[i], user, keep) then accounts[i].(isDefault := false, updatedAt := now)
      else accounts[i])
  }

  /**
   * After the clear, the kept account is the only default of its user, and every other user's
   * accounts are exactly as before.
   */
  lemma ClearLeavesSoleDefault(accounts: seq<BankAccount>, keep: BankAccount, now: Time)
    requires keep in accounts
    requires forall i, j :: 0 <= i < j < |accounts| ==> accounts[i].id != accounts[j].id
    ensures var r := ClearOtherDefaults(accounts, keep.userId, keep.id, now);
            keep in r &&
            (forall b :: b in r && b.userId == keep.userId && b.isDefault ==> b == keep) &&
            (forall i :: 0 <= i < |r| && accounts[i].userId != keep.userId ==> r[i] == accounts[i])
  {
    var r := ClearOtherDefaults(accounts, keep.userId, keep.id, now);
    var k :| 0 <= k < |accounts| && accounts[k] == keep;
    assert r[k] == keep;
    forall b | b in r && b.userId == keep.userId && b.isDefault
      ensures b == keep
    {
      var i :| 0 <= i < |r| && r[i] == b;
      assert !SiblingOf(accounts[i], keep.userId, keep.id);
      assert accounts[i].id == keep.id;
      assert i == k;
    }
  }

  /** A default account appended for a user who has no default yet keeps at most one default per user. */
  lemma AppendFirstDefaultKeepsOneDefault(accounts: seq<BankAccount>, a: BankAccount)
    requires OneDefaultPerUser(accounts)
    requires forall b :: b in accounts && b.userId == a.userId ==> !b.isDefault
    ensures OneDefaultPerUser(accounts + [a])
  {
    var s := accounts + [a];
    forall i, j | 0 <= i < j < |s| && s[i].isDefault && s[j].isDefault
      ensures s[i].userId != s[j].userId
    {
      if j == |accounts| { assert s[i] in accounts; }
      else { assert s[i] == accounts[i] && s[j] == accounts[j]; }
    }
  }

  /** Creating an account keeps at most one default per user, whether or not it asks to be the default. */
  lemma CreateKeepsOneDefault(accounts: seq<BankAccount>, a: BankAccount, now: Time)
    requires OneDefaultPerUser(accounts)
    requires forall b :: b in accounts ==> b.id != a.id
    ensures !a.isDefault ==> OneDefaultPerUser(accounts + [a])
    ensures OneDefaultPerUser(ClearOtherDefaults(accounts + [a], a.userId, a.id, now))
  {
    var s := accounts + [a];
    var r := ClearOtherDefaults(s, a.userId, a.id, now);
    forall i, j | 0 <= i < j < |r| && r[i].isDefault && r[j].isDefault
      ensures r[i].userId != r[j].userId
    {
      if j == |accounts| {
        assert s[i] in accounts;
        assert r[i] == s[i] && !SiblingOf(s[i], a.userId, a.id);
      } else {
        assert r[i] == s[i] && r[j] == s[j];
      }
    }
  }

  /** Clearing default flags changes neither ids, owners nor balances. */
  lemma ClearKeepsKeys(accounts: seq<BankAccount>, user: Id, keep: Id, now: Time)
    ensures var r := ClearOtherDefaults(accounts, user, keep, now);
            forall i :: 0 <= i < |r| ==>
              r[i].id == accounts[i].id && r[i].userId == accounts[i].userId
              && r[i].balance == accounts[i].balance && BankAccountSchemaOk(r[i]) == BankAccountSchemaOk(accounts[i])
  {
  }

  /** A payload that `accountPayloadSchema` accepts makes a document the BankAccount schema accepts. */
  lemma ValidatedAccountSatisfiesSchema(body: Json, id: Id, userId: Id, now: Time)
    requires Validators.ParseAccount(body).Some?
    ensures var d := Validators.ParseAccount(body).value;
            BankAccountSchemaOk(NewBankAccount(id, userId, d.name, d.kind, d.bankName, d.accountNumber,
                                               d.balance, d.icon, d.color, d.isDefault, now))
  {
    var d := Validators.ParseAccount(body).value;
    assert JsLength(d.name) >= 2;
    assert d.kind in Validators.AccountKinds;
  }
}
