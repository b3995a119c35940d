/** The total balance held by a collection of accounts, and how single-account
    updates change it. This is the accounting view in which a transfer moves
    money and a charge removes it. */
module Ledger {
  import opened Entity

  /** A map with at least one entry has a key. This fact about maps only
      serves to make `PickKey` well defined. */
  lemma HasKey(accounts: map<int, Account>)
    requires |accounts| != 0
    ensures exists k :: k in accounts
  {
    if forall k :: k !in accounts {
      assert false;
    }
  }

  /** Some id under which `accounts` files an account: the one `Total` takes
      out first. */
  ghost function PickKey(accounts: map<int, Account>): (k: int)
    requires |accounts| != 0
    ensures k in accounts
  {
    HasKey(accounts);
    var k :| k in accounts;
    k
  }

  /** The sum of the amounts of all accounts in `accounts`. */
  ghost function Total(accounts: map<int, Account>): int
    decreases |accounts.Keys|
  {
    if |accounts| == 0 then 0
    else
      var k := PickKey(accounts);
      accounts[k].amount + Total(accounts - {k})
  }

  /** Taking two different accounts out of the total, in either order, leaves
      the same rest. */
  lemma RemovalsCommute(accounts: map<int, Account>, j: int, k: int)
    requires j in accounts && k in accounts && j != k
    ensures accounts - {j} - {k} == accounts - {k} - {j}
    ensures |(accounts - {j}).Keys| < |accounts.Keys| && |(accounts - {k}).Keys| < |accounts.Keys|
  {
    assert (accounts - {j}).Keys == accounts.Keys - {j};
    assert (accounts - {k}).Keys == accounts.Keys - {k};
  }

  /** Any account can be taken out of the total first, not only the one the
      definition happens to pick. */
  lemma {:induction false} TotalWithout(accounts: map<int, Account>, k: int)
    requires k in accounts
    ensures Total(accounts) == accounts[k].amount + Total(accounts - {k})
    decreases |accounts.Keys|
  {
    var j := PickKey(accounts);
    if j != k {
      RemovalsCommute(accounts, j, k);
      TotalWithout(accounts - {j}, k);
      TotalWithout(accounts - {k}, j);
    }
  }

  /** Replacing one account changes the total by exactly the change in its amount. */
  lemma TotalAfterUpdate(accounts: map<int, Account>, k: int, a: Account)
    requires k in accounts
    ensures Total(accounts[k := a]) == Total(accounts) - accounts[k].amount + a.amount
  {
    TotalWithout(accounts, k);
    TotalWithout(accounts[k := a], k);
    assert accounts[k := a] - {k} == accounts - {k};
  }

  /** Filing a new account raises the total by exactly its amount. */
  lemma TotalAfterInsert(accounts: map<int, Account>, k: int, a: Account)
    requires k !in accounts
    ensures Total(accounts[k := a]) == Total(accounts) + a.amount
  {
    TotalWithout(accounts[k := a], k);
    assert accounts[k := a] - {k} == accounts;
  }
}
