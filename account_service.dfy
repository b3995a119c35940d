/** `AccountServiceImpl`: transfers between accounts, charges an account,
    opens accounts and lists the accounts of an agreement, all through the
    account DAO. The pure functions say what each state-changing call does to
    the DAO's rows; the class runs the load/mutate/save sequence itself. */
module AccountService {
  import opened Wrappers
  import opened Entity
  import opened Ledger
  import opened Dao

  /** The rows after `makeTransfer(sourceId, destinationId, amount)`, or the
      exception it throws. The source is looked up before the destination, and
      nothing checks the sign of `amount` or the source's balance. */
  function AfterTransfer(accounts: map<int, Account>, sourceId: int, destinationId: int, amount: int)
    : (r: Result<map<int, Account>, AccountException>)
    requires sourceId != destinationId
    ensures sourceId !in accounts ==> r == Failure(AccountException(NoSourceAccount))
    ensures r.Success? <==> sourceId in accounts && destinationId in accounts
    ensures r.Success? ==>
      && r.value.Keys == accounts.Keys
      && r.value[sourceId].amount == accounts[sourceId].amount - amount
      && r.value[destinationId].amount == accounts[destinationId].amount + amount
      && r.value[sourceId] == accounts[sourceId].(amount := r.value[sourceId].amount)
      && r.value[destinationId] == accounts[destinationId].(amount := r.value[destinationId].amount)
      && (forall k :: k in accounts && k != sourceId && k != destinationId ==> r.value[k] == accounts[k])
  {
    if sourceId !in accounts then Failure(AccountException(NoSourceAccount))
    else if destinationId !in accounts then Failure(AccountException(NoDestinationAccount))
    else
      var source := WithAmountChangedBy(accounts[sourceId], -amount);
      var destination := WithAmountChangedBy(accounts[destinationId], amount);
      Success(accounts[sourceId := source][destinationId := destination])
  }

  /** The rows after `charge(accountId, amount)`, or the exception it throws.
      There is no sufficient-funds check: the balance may go negative. */
  function AfterCharge(accounts: map<int, Account>, accountId: int, amount: int)
    : (r: Result<map<int, Account>, AccountException>)
    ensures accountId !in accounts ==> r == Failure(AccountException(NoSourceAccount))
    ensures accountId in accounts ==>
      && r.Success?
      && r.value.Keys == accounts.Keys
      && r.value[accountId].amount == accounts[accountId].amount - amount
      && r.value[accountId] == accounts[accountId].(amount := r.value[accountId].amount)
      && (forall k :: k in accounts && k != accountId ==> r.value[k] == accounts[k])
  {
    if accountId !in accounts then Failure(AccountException(NoSourceAccount))
    else Success(accounts[accountId := WithAmountChangedBy(accounts[accountId], -amount)])
  }

  /** Which exception a failed transfer throws depends only on the source
      when the source is missing: the destination is never consulted. This
      follows directly from the first postcondition of `AfterTransfer`; it is
      stated on its own to name the lookup order. */
  lemma TransferChecksSourceFirst(accounts: map<int, Account>, sourceId: int, d1: int, d2: int, amount: int)
    requires sourceId != d1 && sourceId != d2
    requires sourceId !in accounts
    ensures AfterTransfer(accounts, sourceId, d1, amount) == AfterTransfer(accounts, sourceId, d2, amount)
    ensures AfterTransfer(accounts, sourceId, d1, amount).error.message == NoSourceAccount
  {
  }

  /** A transfer between two distinct accounts keeps the sum of their two
      balances and the total balance of the store. */
  lemma TransferConservesMoney(accounts: map<int, Account>, sourceId: int, destinationId: int, amount: int)
    requires sourceId != destinationId
    requires AfterTransfer(accounts, sourceId, destinationId, amount).Success?
    ensures var after := AfterTransfer(accounts, sourceId, destinationId, amount).value;
      && after[sourceId].amount + after[destinationId].amount
         == accounts[sourceId].amount + accounts[destinationId].amount
      && Total(after) == Total(accounts)
  {
    var source := WithAmountChangedBy(accounts[sourceId], -amount);
    var destination := WithAmountChangedBy(accounts[destinationId], amount);
    TotalAfterUpdate(accounts, sourceId, source);
    TotalAfterUpdate(accounts[sourceId := source], destinationId, destination);
  }

  /** Transferring the same amount back restores every row. */
  lemma TransferBackRestores(accounts: map<int, Account>, sourceId: int, destinationId: int, amount: int)
    requires sourceId != destinationId
    requires AfterTransfer(accounts, sourceId, destinationId, amount).Success?
    ensures AfterTransfer(AfterTransfer(accounts, sourceId, destinationId, amount).value, destinationId, sourceId, amount)
            == Success(accounts)
  {
    var after := AfterTransfer(accounts, sourceId, destinationId, amount).value;
    var back := AfterTransfer(after, destinationId, sourceId, amount).value;
    assert back == accounts;
  }

  /** A charge lowers the total balance of the store by exactly the amount charged. */
  lemma ChargeLowersTotal(accounts: map<int, Account>, accountId: int, amount: int)
    requires accountId in accounts
    ensures Total(AfterCharge(accounts, accountId, amount).value) == Total(accounts) - amount
  {
    TotalAfterUpdate(accounts, accountId, WithAmountChangedBy(accounts[accountId], -amount));
  }

  /** A freshly opened account is listed among its agreement's accounts and
      raises the store's total balance by its opening amount. */
  lemma OpenedAccountIsListed(accounts: map<int, Account>, nextId: int, a: Account, listed: seq<Account>)
    requires AccountsFiled(accounts, nextId)
    requires a.id == Some(nextId)
    requires ListsAgreement(accounts[nextId := a], a.agreementId, listed)
    ensures a in listed
    ensures Total(accounts[nextId := a]) == Total(accounts) + a.amount
  {
    var withNew := accounts[nextId := a];
    assert nextId in withNew && withNew[nextId] == a;
    assert nextId !in accounts;
    TotalAfterInsert(accounts, nextId, a);
  }

  class AccountServiceImpl {
    const accountDao: AccountDao

    constructor (accountDao: AccountDao)
      ensures this.accountDao == accountDao
    {
      this.accountDao := accountDao;
    }

    /** `makeTransfer`: load the source, then the destination, debit one,
        credit the other and save both. */
    method MakeTransfer(sourceId: int, destinationId: int, amount: int) returns (r: Outcome<AccountException>)
      requires accountDao.Valid()
      requires sourceId != destinationId
      modifies accountDao
      ensures accountDao.Valid() && accountDao.nextId == old(accountDao.nextId)
      ensures match AfterTransfer(old(accountDao.accounts), sourceId, destinationId, amount)
        case Success(after) => r == Pass && accountDao.accounts == after
        case Failure(e) => r == Fail(e) && accountDao.accounts == old(accountDao.accounts)
    {
      var source := accountDao.FindById(sourceId);
      if source.None? {
        return Fail(AccountException(NoSourceAccount));
      }
      var destination := accountDao.FindById(destinationId);
      if destination.None? {
        return Fail(AccountException(NoDestinationAccount));
      }
      var debited := WithAmountChangedBy(source.value, -amount);
      var credited := WithAmountChangedBy(destination.value, amount);
      var _ := accountDao.Save(debited);
      var _ := accountDao.Save(credited);
      r := Pass;
    }

    /** `charge`: load the account, debit it and save it. */
    method Charge(accountId: int, amount: int) returns (r: Outcome<AccountException>)
      requires accountDao.Valid()
      modifies accountDao
      ensures accountDao.Valid() && accountDao.nextId == old(accountDao.nextId)
      ensures match AfterCharge(old(accountDao.accounts), accountId, amount)
        case Success(after) => r == Pass && accountDao.accounts == after
        case Failure(e) => r == Fail(e) && accountDao.accounts == old(accountDao.accounts)
    {
      var account := accountDao.FindById(accountId);
      if account.None? {
        return Fail(AccountException(NoSourceAccount));
      }
      var _ := accountDao.Save(WithAmountChangedBy(account.value, -amount));
      r := Pass;
    }

    /** `addAccount`: build the account and save it; the saved account is returned. */
    method AddAccount(agreement: Agreement, number: string, accountType: int, amount: int) returns (r: Account)
      requires accountDao.Valid()
      modifies accountDao
      ensures accountDao.Valid()
      ensures r.id == Some(old(accountDao.nextId)) && r.agreementId == agreement.id
      ensures r.number == number && r.accountType == accountType && r.amount == amount
      ensures old(accountDao.nextId) !in old(accountDao.accounts)
      ensures accountDao.accounts == old(accountDao.accounts)[old(accountDao.nextId) := r]
      ensures accountDao.nextId == old(accountDao.nextId) + 1
    {
      var account := Account(None, agreement.id, number, accountType, amount);
      r := accountDao.Save(account);
    }

    /** `getAccounts`: the DAO's answer for the agreement's own id. */
    method GetAccounts(agreement: Agreement) returns (r: seq<Account>)
      requires accountDao.Valid()
      ensures ListsAgreement(accountDao.accounts, agreement.id, r)
    {
      r := accountDao.FindByAgreementId(agreement.id);
    }
  }
}
