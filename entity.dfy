/** The entities the bank services manipulate (package `ru.otus.bank.entity`)
    and the service layer's one exception (package `ru.otus.bank.service.exception`). */
module Entity {
  import opened Wrappers

  /** A bank account. The id is unset until the account DAO persists it;
      `agreementId` is the id of the owning agreement, itself possibly unset.
      Amounts are exact whole numbers (every amount the tests use is an
      integral `BigDecimal`). */
  datatype Account = Account(
    id: Option<int>,
    agreementId: Option<int>,
    number: string,
    accountType: int,
    amount: int)

  /** An agreement. Its name may be empty or absent (`null`). */
  datatype Agreement = Agreement(id: Option<int>, name: Option<string>)

  /** `AccountException`: the domain error, identified by its message. */
  datatype AccountException = AccountException(message: string)

  /** The message of the error raised when the account to debit is missing. */
  const NoSourceAccount: string := "No source account"

  /** The message used when the account to credit is missing. */
  const NoDestinationAccount: string := "No destination account"

  /** The account with its balance moved by `delta` and every other field kept. */
  function WithAmountChangedBy(a: Account, delta: int): (r: Account)
    ensures r.amount - a.amount == delta
    ensures r.id == a.id && r.agreementId == a.agreementId
    ensures r.number == a.number && r.accountType == a.accountType
  {
    a.(amount := a.amount + delta)
  }
}
