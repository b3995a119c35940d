# Bank account and agreement services, modelled in Dafny

This project models the service layer of a small banking application
(package `ru.otus.bank.service.impl`): `AccountServiceImpl`, which transfers
money between accounts, charges an account, opens accounts and lists the
accounts of an agreement, and `AgreementServiceImpl`, which creates
agreements and finds them by name. The services are modelled from the
behaviour their unit tests pin down, over in-memory stand-ins for the two
DAOs they depend on (`AccountDao`, `AgreementDao`).

Files and modules:

- `wrappers.dfy` (`Wrappers`): `Option` for `null`/`Optional`, `Outcome` and
  `Result` for a call that may throw.
- `entity.dfy` (`Entity`): the `Account` and `Agreement` entities, the
  `AccountException` error with its message text, and the one balance update
  both services use.
- `dao.dfy` (`Dao`): the two DAOs as classes. `AccountDao` keeps a
  `map<int, Account>` keyed by id plus the next id to issue; `AgreementDao`
  keeps its agreements in a sequence in save order. Each class has a `Valid()`
  invariant (rows are filed under their own ids), and the lookups are
  specified by `ListsAgreement` and `FirstByName`.
- `ledger.dfy` (`Ledger`): the total balance of a set of account rows and how
  one-row updates change it.
- `account_service.dfy` (`AccountService`): pure functions giving the rows
  after a transfer or a charge (or the exception thrown), the lemmas about
  them, and the class `AccountServiceImpl`, whose methods run the
  load / mutate / save sequence against an `AccountDao` and are proved to
  leave exactly the rows those functions describe.
- `agreement_service.dfy` (`AgreementService`): the class
  `AgreementServiceImpl` over an `AgreementDao`, and the lemma linking
  `addAgreement` to `findByName`.
- `scenarios.dfy` (`Scenarios`): each test situation replayed against the
  classes (transfer 100/10 by 10, missing source, addAccount with a
  pre-built number, charge of 1000 from 100, addAgreement with "test", ""
  and null, findByName), with the test's expectations as assertions that
  follow from the contracts alone.

Exceptions are results: `makeTransfer` and `charge` return
`Fail(AccountException(message))` where the Java code throws, and leave the
rows untouched in that case.

The tests decide one point against a plain reading of `addAccount` as
building the number from the agreement's name: the test builds
`agreement.getName() + number` itself
(`src/test/java/ru/otus/bank/service/impl/AccountServiceImplTest.java:105`)
and expects exactly that string to be saved (`:114`), so the service stores
the number it is given verbatim, and so does the model.

## Model

| member | source | states |
|---|---|---|
| `Entity.WithAmountChangedBy` | src/test/java/ru/otus/bank/service/impl/AccountServiceImplTest.java:52-53 | the debit or credit step moves the balance by exactly the given amount (90 from 100, 20 from 10, -900 from 100 at :168) and keeps id, agreement, number and type |
| `Dao.AccountDao.FindById` | src/test/java/ru/otus/bank/service/impl/AccountServiceImplTest.java:47-48 | `findById` finds an account exactly when one is stored under that id, and then returns that row |
| `Dao.AccountDao.FindByAgreementId` | src/test/java/ru/otus/bank/service/impl/AccountServiceImplTest.java:129-130 | `findByAgreementId` lists every stored account of the agreement and nothing else, each once, in ascending id order |
| `Dao.ListingIsUnique` | src/test/java/ru/otus/bank/service/impl/AccountServiceImplTest.java:130-132 | the listing of an agreement's accounts is determined by the stored rows, so the service can only pass on the DAO's one answer |
| `Dao.AccountDao.Save` | src/test/java/ru/otus/bank/service/impl/AccountServiceImplTest.java:91-92 | `save` replaces the row of an account whose id is stored, otherwise files it under a fresh id; the id invariant is kept |
| `Dao.FirstByName` | src/test/java/ru/otus/bank/service/impl/AgreementServiceImplTest.java:81-86 | the answer to `findByName` is present exactly when some stored agreement has that name, and is the earliest such agreement, unchanged |
| `Dao.AgreementDao.FindByName` | src/test/java/ru/otus/bank/service/impl/AgreementServiceImplTest.java:99-102 | the DAO's linear scan returns exactly that earliest agreement, or nothing |
| `Dao.AgreementDao.Save` | src/test/java/ru/otus/bank/service/impl/AgreementServiceImplTest.java:51-52 | `save` replaces the row of an agreement whose id is stored, otherwise appends it under the next id |
| `AccountService.AfterTransfer` | src/test/java/ru/otus/bank/service/impl/AccountServiceImplTest.java:40-93 | a transfer fails with "No source account" when the source is missing and fails when only the destination is missing; otherwise the source loses `amount`, the destination gains it, both keep their ids and other fields, and no other row changes |
| `AccountService.AfterCharge` | src/test/java/ru/otus/bank/service/impl/AccountServiceImplTest.java:138-169 | a charge fails with "No source account" when the account is missing; otherwise only that account's amount drops by `amount` (no funds check), number, type and id kept |
| `AccountService.TransferChecksSourceFirst` | src/test/java/ru/otus/bank/service/impl/AccountServiceImplTest.java:57-67 | with the source missing, the outcome is "No source account" whatever the destination is: the destination is never consulted |
| `AccountService.TransferConservesMoney` | src/test/java/ru/otus/bank/service/impl/AccountServiceImplTest.java:41-53 | a transfer keeps the sum of the two balances and the total balance of the store |
| `AccountService.TransferBackRestores` | src/test/java/ru/otus/bank/service/impl/AccountServiceImplTest.java:50-53 | transferring the same amount back restores every row |
| `AccountService.ChargeLowersTotal` | src/test/java/ru/otus/bank/service/impl/AccountServiceImplTest.java:163-168 | a charge lowers the store's total balance by exactly the amount charged |
| `AccountService.OpenedAccountIsListed` | src/test/java/ru/otus/bank/service/impl/AccountServiceImplTest.java:98-136 | an account opened under an agreement appears in that agreement's listing, and raises the total balance by its opening amount |
| `AccountService.AccountServiceImpl.MakeTransfer` | src/test/java/ru/otus/bank/service/impl/AccountServiceImplTest.java:40-93 | `makeTransfer` returns the failure of `AfterTransfer` with the rows untouched, or succeeds leaving exactly the rows `AfterTransfer` gives |
| `AccountService.AccountServiceImpl.Charge` | src/test/java/ru/otus/bank/service/impl/AccountServiceImplTest.java:137-169 | `charge` returns the failure of `AfterCharge` with the rows untouched, or succeeds leaving exactly the rows `AfterCharge` gives |
| `AccountService.AccountServiceImpl.AddAccount` | src/test/java/ru/otus/bank/service/impl/AccountServiceImplTest.java:98-121 | `addAccount` saves one new account carrying the agreement's id, the number verbatim, the given type and amount, and returns it with its new id; no other row changes |
| `AccountService.AccountServiceImpl.GetAccounts` | src/test/java/ru/otus/bank/service/impl/AccountServiceImplTest.java:123-136 | `getAccounts` answers with the DAO's listing for exactly the agreement's id |
| `AgreementService.AddedAgreementIsFound` | src/test/java/ru/otus/bank/service/impl/AgreementServiceImplTest.java:75-88 | after an agreement is added under a name, looking the name up succeeds: the earlier agreement of that name if any, else the added one with its own id |
| `AgreementService.AgreementServiceImpl.AddAgreement` | src/test/java/ru/otus/bank/service/impl/AgreementServiceImplTest.java:39-69 | `addAgreement` performs one save of an agreement carrying the name exactly as given ("", null included) and returns what the save returned |
| `AgreementService.AgreementServiceImpl.FindByName` | src/test/java/ru/otus/bank/service/impl/AgreementServiceImplTest.java:90-107 | `findByName` passes the name to the DAO unchanged and returns its answer |

## Left out

- Mockito and JUnit machinery (mocks, stubbing, argument matchers and captors, `verify`): the expectations they encode are stated as postconditions on the DAO's rows instead.
- The real DAOs and their persistence backend, including how ids are generated: the model's DAOs hand out consecutive ids from 1, which is a choice of this model.
- `BigDecimal` precision and scale: amounts are unbounded whole numbers, which covers every value the tests use.
- Aliasing of entity objects: the Java test reads new balances back from the very `Account` objects the mocked DAO handed out; the model reads them from the DAO's rows.
- Atomicity and concurrency: the two saves of a transfer are sequential calls; nothing in the tests shows a rollback or a lock, and the model has none.
- AccountService.AfterTransfer: the message of the exception for a missing destination is not stated, because no test asserts its text (the model uses "No destination account").
- AccountService.AccountServiceImpl.MakeTransfer: requires distinct source and destination ids; what a transfer from an account to itself does is not fixed by the tests.
- AgreementService.AgreementServiceImpl.AddAgreement: the test that stubs the DAO's save to return `null` is covered only in that the result is whatever the save returns; the model's DAO always returns the persisted agreement.
- Null account numbers, null account types (`Integer.getInteger` on a plain string yields `null`) and a null query name for `findByName` are not modelled; numbers and types are plain values.
- Test-code quirks that are not service behaviour: reference comparisons with `==` on strings and `BigDecimal`, and an unused import.
