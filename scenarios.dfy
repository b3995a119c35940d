/** The situations the services' unit tests set up, replayed against the
    model: each method builds fresh DAOs, runs one service call and asserts
    what the test expects, using only the contracts of the calls. */
module Scenarios {
  import opened Wrappers
  import opened Entity
  import opened Dao
  import opened AccountService
  import opened AgreementService

  /** 100 and 10 become 90 and 20; both accounts keep their ids. */
  method TransferScenario() {
    var dao := new AccountDao();
    var source := dao.Save(Account(None, None, "", 0, 100));
    var destination := dao.Save(Account(None, None, "", 0, 10));
    assert source.id == Some(1) && destination.id == Some(2);
    var service := new AccountServiceImpl(dao);
    var r := service.MakeTransfer(1, 2, 10);
    assert r == Pass;
    assert dao.accounts[1] == source.(amount := 90);
    assert dao.accounts[2] == destination.(amount := 20);
  }

  /** With no accounts at all the transfer fails on the source. */
  method SourceNotFoundScenario() {
    var dao := new AccountDao();
    var service := new AccountServiceImpl(dao);
    var r := service.MakeTransfer(1, 2, 10);
    assert r == Fail(AccountException("No source account"));
    assert dao.accounts == map[];
  }

  /** The number handed to addAccount is saved as it is. */
  method AddAccountScenario() {
    var dao := new AccountDao();
    var service := new AccountServiceImpl(dao);
    var agreement := Agreement(Some(123), Some("Client1"));
    var saved := service.AddAccount(agreement, "Client1" + "_acc1", 1, 1000);
    assert saved.agreementId == Some(123) && saved.number == "Client1_acc1";
    assert saved.accountType == 1 && saved.amount == 1000;
    var listed := service.GetAccounts(agreement);
    assert dao.accounts[1] == saved;
    assert saved in listed;
    var second := service.AddAccount(agreement, "Client1" + "_acc2", 2, 100);
    assert second.id == Some(2);
  }

  /** Charging 1000 to a balance of 100 leaves -900; number and type stay. */
  method ChargeScenario() {
    var dao := new AccountDao();
    var account := dao.Save(Account(None, None, "Client_acc", 1, 100));
    var service := new AccountServiceImpl(dao);
    var r := service.Charge(1, 1000);
    assert r == Pass;
    assert dao.accounts[1].amount == -900;
    assert dao.accounts[1].number == "Client_acc" && dao.accounts[1].accountType == 1;
  }

  /** Charging a missing account fails on the source. */
  method ChargeMissingScenario() {
    var dao := new AccountDao();
    var service := new AccountServiceImpl(dao);
    var r := service.Charge(1, 10);
    assert r == Fail(AccountException("No source account"));
  }

  /** Names "test", "" and null are all saved as given. */
  method AddAgreementScenario() {
    var dao := new AgreementDao();
    var service := new AgreementServiceImpl(dao);
    var a := service.AddAgreement(Some("test"));
    var b := service.AddAgreement(Some(""));
    var c := service.AddAgreement(None);
    assert a.name == Some("test") && b.name == Some("") && c.name == None;
    assert dao.agreements == [a, b, c];
  }

  /** A stored agreement is found by its name and keeps its id. */
  method FindByNameScenario() {
    var dao := new AgreementDao();
    var service := new AgreementServiceImpl(dao);
    var added := service.AddAgreement(Some("test"));
    var found := service.FindByName("test");
    assert dao.agreements == [added];
    assert found == Some(added) && found.value.id == Some(1);
  }
}
