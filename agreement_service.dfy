/** `AgreementServiceImpl`: creates agreements by name and finds them by name,
    through the agreement DAO. */
module AgreementService {
  import opened Wrappers
  import opened Entity
  import opened Dao

  /** Once an agreement named `name` has been added, looking that name up
      succeeds: it yields the earlier agreement of that name if there was one,
      and the new agreement, with its own id, otherwise. */
  lemma {:induction false} AddedAgreementIsFound(agreements: seq<Agreement>, name: string, added: Agreement)
    requires added.name == Some(name)
    ensures FirstByName(agreements + [added], name)
            == if FirstByName(agreements, name).Some? then FirstByName(agreements, name) else Some(added)
  {
    if agreements != [] && agreements[0].name != Some(name) {
      assert (agreements + [added])[1..] == agreements[1..] + [added];
      AddedAgreementIsFound(agreements[1..], name, added);
    }
  }

  class AgreementServiceImpl {
    const dao: AgreementDao

    constructor (dao: AgreementDao)
      ensures this.dao == dao
    {
      this.dao := dao;
    }

    /** `addAgreement`: build the agreement and save it; whatever the DAO's
        save returns is returned. */
    method AddAgreement(name: Option<string>) returns (r: Agreement)
      requires dao.Valid()
      modifies dao
      ensures dao.Valid()
      ensures r.name == name && r.id == Some(|old(dao.agreements)| + 1)
      ensures dao.agreements == old(dao.agreements) + [r]
    {
      var agreement := Agreement(None, name);
      r := dao.Save(agreement);
    }

    /** `findByName`: the DAO's answer for exactly the name asked about. */
    method FindByName(name: string) returns (r: Option<Agreement>)
      ensures r == FirstByName(dao.agreements, name)
    {
      r := dao.FindByName(name);
    }
  }
}
