/** In-memory stand-ins for the two DAOs the services depend on
    (`ru.otus.bank.dao.AccountDao` and `AgreementDao`). The real DAOs and their
    persistence backend are outside this model; these keep their rows in a map
    or a sequence and hand out ids the way a generated key column does. */
module Dao {
  import opened Wrappers
  import opened Entity

  /** Account rows: every account is filed under its own id, and every id in
      use lies below `nextId`, the next id the store will hand out. */
  ghost predicate AccountsFiled(accounts: map<int, Account>, nextId: int)
  {
    && 1 <= nextId
    && forall k :: k in accounts ==> 1 <= k < nextId && accounts[k].id == Some(k)
  }

  /** What `findByAgreementId(agreementId)` may answer: exactly the stored
      accounts whose agreement id is `agreementId`, in ascending id order. */
  ghost predicate ListsAgreement(accounts: map<int, Account>, agreementId: Option<int>, r: seq<Account>)
  {
    && (forall k :: k in accounts && accounts[k].agreementId == agreementId ==> accounts[k] in r)
    && (forall a :: a in r ==>
          a.agreementId == agreementId && a.id.Some? && a.id.value in accounts && accounts[a.id.value] == a)
    && AscendingIds(r)
  }

  /** Accounts listed in strictly ascending id order. */
  ghost predicate AscendingIds(r: seq<Account>)
  {
    forall i, j :: 0 <= i < j < |r| ==> r[i].id.Some? && r[j].id.Some? && r[i].id.value < r[j].id.value
  }

  /** Two ascending listings of the same accounts are the same listing. */
  lemma {:induction false} AscendingListingsAgree(r1: seq<Account>, r2: seq<Account>)
    requires AscendingIds(r1) && AscendingIds(r2)
    requires forall a :: a in r1 <==> a in r2
    ensures r1 == r2
    decreases |r1|
  {
    assert r1 != [] ==> r1[0] in r1;
    assert r2 != [] ==> r2[0] in r2;
    if r1 != [] && r2 != [] {
      assert r1[0] in r2 && r2[0] in r1;
      assert r1[0] == r2[0];
      forall a
        ensures a in r1[1..] <==> a in r2[1..]
      {
        if a in r1[1..] {
          var k :| 1 <= k < |r1| && r1[k] == a;
          assert a in r2 && a != r2[0];
        }
        if a in r2[1..] {
          var k :| 1 <= k < |r2| && r2[k] == a;
          assert a in r1 && a != r1[0];
        }
      }
      AscendingListingsAgree(r1[1..], r2[1..]);
      assert r1 == [r1[0]] + r1[1..] && r2 == [r2[0]] + r2[1..];
    }
  }

  /** The answer to `findByAgreementId` is determined by the stored rows. */
  lemma ListingIsUnique(accounts: map<int, Account>, agreementId: Option<int>, r1: seq<Account>, r2: seq<Account>)
    requires ListsAgreement(accounts, agreementId, r1)
    requires ListsAgreement(accounts, agreementId, r2)
    ensures r1 == r2
  {
    forall a
      ensures a in r1 <==> a in r2
    {
      if a in r1 || a in r2 {
        var k := a.id.value;
        assert k in accounts && accounts[k] == a;
      }
    }
    AscendingListingsAgree(r1, r2);
  }

  class AccountDao {
    var accounts: map<int, Account>
    var nextId: int

    ghost predicate Valid()
      reads this
    {
      AccountsFiled(accounts, nextId)
    }

    constructor ()
      ensures Valid()
      ensures accounts == map[] && nextId == 1
    {
      accounts := map[];
      nextId := 1;
    }

    /** `findById`: the stored account with this id, if there is one. */
    function FindById(id: int): (r: Option<Account>)
      reads this
      ensures r.Some? <==> id in accounts
      ensures r.Some? ==> r.value == accounts[id]
    {
      if id in accounts then Some(accounts[id]) else None
    }

    /** `findByAgreementId`: the accounts opened under one agreement. */
    method FindByAgreementId(agreementId: Option<int>) returns (r: seq<Account>)
      requires Valid()
      ensures ListsAgreement(accounts, agreementId, r)
    {
      r := [];
      var id := 1;
      while id < nextId
        invariant 1 <= id <= nextId
        invariant forall k :: k in accounts && k < id && accounts[k].agreementId == agreementId ==> accounts[k] in r
        invariant forall a :: a in r ==>
          a.agreementId == agreementId && a.id.Some? && a.id.value < id && a.id.value in accounts && accounts[a.id.value] == a
        invariant forall i, j :: 0 <= i < j < |r| ==> r[i].id.Some? && r[j].id.Some? && r[i].id.value < r[j].id.value
      {
        if id in accounts && accounts[id].agreementId == agreementId {
          r := r + [accounts[id]];
        }
        id := id + 1;
      }
    }

    /** `save`: an account whose id is already stored replaces that row; any
        other account is filed as a new row under a freshly issued id. The
        persisted form is returned. */
    method Save(a: Account) returns (saved: Account)
      requires Valid()
      modifies this
      ensures Valid()
      ensures a.id.Some? && a.id.value in old(accounts) ==>
        && saved == a
        && accounts == old(accounts)[a.id.value := a]
        && nextId == old(nextId)
      ensures !(a.id.Some? && a.id.value in old(accounts)) ==>
        && saved == a.(id := Some(old(nextId)))
        && old(nextId) !in old(accounts)
        && accounts == old(accounts)[old(nextId) := saved]
        && nextId == old(nextId) + 1
    {
      if a.id.Some? && a.id.value in accounts {
        accounts := accounts[a.id.value := a];
        saved := a;
      } else {
        saved := a.(id := Some(nextId));
        accounts := accounts[nextId := saved];
        nextId := nextId + 1;
      }
    }
  }

  /** Agreement rows, in the order they were first saved: the row at index
      `i` carries the id `i + 1`. */
  ghost predicate AgreementsFiled(agreements: seq<Agreement>)
  {
    forall i :: 0 <= i < |agreements| ==> agreements[i].id == Some(i + 1)
  }

  /** What `findByName(name)` answers: the earliest stored agreement carrying
      that name, or nothing when none does. */
  function FirstByName(agreements: seq<Agreement>, name: string): (r: Option<Agreement>)
    ensures r.Some? <==> exists i :: 0 <= i < |agreements| && agreements[i].name == Some(name)
    ensures r.Some? ==> r.value.name == Some(name)
    ensures r.Some? ==>
              exists i :: 0 <= i < |agreements| && agreements[i] == r.value &&
                          (forall j :: 0 <= j < i ==> agreements[j].name != Some(name))
  {
    if agreements == [] then None
    else if agreements[0].name == Some(name) then Some(agreements[0])
    else
      var r := FirstByName(agreements[1..], name);
      assert forall i :: 1 <= i < |agreements| ==> agreements[i] == agreements[1..][i - 1];
      r
  }

  class AgreementDao {
    var agreements: seq<Agreement>

    ghost predicate Valid()
      reads this
    {
      AgreementsFiled(agreements)
    }

    constructor ()
      ensures Valid()
      ensures agreements == []
    {
      agreements := [];
    }

    /** `findByName`: a linear scan for the first agreement with this name. */
    method FindByName(name: string) returns (r: Option<Agreement>)
      ensures r == FirstByName(agreements, name)
    {
      var i := 0;
      while i < |agreements|
        invariant 0 <= i <= |agreements|
        invariant FirstByName(agreements[i..], name) == FirstByName(agreements, name)
      {
        if agreements[i].name == Some(name) {
          return Some(agreements[i]);
        }
        assert agreements[i..][1..] == agreements[i + 1..];
        i := i + 1;
      }
      r := None;
    }

    /** `save`: an agreement whose id names a stored row replaces that row; any
        other agreement is appended under the next id. The persisted form is
        returned. */
    method Save(a: Agreement) returns (saved: Agreement)
      requires Valid()
      modifies this
      ensures Valid()
      ensures a.id.Some? && 1 <= a.id.value <= |old(agreements)| ==>
        saved == a && agreements == old(agreements)[a.id.value - 1 := a]
      ensures !(a.id.Some? && 1 <= a.id.value <= |old(agreements)|) ==>
        saved == a.(id := Some(|old(agreements)| + 1)) && agreements == old(agreements) + [saved]
    {
      if a.id.Some? && 1 <= a.id.value <= |agreements| {
        agreements := agreements[a.id.value - 1 := a];
        saved := a;
      } else {
        saved := a.(id := Some(|agreements| + 1));
        agreements := agreements + [saved];
      }
    }
  }
}
