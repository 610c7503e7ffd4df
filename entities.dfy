/**
  The three stored entities (Profile, Contract, Job) and the in-memory books
  that stand in for the database tables. `UPDATE ... WHERE id = x` becomes an
  update of the row found by the primary key.
 */
module Entities {

  import opened Wrappers

  datatype ProfileType = Client | Contractor

  datatype Status = New | InProgress | Terminated

  /** Money is in the smallest currency unit. */
  datatype Profile = Profile(id: int, kind: ProfileType, balance: int, profession: string,
                             firstName: string, lastName: string)

  datatype Contract = Contract(id: int, clientId: int, contractorId: int, status: Status)

  /** `paymentDate` is `None` while the job is unpaid in the seed data; times are milliseconds. */
  datatype Job = Job(id: int, contractId: int, price: int, paid: bool, paymentDate: Option<int>,
                     createdAt: int)

  /** The three tables, in row order. */
  datatype Books = Books(profiles: seq<Profile>, contracts: seq<Contract>, jobs: seq<Job>)

  /** The side of a contract a profile stands on. */
  datatype Role = ClientRole | ContractorRole

  /** `profileType === 'contractor' ? 'Contractor' : 'Client'` */
  function RoleOf(kind: ProfileType): Role
  {
    if kind == Contractor then ContractorRole else ClientRole
  }

  /** The profile id a contract holds for a role (`ClientId` or `ContractorId`). */
  function PartyOf(c: Contract, role: Role): int
  {
    match role
    case ClientRole => c.clientId
    case ContractorRole => c.contractorId
  }

  /** Primary keys are unique in each table. */
  predicate UniqueIds(b: Books)
  {
    && (forall i, j :: 0 <= i < j < |b.profiles| ==> b.profiles[i].id != b.profiles[j].id)
    && (forall i, j :: 0 <= i < j < |b.contracts| ==> b.contracts[i].id != b.contracts[j].id)
    && (forall i, j :: 0 <= i < j < |b.jobs| ==> b.jobs[i].id != b.jobs[j].id)
  }

  /** The first position whose element satisfies `p`. */
  function FirstIndex<T>(s: seq<T>, p: T -> bool): (r: Option<nat>)
    ensures r.Some? ==> r.value < |s| && p(s[r.value]) && forall i :: 0 <= i < r.value ==> !p(s[i])
    ensures r.None? ==> forall i :: 0 <= i < |s| ==> !p(s[i])
  {
    if |s| == 0 then None
    else if p(s[0]) then Some(0)
    else match FirstIndex(s[1..], p)
      case None => None
      case Some(k) => Some(k + 1)
  }

  function ProfileIndex(ps: seq<Profile>, id: int): Option<nat>
  {
    FirstIndex(ps, (p: Profile) => p.id == id)
  }

  function ContractIndex(cs: seq<Contract>, id: int): Option<nat>
  {
    FirstIndex(cs, (c: Contract) => c.id == id)
  }

  function JobIndex(js: seq<Job>, id: int): Option<nat>
  {
    FirstIndex(js, (j: Job) => j.id == id)
  }

  /** `Profile.findOne({where: {id}})` */
  function FindProfile(ps: seq<Profile>, id: int): (r: Option<Profile>)
    ensures r.Some? ==> r.value in ps && r.value.id == id
    ensures r.None? <==> forall p :: p in ps ==> p.id != id
  {
    match ProfileIndex(ps, id)
    case None => None
    case Some(k) => Some(ps[k])
  }

  /** `Contract.findOne({where: {id}})` */
  function FindContract(cs: seq<Contract>, id: int): (r: Option<Contract>)
    ensures r.Some? ==> r.value in cs && r.value.id == id
    ensures r.None? <==> forall c :: c in cs ==> c.id != id
  {
    match ContractIndex(cs, id)
    case None => None
    case Some(k) => Some(cs[k])
  }

  /** `Job.findOne({where: {id}})` */
  function FindJob(js: seq<Job>, id: int): (r: Option<Job>)
    ensures r.Some? ==> r.value in js && r.value.id == id
    ensures r.None? <==> forall j :: j in js ==> j.id != id
  {
    match JobIndex(js, id)
    case None => None
    case Some(k) => Some(js[k])
  }

  /** An update that keeps every row's id keeps where each id is found. */
  lemma ProfileIndexAfterIdPreservingUpdate(ps: seq<Profile>, qs: seq<Profile>, id: int)
    requires |ps| == |qs| && forall i :: 0 <= i < |ps| ==> ps[i].id == qs[i].id
    ensures ProfileIndex(qs, id) == ProfileIndex(ps, id)
  {
    if |ps| > 0 {
      ProfileIndexAfterIdPreservingUpdate(ps[1..], qs[1..], id);
    }
  }

  /** The same for the jobs table. */
  lemma JobIndexAfterIdPreservingUpdate(js: seq<Job>, ks: seq<Job>, id: int)
    requires |js| == |ks| && forall i :: 0 <= i < |js| ==> js[i].id == ks[i].id
    ensures JobIndex(ks, id) == JobIndex(js, id)
  {
    if |js| > 0 {
      JobIndexAfterIdPreservingUpdate(js[1..], ks[1..], id);
    }
  }

  /** `Profile.update({balance: v}, {where: {id}})`; no row changes when the id is absent. */
  function SetBalance(ps: seq<Profile>, id: int, v: int): seq<Profile>
  {
    match ProfileIndex(ps, id)
    case None => ps
    case Some(k) => ps[k := ps[k].(balance := v)]
  }

  /** `job.update({paid: true, paymentDate: now})` on the row with the job's id. */
  function MarkPaid(js: seq<Job>, id: int, now: int): seq<Job>
  {
    match JobIndex(js, id)
    case None => js
    case Some(k) => js[k := js[k].(paid := true, paymentDate := Some(now))]
  }

  /** The money held by all profiles together. */
  function TotalBalance(ps: seq<Profile>): int
  {
    if |ps| == 0 then 0 else TotalBalance(ps[..|ps| - 1]) + ps[|ps| - 1].balance
  }

  /** Changing one profile's balance changes the total by exactly the difference. */
  lemma {:induction false} TotalBalanceUpdate(ps: seq<Profile>, k: nat, p: Profile)
    requires k < |ps|
    ensures TotalBalance(ps[k := p]) == TotalBalance(ps) - ps[k].balance + p.balance
  {
    var n := |ps| - 1;
    if k < n {
      assert ps[k := p][..n] == ps[..n][k := p];
      TotalBalanceUpdate(ps[..n], k, p);
    } else {
      assert ps[k := p][..n] == ps[..n];
    }
  }

  /** `SetBalance` moves the total by the difference at the row it writes. */
  lemma SetBalanceTotal(ps: seq<Profile>, id: int, v: int)
    ensures ProfileIndex(ps, id).Some? ==>
      TotalBalance(SetBalance(ps, id, v)) == TotalBalance(ps) - ps[ProfileIndex(ps, id).value].balance + v
  {
    if ProfileIndex(ps, id).Some? {
      var k := ProfileIndex(ps, id).value;
      TotalBalanceUpdate(ps, k, ps[k].(balance := v));
    }
  }

  lemma FindProfileCons(p: Profile, ps: seq<Profile>, id: int)
    ensures FindProfile([p] + ps, id) == if p.id == id then Some(p) else FindProfile(ps, id)
  {
    assert ([p] + ps)[1..] == ps;
  }

  /** With unique ids, the profile found by id is the one at any position holding that id. */
  lemma UniqueProfileLookup(b: Books, k: nat)
    requires UniqueIds(b) && k < |b.profiles|
    ensures ProfileIndex(b.profiles, b.profiles[k].id) == Some(k)
  {
  }

  /** With unique ids, looking a stored profile up by its id finds that profile. */
  lemma StoredProfileLookup(b: Books, p: Profile)
    requires UniqueIds(b) && p in b.profiles
    ensures FindProfile(b.profiles, p.id) == Some(p)
  {
    var k :| 0 <= k < |b.profiles| && b.profiles[k] == p;
    UniqueProfileLookup(b, k);
  }

  lemma UniqueJobLookup(b: Books, k: nat)
    requires UniqueIds(b) && k < |b.jobs|
    ensures JobIndex(b.jobs, b.jobs[k].id) == Some(k)
  {
  }
}
