/**
  src/services/ContractService.js over in-memory books: the contract and job
  queries, the effect of the settlement transaction, the windowed grouped sums
  and the two enrichment steps that the reports run.
 */
module ContractService {

  import opened Wrappers
  import opened Entities
  import opened Grouping

  // ---------------------------------------------------------------- queries

  /** The contracts of `cs` whose `role` side is `id` and whose status is allowed, in table order. */
  function ContractsOnSide(cs: seq<Contract>, id: int, role: Role, allowed: set<Status>): (r: seq<Contract>)
    ensures forall c :: c in r <==> c in cs && PartyOf(c, role) == id && c.status in allowed
    ensures |r| <= |cs|
  {
    if |cs| == 0 then []
    else
      var rest := ContractsOnSide(cs[1..], id, role, allowed);
      assert forall c :: c in cs <==> c == cs[0] || c in cs[1..];
      if PartyOf(cs[0], role) == id && cs[0].status in allowed then [cs[0]] + rest else rest
  }

  /**
    The profile row with its contracts joined on the side its type selects,
    restricted to `allowed` statuses. The join is an inner join, so a profile
    with no such contract, like a profile id with no row, yields `[]`.
   */
  function ContractsForProfile(b: Books, p: Profile, allowed: set<Status>): (r: seq<Contract>)
    ensures forall c :: c in r <==>
      FindProfile(b.profiles, p.id).Some? && c in b.contracts && PartyOf(c, RoleOf(p.kind)) == p.id &&
      c.status in allowed
  {
    if FindProfile(b.profiles, p.id).None? then []
    else ContractsOnSide(b.contracts, p.id, RoleOf(p.kind), allowed)
  }

  /** `getActiveContractsForProfile`: the `in_progress` contracts on the profile's side. */
  function ActiveContracts(b: Books, p: Profile): (r: seq<Contract>)
    ensures forall c :: c in r <==>
      FindProfile(b.profiles, p.id).Some? && c in b.contracts && c.status == InProgress &&
      (if p.kind == Contractor then c.contractorId else c.clientId) == p.id
  {
    ContractsForProfile(b, p, {InProgress})
  }

  /** `getNonTerminatedContractsForProfile`: the `in_progress` or `new` contracts on the profile's side. */
  function NonTerminatedContracts(b: Books, p: Profile): (r: seq<Contract>)
    ensures forall c :: c in r <==>
      FindProfile(b.profiles, p.id).Some? && c in b.contracts && c.status in {InProgress, New} &&
      (if p.kind == Contractor then c.contractorId else c.clientId) == p.id
    ensures forall c :: c in r ==> c.status != Terminated
  {
    ContractsForProfile(b, p, {InProgress, New})
  }

  /** `contracts.map(c => c.id)` */
  function ContractIds(cs: seq<Contract>): (r: seq<int>)
    ensures |r| == |cs|
    ensures forall i :: 0 <= i < |cs| ==> r[i] == cs[i].id
  {
    seq(|cs|, i requires 0 <= i < |cs| => cs[i].id)
  }

  /** `getUnpaidJobsForContracts`: the unpaid jobs whose contract id is listed, in table order. */
  function UnpaidJobs(js: seq<Job>, contractIds: seq<int>): (r: seq<Job>)
    ensures forall j :: j in r <==> j in js && !j.paid && j.contractId in contractIds
    ensures contractIds == [] ==> r == []
  {
    if |js| == 0 then []
    else
      var rest := UnpaidJobs(js[1..], contractIds);
      assert forall j :: j in js <==> j == js[0] || j in js[1..];
      if !js[0].paid && js[0].contractId in contractIds then [js[0]] + rest else rest
  }

  /** The sum of the prices of `js` (`jobs.reduce((acc, job) => acc + job.price, 0)`). */
  function SumPrices(js: seq<Job>): int
  {
    if |js| == 0 then 0 else SumPrices(js[..|js| - 1]) + js[|js| - 1].price
  }

  /** With no negative price, the sum is not negative and bounds every price it adds up. */
  lemma {:induction false} SumPricesBounds(js: seq<Job>)
    requires forall j :: j in js ==> j.price >= 0
    ensures SumPrices(js) >= 0
    ensures forall j :: j in js ==> j.price <= SumPrices(js)
  {
    if |js| > 0 {
      var init := js[..|js| - 1];
      assert forall j :: j in init ==> j in js;
      SumPricesBounds(init);
      assert forall j :: j in js ==> j in init || j == js[|js| - 1];
    }
  }

  /** A job with its contract joined; the join is an outer join, so the contract may be absent. */
  datatype JobWithContract = JobWithContract(job: Job, contract: Option<Contract>)

  /** `getJobAndContractByJobId` */
  function JobAndContract(b: Books, jobId: int): (r: Option<JobWithContract>)
    ensures r.None? <==> forall j :: j in b.jobs ==> j.id != jobId
    ensures r.Some? ==> r.value.job in b.jobs && r.value.job.id == jobId
    ensures r.Some? && r.value.contract.Some? ==>
      r.value.contract.value in b.contracts && r.value.contract.value.id == r.value.job.contractId
    ensures r.Some? && r.value.contract.None? ==>
      forall c :: c in b.contracts ==> c.id != r.value.job.contractId
  {
    match FindJob(b.jobs, jobId)
    case None => None
    case Some(j) => Some(JobWithContract(j, FindContract(b.contracts, j.contractId)))
  }

  // ------------------------------------------------------------- settlement

  /**
    The effect of `makePaymentForJob`: the client row is set to the client
    record's balance minus `amount`; then the contractor row is read (after
    that debit) and set to its balance plus `amount`; then the job row is
    marked paid at `now`. A missing contractor row makes the update throw and
    the transaction roll back: `None`, nothing written.
   */
  function Settle(b: Books, client: Profile, contract: Contract, job: Job, amount: int, now: int): (r: Option<Books>)
    ensures r.None? <==> forall p :: p in b.profiles ==> p.id != contract.contractorId
    ensures r.Some? ==> r.value.contracts == b.contracts && |r.value.profiles| == |b.profiles| &&
                        |r.value.jobs| == |b.jobs|
  {
    var debited := SetBalance(b.profiles, client.id, client.balance - amount);
    assert forall i :: 0 <= i < |debited| ==> debited[i].id == b.profiles[i].id;
    match FindProfile(debited, contract.contractorId)
    case None => None
    case Some(c) =>
      Some(Books(SetBalance(debited, contract.contractorId, c.balance + amount), b.contracts,
                 MarkPaid(b.jobs, job.id, now)))
  }

  /**
    A settlement between two distinct profiles debits the client by `amount`,
    credits the contractor by `amount`, marks the job paid at `now`, and
    leaves every other profile and job row as it was.
   */
  lemma SettleTransfers(b: Books, client: Profile, contract: Contract, job: Job, amount: int, now: int,
                        ci: nat, ki: nat, ji: nat)
    requires UniqueIds(b)
    requires ci < |b.profiles| && b.profiles[ci] == client
    requires ki < |b.profiles| && b.profiles[ki].id == contract.contractorId && ki != ci
    requires ji < |b.jobs| && b.jobs[ji].id == job.id
    ensures Settle(b, client, contract, job, amount, now).Some?
    ensures var r := Settle(b, client, contract, job, amount, now).value;
      && r.profiles[ci] == client.(balance := client.balance - amount)
      && r.profiles[ki] == b.profiles[ki].(balance := b.profiles[ki].balance + amount)
      && (forall i :: 0 <= i < |b.profiles| && i != ci && i != ki ==> r.profiles[i] == b.profiles[i])
      && r.jobs[ji] == b.jobs[ji].(paid := true, paymentDate := Some(now))
      && (forall i :: 0 <= i < |b.jobs| && i != ji ==> r.jobs[i] == b.jobs[i])
  {
    UniqueProfileLookup(b, ci);
    UniqueProfileLookup(b, ki);
    UniqueJobLookup(b, ji);
    var debited := SetBalance(b.profiles, client.id, client.balance - amount);
    assert debited == b.profiles[ci := client.(balance := client.balance - amount)];
    assert ProfileIndex(debited, contract.contractorId) == Some(ki) by {
      assert forall i :: 0 <= i < |debited| ==> debited[i].id == b.profiles[i].id;
      ProfileIndexAfterIdPreservingUpdate(b.profiles, debited, contract.contractorId);
    }
  }

  /**
    When client and contractor are the same profile, the credit reads the
    debited balance back, so the profile ends where it started.
   */
  lemma SettleAliased(b: Books, client: Profile, contract: Contract, job: Job, amount: int, now: int)
    requires UniqueIds(b) && client in b.profiles && client.id == contract.contractorId
    ensures Settle(b, client, contract, job, amount, now).Some?
    ensures Settle(b, client, contract, job, amount, now).value.profiles == b.profiles
  {
    var ci :| 0 <= ci < |b.profiles| && b.profiles[ci] == client;
    UniqueProfileLookup(b, ci);
    var debited := SetBalance(b.profiles, client.id, client.balance - amount);
    assert debited == b.profiles[ci := client.(balance := client.balance - amount)];
    assert ProfileIndex(debited, client.id) == Some(ci) by {
      ProfileIndexAfterIdPreservingUpdate(b.profiles, debited, client.id);
    }
    assert debited[ci := client] == b.profiles;
  }

  /** Conservation: a committed settlement leaves the sum of all balances unchanged. */
  lemma SettleConserves(b: Books, client: Profile, contract: Contract, job: Job, amount: int, now: int)
    requires FindProfile(b.profiles, client.id) == Some(client)
    ensures Settle(b, client, contract, job, amount, now).Some? ==>
      TotalBalance(Settle(b, client, contract, job, amount, now).value.profiles) == TotalBalance(b.profiles)
  {
    DebitThenCredit(b.profiles, client, contract.contractorId, amount);
    SettleProfiles(b, client, contract, job, amount, now);
  }

  /** The two ways `Settle` ends, as the transaction's two exits. */
  lemma SettleExits(b: Books, client: Profile, contract: Contract, job: Job, amount: int, now: int)
    ensures var debited := SetBalance(b.profiles, client.id, client.balance - amount);
      match FindProfile(debited, contract.contractorId)
      case None => Settle(b, client, contract, job, amount, now) == None
      case Some(c) => (Settle(b, client, contract, job, amount, now) ==
        Some(Books(SetBalance(debited, contract.contractorId, c.balance + amount), b.contracts,
                   MarkPaid(b.jobs, job.id, now))))
  {
  }

  /** The profile table a committed settlement writes. */
  lemma SettleProfiles(b: Books, client: Profile, contract: Contract, job: Job, amount: int, now: int)
    ensures var debited := SetBalance(b.profiles, client.id, client.balance - amount);
      Settle(b, client, contract, job, amount, now).Some? ==>
        FindProfile(debited, contract.contractorId).Some? &&
        Settle(b, client, contract, job, amount, now).value.profiles ==
          SetBalance(debited, contract.contractorId, FindProfile(debited, contract.contractorId).value.balance + amount)
  {
  }

  /** Debiting the client's row and then crediting a row found afterwards by id keeps the total. */
  lemma DebitThenCredit(ps: seq<Profile>, client: Profile, kid: int, amount: int)
    requires FindProfile(ps, client.id) == Some(client)
    ensures var debited := SetBalance(ps, client.id, client.balance - amount);
      FindProfile(debited, kid).Some? ==>
        TotalBalance(SetBalance(debited, kid, FindProfile(debited, kid).value.balance + amount)) == TotalBalance(ps)
  {
    var debited := SetBalance(ps, client.id, client.balance - amount);
    SetBalanceTotal(ps, client.id, client.balance - amount);
    assert ps[ProfileIndex(ps, client.id).value] == client;
    assert TotalBalance(debited) == TotalBalance(ps) - amount;
    if FindProfile(debited, kid).Some? {
      var c := FindProfile(debited, kid).value;
      assert debited[ProfileIndex(debited, kid).value] == c;
      SetBalanceTotal(debited, kid, c.balance + amount);
      assert TotalBalance(SetBalance(debited, kid, c.balance + amount)) == TotalBalance(debited) + amount;
    }
  }

  // ----------------------------------------------------------- aggregation

  /** A job counted by the reports: paid, created strictly inside the window, with its contract present. */
  predicate InWindow(b: Books, j: Job, start: int, end: int)
  {
    j.paid && start < j.createdAt < end && FindContract(b.contracts, j.contractId).Some?
  }

  /** The profile a counted job's money belongs to under `role`. */
  function PartyOfJob(b: Books, j: Job, role: Role): int
    requires FindContract(b.contracts, j.contractId).Some?
  {
    PartyOf(FindContract(b.contracts, j.contractId).value, role)
  }

  /** One `(party, price)` entry per counted job of `js`, in table order. */
  function WindowPayments(b: Books, js: seq<Job>, start: int, end: int, role: Role): (r: seq<Entry<int>>)
    ensures forall e :: e in r ==> exists j :: j in js && InWindow(b, j, start, end) &&
                                               PartyOfJob(b, j, role) == e.key && j.price == e.total
    ensures forall j :: j in js && InWindow(b, j, start, end) ==> PartyOfJob(b, j, role) in Keys(r)
  {
    if |js| == 0 then []
    else
      var n := |js| - 1;
      var rest := WindowPayments(b, js[..n], start, end, role);
      assert forall j :: j in js <==> j in js[..n] || j == js[n];
      if InWindow(b, js[n], start, end) then rest + [Entry(PartyOfJob(b, js[n], role), js[n].price)]
      else rest
  }

  /** The money paid to (or by) profile `id` for counted jobs of `js`: the reference sum. */
  function PaidInWindow(b: Books, js: seq<Job>, start: int, end: int, role: Role, id: int): int
  {
    if |js| == 0 then 0
    else
      var n := |js| - 1;
      PaidInWindow(b, js[..n], start, end, role, id) +
      (if InWindow(b, js[n], start, end) && PartyOfJob(b, js[n], role) == id then js[n].price else 0)
  }

  lemma {:induction false} WindowPaymentsSum(b: Books, js: seq<Job>, start: int, end: int, role: Role, id: int)
    ensures SumFor(WindowPayments(b, js, start, end, role), id) == PaidInWindow(b, js, start, end, role, id)
  {
    if |js| > 0 {
      var n := |js| - 1;
      WindowPaymentsSum(b, js[..n], start, end, role, id);
      var rest := WindowPayments(b, js[..n], start, end, role);
      if InWindow(b, js[n], start, end) {
        var e := Entry(PartyOfJob(b, js[n], role), js[n].price);
        assert (rest + [e])[..|rest|] == rest;
      }
    }
  }

  /** The set of profiles with at least one counted job on their `role` side. */
  ghost predicate HasPaidJob(b: Books, start: int, end: int, role: Role, id: int)
  {
    exists j :: j in b.jobs && InWindow(b, j, start, end) && PartyOfJob(b, j, role) == id
  }

  /** The grouped window sums under `role`, before any ordering. */
  function GroupedWindow(b: Books, start: int, end: int, role: Role): (r: seq<Entry<int>>)
    ensures DistinctKeys(r)
    ensures forall id :: id in Keys(r) <==> HasPaidJob(b, start, end, role, id)
    ensures forall i :: 0 <= i < |r| ==> r[i].total == PaidInWindow(b, b.jobs, start, end, role, r[i].key)
    ensures |r| == 0 <==> forall j :: j in b.jobs ==> !InWindow(b, j, start, end)
  {
    var ps := WindowPayments(b, b.jobs, start, end, role);
    var r := GroupSum(ps);
    GroupSumEntries(ps);
    forall id { WindowPaymentsSum(b, b.jobs, start, end, role, id); }
    assert forall i :: 0 <= i < |r| ==> r[i].key in Keys(r);
    r
  }

  /**
    `groupPaymentsByContractor`: one row per contractor with a counted job,
    holding the sum of the prices of its counted jobs.
   */
  function GroupPaymentsByContractor(b: Books, start: int, end: int): (r: seq<Entry<int>>)
    ensures DistinctKeys(r)
    ensures forall id :: id in Keys(r) <==> HasPaidJob(b, start, end, ContractorRole, id)
    ensures forall i :: 0 <= i < |r| ==> r[i].total == PaidInWindow(b, b.jobs, start, end, ContractorRole, r[i].key)
    ensures |r| == 0 <==> forall j :: j in b.jobs ==> !InWindow(b, j, start, end)
  {
    GroupedWindow(b, start, end, ContractorRole)
  }

  /**
    `groupPaymentsByClient`: the same sums grouped by client, ordered by
    total descending.
   */
  function GroupPaymentsByClient(b: Books, start: int, end: int): (r: seq<Entry<int>>)
    ensures Descending(r)
    ensures DistinctKeys(r)
    ensures forall id :: id in Keys(r) <==> HasPaidJob(b, start, end, ClientRole, id)
    ensures |r| == 0 <==> forall j :: j in b.jobs ==> !InWindow(b, j, start, end)
    ensures multiset(r) == multiset(GroupedWindow(b, start, end, ClientRole))
  {
    var g := GroupedWindow(b, start, end, ClientRole);
    SortDescKeys(g);
    SortDescDistinct(g);
    SortDesc(g)
  }

  /** Each client row holds the money that client paid inside the window. */
  lemma ClientTotals(b: Books, start: int, end: int)
    ensures var r := GroupPaymentsByClient(b, start, end);
      forall i :: 0 <= i < |r| ==> r[i].total == PaidInWindow(b, b.jobs, start, end, ClientRole, r[i].key)
  {
    SortDescTotals(GroupedWindow(b, start, end, ClientRole), id => PaidInWindow(b, b.jobs, start, end, ClientRole, id));
  }

  // ------------------------------------------------------------ professions

  /** Every contractor id in `rows` has a profile. */
  predicate AllResolved(rows: seq<Entry<int>>, profiles: seq<Profile>)
  {
    forall i :: 0 <= i < |rows| ==> FindProfile(profiles, rows[i].key).Some?
  }

  /** The rows re-keyed by the profession of their contractor. */
  function ByProfession(rows: seq<Entry<int>>, profiles: seq<Profile>): (r: seq<Entry<string>>)
    requires AllResolved(rows, profiles)
    ensures |r| == |rows|
    ensures forall i :: 0 <= i < |rows| ==>
      r[i] == Entry(FindProfile(profiles, rows[i].key).value.profession, rows[i].total)
  {
    seq(|rows|, i requires 0 <= i < |rows| => Entry(FindProfile(profiles, rows[i].key).value.profession, rows[i].total))
  }

  /** `Profile.findAll({where: {id: {[Op.in]: ids}}})` */
  function ProfilesWithIds(ps: seq<Profile>, ids: seq<int>): (r: seq<Profile>)
    ensures forall id :: id in ids ==> FindProfile(r, id) == FindProfile(ps, id)
    ensures forall p :: p in r ==> p in ps && p.id in ids
  {
    if |ps| == 0 then []
    else
      var rest := ProfilesWithIds(ps[1..], ids);
      assert ps == [ps[0]] + ps[1..];
      assert forall id :: FindProfile(ps, id) == if ps[0].id == id then Some(ps[0]) else FindProfile(ps[1..], id) by {
        forall id { FindProfileCons(ps[0], ps[1..], id); }
      }
      assert forall id :: FindProfile([ps[0]] + rest, id) == if ps[0].id == id then Some(ps[0]) else FindProfile(rest, id) by {
        forall id { FindProfileCons(ps[0], rest, id); }
      }
      if ps[0].id in ids then [ps[0]] + rest else rest
  }

  /**
    `groupPaymentsByProfession`: fetches the contractors' profiles, then walks
    the rows in order, adding each row's total under its contractor's
    profession. A non-array (`None`) or empty input gives the empty mapping; a
    contractor id without a profile fails (a destructuring TypeError in the
    JavaScript) and the error names that id.
   */
  method GroupPaymentsByProfession(input: Option<seq<Entry<int>>>, profiles: seq<Profile>)
    returns (r: Result<seq<Entry<string>>, int>)
    ensures input.None? ==> r == Success([])
    ensures input.Some? && AllResolved(input.value, profiles) ==>
      r == Success(GroupSum(ByProfession(input.value, profiles)))
    ensures input.Some? && !AllResolved(input.value, profiles) ==>
      r.Failure? && FindProfile(profiles, r.error).None? &&
      exists i :: 0 <= i < |input.value| && input.value[i].key == r.error
  {
    if input.None? {
      return Success([]);
    }
    var rows := input.value;
    if |rows| == 0 {
      return Success([]);
    }
    var contractorIds := seq(|rows|, i requires 0 <= i < |rows| => rows[i].key);
    var contractorProfiles := ProfilesWithIds(profiles, contractorIds);
    assert forall i :: 0 <= i < |rows| ==> rows[i].key in contractorIds by {
      forall i | 0 <= i < |rows| ensures rows[i].key in contractorIds {
        assert contractorIds[i] == rows[i].key;
      }
    }
    r := AccumulateByProfession(rows, contractorProfiles, profiles);
  }

  /** The `forEach` of `groupPaymentsByProfession`, with the fetched profiles in `contractorProfiles`. */
  method AccumulateByProfession(rows: seq<Entry<int>>, contractorProfiles: seq<Profile>, profiles: seq<Profile>)
    returns (r: Result<seq<Entry<string>>, int>)
    requires forall i :: 0 <= i < |rows| ==>
      FindProfile(contractorProfiles, rows[i].key) == FindProfile(profiles, rows[i].key)
    ensures AllResolved(rows, profiles) ==> r == Success(GroupSum(ByProfession(rows, profiles)))
    ensures !AllResolved(rows, profiles) ==>
      r.Failure? && FindProfile(profiles, r.error).None? &&
      exists i :: 0 <= i < |rows| && rows[i].key == r.error
  {
    var professionPayMap: seq<Entry<string>> := [];
    var i := 0;
    while i < |rows|
      invariant 0 <= i <= |rows|
      invariant AllResolved(rows[..i], profiles)
      invariant professionPayMap == GroupSum(ByProfession(rows[..i], profiles))
    {
      var contractorProfile := FindProfile(contractorProfiles, rows[i].key);
      if contractorProfile.None? {
        return Failure(rows[i].key);
      }
      var profession := contractorProfile.value.profession;
      ByProfessionSnoc(rows, profiles, i);
      professionPayMap := AccumulateProfession(professionPayMap, profession, rows[i].total);
      i := i + 1;
    }
    assert rows[..i] == rows;
    return Success(professionPayMap);
  }

  /** One step of the `forEach`: `if (map[p]) map[p] += t; else map[p] = t;` */
  method AccumulateProfession(professionPayMap: seq<Entry<string>>, profession: string, totalPaid: int)
    returns (r: seq<Entry<string>>)
    requires DistinctKeys(professionPayMap)
    ensures r == Add(professionPayMap, Entry(profession, totalPaid))
  {
    var k := IndexOfKey(professionPayMap, profession);
    if k.Some? && professionPayMap[k.value].total != 0 {
      r := professionPayMap[k.value := Entry(profession, professionPayMap[k.value].total + totalPaid)];
    } else if k.Some? {
      // a falsy (zero) running total is overwritten, which is the same sum
      r := professionPayMap[k.value := Entry(profession, totalPaid)];
    } else {
      r := professionPayMap + [Entry(profession, totalPaid)];
    }
  }

  lemma ByProfessionSnoc(rows: seq<Entry<int>>, profiles: seq<Profile>, i: nat)
    requires i < |rows| && AllResolved(rows[..i], profiles) && FindProfile(profiles, rows[i].key).Some?
    ensures AllResolved(rows[..i + 1], profiles)
    ensures ByProfession(rows[..i + 1], profiles) ==
      ByProfession(rows[..i], profiles) + [Entry(FindProfile(profiles, rows[i].key).value.profession, rows[i].total)]
  {
  }

  /** The professions' totals add up to the contractors' totals. */
  lemma {:induction false} ByProfessionTotal(rows: seq<Entry<int>>, profiles: seq<Profile>)
    requires AllResolved(rows, profiles)
    ensures Total(GroupSum(ByProfession(rows, profiles))) == Total(rows)
  {
    ByProfessionTotalRaw(rows, profiles);
  }

  lemma {:induction false} ByProfessionTotalRaw(rows: seq<Entry<int>>, profiles: seq<Profile>)
    requires AllResolved(rows, profiles)
    ensures Total(ByProfession(rows, profiles)) == Total(rows)
  {
    if |rows| > 0 {
      var n := |rows| - 1;
      assert AllResolved(rows[..n], profiles);
      ByProfessionTotalRaw(rows[..n], profiles);
      assert ByProfession(rows, profiles)[..n] == ByProfession(rows[..n], profiles);
    }
  }

  // -------------------------------------------------------- client details

  /** An entry of the best-clients result; `fullName` is added in place. */
  datatype ClientPayment = ClientPayment(clientId: int, totalPaid: int, fullName: Option<string>)

  /** The template `${firstName} ${lastName}`. */
  function FullName(p: Profile): string
  {
    p.firstName + " " + p.lastName
  }

  /**
    `addClientDetailsToPayments`: sets each entry's `fullName` from the
    client's profile, in place, leaving ids, totals and order alone. A client
    id without a profile fails (a destructuring TypeError); the entries before
    it have been enriched by then.
   */
  method AddClientDetailsToPayments(a: array<ClientPayment>, profiles: seq<Profile>) returns (ok: bool)
    modifies a
    ensures ok <==> forall k :: 0 <= k < a.Length ==> FindProfile(profiles, old(a[k]).clientId).Some?
    ensures ok ==> forall k :: 0 <= k < a.Length ==>
      a[k] == old(a[k]).(fullName := Some(FullName(FindProfile(profiles, old(a[k]).clientId).value)))
    ensures forall k :: 0 <= k < a.Length ==>
      a[k].clientId == old(a[k]).clientId && a[k].totalPaid == old(a[k]).totalPaid
  {
    for i := 0 to a.Length
      invariant forall k :: 0 <= k < i ==>
        FindProfile(profiles, old(a[k]).clientId).Some? &&
        a[k] == old(a[k]).(fullName := Some(FullName(FindProfile(profiles, old(a[k]).clientId).value)))
      invariant forall k :: i <= k < a.Length ==> a[k] == old(a[k])
    {
      var client := FindProfile(profiles, a[i].clientId);
      if client.None? {
        return false;
      }
      a[i] := a[i].(fullName := Some(FullName(client.value)));
    }
    return true;
  }
}
