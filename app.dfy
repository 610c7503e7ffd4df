/**
  The decision logic of the routes in src/app.js: the ownership check of
  `/contracts/:id`, the short-circuit of `/jobs/unpaid`, the guard chains of
  `/jobs/:job_id/pay` and `/balances/deposit/:userId`, and the two admin
  reports. The effects of pay and deposit on the books are given here as
  functions; class `Ledger` in module Store applies them.

  Every route that rejects a caller as unauthorized calls `unauthorizedError()`,
  which src/helper/Errors.js does not define: as written that call throws a
  TypeError. The outcome `Unauthorized` below is the intended result;
  `RespondAsWritten` and `RespondIntended` spell out both.
 */
module App {

  import opened Wrappers
  import opened Js
  import opened Entities
  import opened Grouping
  import opened ContractService
  import Errors

  /** A route's result: a value, or the error it sends. */
  datatype Outcome<T> = Ok(value: T) | Unauthorized | NotFound(message: string) | BadRequest(detail: string) | ServerError

  /** The same rejection at another result type. */
  function Reject<T, U>(o: Outcome<T>): (r: Outcome<U>)
    requires !o.Ok?
  {
    match o
    case Unauthorized => Unauthorized
    case NotFound(m) => NotFound(m)
    case BadRequest(d) => BadRequest(d)
    case ServerError => ServerError
  }

  // ------------------------------------------------------- /contracts/:id

  /** GET /contracts/:id for `caller`. */
  function ContractById(b: Books, caller: Profile, id: int): (r: Outcome<Contract>)
    ensures FindContract(b.contracts, id).None? <==> r == NotFound("No contract found with the given id")
    ensures r.Ok? <==> FindContract(b.contracts, id).Some? &&
                       PartyOf(FindContract(b.contracts, id).value, RoleOf(caller.kind)) == caller.id
    ensures r.Ok? ==> r.value in b.contracts && r.value.id == id
    ensures r.Ok? || r.NotFound? || r.Unauthorized?
  {
    match FindContract(b.contracts, id)
    case None => NotFound("No contract found with the given id")
    case Some(contract) =>
      var notContractors := caller.kind == Contractor && caller.id != contract.contractorId;
      var notClients := caller.kind == Client && caller.id != contract.clientId;
      if notContractors || notClients then Unauthorized else Ok(contract)
  }

  // ---------------------------------------------------------- /jobs/unpaid

  /** GET /jobs/unpaid: no active contract short-circuits to `[]`. */
  function UnpaidJobsForProfile(b: Books, caller: Profile): (r: seq<Job>)
    ensures forall j :: j in r <==>
      j in b.jobs && !j.paid && exists c :: c in ActiveContracts(b, caller) && c.id == j.contractId
  {
    var contracts := ActiveContracts(b, caller);
    var contractIds := ContractIds(contracts);
    assert forall x :: x in contractIds <==> exists c :: c in contracts && c.id == x by {
      forall x | x in contractIds ensures exists c :: c in contracts && c.id == x {
        var i :| 0 <= i < |contractIds| && contractIds[i] == x;
        assert contracts[i] in contracts;
      }
      forall x | exists c :: c in contracts && c.id == x ensures x in contractIds {
        var c :| c in contracts && c.id == x;
        var i :| 0 <= i < |contracts| && contracts[i] == c;
        assert contractIds[i] == x;
      }
    }
    if |contractIds| == 0 then [] else UnpaidJobs(b.jobs, contractIds)
  }

  // ---------------------------------------------------- /jobs/:job_id/pay

  const InsufficientBalance := "Insufficient balance"
  const ContractTerminated := "Contract has been terminated. Payment can not be made for a terminated contract."
  const AlreadyPaid := "This job has already been paid for!"

  /** The seven checks of POST /jobs/:job_id/pay, first failure wins; `Ok` carries the job and its contract. */
  function PayCheck(b: Books, payer: Profile, jobId: int): (r: Outcome<JobWithContract>)
    ensures r.Ok? <==>
      && payer.kind == Client
      && JobAndContract(b, jobId).Some?
      && JobAndContract(b, jobId).value.contract.Some?
      && payer.id == JobAndContract(b, jobId).value.contract.value.clientId
      && payer.balance >= JobAndContract(b, jobId).value.job.price
      && JobAndContract(b, jobId).value.contract.value.status == InProgress
      && !JobAndContract(b, jobId).value.job.paid
    ensures r.Ok? ==> r.value.contract.Some? && r.value.job in b.jobs && r.value.job.id == jobId &&
                      r.value.contract.value in b.contracts
  {
    if payer.kind != Client then Unauthorized
    else match JobAndContract(b, jobId)
      case None => NotFound("No job found with the given id")
      case Some(jc) =>
        match jc.contract
        case None => NotFound("No contract found for the given job")
        case Some(contract) =>
          if payer.id != contract.clientId then Unauthorized
          else if payer.balance < jc.job.price then BadRequest(InsufficientBalance)
          else if contract.status != InProgress then BadRequest(ContractTerminated)
          else if jc.job.paid then BadRequest(AlreadyPaid)
          else Ok(jc)
  }

  /** The order of the checks: each rejection is reached only when every earlier check passed. */
  lemma PayRejectsInOrder(b: Books, payer: Profile, jobId: int)
    ensures payer.kind != Client ==> PayCheck(b, payer, jobId) == Unauthorized
    ensures payer.kind == Client && JobAndContract(b, jobId).None? ==>
      PayCheck(b, payer, jobId) == NotFound("No job found with the given id")
    ensures payer.kind == Client && JobAndContract(b, jobId).Some? ==>
      var jc := JobAndContract(b, jobId).value;
      && (jc.contract.None? ==> PayCheck(b, payer, jobId) == NotFound("No contract found for the given job"))
      && (jc.contract.Some? ==>
           var c := jc.contract.value;
           && (payer.id != c.clientId ==> PayCheck(b, payer, jobId) == Unauthorized)
           && (payer.id == c.clientId && payer.balance < jc.job.price ==>
                 PayCheck(b, payer, jobId) == BadRequest(InsufficientBalance))
           && (payer.id == c.clientId && payer.balance >= jc.job.price && c.status != InProgress ==>
                 PayCheck(b, payer, jobId) == BadRequest(ContractTerminated))
           && ((payer.id == c.clientId && payer.balance >= jc.job.price && c.status == InProgress &&
                jc.job.paid) ==> PayCheck(b, payer, jobId) == BadRequest(AlreadyPaid)))
  {
  }

  /** The balance check is strict: a balance equal to the price pays. */
  lemma PayAcceptsExactBalance(b: Books, payer: Profile, jobId: int)
    requires payer.kind == Client
    requires JobAndContract(b, jobId).Some? && JobAndContract(b, jobId).value.contract.Some?
    requires var jc := JobAndContract(b, jobId).value;
      payer.id == jc.contract.value.clientId && jc.contract.value.status == InProgress &&
      !jc.job.paid && payer.balance == jc.job.price
    ensures PayCheck(b, payer, jobId).Ok?
  {
  }

  /** The result of POST /jobs/:job_id/pay: the guard chain, then the transaction (a rollback is a 500). */
  function PayOutcome(b: Books, payer: Profile, jobId: int, now: int): (r: Outcome<()>)
    ensures r.Ok? ==> PayCheck(b, payer, jobId).Ok?
    ensures !PayCheck(b, payer, jobId).Ok? ==> r == Reject(PayCheck(b, payer, jobId))
    ensures PayCheck(b, payer, jobId).Ok? ==>
      (r.ServerError? <==>
         forall p :: p in b.profiles ==> p.id != PayCheck(b, payer, jobId).value.contract.value.contractorId)
  {
    var check := PayCheck(b, payer, jobId);
    if !check.Ok? then Reject(check)
    else if Settle(b, payer, check.value.contract.value, check.value.job, check.value.job.price, now).Some? then Ok(())
    else ServerError
  }

  /** The books after POST /jobs/:job_id/pay: settled on success, untouched otherwise. */
  function AfterPay(b: Books, payer: Profile, jobId: int, now: int): (r: Books)
    ensures r.contracts == b.contracts && |r.profiles| == |b.profiles| && |r.jobs| == |b.jobs|
    ensures !PayOutcome(b, payer, jobId, now).Ok? ==> r == b
  {
    match PayCheck(b, payer, jobId)
    case Ok(jc) =>
      (match Settle(b, payer, jc.contract.value, jc.job, jc.job.price, now)
       case Some(settled) => settled
       case None => b)
    case _ => b
  }

  /** Every payment, accepted or not, keeps the total of all balances. */
  lemma PayConserves(b: Books, payer: Profile, jobId: int, now: int)
    requires UniqueIds(b) && payer in b.profiles
    ensures TotalBalance(AfterPay(b, payer, jobId, now).profiles) == TotalBalance(b.profiles)
    ensures !PayOutcome(b, payer, jobId, now).Ok? ==> AfterPay(b, payer, jobId, now) == b
  {
    var check := PayCheck(b, payer, jobId);
    if check.Ok? {
      StoredProfileLookup(b, payer);
      SettleConserves(b, payer, check.value.contract.value, check.value.job, check.value.job.price, now);
    }
  }

  /**
    A paid job moves exactly its price from the client to a distinct
    contractor and is marked paid; every other profile and job is untouched.
   */
  lemma PayMovesPrice(b: Books, payer: Profile, jobId: int, now: int, ci: nat, ki: nat, ji: nat)
    requires UniqueIds(b)
    requires ci < |b.profiles| && b.profiles[ci] == payer
    requires PayCheck(b, payer, jobId).Ok?
    requires ki < |b.profiles| && b.profiles[ki].id == PayCheck(b, payer, jobId).value.contract.value.contractorId
    requires ki != ci
    requires ji < |b.jobs| && b.jobs[ji].id == jobId
    ensures PayOutcome(b, payer, jobId, now) == Ok(())
    ensures var price := b.jobs[ji].price;
      var r := AfterPay(b, payer, jobId, now);
      && r.profiles[ci].balance == payer.balance - price
      && r.profiles[ki].balance == b.profiles[ki].balance + price
      && (forall i :: 0 <= i < |b.profiles| && i != ci && i != ki ==> r.profiles[i] == b.profiles[i])
      && r.jobs[ji].paid && r.jobs[ji].paymentDate == Some(now)
      && (forall i :: 0 <= i < |b.jobs| && i != ji ==> r.jobs[i] == b.jobs[i])
      && r.contracts == b.contracts
  {
    var jc := PayCheck(b, payer, jobId).value;
    UniqueJobLookup(b, ji);
    assert jc.job == b.jobs[ji];
    SettleTransfers(b, payer, jc.contract.value, jc.job, jc.job.price, now, ci, ki, ji);
  }

  /** Paying twice: once a job is settled, no later pay request for it succeeds, whoever sends it. */
  lemma PayTwiceRejected(b: Books, payer: Profile, jobId: int, now: int, again: Profile)
    requires UniqueIds(b)
    requires PayOutcome(b, payer, jobId, now).Ok?
    ensures !PayCheck(AfterPay(b, payer, jobId, now), again, jobId).Ok?
    ensures var b' := AfterPay(b, payer, jobId, now);
      PayCheck(b', again, jobId).BadRequest? || PayCheck(b', again, jobId).Unauthorized?
  {
    var jc := PayCheck(b, payer, jobId).value;
    var b' := AfterPay(b, payer, jobId, now);
    var ji := JobIndex(b.jobs, jobId).value;
    UniqueJobLookup(b, ji);
    assert b'.jobs == MarkPaid(b.jobs, jc.job.id, now);
    assert b'.jobs[ji] == b.jobs[ji].(paid := true, paymentDate := Some(now));
    assert JobIndex(b'.jobs, jobId) == Some(ji) by {
      JobIndexAfterIdPreservingUpdate(b.jobs, b'.jobs, jobId);
    }
    assert b'.contracts == b.contracts;
  }

  // ------------------------------------------------ /balances/deposit/:userId

  const OverDepositCap := "Amount is more than 25% of the total of jobs that are unpaid"

  /** The price of the unpaid jobs on the caller's active contracts. */
  function UnpaidTotal(b: Books, caller: Profile): int
  {
    SumPrices(UnpaidJobs(b.jobs, ContractIds(ActiveContracts(b, caller))))
  }

  /**
    The unpaid total: zero without an active contract, and, with no negative
    price stored, not negative and at least each unpaid job's price under
    the caller's active contracts.
   */
  lemma UnpaidTotalBounds(b: Books, caller: Profile)
    ensures ActiveContracts(b, caller) == [] ==> UnpaidTotal(b, caller) == 0
    ensures (forall j :: j in b.jobs ==> j.price >= 0) ==>
      && UnpaidTotal(b, caller) >= 0
      && forall j :: j in UnpaidJobs(b.jobs, ContractIds(ActiveContracts(b, caller))) ==> j.price <= UnpaidTotal(b, caller)
  {
    var js := UnpaidJobs(b.jobs, ContractIds(ActiveContracts(b, caller)));
    if forall j :: j in b.jobs ==> j.price >= 0 {
      SumPricesBounds(js);
    }
  }

  /**
    The checks of POST /balances/deposit/:userId. `amount > total * 0.25` is
    written `4 * amount > total`, exact on integers.
   */
  function DepositCheck(b: Books, caller: Profile, userId: int, amount: int): (r: Outcome<()>)
    ensures r.Ok? <==> caller.id == userId && caller.kind == Client && 4 * amount <= UnpaidTotal(b, caller)
    ensures caller.id != userId || caller.kind != Client ==> r == Unauthorized
    ensures caller.id == userId && caller.kind == Client && 4 * amount > UnpaidTotal(b, caller) ==>
      r == BadRequest(OverDepositCap)
  {
    if caller.id != userId then Unauthorized
    else if caller.kind != Client then Unauthorized
    else if 4 * amount > UnpaidTotal(b, caller) then BadRequest(OverDepositCap)
    else Ok(())
  }

  /** The identity checks do not read the books: unauthorized callers are refused whatever is stored. */
  lemma DepositIdentityBeforeReads(b1: Books, b2: Books, caller: Profile, userId: int, a1: int, a2: int)
    requires caller.id != userId || caller.kind != Client
    ensures DepositCheck(b1, caller, userId, a1) == DepositCheck(b2, caller, userId, a2) == Unauthorized
  {
  }

  /** The cap's edges: the bound itself is accepted, and with nothing unpaid no positive amount is. */
  lemma DepositCapEdges(b: Books, caller: Profile, amount: int)
    requires caller.kind == Client
    ensures 4 * amount == UnpaidTotal(b, caller) ==> DepositCheck(b, caller, caller.id, amount).Ok?
    ensures UnpaidTotal(b, caller) == 0 && amount > 0 ==>
      DepositCheck(b, caller, caller.id, amount) == BadRequest(OverDepositCap)
  {
  }

  /** The books after a deposit: the caller's row is set to its balance plus `amount` when accepted. */
  function AfterDeposit(b: Books, caller: Profile, userId: int, amount: int): (r: Books)
    ensures r.contracts == b.contracts && r.jobs == b.jobs && |r.profiles| == |b.profiles|
    ensures !DepositCheck(b, caller, userId, amount).Ok? ==> r == b
  {
    if DepositCheck(b, caller, userId, amount).Ok? then b.(profiles := SetBalance(b.profiles, userId, caller.balance + amount))
    else b
  }

  /** An accepted deposit raises the caller's balance by exactly `amount`; nothing else changes. */
  lemma DepositCredits(b: Books, caller: Profile, userId: int, amount: int, ci: nat)
    requires UniqueIds(b) && ci < |b.profiles| && b.profiles[ci] == caller
    ensures var r := AfterDeposit(b, caller, userId, amount);
      && |r.profiles| == |b.profiles| && r.contracts == b.contracts && r.jobs == b.jobs
      && (DepositCheck(b, caller, userId, amount).Ok? ==>
            r.profiles[ci] == caller.(balance := caller.balance + amount))
      && (forall i :: 0 <= i < |b.profiles| && i != ci ==> r.profiles[i] == b.profiles[i])
      && (!DepositCheck(b, caller, userId, amount).Ok? ==> r == b)
  {
    UniqueProfileLookup(b, ci);
  }

  // ------------------------------------------------------- admin reports

  /** `Object.entries(m).sort((a, b) => b[1] - a[1])[0][0]`: a profession with the largest total. */
  function PickBestProfession(entries: seq<Entry<string>>): (k: string)
    requires |entries| > 0
    ensures exists e :: e in entries && e.key == k && forall x :: x in entries ==> x.total <= e.total
  {
    var sorted := SortDesc(entries);
    assert sorted[0] in multiset(entries);
    assert forall x :: x in entries ==> x in multiset(sorted);
    sorted[0].key
  }

  const NoJobsInRange := "No jobs found for the given time range"

  /** GET /admin/best-profession for the window (start, end). */
  method BestProfession(b: Books, start: int, end: int) returns (o: Outcome<string>)
    ensures |GroupPaymentsByContractor(b, start, end)| == 0 <==> o == NotFound(NoJobsInRange)
    ensures var rows := GroupPaymentsByContractor(b, start, end);
      |rows| > 0 && !AllResolved(rows, b.profiles) ==> o == ServerError
    ensures var rows := GroupPaymentsByContractor(b, start, end);
      o.Ok? <==> |rows| > 0 && AllResolved(rows, b.profiles)
    ensures var rows := GroupPaymentsByContractor(b, start, end);
      o.Ok? ==> (AllResolved(rows, b.profiles) &&
        var professions := GroupSum(ByProfession(rows, b.profiles));
        exists e :: e in professions && e.key == o.value && forall x :: x in professions ==> x.total <= e.total)
  {
    var paymentsByContractor := GroupPaymentsByContractor(b, start, end);
    if |paymentsByContractor| == 0 {
      return NotFound(NoJobsInRange);
    }
    var paymentsByProfession := GroupPaymentsByProfession(Some(paymentsByContractor), b.profiles);
    if paymentsByProfession.Failure? {
      return ServerError;
    }
    var byProfession := ByProfession(paymentsByContractor, b.profiles);
    assert byProfession[0] in byProfession;
    assert byProfession[0].key in Keys(paymentsByProfession.value);
    o := Ok(PickBestProfession(paymentsByProfession.value));
  }

  /** `limit` when given, otherwise 2. */
  function LimitOrDefault(limit: Option<int>): int
  {
    if limit.Some? then limit.value else 2
  }

  /** `s.slice(0, end)`: a negative end counts back from the length. */
  function Take<T>(s: seq<T>, end: int): (r: seq<T>)
    ensures 0 <= end ==> r == s[..if end < |s| then end else |s|]
    ensures end < 0 ==> r == s[..if |s| + end > 0 then |s| + end else 0]
    ensures |s| <= end ==> r == s
  {
    var stop := if end < 0 then (if |s| + end > 0 then |s| + end else 0) else (if end < |s| then end else |s|);
    s[..stop]
  }

  /** The grouped client rows with the client's full name filled in. */
  function Enriched(rows: seq<Entry<int>>, profiles: seq<Profile>): (r: seq<ClientPayment>)
    requires AllResolved(rows, profiles)
    ensures |r| == |rows|
    ensures forall i :: 0 <= i < |rows| ==>
      r[i] == ClientPayment(rows[i].key, rows[i].total, Some(FullName(FindProfile(profiles, rows[i].key).value)))
  {
    seq(|rows|, i requires 0 <= i < |rows| =>
      ClientPayment(rows[i].key, rows[i].total, Some(FullName(FindProfile(profiles, rows[i].key).value))))
  }

  /** The client rows as `ClientPayment`s, named through `addClientDetailsToPayments`; `None` when a client is missing. */
  method NameClients(rows: seq<Entry<int>>, profiles: seq<Profile>) returns (r: Option<seq<ClientPayment>>)
    ensures r.Some? <==> AllResolved(rows, profiles)
    ensures r.Some? ==> r.value == Enriched(rows, profiles)
  {
    var entries := new ClientPayment[|rows|](i requires 0 <= i < |rows| => ClientPayment(rows[i].key, rows[i].total, None));
    assert forall k :: 0 <= k < |rows| ==> entries[k] == ClientPayment(rows[k].key, rows[k].total, None);
    var ok := AddClientDetailsToPayments(entries, profiles);
    if !ok {
      return None;
    }
    assert entries[..] == Enriched(rows, profiles);
    r := Some(entries[..]);
  }

  /** A prefix of rows that are descending by total is descending too. */
  lemma TakeDescending(rows: seq<Entry<int>>, profiles: seq<Profile>, end: int)
    requires AllResolved(rows, profiles) && Descending(rows)
    ensures var r := Take(Enriched(rows, profiles), end);
      forall i, j :: 0 <= i < j < |r| ==> r[i].totalPaid >= r[j].totalPaid
  {
  }

  /** GET /admin/best-clients for the window (start, end): the first `limit` entries, already in order. */
  method BestClients(b: Books, start: int, end: int, limit: Option<int>) returns (o: Outcome<seq<ClientPayment>>)
    ensures |GroupPaymentsByClient(b, start, end)| == 0 <==> o == NotFound(NoJobsInRange)
    ensures var rows := GroupPaymentsByClient(b, start, end);
      |rows| > 0 && !AllResolved(rows, b.profiles) ==> o == ServerError
    ensures var rows := GroupPaymentsByClient(b, start, end);
      |rows| > 0 && AllResolved(rows, b.profiles) ==>
        o == Ok(Take(Enriched(rows, b.profiles), LimitOrDefault(limit)))
    ensures o.Ok? ==> forall i, j :: 0 <= i < j < |o.value| ==> o.value[i].totalPaid >= o.value[j].totalPaid
  {
    var paymentsByClient := GroupPaymentsByClient(b, start, end);
    if |paymentsByClient| == 0 {
      return NotFound(NoJobsInRange);
    }
    var named := NameClients(paymentsByClient, b.profiles);
    if named.None? {
      return ServerError;
    }
    TakeDescending(paymentsByClient, b.profiles, LimitOrDefault(limit));
    o := Ok(Take(named.value, LimitOrDefault(limit)));
  }

  // ------------------------------------------------------------ responses

  /** The error envelope for a rejection, with the intended 401 for `Unauthorized`. */
  function RespondIntended<T>(o: Outcome<T>): (r: Errors.Response)
    requires !o.Ok?
    ensures o.Unauthorized? ==> r.httpStatus == Num(401)
    ensures o.NotFound? ==> r.httpStatus == Num(404)
    ensures o.BadRequest? ==> r.httpStatus == Num(400)
    ensures o.ServerError? ==> r.httpStatus == Num(500)
  {
    match o
    case Unauthorized => Errors.SendError(Errors.UnauthorizedError())
    case NotFound(m) =>
      assert Errors.UnauthorizedError() != Errors.NotFound(Str(m));
      Errors.SendError(Errors.NotFound(Str(m)))
    case BadRequest(d) => Errors.SendError(Errors.BadRequest(Errors.DetailOnly(d)))
    case ServerError => Errors.SendError(Errors.ServerError())
  }

  /**
    The response as the code is written. `unauthorizedError` is undefined, so
    an `Unauthorized` rejection throws a TypeError: inside a route's `try` it
    becomes the server-error envelope; outside it (the deposit route's two
    identity checks) nothing is sent (`None`).
   */
  function RespondAsWritten<T>(o: Outcome<T>, insideTry: bool): (r: Option<Errors.Response>)
    requires !o.Ok?
    ensures !o.Unauthorized? ==> r == Some(RespondIntended(o))
    ensures o.Unauthorized? ==> (r.Some? <==> insideTry)
  {
    if o.Unauthorized? then
      (if insideTry then Some(Errors.SendError(Errors.ServerError())) else None)
    else Some(RespondIntended(o))
  }

  /**
    A contractor calling POST /jobs/:job_id/pay is answered 500 as written,
    where 401 is intended; the same caller on the deposit route gets no response.
   */
  lemma UnauthorizedAsWritten(b: Books, payer: Profile, jobId: int, userId: int, amount: int)
    requires payer.kind == Contractor
    ensures PayCheck(b, payer, jobId) == Unauthorized
    ensures RespondAsWritten(PayCheck(b, payer, jobId), true).value.httpStatus == Num(500)
    ensures RespondIntended(PayCheck(b, payer, jobId)).httpStatus == Num(401)
    ensures RespondAsWritten(DepositCheck(b, payer, userId, amount), false).None?
  {
  }
}
