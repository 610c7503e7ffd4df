/**
  The database the routes write to: three tables updated in place. The
  money-moving routes change the tables only through `MakePaymentForJob`
  and `Deposit`, step by step as the service issues its updates.
 */
module Store {

  import opened Wrappers
  import opened Entities
  import opened ContractService
  import opened App

  /** The row updates keep every id in place, so they keep the ids unique. */
  lemma SetBalanceKeepsUnique(b: Books, id: int, v: int)
    requires UniqueIds(b)
    ensures UniqueIds(b.(profiles := SetBalance(b.profiles, id, v)))
  {
    var ps := SetBalance(b.profiles, id, v);
    assert |ps| == |b.profiles| && forall i :: 0 <= i < |ps| ==> ps[i].id == b.profiles[i].id;
  }

  /** Ids are kept by every row update. */
  lemma SetBalanceKeepsIds(ps: seq<Profile>, id: int, v: int)
    ensures |SetBalance(ps, id, v)| == |ps|
    ensures forall i :: 0 <= i < |ps| ==> SetBalance(ps, id, v)[i].id == ps[i].id
  {
  }

  lemma MarkPaidKeepsIds(js: seq<Job>, id: int, now: int)
    ensures |MarkPaid(js, id, now)| == |js|
    ensures forall i :: 0 <= i < |js| ==> MarkPaid(js, id, now)[i].id == js[i].id
  {
  }

  /** A committed settlement keeps every row's id in place. */
  lemma SettleKeepsIds(b: Books, client: Profile, contract: Contract, job: Job, amount: int, now: int)
    ensures var r := Settle(b, client, contract, job, amount, now);
      r.Some? ==>
        && r.value.contracts == b.contracts
        && |r.value.profiles| == |b.profiles| && (forall i :: 0 <= i < |b.profiles| ==> r.value.profiles[i].id == b.profiles[i].id)
        && |r.value.jobs| == |b.jobs| && (forall i :: 0 <= i < |b.jobs| ==> r.value.jobs[i].id == b.jobs[i].id)
  {
    SettleExits(b, client, contract, job, amount, now);
    var debited := SetBalance(b.profiles, client.id, client.balance - amount);
    SetBalanceKeepsIds(b.profiles, client.id, client.balance - amount);
    MarkPaidKeepsIds(b.jobs, job.id, now);
    match FindProfile(debited, contract.contractorId)
    case None =>
    case Some(c) =>
      SetBalanceKeepsIds(debited, contract.contractorId, c.balance + amount);
  }

  /** A committed settlement keeps the ids unique. */
  lemma SettleKeepsUnique(b: Books, client: Profile, contract: Contract, job: Job, amount: int, now: int)
    requires UniqueIds(b)
    ensures Settle(b, client, contract, job, amount, now).Some? ==> UniqueIds(Settle(b, client, contract, job, amount, now).value)
  {
    SettleKeepsIds(b, client, contract, job, amount, now);
  }

  /** An accepted or refused deposit keeps the ids unique. */
  lemma DepositKeepsUnique(b: Books, caller: Profile, userId: int, amount: int)
    requires UniqueIds(b)
    ensures UniqueIds(AfterDeposit(b, caller, userId, amount))
  {
    SetBalanceKeepsUnique(b, userId, caller.balance + amount);
  }

  class Ledger {
    var profiles: seq<Profile>
    var contracts: seq<Contract>
    var jobs: seq<Job>

    /** The three tables as one value. */
    function Books(): Books
      reads this
    {
      Entities.Books(profiles, contracts, jobs)
    }

    /** Every table keyed by a unique id. */
    predicate Valid()
      reads this
    {
      UniqueIds(Books())
    }

    constructor (b: Entities.Books)
      requires UniqueIds(b)
      ensures Valid() && Books() == b
    {
      profiles := b.profiles;
      contracts := b.contracts;
      jobs := b.jobs;
    }

    /**
      `makePaymentForJob` in one transaction: debit the client from its
      snapshot, read the contractor (after the debit), credit it, mark the
      job paid. A missing contractor aborts and rolls back the debit.
     */
    method MakePaymentForJob(client: Profile, contract: Contract, job: Job, amount: int, now: int)
      returns (committed: bool)
      modifies this
      ensures committed ==> Settle(old(Books()), client, contract, job, amount, now) == Some(Books())
      ensures !committed ==> Settle(old(Books()), client, contract, job, amount, now) == None && Books() == old(Books())
    {
      ghost var before := Books();
      SettleExits(before, client, contract, job, amount, now);
      var savepoint := profiles;
      var debited := SetBalance(profiles, client.id, client.balance - amount);
      profiles := debited;
      var contractor := FindProfile(debited, contract.contractorId);
      if contractor.None? {
        profiles := savepoint;
        return false;
      }
      var credited := SetBalance(debited, contract.contractorId, contractor.value.balance + amount);
      profiles := credited;
      var paid := MarkPaid(jobs, job.id, now);
      jobs := paid;
      return true;
    }

    /** POST /jobs/:job_id/pay for the authenticated `payer`. */
    method Pay(payer: Profile, jobId: int, now: int) returns (o: Outcome<()>)
      requires Valid()
      modifies this
      ensures Valid()
      ensures o == PayOutcome(old(Books()), payer, jobId, now)
      ensures Books() == AfterPay(old(Books()), payer, jobId, now)
    {
      var check := PayCheck(Books(), payer, jobId);
      if !check.Ok? {
        return Reject(check);
      }
      var jc := check.value;
      SettleKeepsUnique(Books(), payer, jc.contract.value, jc.job, jc.job.price, now);
      var committed := MakePaymentForJob(payer, jc.contract.value, jc.job, jc.job.price, now);
      o := if committed then Ok(()) else ServerError;
    }

    /** POST /balances/deposit/:userId for the authenticated `caller`. */
    method Deposit(caller: Profile, userId: int, amount: int) returns (o: Outcome<()>)
      requires Valid()
      modifies this
      ensures Valid()
      ensures o == DepositCheck(old(Books()), caller, userId, amount)
      ensures Books() == AfterDeposit(old(Books()), caller, userId, amount)
    {
      var before := Books();
      DepositKeepsUnique(before, caller, userId, amount);
      o := DepositCheck(before, caller, userId, amount);
      if o.Ok? {
        profiles := SetBalance(before.profiles, userId, caller.balance + amount);
      }
    }
  }
}
