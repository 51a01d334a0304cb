/**
 The Cloud payment service as the source writes it: table rows updated step by step.  Every method is
 tied to the transaction function that the schedules of CloudPaymentRuns are made of.
 */
module CloudPaymentsService {
  import opened Common
  import opened PaymentDomain
  import opened CloudPayments
  import opened CloudPaymentRuns
  import opened CloudPaymentTheorems

  /** Stored callbacks applied one after the other. */
  function ApplyStoredAll(db: Tables, keys: seq<EventKey>, id: Id, n: nat): (after: Tables)
    requires n <= |keys| && id in db.attempts && db.attempts[id].paymentId in db.payments
    requires forall k :: k in keys ==> k in db.events
    ensures id in after.attempts && after.attempts[id].paymentId == db.attempts[id].paymentId
    ensures after.payments == db.payments && after.events.Keys == db.events.Keys
  {
    if n == 0 then db
    else
      var before := ApplyStoredAll(db, keys, id, n - 1);
      StoredKeepsRows(before, keys[n - 1], id);
      ApplyStored(before, keys[n - 1], id)
  }

  lemma {:induction false} StoredKeepsRows(db: Tables, key: EventKey, id: Id)
    requires key in db.events && id in db.attempts && db.attempts[id].paymentId in db.payments
    ensures var after := ApplyStored(db, key, id);
      && id in after.attempts && after.attempts[id].paymentId == db.attempts[id].paymentId
      && after.payments == db.payments && after.events.Keys == db.events.Keys
  {
    hide ApplyTruth;
    var linked := db.(events := db.events[key := db.events[key].(attempt := Some(id))]);
    TruthKeepsRows(linked, id, db.events[key].truth);
  }

  /** Nothing but the columns of existing attempts and their jobs differs, and no attempt changes its payment. */
  predicate RowsKept(db: Tables, after: Tables) {
    && after.payments == db.payments && after.events == db.events && after.confirmations == db.confirmations
    && after.attempts.Keys == db.attempts.Keys
    && forall j :: j in db.attempts ==> after.attempts[j].paymentId == db.attempts[j].paymentId
  }

  lemma {:induction false} DistrustKeepsRows(db: Tables, id: Id, code: string)
    requires id in db.attempts
    ensures RowsKept(db, Distrust(db, id, code))
  {
  }

  lemma {:induction false} AcceptKeepsRows(db: Tables, id: Id, truth: Truth)
    requires id in db.attempts
    ensures RowsKept(db, Accept(db, id, truth))
  {
  }

  lemma {:induction false} UpsertKeepsRows(db: Tables, id: Id, status: JobStatus, error: Option<string>)
    ensures RowsKept(db, UpsertJob(db, id, status, error))
  {
  }

  lemma {:induction false} TruthKeepsRows(db: Tables, id: Id, truth: Truth)
    requires id in db.attempts && db.attempts[id].paymentId in db.payments
    ensures RowsKept(db, ApplyTruth(db, id, truth).0)
  {
    hide Distrust, Accept, UpsertJob, RowsKept;
    DistrustKeepsRows(db, id, "PROVIDER_MERCHANT_REFERENCE_MISMATCH");
    DistrustKeepsRows(db, id, "PROVIDER_REFERENCE_MISMATCH");
    DistrustKeepsRows(db, id, "PROVIDER_AMOUNT_MISMATCH");
    UpsertKeepsRows(db, id, ManualReview, Some("CONFLICTING_PROVIDER_TRUTH"));
    UpsertKeepsRows(db, id, ManualReview, Some("INVALID_PROVIDER_TRANSITION"));
    AcceptKeepsRows(db, id, truth);
  }

  function PromoteAll(db: Tables, ids: seq<Id>, n: nat): (after: Tables)
    requires n <= |ids| && forall i :: i in ids ==> i in db.attempts
    ensures after.attempts.Keys == db.attempts.Keys
  {
    if n == 0 then db else Promote(PromoteAll(db, ids, n - 1), ids[n - 1])
  }

  /** One timer round over the due jobs: each is polled with whatever its provider answers. */
  function PollAll(db: Tables, due: seq<(Id, PollOutcome)>, n: nat): (after: Tables)
    requires n <= |due|
    requires forall d :: d in due ==> d.0 in db.attempts
    requires forall id :: id in db.attempts ==> db.attempts[id].paymentId in db.payments
    ensures after.payments == db.payments && after.attempts.Keys == db.attempts.Keys
    ensures forall id :: id in db.attempts ==> after.attempts[id].paymentId == db.attempts[id].paymentId
  {
    if n == 0 then db
    else
      var before := PollAll(db, due, n - 1);
      PollKeepsRows(before, due[n - 1].0, due[n - 1].1);
      AutoPoll(before, due[n - 1].0, due[n - 1].1)
  }

  lemma {:induction false} PollKeepsRows(db: Tables, id: Id, outcome: PollOutcome)
    requires id in db.attempts && db.attempts[id].paymentId in db.payments
    ensures RowsKept(db, AutoPoll(db, id, outcome))
  {
    hide ApplyTruth;
    if outcome.Answered? && db.attempts[id].reference.Some? {
      var answer := outcome.answer;
      TruthKeepsRows(db, id,
        answer.(reference := if answer.reference.Some? then answer.reference else db.attempts[id].reference));
    }
  }

  class PaymentsService {
    var payments: map<Id, Payment>
    var attempts: map<Id, Attempt>
    var jobs: map<Id, Job>
    var events: map<EventKey, EventRow>
    var confirmations: map<string, Confirmation>

    function Db(): Tables
      reads this
    {
      Tables(payments, attempts, jobs, events, confirmations)
    }

    constructor ()
      ensures Db() == EmptyWorld.db
    {
      payments, attempts, jobs, events, confirmations := map[], map[], map[], map[], map[];
    }

    method UpsertReconciliationJob(id: Id, status: JobStatus, error: Option<string>)
      modifies this`jobs
      ensures Db() == UpsertJob(old(Db()), id, status, error)
    {
      if id in jobs {
        jobs := jobs[id := jobs[id].(status := status, error := error)];
      } else {
        jobs := jobs[id := Job(status, 0, error)];
      }
    }

    method ScheduleRetry(id: Id, error: Option<string>)
      modifies this`jobs
      ensures Db() == CloudPayments.ScheduleRetry(old(Db()), id, error)
    {
      var next := 1;
      if id in jobs { next := jobs[id].attempts + 1; }
      if next >= 6 {
        UpsertReconciliationJob(id, ManualReview, error);
        return;
      }
      jobs := jobs[id := Job(JobPending, next, error)];
    }

    /** Review by hand; an open attempt also becomes UNKNOWN. */
    method Refuse(id: Id, code: string)
      requires id in attempts
      modifies this`attempts, this`jobs
      ensures Db() == Distrust(old(Db()), id, code)
    {
      UpsertReconciliationJob(id, ManualReview, Some(code));
      if !IsTerminal(attempts[id].status) {
        attempts := attempts[id := attempts[id].(status := Unknown, failure := Some(code))];
      }
    }

    method ApplyProviderTruth(id: Id, truth: Truth) returns (applied: bool)
      requires id in attempts && attempts[id].paymentId in payments
      modifies this`attempts, this`jobs
      ensures (Db(), applied) == ApplyTruth(old(Db()), id, truth)
    {
      hide UpsertJob, Distrust, CanTransition;
      var a, p := attempts[id], payments[attempts[id].paymentId];
      applied := false;
      if truth.attemptId.Some? && truth.attemptId.value != id {
        Refuse(id, "PROVIDER_MERCHANT_REFERENCE_MISMATCH");
        return;
      }
      if Clash(a.reference, truth.reference) {
        Refuse(id, "PROVIDER_REFERENCE_MISMATCH");
        return;
      }
      if (truth.amount.Some? && truth.amount.value != p.amount)
         || (truth.currency.Some? && truth.currency.value != p.currency) {
        Refuse(id, "PROVIDER_AMOUNT_MISMATCH");
        return;
      }
      if IsTerminal(a.status) && a.status != truth.status {
        UpsertReconciliationJob(id, ManualReview, Some("CONFLICTING_PROVIDER_TRUTH"));
        return;
      }
      if !CanTransition(a.status, truth.status) {
        UpsertReconciliationJob(id, ManualReview, Some("INVALID_PROVIDER_TRANSITION"));
        return;
      }
      attempts := attempts[id := a.(status := truth.status, reference := Coalesce(truth.reference, a.reference),
                                    failure := truth.failure)];
      if truth.status == Unknown || truth.status == Pending {
        UpsertReconciliationJob(id, JobPending, truth.failure);
      } else if IsTerminal(truth.status) {
        UpsertReconciliationJob(id, JobResolved, None);
      }
      applied := true;
    }

    method Own(request: Request) returns (outcome: Result<bool, Error>)
      modifies this`payments, this`attempts
      ensures (Db(), outcome) == Claim(old(Db()), request)
    {
      var f := request.details;
      var payment := Payment(f.eventId, f.orderId, f.amount, f.currency);
      if f.paymentId in payments && payments[f.paymentId] != payment { return Err(PaymentIdentityConflict); }
      if exists id :: id in attempts && attempts[id].key == request.key {
        if !exists id :: id in attempts && attempts[id].key == request.key && attempts[id].details == f {
          return Err(KeyReused);
        }
        payments := payments[f.paymentId := payment];
        assert f.paymentId in old(payments) ==> payments == old(payments);
        return Ok(false);
      }
      if f.attemptId in attempts { return Err(AttemptIdTaken); }
      payments := payments[f.paymentId := payment];
      assert f.paymentId in old(payments) ==> payments == old(payments);
      attempts := attempts[f.attemptId := Attempt(f.paymentId, f.provider, request.key, Created, None, None, f)];
      return Ok(true);
    }

    method ApplyInitiationResult(id: Id, result: Initiation)
      requires id in attempts
      modifies this`attempts, this`jobs
      ensures Db() == ApplyInitiation(old(Db()), id, result)
    {
      hide UpsertJob;
      var a := attempts[id];
      if a.status != Created { return; }
      attempts := attempts[id := a.(status := result.status, reference := Coalesce(result.reference, a.reference),
                                    failure := result.failure)];
      if IsUnresolved(result.status) {
        if result.reference.Some? {
          UpsertReconciliationJob(id, JobPending, result.failure);
        } else {
          UpsertReconciliationJob(id, ManualReview, Some("MISSING_PROVIDER_REFERENCE"));
        }
      } else if result.status == Failed {
        UpsertReconciliationJob(id, JobResolved, None);
      }
    }

    /** The stored callbacks selected for the attempt, in the order they were received. */
    method ApplyUnmatchedCallbacks(keys: seq<EventKey>, id: Id)
      requires id in attempts && attempts[id].paymentId in payments && forall k :: k in keys ==> k in events
      modifies this`attempts, this`jobs, this`events
      ensures Db() == ApplyStoredAll(old(Db()), keys, id, |keys|)
    {
      hide ApplyTruth;
      var i := 0;
      while i < |keys|
        invariant i <= |keys|
        invariant Db() == ApplyStoredAll(old(Db()), keys, id, i)
      {
        ghost var before := Db();
        events := events[keys[i] := events[keys[i]].(attempt := Some(id))];
        var _ := ApplyProviderTruth(id, events[keys[i]].truth);
        assert Db() == ApplyStored(before, keys[i], id);
        i := i + 1;
      }
    }

    /** The attempt a callback is about: the one it names, otherwise the one with its reference. */
    method Lookup(provider: string, truth: Truth) returns (found: Option<Id>)
      ensures LookupFinds(Db(), provider, truth, found)
    {
      if truth.attemptId.Some? {
        return if truth.attemptId.value in attempts then truth.attemptId else None;
      }
      if truth.reference.Some? && exists id :: id in attempts && attempts[id].provider == provider
                                               && attempts[id].reference == truth.reference {
        var id :| id in attempts && attempts[id].provider == provider && attempts[id].reference == truth.reference;
        return Some(id);
      }
      return None;
    }

    method IngestProviderCallback(key: EventKey, truth: Truth) returns (status: IngestStatus, ghost found: Option<Id>)
      requires forall id :: id in attempts ==> attempts[id].paymentId in payments
      modifies this`attempts, this`jobs, this`events
      ensures LookupFinds(old(Db()), key.provider, truth, found)
      ensures found.Some? ==> found.value in old(attempts)
      ensures (Db(), status) == Ingest(old(Db()), key, truth, found)
    {
      hide ApplyTruth;
      var target := Lookup(key.provider, truth);
      found := target;
      if key in events { return Duplicate, found; }
      events := events[key := EventRow(truth, None)];
      if target.None? { return Unmatched, found; }
      if attempts[target.value].provider != key.provider { return IngestStatus.Conflict, found; }
      events := events[key := EventRow(truth, target)];
      assert Db() == old(Db()).(events := old(events)[key := EventRow(truth, target)]) by {
        assert events == old(events)[key := EventRow(truth, target)];
      }
      var applied := ApplyProviderTruth(target.value, truth);
      status := if applied then Applied else IngestStatus.Conflict;
    }

    method PromoteStaleCreatedAttempts(stale: seq<Id>)
      requires forall id :: id in stale ==> id in attempts
      modifies this`attempts, this`jobs
      ensures Db() == PromoteAll(old(Db()), stale, |stale|)
    {
      hide UpsertJob;
      var i := 0;
      while i < |stale|
        invariant i <= |stale|
        invariant Db() == PromoteAll(old(Db()), stale, i)
      {
        var id := stale[i];
        ghost var before := Db();
        if attempts[id].status == Created {
          attempts := attempts[id := attempts[id].(status := Unknown, failure := Some("AMBIGUOUS_INITIATION_CRASH"))];
        }
        UpsertReconciliationJob(id, ManualReview, Some("AMBIGUOUS_INITIATION_CRASH"));
        assert Db() == Promote(before, id);
        i := i + 1;
      }
    }

    /** One due job whose attempt nothing else touches between the read and the write. */
    method ReconcileAttempt(id: Id, outcome: PollOutcome)
      requires id in attempts && attempts[id].paymentId in payments
      modifies this`attempts, this`jobs
      ensures Db() == AutoPoll(old(Db()), id, outcome)
    {
      hide UpsertJob, ApplyTruth, CloudPayments.ScheduleRetry;
      if !IsUnresolved(attempts[id].status) { return; }
      if outcome.Broken? {
        ScheduleRetry(id, Some("RECONCILIATION_ERROR"));
        return;
      }
      if attempts[id].reference.None? {
        UpsertReconciliationJob(id, ManualReview, Some("MISSING_PROVIDER_REFERENCE"));
        return;
      }
      if outcome.QueryUnsupported? {
        UpsertReconciliationJob(id, ManualReview, Some("PROVIDER_STATUS_QUERY_UNSUPPORTED"));
        return;
      }
      var answer := outcome.answer;
      var seen := attempts[id].reference;
      var applied := ApplyProviderTruth(id,
        answer.(reference := if answer.reference.Some? then answer.reference else seen));
      if applied && (answer.status == Pending || answer.status == Unknown) {
        ScheduleRetry(id, answer.failure);
      }
    }

    method ReconcileDue(stale: seq<Id>, due: seq<(Id, PollOutcome)>)
      requires forall id :: id in stale ==> id in attempts
      requires forall d :: d in due ==> d.0 in attempts
      requires forall id :: id in attempts ==> attempts[id].paymentId in payments
      modifies this`attempts, this`jobs
      ensures (PromotedRows(old(Db()), stale, |stale|);
               Db() == PollAll(PromoteAll(old(Db()), stale, |stale|), due, |due|))
    {
      hide AutoPoll, Promote;
      PromotedRows(Db(), stale, |stale|);
      PromoteStaleCreatedAttempts(stale);
      ghost var promoted := Db();
      var i := 0;
      while i < |due|
        invariant i <= |due|
        invariant Db() == PollAll(promoted, due, i)
      {
        assert due[i] in due;
        ReconcileAttempt(due[i].0, due[i].1);
        i := i + 1;
      }
    }

    method ConfirmTerminal(key: string, c: Confirmation) returns (outcome: Result<Confirmation, Error>)
      requires c.attemptId in attempts ==> attempts[c.attemptId].paymentId in payments
      modifies this`attempts, this`jobs, this`confirmations
      ensures (Db(), outcome) == Confirm(old(Db()), key, c)
    {
      hide UpsertJob;
      if c.attemptId !in attempts { return Err(AttemptNotFound); }
      var a := attempts[c.attemptId];
      var external := a.provider == EXTERNAL_TERMINAL;
      if !external && !(a.provider == PESAPAL_SABI && c.outcome == Declined && a.reference == None) {
        return Err(ManualNotPermitted);
      }
      if key in confirmations {
        return if confirmations[key] == c then Ok(c) else Err(KeyReused);
      }
      if payments[a.paymentId].amount != c.amount || payments[a.paymentId].currency != c.currency {
        return Err(AmountMismatch);
      }
      if a.status == Unknown { return Err(UnknownFirst); }
      if IsTerminal(a.status) { return Err(AlreadyTerminal); }
      if exists k :: k in confirmations &&
           (confirmations[k].id == c.id || (confirmations[k].externalProvider == c.externalProvider &&
                                            confirmations[k].externalReference == c.externalReference)) {
        return Err(DuplicateConfirmation);
      }
      confirmations := confirmations[key := c];
      var code := None;
      if c.outcome == Declined {
        code := Some(if external then "EXTERNAL_TERMINAL_DECLINED" else "SABI_TERMINAL_DECLINED_MANUAL_EVIDENCE");
      }
      attempts := attempts[c.attemptId := a.(
        status := if c.outcome == Approved then Succeeded else Failed,
        reference := if external then Some(c.externalReference) else a.reference,
        failure := code)];
      UpsertReconciliationJob(c.attemptId, JobResolved, None);
      return Ok(c);
    }
  }

  lemma {:induction false} PromotedRows(db: Tables, ids: seq<Id>, n: nat)
    requires n <= |ids| && forall i :: i in ids ==> i in db.attempts
    requires forall id :: id in db.attempts ==> db.attempts[id].paymentId in db.payments
    ensures var after := PromoteAll(db, ids, n);
      && after.payments == db.payments && after.attempts.Keys == db.attempts.Keys
      && forall id :: id in db.attempts ==> after.attempts[id].paymentId == db.attempts[id].paymentId
  {
    if n > 0 {
      PromotedRows(db, ids, n - 1);
    }
  }
}
