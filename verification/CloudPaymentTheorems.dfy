/** What holds of an attempt over every schedule of Cloud payment steps. */
module CloudPaymentTheorems {
  import opened Common
  import opened PaymentDomain
  import opened CloudPayments
  import opened CloudPaymentRuns

  // ---------- runs ----------

  /** The state after a schedule, or None if some step of it could not happen. */
  ghost function Run(w: World, steps: seq<Step>): (res: Option<World>)
    requires Inv(w)
    ensures res.Some? ==> Inv(res.value) && Extends(w.db, res.value.db)
    decreases |steps|
  {
    if steps == [] then ExtendsSelf(w.db); Some(w)
    else if !Enabled(w, steps[0]) then None
    else
      StepKeeps(w, steps[0]);
      var next := Next(w, steps[0]);
      var res := Run(next, steps[1..]);
      assert res.Some? ==> Extends(w.db, res.value.db) by {
        if res.Some? { ExtendsTransitive(w.db, next.db, res.value.db); }
      }
      res
  }

  lemma {:induction false} ExtendsTransitive(a: Tables, b: Tables, c: Tables)
    requires Extends(a, b) && Extends(b, c)
    ensures Extends(a, c)
  {
  }

  lemma {:induction false} EmptyHolds()
    ensures Inv(EmptyWorld)
  {
  }

  lemma {:induction false} RunsCompose(w: World, before: seq<Step>, after: seq<Step>)
    requires Inv(w)
    ensures Run(w, before + after) ==
      match Run(w, before)
      case None => None
      case Some(mid) => Run(mid, after)
    decreases |before|
  {
    hide Inv, Extends, Enabled, Next;
    if before == [] {
      assert before + after == after;
    } else {
      assert (before + after)[0] == before[0] && (before + after)[1..] == before[1..] + after;
      if Enabled(w, before[0]) {
        StepKeeps(w, before[0]);
        RunsCompose(Next(w, before[0]), before[1..], after);
      }
    }
  }

  /**
   Between any two moments of any run: an attempt keeps its identity and never returns to CREATED, a
   terminal status never changes, and a reference is written at most once and never while CREATED.
   */
  lemma {:induction false} AttemptHistory(before: seq<Step>, after: seq<Step>, id: Id)
    requires (EmptyHolds(); Run(EmptyWorld, before).Some? && Run(EmptyWorld, before + after).Some?)
    requires (EmptyHolds(); id in Run(EmptyWorld, before).value.db.attempts)
    ensures (EmptyHolds();
      var then_, now := Run(EmptyWorld, before).value.db, Run(EmptyWorld, before + after).value.db;
      && id in now.attempts
      && var a, a' := then_.attempts[id], now.attempts[id];
      && a'.paymentId == a.paymentId && a'.provider == a.provider && a'.key == a.key && a'.details == a.details
      && (IsTerminal(a.status) ==> a'.status == a.status)
      && (a.reference.Some? ==> a'.reference == a.reference)
      && (a'.status == Created ==> a.status == Created && a'.reference == None)
      && a'.paymentId in now.payments)
  {
    hide Enabled, Next, FlightOk;
    EmptyHolds();
    RunsCompose(EmptyWorld, before, after);
    var now := Run(EmptyWorld, before + after).value.db;
    assert AttemptOk(now, id);
  }

  /** Every unresolved attempt has an open job, a resolved job means a terminal attempt. */
  lemma {:induction false} JobsCover(steps: seq<Step>, id: Id)
    requires (EmptyHolds(); Run(EmptyWorld, steps).Some?)
    ensures (EmptyHolds();
      var db := Run(EmptyWorld, steps).value.db;
      && (id in db.attempts && IsUnresolved(db.attempts[id].status) ==>
            id in db.jobs && (db.jobs[id].status == JobPending || db.jobs[id].status == ManualReview))
      && (id in db.jobs ==> id in db.attempts)
      && (id in db.jobs && db.jobs[id].status == JobResolved ==> IsTerminal(db.attempts[id].status)))
  {
    hide Enabled, Next, FlightOk;
    EmptyHolds();
    var db := Run(EmptyWorld, steps).value.db;
    assert AttemptOk(db, id) && JobOk(db, id);
  }

  /** No idempotency key ever reaches a provider's `initiate` twice, and none without its attempt. */
  lemma {:induction false} InitiatedOnce(steps: seq<Step>, i: nat, j: nat)
    requires (EmptyHolds(); Run(EmptyWorld, steps).Some? && i < j < |Run(EmptyWorld, steps).value.calls|)
    ensures (EmptyHolds();
      var w := Run(EmptyWorld, steps).value;
      w.calls[i] != w.calls[j] && exists id :: id in w.db.attempts && w.db.attempts[id].key == w.calls[i])
  {
    hide Enabled, Next, TablesOk;
    EmptyHolds();
    var w := Run(EmptyWorld, steps).value;
    assert w.calls[i] in w.calls;
  }

  // ---------- how success is reached ----------

  /** The truth disagrees with something the attempt or its payment already records. */
  predicate Contradicts(db: Tables, id: Id, t: Truth)
    requires id in db.attempts && db.attempts[id].paymentId in db.payments
  {
    var p := db.payments[db.attempts[id].paymentId];
    || (t.attemptId.Some? && t.attemptId.value != id)
    || Clash(db.attempts[id].reference, t.reference)
    || (t.amount.Some? && t.amount.value != p.amount)
    || (t.currency.Some? && t.currency.value != p.currency)
  }

  /** The provider truth a step applies to attempt id, if any. */
  function TruthBrought(w: World, step: Step, id: Id): Option<Truth>
    requires Inv(w) && Enabled(w, step)
  {
    match step
    case CallbackStep(key, truth, found) =>
      if key !in w.db.events && found == Some(id) && id in w.db.attempts && w.db.attempts[id].provider == key.provider
      then Some(truth) else None
    case StoredStep(key, target) =>
      assert (key, target) in w.matched;
      if target == id then Some(w.db.events[key].truth) else None
    case AnswerStep(target, seen, answer) =>
      if target == id then Some(answer.(reference := Coalesce(answer.reference, Some(seen)))) else None
    case _ => None
  }

  predicate ManualApproval(w: World, step: Step, id: Id)
    requires Inv(w) && id in w.db.attempts
  {
    && step.ConfirmStep? && step.confirmation.attemptId == id
    && assert AttemptOk(w.db, id);
       var a, c, p := w.db.attempts[id], step.confirmation, w.db.payments[w.db.attempts[id].paymentId];
    && a.provider == EXTERNAL_TERMINAL && c.outcome == Approved
    && c.amount == p.amount && c.currency == p.currency
    && a.status != Unknown
    && step.confirmKey !in w.db.confirmations && !TakenConfirmation(w.db, c)
  }

  predicate SuccessArrives(w: World, step: Step, id: Id)
    requires Inv(w) && Enabled(w, step) && id in w.db.attempts
  {
    assert AttemptOk(w.db, id);
    var t := TruthBrought(w, step, id);
    || (t.Some? && t.value.status == Succeeded && !Contradicts(w.db, id, t.value))
    || ManualApproval(w, step, id)
  }

  lemma {:induction false} TruthSucceeds(db: Tables, id: Id, t: Truth)
    requires id in db.attempts && db.attempts[id].paymentId in db.payments
    requires !IsTerminal(db.attempts[id].status) && IsTruth(t.status)
    ensures var (db', applied) := ApplyTruth(db, id, t);
      id in db'.attempts && (db'.attempts[id].status == Succeeded <==> t.status == Succeeded && !Contradicts(db, id, t))
  {
    hide UpsertJob, Distrust, Accept;
    DistrustedStatus(db, id, "PROVIDER_MERCHANT_REFERENCE_MISMATCH");
    DistrustedStatus(db, id, "PROVIDER_REFERENCE_MISMATCH");
    DistrustedStatus(db, id, "PROVIDER_AMOUNT_MISMATCH");
    AcceptedStatus(db, id, t);
    NoInvalidTransition(db.attempts[id].status, t.status);
  }

  lemma {:induction false} DistrustedStatus(db: Tables, id: Id, code: string)
    requires id in db.attempts && !IsTerminal(db.attempts[id].status)
    ensures id in Distrust(db, id, code).attempts && Distrust(db, id, code).attempts[id].status == Unknown
  {
  }

  lemma {:induction false} AcceptedStatus(db: Tables, id: Id, t: Truth)
    requires id in db.attempts
    ensures id in Accept(db, id, t).attempts && Accept(db, id, t).attempts[id].status == t.status
  {
  }

  lemma {:induction false} UpsertKeepsAttempts(db: Tables, id: Id, status: JobStatus, error: Option<string>)
    ensures UpsertJob(db, id, status, error).attempts == db.attempts
  {
  }

  /**
   An attempt that is still open becomes SUCCEEDED in a step exactly when that step brings provider
   truth saying so that contradicts neither attempt id, reference, amount nor currency, or a matching
   manual approval.
   */
  lemma {:induction false} SucceedsExactlyWhen(w: World, step: Step, id: Id)
    requires Inv(w) && Enabled(w, step) && id in w.db.attempts && !IsTerminal(w.db.attempts[id].status)
    ensures id in Next(w, step).db.attempts
    ensures Next(w, step).db.attempts[id].status == Succeeded <==> SuccessArrives(w, step, id)
  {
    hide FlightOk, TablesOk, Claim, ApplyInitiation, Ingest, ApplyStored, PollWrite, Confirm, UpsertJob, ScheduleRetry,
         Promote, Extends, LookupFinds, StoredMatches, TakenConfirmation;
    StepKeeps(w, step);
    match step
    case ClaimStep(r) => ClaimEffect(w.db, r);
    case CallStep(_) =>
    case MatchStep(_, _) =>
    case PollStep(_) =>
    case ResultStep(target, result) =>
      InFlight(w, step);
      InitiationNeverSucceeds(w.db, target, result, id);
    case ReviewStep(target, _, code) => UpsertKeepsAttempts(w.db, target, ManualReview, Some(code));
    case RetryStep(target, error) => RetryEvents(w.db, target, error);
    case PromoteStep(target) => PromotionNeverSucceeds(w.db, target, id);
    case CallbackStep(key, truth, found) => CallbackSucceeds(w, key, truth, found, id);
    case StoredStep(key, target) => StoredSucceeds(w, key, target, id);
    case AnswerStep(target, seen, answer) => AnswerSucceeds(w, target, seen, answer, id);
    case ConfirmStep(key, c) => ConfirmSucceeds(w, key, c, id);
  }

  lemma {:induction false} InitiationNeverSucceeds(db: Tables, target: Id, result: Initiation, id: Id)
    requires target in db.attempts && id in db.attempts && result.Valid() && !IsTerminal(db.attempts[id].status)
    ensures var db' := ApplyInitiation(db, target, result);
      id in db'.attempts && db'.attempts[id].status != Succeeded
  {
  }

  lemma {:induction false} PromotionNeverSucceeds(db: Tables, target: Id, id: Id)
    requires target in db.attempts && id in db.attempts && !IsTerminal(db.attempts[id].status)
    ensures id in Promote(db, target).attempts && Promote(db, target).attempts[id].status != Succeeded
  {
  }

  lemma {:induction false} CallbackSucceeds(w: World, key: EventKey, truth: Truth, found: Option<Id>, id: Id)
    requires Inv(w) && Enabled(w, CallbackStep(key, truth, found))
    requires id in w.db.attempts && !IsTerminal(w.db.attempts[id].status)
    ensures var step := CallbackStep(key, truth, found);
      && id in Next(w, step).db.attempts
      && (Next(w, step).db.attempts[id].status == Succeeded <==> SuccessArrives(w, step, id))
  {
    hide FlightOk, Touches, ApplyTruth;
    var step := CallbackStep(key, truth, found);
    assert AttemptOk(w.db, id);
    FoundHasPayment(w.db, key.provider, truth, found);
    if key !in w.db.events && found.Some? && w.db.attempts[found.value].provider == key.provider {
      var linked := w.db.(events := w.db.events[key := EventRow(truth, found)]);
      if found.value == id {
        TruthSucceeds(linked, id, truth);
      } else {
        assert AttemptOk(w.db, found.value) && JobOk(w.db, found.value);
        assert RowsOk(linked, found.value);
        ApplyTruthTouches(linked, found.value, truth);
        TouchedElsewhere(linked, Next(w, step).db, found.value, id);
      }
    }
  }

  lemma {:induction false} TouchedElsewhere(db: Tables, db': Tables, target: Id, id: Id)
    requires Touches(db, db', target) && target != id && id in db.attempts
    ensures id in db'.attempts && db'.attempts[id] == db.attempts[id]
  {
  }

  lemma {:induction false} StoredSucceeds(w: World, key: EventKey, target: Id, id: Id)
    requires Inv(w) && Enabled(w, StoredStep(key, target))
    requires id in w.db.attempts && !IsTerminal(w.db.attempts[id].status)
    ensures var step := StoredStep(key, target);
      && id in Next(w, step).db.attempts
      && (Next(w, step).db.attempts[id].status == Succeeded <==> SuccessArrives(w, step, id))
  {
    hide Touches, ApplyTruth, FlightOk;
    var step := StoredStep(key, target);
    InFlight(w, step);
    assert AttemptOk(w.db, target) && JobOk(w.db, target);
    var linked := w.db.(events := w.db.events[key := w.db.events[key].(attempt := Some(target))]);
    if target == id {
      TruthSucceeds(linked, id, w.db.events[key].truth);
    } else {
      StoredTouches(w.db, key, target);
      TouchedElsewhere(w.db, Next(w, step).db, target, id);
    }
  }

  lemma {:induction false} AnswerSucceeds(w: World, target: Id, seen: string, answer: Truth, id: Id)
    requires Inv(w) && Enabled(w, AnswerStep(target, seen, answer))
    requires id in w.db.attempts && !IsTerminal(w.db.attempts[id].status)
    ensures var step := AnswerStep(target, seen, answer);
      && id in Next(w, step).db.attempts
      && (Next(w, step).db.attempts[id].status == Succeeded <==> SuccessArrives(w, step, id))
  {
    hide Touches, ApplyTruth, FlightOk, ScheduleRetry;
    var step := AnswerStep(target, seen, answer);
    InFlight(w, step);
    assert AttemptOk(w.db, target) && JobOk(w.db, target);
    if target == id {
      var truth := answer.(reference := Coalesce(answer.reference, Some(seen)));
      TruthSucceeds(w.db, id, truth);
      RetryEvents(ApplyTruth(w.db, id, truth).0, id, answer.failure);
    } else {
      PollWriteTouches(w.db, target, seen, answer);
      TouchedElsewhere(w.db, Next(w, step).db, target, id);
    }
  }

  lemma {:induction false} ConfirmSucceeds(w: World, key: string, c: Confirmation, id: Id)
    requires Inv(w) && id in w.db.attempts && !IsTerminal(w.db.attempts[id].status)
    ensures var step := ConfirmStep(key, c);
      && id in Next(w, step).db.attempts
      && (Next(w, step).db.attempts[id].status == Succeeded <==> SuccessArrives(w, step, id))
  {
    hide Touches, FlightOk, TablesOk, Confirm, TakenConfirmation;
    var step := ConfirmStep(key, c);
    RowsHold(w, id);
    RowsHold(w, c.attemptId);
    if c.attemptId == id {
      ConfirmDecides(w.db, key, c);
    } else if c.attemptId in w.db.attempts {
      ConfirmTouches(w.db, key, c);
      TouchedElsewhere(w.db, Next(w, step).db, c.attemptId, id);
    } else {
      UnknownAttempt(w.db, key, c);
    }
  }

  lemma {:induction false} UnknownAttempt(db: Tables, key: string, c: Confirmation)
    requires c.attemptId !in db.attempts
    ensures Confirm(db, key, c).0 == db
  {
  }

  lemma {:induction false} RowsHold(w: World, id: Id)
    requires Inv(w)
    ensures AttemptOk(w.db, id) && JobOk(w.db, id)
  {
  }

  lemma {:induction false} ConfirmDecides(db: Tables, key: string, c: Confirmation)
    requires c.attemptId in db.attempts && db.attempts[c.attemptId].paymentId in db.payments
    requires !IsTerminal(db.attempts[c.attemptId].status)
    ensures var db' := Confirm(db, key, c).0;
      var a, p := db.attempts[c.attemptId], db.payments[db.attempts[c.attemptId].paymentId];
      && c.attemptId in db'.attempts
      && (db'.attempts[c.attemptId].status == Succeeded <==>
            && a.provider == EXTERNAL_TERMINAL && c.outcome == Approved
            && c.amount == p.amount && c.currency == p.currency && a.status != Unknown
            && key !in db.confirmations && !TakenConfirmation(db, c))
  {
    hide Decide, TakenConfirmation;
    Decided(db.(confirmations := db.confirmations[key := c]), c);
  }

  lemma {:induction false} Decided(db: Tables, c: Confirmation)
    requires c.attemptId in db.attempts
    ensures var db' := Decide(db, c);
      c.attemptId in db'.attempts &&
      db'.attempts[c.attemptId].status == if c.outcome == Approved then Succeeded else Failed
  {
  }

  // ---------- automatic polling ends ----------

  datatype PollOutcome = Answered(answer: Truth) | QueryUnsupported | Broken

  /** One due job handled by the timer with nothing else in between. */
  function AutoPoll(db: Tables, id: Id, outcome: PollOutcome): Tables
    requires id in db.attempts && db.attempts[id].paymentId in db.payments
  {
    if !IsUnresolved(db.attempts[id].status) then db
    else if outcome.Broken? then ScheduleRetry(db, id, Some("RECONCILIATION_ERROR"))
    else if db.attempts[id].reference.None? then UpsertJob(db, id, ManualReview, Some("MISSING_PROVIDER_REFERENCE"))
    else if outcome.QueryUnsupported? then
      UpsertJob(db, id, ManualReview, Some("PROVIDER_STATUS_QUERY_UNSUPPORTED"))
    else PollWrite(db, id, db.attempts[id].reference.value, outcome.answer)
  }

  function PollSteps(db: Tables, id: Id, outcome: PollOutcome): seq<Step>
    requires id in db.attempts
  {
    var seen := db.attempts[id].reference;
    if !IsUnresolved(db.attempts[id].status) then []
    else if outcome.Broken? then [RetryStep(id, Some("RECONCILIATION_ERROR"))]
    else if seen.None? then [PollStep(id), ReviewStep(id, None, "MISSING_PROVIDER_REFERENCE")]
    else if outcome.QueryUnsupported? then [PollStep(id), ReviewStep(id, seen, "PROVIDER_STATUS_QUERY_UNSUPPORTED")]
    else [PollStep(id), AnswerStep(id, seen.value, outcome.answer)]
  }

  /** Handling one job without interruption is one of the schedules, so the theorems above cover it. */
  lemma {:induction false} AutoPollIsScheduled(w: World, id: Id, outcome: PollOutcome)
    requires Inv(w) && id in w.db.attempts && Fair(outcome)
    ensures (RowsHold(w, id);
      var res := Run(w, PollSteps(w.db, id, outcome));
      res.Some? && res.value.db == AutoPoll(w.db, id, outcome))
  {
    hide Inv, Extends, PollWrite, UpsertJob, ScheduleRetry;
    RowsHold(w, id);
    var steps := PollSteps(w.db, id, outcome);
    if |steps| == 1 {
      RunOne(w, steps[0]);
    } else if |steps| == 2 {
      StepKeeps(w, steps[0]);
      RunOne(Next(w, steps[0]), steps[1]);
      assert steps == [steps[0]] + [steps[1]];
      RunOne(w, steps[0]);
      RunsCompose(w, [steps[0]], [steps[1]]);
    }
  }

  lemma {:induction false} RunOne(w: World, step: Step)
    requires Inv(w)
    ensures Run(w, [step]) == if Enabled(w, step) then Some(Next(w, step)) else None
  {
    hide Inv, Extends, Enabled, Next;
    if Enabled(w, step) {
      StepKeeps(w, step);
      assert [step][1..] == [];
      assert Run(Next(w, step), []) == Some(Next(w, step));
    }
  }

  predicate StillPolled(db: Tables, id: Id) {
    && id in db.attempts && IsUnresolved(db.attempts[id].status)
    && id in db.jobs && db.jobs[id].status == JobPending
  }

  predicate Fair(outcome: PollOutcome) { outcome.Answered? ==> IsTruth(outcome.answer.status) }

  lemma {:induction false} TruthKeepsCount(db: Tables, id: Id, truth: Truth)
    requires id in db.jobs && id in db.attempts && db.attempts[id].paymentId in db.payments && IsTruth(truth.status)
    ensures var (db', applied) := ApplyTruth(db, id, truth);
      && id in db'.jobs && db'.jobs[id].attempts == db.jobs[id].attempts
      && (!applied ==> db'.jobs[id].status == ManualReview)
      && (applied && IsTerminal(truth.status) ==> db'.jobs[id].status == JobResolved)
      && db'.payments == db.payments && id in db'.attempts && db'.attempts[id].paymentId == db.attempts[id].paymentId
  {
    hide Distrust, Accept, UpsertJob;
    var a := db.attempts[id];
    DistrustKeepsCount(db, id, "PROVIDER_MERCHANT_REFERENCE_MISMATCH");
    DistrustKeepsCount(db, id, "PROVIDER_REFERENCE_MISMATCH");
    DistrustKeepsCount(db, id, "PROVIDER_AMOUNT_MISMATCH");
    UpsertKeepsCount(db, id, ManualReview, Some("CONFLICTING_PROVIDER_TRUTH"));
    UpsertKeepsCount(db, id, ManualReview, Some("INVALID_PROVIDER_TRANSITION"));
    AcceptKeepsCount(db, id, truth);
  }

  predicate CountKept(db: Tables, db': Tables, id: Id)
    requires id in db.jobs && id in db.attempts
  {
    && id in db'.jobs && db'.jobs[id].attempts == db.jobs[id].attempts
    && db'.payments == db.payments && id in db'.attempts && db'.attempts[id].paymentId == db.attempts[id].paymentId
  }

  lemma {:induction false} UpsertKeepsCount(db: Tables, id: Id, status: JobStatus, error: Option<string>)
    requires id in db.jobs && id in db.attempts
    ensures CountKept(db, UpsertJob(db, id, status, error), id) && UpsertJob(db, id, status, error).jobs[id].status == status
  {
  }

  lemma {:induction false} DistrustKeepsCount(db: Tables, id: Id, code: string)
    requires id in db.jobs && id in db.attempts
    ensures CountKept(db, Distrust(db, id, code), id) && Distrust(db, id, code).jobs[id].status == ManualReview
  {
  }

  lemma {:induction false} AcceptKeepsCount(db: Tables, id: Id, truth: Truth)
    requires id in db.jobs && id in db.attempts
    ensures CountKept(db, Accept(db, id, truth), id)
    ensures IsTerminal(truth.status) ==> Accept(db, id, truth).jobs[id].status == JobResolved
  {
  }

  lemma {:induction false} PollProgresses(db: Tables, id: Id, outcome: PollOutcome)
    requires StillPolled(db, id) && db.attempts[id].paymentId in db.payments && Fair(outcome)
    ensures var db' := AutoPoll(db, id, outcome);
      && db'.payments == db.payments && id in db'.attempts && db'.attempts[id].paymentId == db.attempts[id].paymentId
      && (StillPolled(db', id) ==> db.jobs[id].attempts < db'.jobs[id].attempts <= 5)
  {
    hide ApplyTruth;
    if outcome.Answered? && db.attempts[id].reference.Some? {
      var answer := outcome.answer;
      var truth := answer.(reference := if answer.reference.Some? then answer.reference else db.attempts[id].reference);
      TruthKeepsCount(db, id, truth);
    }
  }

  /** Polls until the job leaves PENDING or the attempt is resolved; later outcomes are not used. */
  function AutoPolls(db: Tables, id: Id, outcomes: seq<PollOutcome>): Tables
    requires id in db.attempts && db.attempts[id].paymentId in db.payments
    requires forall o :: o in outcomes ==> Fair(o)
    decreases |outcomes|
  {
    if outcomes == [] || !StillPolled(db, id) then db
    else
      assert Fair(outcomes[0]);
      PollProgresses(db, id, outcomes[0]);
      AutoPolls(AutoPoll(db, id, outcomes[0]), id, outcomes[1..])
  }

  /** Without outside input an attempt is polled at most 6 − attempt_count times, whatever the answers. */
  lemma {:induction false} PollingEnds(db: Tables, id: Id, outcomes: seq<PollOutcome>)
    requires id in db.attempts && db.attempts[id].paymentId in db.payments
    requires forall o :: o in outcomes ==> Fair(o)
    requires StillPolled(db, id) ==> db.jobs[id].attempts <= 5 && |outcomes| >= 6 - db.jobs[id].attempts
    ensures !StillPolled(AutoPolls(db, id, outcomes), id)
    decreases |outcomes|
  {
    hide AutoPoll;
    if StillPolled(db, id) {
      assert Fair(outcomes[0]);
      PollProgresses(db, id, outcomes[0]);
      PollingEnds(AutoPoll(db, id, outcomes[0]), id, outcomes[1..]);
    }
  }
}
