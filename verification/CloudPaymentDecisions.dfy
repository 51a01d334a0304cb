/** What each Cloud payment operation decides, and exactly when: read off the rows before and after it. */
module CloudPaymentDecisions {
  import opened Common
  import opened PaymentDomain
  import opened CloudPayments
  import opened CloudPaymentRuns
  import opened CloudPaymentTheorems

  // ---------- jobs ----------

  function Tries(db: Tables, id: Id): nat { if id in db.jobs then db.jobs[id].attempts else 0 }

  /** Nothing but this attempt and its job has changed. */
  ghost predicate OnlyRows(db: Tables, db': Tables, id: Id, a: Attempt, job: Job) {
    db' == db.(attempts := db.attempts[id := a], jobs := db.jobs[id := job])
  }

  /** A poll without a final answer is counted; the sixth one hands the job to a person. */
  lemma {:induction false} RetryTells(db: Tables, id: Id, error: Option<string>)
    ensures ScheduleRetry(db, id, error) == db.(jobs := db.jobs[id :=
      if Tries(db, id) >= 5 then Job(ManualReview, Tries(db, id), error)
      else Job(JobPending, Tries(db, id) + 1, error)])
  {
  }

  // ---------- provider truth ----------

  /** The truth contradicts nothing recorded, a final status included. */
  predicate Agrees(db: Tables, id: Id, t: Truth)
    requires id in db.attempts && db.attempts[id].paymentId in db.payments
  {
    !Contradicts(db, id, t) && (IsTerminal(db.attempts[id].status) ==> t.status == db.attempts[id].status)
  }

  /** What a person is told to review: the first thing that does not agree. */
  function ReviewCode(db: Tables, id: Id, t: Truth): string
    requires id in db.attempts
  {
    if t.attemptId.Some? && t.attemptId.value != id then "PROVIDER_MERCHANT_REFERENCE_MISMATCH"
    else if t.reference.Some? && db.attempts[id].reference.Some? && t.reference != db.attempts[id].reference then
      "PROVIDER_REFERENCE_MISMATCH"
    else if db.attempts[id].paymentId in db.payments
         && ((t.amount.Some? && t.amount.value != db.payments[db.attempts[id].paymentId].amount)
             || (t.currency.Some? && t.currency.value != db.payments[db.attempts[id].paymentId].currency)) then
      "PROVIDER_AMOUNT_MISMATCH"
    else "CONFLICTING_PROVIDER_TRUTH"
  }

  /**
   The attempt after provider truth: what the truth says if it agrees, with a known reference kept;
   otherwise unknown, unless it was final already.
   */
  function TruthMakes(db: Tables, id: Id, t: Truth): Attempt
    requires id in db.attempts && db.attempts[id].paymentId in db.payments
  {
    var a := db.attempts[id];
    if Agrees(db, id, t) then
      a.(status := t.status, reference := if t.reference.Some? then t.reference else a.reference, failure := t.failure)
    else if IsTerminal(a.status) then a
    else a.(status := Unknown, failure := Some(ReviewCode(db, id, t)))
  }

  /** Its job: closed by a final truth, open otherwise, and for a person to review if the truth does not agree. */
  function TruthJob(db: Tables, id: Id, t: Truth): Job
    requires id in db.attempts && db.attempts[id].paymentId in db.payments
  {
    if !Agrees(db, id, t) then Job(ManualReview, Tries(db, id), Some(ReviewCode(db, id, t)))
    else if t.status == Succeeded || t.status == Failed then Job(JobResolved, Tries(db, id), None)
    else Job(JobPending, Tries(db, id), t.failure)
  }

  lemma {:induction false} DistrustTells(db: Tables, id: Id, code: string)
    requires id in db.attempts
    ensures var a := db.attempts[id];
      OnlyRows(db, Distrust(db, id, code), id,
               if IsTerminal(a.status) then a else a.(status := Unknown, failure := Some(code)),
               Job(ManualReview, Tries(db, id), Some(code)))
  {
    assert db.attempts[id := db.attempts[id]] == db.attempts;
  }

  lemma {:induction false} AcceptTells(db: Tables, id: Id, t: Truth)
    requires id in db.attempts && IsTruth(t.status)
    ensures var a := db.attempts[id];
      OnlyRows(db, Accept(db, id, t), id,
               a.(status := t.status, reference := if t.reference.Some? then t.reference else a.reference,
                  failure := t.failure),
               if IsTerminal(t.status) then Job(JobResolved, Tries(db, id), None)
               else Job(JobPending, Tries(db, id), t.failure))
  {
  }

  lemma {:induction false} ReviewTells(db: Tables, id: Id, code: string)
    requires id in db.attempts
    ensures OnlyRows(db, UpsertJob(db, id, ManualReview, Some(code)), id, db.attempts[id],
                     Job(ManualReview, Tries(db, id), Some(code)))
  {
    assert db.attempts[id := db.attempts[id]] == db.attempts;
  }

  /** Provider truth is applied exactly when it agrees with what is recorded; these are then the only changes. */
  lemma {:induction false} TruthDecides(db: Tables, id: Id, t: Truth)
    requires id in db.attempts && db.attempts[id].paymentId in db.payments && IsTruth(t.status)
    ensures var (db', applied) := ApplyTruth(db, id, t);
      && (applied <==> Agrees(db, id, t))
      && OnlyRows(db, db', id, TruthMakes(db, id, t), TruthJob(db, id, t))
  {
    hide Distrust, Accept, UpsertJob, OnlyRows, Tries, CanTransition;
    DistrustTells(db, id, ReviewCode(db, id, t));
    ReviewTells(db, id, ReviewCode(db, id, t));
    AcceptTells(db, id, t);
    if IsTerminal(db.attempts[id].status) ==> db.attempts[id].status == t.status {
      NoInvalidTransition(db.attempts[id].status, t.status);
    }
  }

  // ---------- initiation ----------

  /** An attempt is the caller's to initiate. */
  ghost predicate Claimable(db: Tables, r: Request) {
    var f := r.details;
    && (f.paymentId in db.payments ==> db.payments[f.paymentId] == Payment(f.eventId, f.orderId, f.amount, f.currency))
    && (forall id :: id in db.attempts ==> db.attempts[id].key != r.key)
    && f.attemptId !in db.attempts
  }

  /** The key is already used for this very request. */
  ghost predicate Replayed(db: Tables, r: Request) {
    var f := r.details;
    && (f.paymentId in db.payments ==> db.payments[f.paymentId] == Payment(f.eventId, f.orderId, f.amount, f.currency))
    && exists id :: id in db.attempts && db.attempts[id].key == r.key && db.attempts[id].details == f
  }

  /**
   A caller owns a new attempt exactly when the payment is new or the same, and key and attempt id are
   free; the attempt is then CREATED with what was requested.  The same request again finds its key and
   owns nothing.  Everything else is refused and changes nothing.
   */
  lemma {:induction false} ClaimedExactlyWhen(db: Tables, r: Request)
    ensures var (db', outcome) := Claim(db, r);
      var f := r.details;
      var payment := Payment(f.eventId, f.orderId, f.amount, f.currency);
      && (outcome == Ok(true) <==> Claimable(db, r))
      && (outcome == Ok(false) <==> Replayed(db, r))
      && (outcome == Err(PaymentIdentityConflict) <==>
            f.paymentId in db.payments && db.payments[f.paymentId] != payment)
      && (outcome.Err? ==> db' == db)
      && (outcome.Ok? ==>
            db' == db.(payments := db.payments[f.paymentId := payment],
                       attempts :=
                         if outcome.value
                         then db.attempts[f.attemptId :=
                                Attempt(f.paymentId, f.provider, r.key, Created, None, None, f)]
                         else db.attempts))
  {
    var f := r.details;
    var payment := Payment(f.eventId, f.orderId, f.amount, f.currency);
    if f.paymentId in db.payments && db.payments[f.paymentId] == payment {
      assert db.payments[f.paymentId := payment] == db.payments;
    }
  }

  /** The attempt after the provider's answer to `initiate`; an attempt that has left CREATED ignores it. */
  function AnswerMakes(a: Attempt, r: Initiation): Attempt {
    if a.status != Created then a
    else a.(status := r.status, reference := if r.reference.Some? then r.reference else a.reference,
            failure := r.failure)
  }

  /** An answer without a reference cannot be followed up, so a person has to; a refusal closes the job. */
  function AnswerJob(db: Tables, id: Id, r: Initiation): Job {
    if r.status == Failed then Job(JobResolved, Tries(db, id), None)
    else if r.reference.Some? then Job(JobPending, Tries(db, id), r.failure)
    else Job(ManualReview, Tries(db, id), Some("MISSING_PROVIDER_REFERENCE"))
  }

  lemma {:induction false} InitiationDecides(db: Tables, id: Id, r: Initiation)
    requires id in db.attempts && r.Valid()
    ensures var db' := ApplyInitiation(db, id, r);
      if db.attempts[id].status == Created then
        OnlyRows(db, db', id, AnswerMakes(db.attempts[id], r), AnswerJob(db, id, r))
      else db' == db
  {
  }

  /** A CREATED attempt that the watchdog finds becomes unknown, for a person to review. */
  function PromotionMakes(a: Attempt): Attempt {
    if a.status == Created then a.(status := Unknown, failure := Some("AMBIGUOUS_INITIATION_CRASH")) else a
  }

  lemma {:induction false} PromotionDecides(db: Tables, id: Id)
    requires id in db.attempts
    ensures OnlyRows(db, Promote(db, id), id, PromotionMakes(db.attempts[id]),
                     Job(ManualReview, Tries(db, id), Some("AMBIGUOUS_INITIATION_CRASH")))
  {
    assert db.attempts[id := db.attempts[id]] == db.attempts;
  }

  // ---------- manual confirmation ----------

  /** A person may decide: an open external-terminal payment, or the decline of a terminal push never referenced. */
  predicate MayDecide(db: Tables, key: string, c: Confirmation) {
    && c.attemptId in db.attempts
    && var a := db.attempts[c.attemptId];
    && (a.provider == EXTERNAL_TERMINAL
        || (a.provider == PESAPAL_SABI && c.outcome == Declined && a.reference.None?))
    && a.status in {Created, Initiated, Pending}
    && a.paymentId in db.payments
    && db.payments[a.paymentId].amount == c.amount && db.payments[a.paymentId].currency == c.currency
    && key !in db.confirmations && !TakenConfirmation(db, c)
  }

  function DecisionMakes(a: Attempt, c: Confirmation): Attempt {
    a.(status := if c.outcome == Approved then Succeeded else Failed,
       reference := if a.provider == EXTERNAL_TERMINAL then Some(c.externalReference) else a.reference,
       failure := if c.outcome == Approved then None
                  else if a.provider == EXTERNAL_TERMINAL then Some("EXTERNAL_TERMINAL_DECLINED")
                  else Some("SABI_TERMINAL_DECLINED_MANUAL_EVIDENCE"))
  }

  /**
   A confirmation that may decide sets the attempt and closes its job; one that is recorded already is
   answered with the record; every other one is refused.  Neither of the last two changes anything.
   */
  lemma {:induction false} ConfirmationDecides(db: Tables, key: string, c: Confirmation)
    requires c.attemptId in db.attempts ==> db.attempts[c.attemptId].paymentId in db.payments
    ensures var (db', result) := Confirm(db, key, c);
      && (MayDecide(db, key, c) ==>
            && result == Ok(c)
            && OnlyRows(db.(confirmations := db.confirmations[key := c]), db', c.attemptId,
                        DecisionMakes(db.attempts[c.attemptId], c), Job(JobResolved, Tries(db, c.attemptId), None)))
      && (!MayDecide(db, key, c) ==> db' == db && (result.Ok? ==> key in db.confirmations && result.value == c))
  {
    hide TakenConfirmation;
  }

  // ---------- callbacks ----------

  /** The attempt a callback is about: the one it names, else one of its provider with its reference. */
  predicate About(db: Tables, provider: string, t: Truth, id: Id) {
    && id in db.attempts
    && match t.attemptId
       case Some(named) => named == id
       case None =>
         db.attempts[id].provider == provider && t.reference.Some? && db.attempts[id].reference == t.reference
  }

  /**
   What a callback's receipt says.  The same provider event again is a duplicate and changes nothing; one
   about no attempt is kept for later; one about another provider's attempt, or one that does not agree
   with its attempt, is a conflict; only one that agrees is applied.
   */
  lemma {:induction false} ReceiptTells(db: Tables, key: EventKey, t: Truth, found: Option<Id>)
    requires TablesOk(db) && IsTruth(t.status) && LookupFinds(db, key.provider, t, found)
    ensures found.Some? ==> About(db, key.provider, t, found.value)
    ensures found.None? ==> forall id :: !About(db, key.provider, t, id)
    ensures (FoundHasPayment(db, key.provider, t, found);
      var (db', status) := Ingest(db, key, t, found);
      var mine := found.Some? && db.attempts[found.value].provider == key.provider;
      && (status == Duplicate <==> key in db.events) && (status == Duplicate ==> db' == db)
      && (status == Unmatched <==> key !in db.events && found.None?)
      && (status == Applied <==> key !in db.events && mine && Agrees(db, found.value, t))
      && (key !in db.events && !mine ==> db' == db.(events := db.events[key := EventRow(t, None)]))
      && (key !in db.events && mine ==>
            OnlyRows(db.(events := db.events[key := EventRow(t, found)]), db', found.value,
                     TruthMakes(db, found.value, t), TruthJob(db, found.value, t))))
  {
    hide ApplyTruth, OnlyRows, TablesOk, Contradicts;
    FoundHasPayment(db, key.provider, t, found);
    if key !in db.events && found.Some? && db.attempts[found.value].provider == key.provider {
      var linked := db.(events := db.events[key := EventRow(t, found)]);
      TruthDecides(linked, found.value, t);
      SameDecision(db, linked, found.value, t);
    }
  }

  /** Event rows have no say in what truth makes of an attempt. */
  lemma {:induction false} SameDecision(db: Tables, other: Tables, id: Id, t: Truth)
    requires id in db.attempts && db.attempts[id].paymentId in db.payments
    requires other == db.(events := other.events)
    ensures Agrees(other, id, t) == Agrees(db, id, t)
    ensures TruthMakes(other, id, t) == TruthMakes(db, id, t) && TruthJob(other, id, t) == TruthJob(db, id, t)
  {
  }

  // ---------- polling ----------

  /** The truth in a status query's answer: without a reference of its own it is about the one asked for. */
  function Answered(seen: string, answer: Truth): Truth {
    if answer.reference.Some? then answer else answer.(reference := Some(seen))
  }

  /**
   A status query that finds the attempt still open applies its answer.  An answer that agrees and is not
   final counts one more try, and the sixth try goes to a person.
   */
  lemma {:induction false} PollDecides(db: Tables, id: Id, seen: string, answer: Truth)
    requires id in db.attempts && db.attempts[id].paymentId in db.payments && IsTruth(answer.status)
    ensures var db', t := PollWrite(db, id, seen, answer), Answered(seen, answer);
      if !IsUnresolved(db.attempts[id].status) then db' == db
      else OnlyRows(db, db', id, TruthMakes(db, id, t),
                    if !Agrees(db, id, t) || IsTerminal(t.status) then TruthJob(db, id, t)
                    else if Tries(db, id) >= 5 then Job(ManualReview, Tries(db, id), answer.failure)
                    else Job(JobPending, Tries(db, id) + 1, answer.failure))
  {
    hide ApplyTruth, ScheduleRetry, Contradicts, TruthMakes;
    var t := Answered(seen, answer);
    TruthDecides(db, id, t);
    RetryTells(ApplyTruth(db, id, t).0, id, answer.failure);
  }

  /**
   The timer handling one due job: a failed call counts one try, an attempt that cannot be asked about goes
   to a person, and an answer is applied.  An attempt that is not open any more is left alone.
   */
  lemma {:induction false} AutoPollDecides(db: Tables, id: Id, outcome: PollOutcome)
    requires id in db.attempts && db.attempts[id].paymentId in db.payments && Fair(outcome)
    ensures var a, db' := db.attempts[id], AutoPoll(db, id, outcome);
      if a.status !in {Initiated, Pending, Unknown} then db' == db
      else if outcome.Broken? then
        OnlyRows(db, db', id, a,
                 if Tries(db, id) >= 5 then Job(ManualReview, Tries(db, id), Some("RECONCILIATION_ERROR"))
                 else Job(JobPending, Tries(db, id) + 1, Some("RECONCILIATION_ERROR")))
      else if a.reference.None? then
        OnlyRows(db, db', id, a, Job(ManualReview, Tries(db, id), Some("MISSING_PROVIDER_REFERENCE")))
      else if outcome.QueryUnsupported? then
        OnlyRows(db, db', id, a, Job(ManualReview, Tries(db, id), Some("PROVIDER_STATUS_QUERY_UNSUPPORTED")))
      else db' == PollWrite(db, id, a.reference.value, outcome.answer)
  {
    hide PollWrite, ScheduleRetry;
    RetryTells(db, id, Some("RECONCILIATION_ERROR"));
    ReviewTells(db, id, "MISSING_PROVIDER_REFERENCE");
    ReviewTells(db, id, "PROVIDER_STATUS_QUERY_UNSUPPORTED");
    assert db.attempts[id := db.attempts[id]] == db.attempts;
  }

  // ---------- a step of any run ----------

  /** What a step makes of one attempt: truth, an answer, a promotion or a decision about it, or nothing. */
  function Becomes(w: World, step: Step, id: Id): Attempt
    requires Inv(w) && Enabled(w, step) && id in w.db.attempts
  {
    var a, truth := w.db.attempts[id], TruthBrought(w, step, id);
    RowsHold(w, id);
    if truth.Some? then
      if step.AnswerStep? && IsTerminal(a.status) then a else TruthMakes(w.db, id, truth.value)
    else if step.ResultStep? && step.id == id then AnswerMakes(a, step.result)
    else if step.PromoteStep? && step.id == id then PromotionMakes(a)
    else if step.ConfirmStep? && step.confirmation.attemptId == id
         && MayDecide(w.db, step.confirmKey, step.confirmation) then DecisionMakes(a, step.confirmation)
    else a
  }

  ghost predicate Became(w: World, step: Step, id: Id)
    requires Inv(w) && Enabled(w, step) && id in w.db.attempts
  {
    id in Next(w, step).db.attempts && Next(w, step).db.attempts[id] == Becomes(w, step, id)
  }

  lemma {:induction false} CallbackBecomes(w: World, key: EventKey, truth: Truth, found: Option<Id>, id: Id)
    requires Inv(w) && Enabled(w, CallbackStep(key, truth, found)) && id in w.db.attempts
    ensures Became(w, CallbackStep(key, truth, found), id)
  {
    hide FlightOk, Ingest, Contradicts, TruthMakes, TruthJob, LookupFinds, TablesOk;
    ReceiptTells(w.db, key, truth, found);
  }

  lemma {:induction false} StoredBecomes(w: World, key: EventKey, target: Id, id: Id)
    requires Inv(w) && Enabled(w, StoredStep(key, target)) && id in w.db.attempts
    ensures Became(w, StoredStep(key, target), id)
  {
    hide ApplyTruth, TruthMakes, TruthJob, TablesOk;
    InFlight(w, StoredStep(key, target));
    StoredTruth(w, key);
    RowsHold(w, target);
    var linked := w.db.(events := w.db.events[key := w.db.events[key].(attempt := Some(target))]);
    TruthDecides(linked, target, w.db.events[key].truth);
    SameDecision(w.db, linked, target, w.db.events[key].truth);
  }

  lemma {:induction false} StoredTruth(w: World, key: EventKey)
    requires Inv(w) && key in w.db.events
    ensures IsTruth(w.db.events[key].truth.status)
  {
  }

  lemma {:induction false} AnswerBecomes(w: World, target: Id, seen: string, answer: Truth, id: Id)
    requires Inv(w) && Enabled(w, AnswerStep(target, seen, answer)) && id in w.db.attempts
    ensures Became(w, AnswerStep(target, seen, answer), id)
  {
    hide PollWrite, TruthMakes, TruthJob, TablesOk, FlightOk, Contradicts;
    InFlight(w, AnswerStep(target, seen, answer));
    RowsHold(w, target);
    PollDecides(w.db, target, seen, answer);
    assert Answered(seen, answer) == answer.(reference := Coalesce(answer.reference, Some(seen)));
  }

  lemma {:induction false} ConfirmBecomes(w: World, key: string, c: Confirmation, id: Id)
    requires Inv(w) && id in w.db.attempts
    ensures Became(w, ConfirmStep(key, c), id)
  {
    hide Confirm, MayDecide, TablesOk, FlightOk;
    RowsHold(w, c.attemptId);
    ConfirmationDecides(w.db, key, c);
  }

  /** Every step of every interleaving makes exactly this of every attempt, and of no attempt anything else. */
  lemma {:induction false} StepDecides(w: World, step: Step, id: Id)
    requires Inv(w) && Enabled(w, step) && id in w.db.attempts
    ensures Became(w, step, id)
  {
    hide FlightOk, TablesOk, Claim, ApplyInitiation, Ingest, ApplyStored, PollWrite, Confirm, UpsertJob, ScheduleRetry,
         Promote, LookupFinds, StoredMatches, TakenConfirmation, Contradicts;
    match step
    case ClaimStep(r) => ClaimEffect(w.db, r);
    case CallStep(_) =>
    case MatchStep(_, _) =>
    case PollStep(_) =>
    case ResultStep(target, result) => InFlight(w, step); InitiationDecides(w.db, target, result);
    case ReviewStep(target, _, code) => UpsertKeepsAttempts(w.db, target, ManualReview, Some(code));
    case RetryStep(target, error) => RetryEvents(w.db, target, error);
    case PromoteStep(target) => PromotionDecides(w.db, target);
    case CallbackStep(key, truth, found) => CallbackBecomes(w, key, truth, found, id);
    case StoredStep(key, target) => StoredBecomes(w, key, target, id);
    case AnswerStep(target, seen, answer) => AnswerBecomes(w, target, seen, answer, id);
    case ConfirmStep(key, c) => ConfirmBecomes(w, key, c, id);
  }

  /** Truth that says FAILED and contradicts nothing, the provider's refusal to begin, or a person's decline. */
  predicate FailureArrives(w: World, step: Step, id: Id)
    requires Inv(w) && Enabled(w, step) && id in w.db.attempts
  {
    RowsHold(w, id);
    var t := TruthBrought(w, step, id);
    || (t.Some? && t.value.status == Failed && !Contradicts(w.db, id, t.value))
    || (step.ResultStep? && step.id == id && step.result.status == Failed && w.db.attempts[id].status == Created)
    || (step.ConfirmStep? && step.confirmation.attemptId == id && step.confirmation.outcome == Declined
        && MayDecide(w.db, step.confirmKey, step.confirmation))
  }

  /** An attempt that is still open becomes FAILED in a step exactly when a failure arrives for it. */
  lemma {:induction false} FailsExactlyWhen(w: World, step: Step, id: Id)
    requires Inv(w) && Enabled(w, step) && id in w.db.attempts && !IsTerminal(w.db.attempts[id].status)
    ensures id in Next(w, step).db.attempts
    ensures Next(w, step).db.attempts[id].status == Failed <==> FailureArrives(w, step, id)
  {
    hide Inv, Enabled, Next, Contradicts, MayDecide;
    StepDecides(w, step, id);
  }
}
