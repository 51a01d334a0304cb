/**
 Every interleaving of the Cloud's payment operations.  An operation that reads, calls a provider and
 then writes is several steps; what it read is remembered, so the write may come arbitrarily late.
 */
module CloudPaymentRuns {
  import opened Common
  import opened PaymentDomain
  import opened CloudPayments

  datatype World = World(
    db: Tables,
    claimed: set<Id>,                          // initiations owned, provider not called yet
    called: set<Id>,                           // provider called, result may still be written
    calls: seq<string>,                        // idempotency keys of all `initiate` calls so far
    polls: set<(Id, Option<string>)>,          // unresolved attempts read for reconciliation, with their reference
    matched: set<(EventKey, Id)>)              // stored callbacks selected for an attempt

  datatype Step =
    | ClaimStep(request: Request)
    | CallStep(id: Id)
    | ResultStep(id: Id, result: Initiation)
    | CallbackStep(key: EventKey, truth: Truth, found: Option<Id>)
    | MatchStep(key: EventKey, id: Id)
    | StoredStep(key: EventKey, id: Id)
    | PollStep(id: Id)
    | AnswerStep(id: Id, seen: string, answer: Truth)
    | ReviewStep(id: Id, read: Option<string>, code: string)
    | RetryStep(id: Id, error: Option<string>)
    | PromoteStep(id: Id)
    | ConfirmStep(confirmKey: string, confirmation: Confirmation)

  const EmptyWorld := World(Tables(map[], map[], map[], map[], map[]), {}, {}, [], {}, {})

  /** What each step needs from the state it starts in, and from the provider adapter. */
  predicate Enabled(w: World, step: Step) {
    match step
    case ClaimStep(_) => true
    case CallStep(id) => id in w.claimed
    case ResultStep(id, result) =>
      // The external-terminal adapter never returns a reference.
      && id in w.called && result.Valid()
      && (id in w.db.attempts && w.db.attempts[id].provider == EXTERNAL_TERMINAL ==> result.reference.None?)
    case CallbackStep(key, truth, found) =>
      // The external-terminal adapter accepts no callbacks.
      key.provider != EXTERNAL_TERMINAL && IsTruth(truth.status) && LookupFinds(w.db, key.provider, truth, found)
    case MatchStep(key, id) => StoredMatches(w.db, key, id)
    case StoredStep(key, id) => (key, id) in w.matched
    case PollStep(id) => id in w.db.attempts && IsUnresolved(w.db.attempts[id].status)
    case AnswerStep(id, seen, answer) => (id, Some(seen)) in w.polls && IsTruth(answer.status)
    case ReviewStep(id, seen, _) => (id, seen) in w.polls
    case RetryStep(id, _) => id in w.db.jobs
    case PromoteStep(id) => id in w.db.attempts && w.db.attempts[id].status == Created
    case ConfirmStep(_, _) => true
  }

  // ---------- the invariant ----------

  predicate AttemptOk(db: Tables, id: Id) {
    id in db.attempts ==>
      var a := db.attempts[id];
      && a.paymentId in db.payments
      && (a.status == Created ==> a.reference == None)
      && (a.provider == EXTERNAL_TERMINAL && a.reference.Some? ==> IsTerminal(a.status))
      && (IsUnresolved(a.status) ==> id in db.jobs && db.jobs[id].status != JobResolved)
  }

  predicate JobOk(db: Tables, id: Id) {
    id in db.jobs ==>
      && id in db.attempts && db.attempts[id].status != Created
      && (db.jobs[id].status == JobResolved ==> IsTerminal(db.attempts[id].status))
      && db.jobs[id].attempts <= 5
  }

  ghost predicate TablesOk(db: Tables) {
    && (forall id :: AttemptOk(db, id))
    && (forall id :: JobOk(db, id))
    && (forall i, j :: i in db.attempts && j in db.attempts && db.attempts[i].key == db.attempts[j].key ==> i == j)
    && (forall k :: k in db.events ==> k.provider != EXTERNAL_TERMINAL && IsTruth(db.events[k].truth.status))
  }

  ghost predicate FlightOk(w: World) {
    && (forall id :: id in w.claimed ==> id in w.db.attempts && w.db.attempts[id].key !in w.calls)
    && (forall id :: id in w.called ==> id in w.db.attempts)
    && (forall i, j :: 0 <= i < j < |w.calls| ==> w.calls[i] != w.calls[j])
    && (forall k :: k in w.calls ==> exists id :: id in w.db.attempts && w.db.attempts[id].key == k)
    && (forall p :: p in w.polls ==> PollOk(w.db, p))
    && (forall m :: m in w.matched ==> m.0 in w.db.events && m.1 in w.db.attempts && w.db.attempts[m.1].provider == m.0.provider)
  }

  predicate PollOk(db: Tables, p: (Id, Option<string>)) {
    && p.0 in db.attempts && db.attempts[p.0].status != Created
    && (p.1.Some? ==> db.attempts[p.0].reference == p.1 && db.attempts[p.0].provider != EXTERNAL_TERMINAL)
  }

  ghost predicate Inv(w: World) { TablesOk(w.db) && FlightOk(w) }

  // ---------- the step function ----------

  function Next(w: World, step: Step): World
    requires Inv(w) && Enabled(w, step)
  {
    match step
    case ClaimStep(r) =>
      var (db, outcome) := Claim(w.db, r);
      w.(db := db, claimed := if outcome == Ok(true) then w.claimed + {r.details.attemptId} else w.claimed)
    case CallStep(id) =>
      w.(claimed := w.claimed - {id}, called := w.called + {id}, calls := w.calls + [w.db.attempts[id].key])
    case ResultStep(id, result) => w.(db := ApplyInitiation(w.db, id, result))
    case CallbackStep(key, truth, found) =>
      FoundHasPayment(w.db, key.provider, truth, found);
      w.(db := Ingest(w.db, key, truth, found).0)
    case MatchStep(key, id) => w.(matched := w.matched + {(key, id)})
    case StoredStep(key, id) =>
      assert AttemptOk(w.db, (key, id).1);
      w.(db := ApplyStored(w.db, key, id))
    case PollStep(id) => w.(polls := w.polls + {(id, w.db.attempts[id].reference)})
    case AnswerStep(id, seen, answer) =>
      assert PollOk(w.db, (id, Some(seen))) && AttemptOk(w.db, id);
      w.(db := PollWrite(w.db, id, seen, answer))
    case ReviewStep(id, _, code) => w.(db := UpsertJob(w.db, id, ManualReview, Some(code)))
    case RetryStep(id, error) => w.(db := ScheduleRetry(w.db, id, error))
    case PromoteStep(id) => w.(db := Promote(w.db, id))
    case ConfirmStep(key, c) =>
      assert AttemptOk(w.db, c.attemptId);
      w.(db := Confirm(w.db, key, c).0)
  }

  lemma {:induction false} FoundHasPayment(db: Tables, provider: string, truth: Truth, found: Option<Id>)
    requires TablesOk(db) && LookupFinds(db, provider, truth, found)
    ensures found.Some? ==> found.value in db.attempts && db.attempts[found.value].paymentId in db.payments
  {
    if found.Some? { assert AttemptOk(db, found.value); }
  }

  // ---------- what a transaction may do to one attempt ----------

  /** An attempt keeps its identity, its terminal status and its reference; it never returns to CREATED. */
  predicate Advances(a: Attempt, a': Attempt) {
    && a' == a.(status := a'.status, reference := a'.reference, failure := a'.failure)
    && (IsTerminal(a.status) ==> a'.status == a.status)
    && (a.reference.Some? ==> a'.reference == a.reference)
    && (a'.status == Created ==> a.status == Created)
  }

  ghost predicate Extends(db: Tables, db': Tables) {
    && (forall p :: p in db.payments ==> p in db'.payments && db'.payments[p] == db.payments[p])
    && (forall id :: id in db.attempts ==> id in db'.attempts && Advances(db.attempts[id], db'.attempts[id]))
    && (forall k :: k in db.events ==> k in db'.events)
  }

  /** Only attempt `id`, its job and event links differ; the attempt advanced and both rows are well-formed. */
  ghost predicate Touches(db: Tables, db': Tables, id: Id) {
    && id in db.attempts && id in db'.attempts
    && Advances(db.attempts[id], db'.attempts[id])
    && db'.payments == db.payments
    && db'.attempts == db.attempts[id := db'.attempts[id]]
    && (forall j :: j != id ==> (j in db'.jobs <==> j in db.jobs) && (j in db.jobs ==> db'.jobs[j] == db.jobs[j]))
    && db.events.Keys <= db'.events.Keys
    && AttemptOk(db', id) && JobOk(db', id)
  }

  predicate RowsOk(db: Tables, id: Id) { id in db.attempts && AttemptOk(db, id) && JobOk(db, id) }

  lemma {:induction false} DistrustTouches(db: Tables, id: Id, code: string)
    requires RowsOk(db, id)
    ensures Touches(db, Distrust(db, id, code), id)
    ensures Distrust(db, id, code).events == db.events
  {
  }

  lemma {:induction false} AcceptTouches(db: Tables, id: Id, truth: Truth)
    requires RowsOk(db, id) && IsTruth(truth.status)
    requires !Clash(db.attempts[id].reference, truth.reference)
    requires IsTerminal(db.attempts[id].status) ==> db.attempts[id].status == truth.status
    requires db.attempts[id].provider != EXTERNAL_TERMINAL
    ensures Touches(db, Accept(db, id, truth), id)
    ensures Accept(db, id, truth).events == db.events
  {
  }

  lemma {:induction false} ReviewTouches(db: Tables, id: Id, code: Option<string>)
    requires RowsOk(db, id) && db.attempts[id].status != Created
    ensures Touches(db, UpsertJob(db, id, ManualReview, code), id)
    ensures UpsertJob(db, id, ManualReview, code).events == db.events
  {
  }

  lemma {:induction false} RetryTouches(db: Tables, id: Id, error: Option<string>)
    requires RowsOk(db, id) && db.attempts[id].status != Created
    ensures Touches(db, ScheduleRetry(db, id, error), id)
  {
  }

  lemma {:induction false} ApplyTruthTouches(db: Tables, id: Id, truth: Truth)
    requires RowsOk(db, id) && IsTruth(truth.status) && db.attempts[id].provider != EXTERNAL_TERMINAL
    ensures Touches(db, ApplyTruth(db, id, truth).0, id)
    ensures ApplyTruth(db, id, truth).0.events == db.events
    ensures ApplyTruth(db, id, truth).1 ==> ApplyTruth(db, id, truth).0 == Accept(db, id, truth)
  {
    hide Touches, Distrust, Accept, UpsertJob;
    var a, p := db.attempts[id], db.payments[db.attempts[id].paymentId];
    if truth.attemptId.Some? && truth.attemptId.value != id {
      DistrustTouches(db, id, "PROVIDER_MERCHANT_REFERENCE_MISMATCH");
    } else if Clash(a.reference, truth.reference) {
      DistrustTouches(db, id, "PROVIDER_REFERENCE_MISMATCH");
    } else if (truth.amount.Some? && truth.amount.value != p.amount)
           || (truth.currency.Some? && truth.currency.value != p.currency) {
      DistrustTouches(db, id, "PROVIDER_AMOUNT_MISMATCH");
    } else if IsTerminal(a.status) && a.status != truth.status {
      ReviewTouches(db, id, Some("CONFLICTING_PROVIDER_TRUTH"));
    } else if !CanTransition(a.status, truth.status) {
      NoInvalidTransition(a.status, truth.status);
    } else {
      AcceptTouches(db, id, truth);
    }
  }

  /** The INVALID_PROVIDER_TRANSITION branch cannot be reached. */
  lemma {:induction false} NoInvalidTransition(from: Status, to: Status)
    requires IsTruth(to) && (IsTerminal(from) ==> from == to)
    ensures CanTransition(from, to)
  {
  }

  lemma {:induction false} IngestTouches(db: Tables, key: EventKey, truth: Truth, found: Option<Id>)
    requires TablesOk(db) && LookupFinds(db, key.provider, truth, found)
    requires key.provider != EXTERNAL_TERMINAL && IsTruth(truth.status)
    ensures (FoundHasPayment(db, key.provider, truth, found);
             var db' := Ingest(db, key, truth, found).0;
             if db'.attempts == db.attempts && db'.jobs == db.jobs
             then db'.payments == db.payments && db.events.Keys <= db'.events.Keys <= db.events.Keys + {key}
             else found.Some? && Touches(db, db', found.value) && db'.events.Keys == db.events.Keys + {key})
    ensures (FoundHasPayment(db, key.provider, truth, found);
             var db' := Ingest(db, key, truth, found).0;
             forall k :: k in db'.events ==> (k in db.events && db'.events[k].truth == db.events[k].truth)
                                             || (k == key && db'.events[k].truth == truth))
  {
    FoundHasPayment(db, key.provider, truth, found);
    if key !in db.events && found.Some? && db.attempts[found.value].provider == key.provider {
      var linked := db.(events := db.events[key := EventRow(truth, found)]);
      assert AttemptOk(db, found.value) && JobOk(db, found.value);
      assert RowsOk(linked, found.value);
      ApplyTruthTouches(linked, found.value, truth);
    }
  }

  lemma {:induction false} StoredTouches(db: Tables, key: EventKey, id: Id)
    requires RowsOk(db, id) && key in db.events && IsTruth(db.events[key].truth.status)
    requires db.attempts[id].provider == key.provider != EXTERNAL_TERMINAL
    ensures Touches(db, ApplyStored(db, key, id), id)
    ensures var db' := ApplyStored(db, key, id);
      db'.events.Keys == db.events.Keys && forall k :: k in db.events ==> db'.events[k].truth == db.events[k].truth
  {
    hide ApplyTruth;
    var linked := db.(events := db.events[key := db.events[key].(attempt := Some(id))]);
    assert RowsOk(linked, id);
    ApplyTruthTouches(linked, id, db.events[key].truth);
  }

  lemma {:induction false} PollWriteTouches(db: Tables, id: Id, seen: string, answer: Truth)
    requires RowsOk(db, id) && IsTruth(answer.status) && db.attempts[id].provider != EXTERNAL_TERMINAL
    requires db.attempts[id].status != Created
    ensures Touches(db, PollWrite(db, id, seen, answer), id)
    ensures PollWrite(db, id, seen, answer).events == db.events
  {
    hide ApplyTruth, ScheduleRetry;
    var truth := answer.(reference := if answer.reference.Some? then answer.reference else Some(seen));
    ApplyTruthTouches(db, id, truth);
    var (after, applied) := ApplyTruth(db, id, truth);
    RetryTouches(after, id, answer.failure);
    RetryEvents(after, id, answer.failure);
  }

  lemma {:induction false} RetryEvents(db: Tables, id: Id, error: Option<string>)
    ensures ScheduleRetry(db, id, error).events == db.events
    ensures ScheduleRetry(db, id, error).attempts == db.attempts
  {
  }

  lemma {:induction false} InitiationTouches(db: Tables, id: Id, result: Initiation)
    requires RowsOk(db, id) && result.Valid()
    requires db.attempts[id].provider == EXTERNAL_TERMINAL ==> result.reference.None?
    ensures Touches(db, ApplyInitiation(db, id, result), id)
    ensures ApplyInitiation(db, id, result).events == db.events
  {
  }

  lemma {:induction false} PromoteTouches(db: Tables, id: Id)
    requires RowsOk(db, id)
    ensures Touches(db, Promote(db, id), id) && Promote(db, id).events == db.events
  {
  }

  lemma {:induction false} DecideTouches(db: Tables, c: Confirmation)
    requires RowsOk(db, c.attemptId) && !IsTerminal(db.attempts[c.attemptId].status)
    ensures Touches(db, Decide(db, c), c.attemptId) && Decide(db, c).events == db.events
  {
  }

  lemma {:induction false} ConfirmTouches(db: Tables, key: string, c: Confirmation)
    requires RowsOk(db, c.attemptId)
    ensures Touches(db, Confirm(db, key, c).0, c.attemptId) && Confirm(db, key, c).0.events == db.events
  {
    hide Decide;
    var recorded := db.(confirmations := db.confirmations[key := c]);
    assert RowsOk(recorded, c.attemptId);
    if !IsTerminal(db.attempts[c.attemptId].status) { DecideTouches(recorded, c); }
  }

  // ---------- every step ----------

  lemma {:induction false} TouchKeepsInv(w: World, w': World, id: Id)
    requires Inv(w) && w' == w.(db := w'.db) && Touches(w.db, w'.db, id)
    requires forall k :: k in w'.db.events ==> k.provider != EXTERNAL_TERMINAL && IsTruth(w'.db.events[k].truth.status)
    ensures Inv(w') && Extends(w.db, w'.db)
  {
    forall j ensures AttemptOk(w'.db, j) && JobOk(w'.db, j) { assert AttemptOk(w.db, j) && JobOk(w.db, j); }
    forall p | p in w'.polls ensures PollOk(w'.db, p) { assert PollOk(w.db, p); }
    forall k | k in w'.calls ensures exists j :: j in w'.db.attempts && w'.db.attempts[j].key == k {
      var j :| j in w.db.attempts && w.db.attempts[j].key == k;
      assert w'.db.attempts[j].key == k;
    }
  }

  /** A claim either changes nothing, adds a payment, or adds a payment (if new) and a fresh CREATED attempt. */
  lemma {:induction false} ClaimEffect(db: Tables, r: Request)
    ensures var (db', outcome) := Claim(db, r);
      var f := r.details;
      && db' == db.(payments := db'.payments, attempts := db'.attempts)
      && (forall p :: p in db.payments ==> p in db'.payments && db'.payments[p] == db.payments[p])
      && (outcome != Ok(true) ==> db'.attempts == db.attempts)
      && (outcome == Ok(true) ==>
            && f.attemptId !in db.attempts && f.paymentId in db'.payments
            && (forall id :: id in db.attempts ==> db.attempts[id].key != r.key)
            && db'.attempts ==
                 db.attempts[f.attemptId := Attempt(f.paymentId, f.provider, r.key, Created, None, None, f)])
  {
  }

  lemma {:induction false} ClaimKeepsTables(db: Tables, r: Request)
    requires TablesOk(db)
    ensures TablesOk(Claim(db, r).0) && Extends(db, Claim(db, r).0)
  {
    hide Claim;
    ClaimEffect(db, r);
    forall j ensures AttemptOk(Claim(db, r).0, j) && JobOk(Claim(db, r).0, j) {
      assert AttemptOk(db, j) && JobOk(db, j);
    }
  }

  lemma {:induction false} ClaimKeeps(w: World, r: Request)
    requires Inv(w)
    ensures Inv(Next(w, ClaimStep(r))) && Extends(w.db, Next(w, ClaimStep(r)).db)
  {
    hide Claim, TablesOk, Extends;
    ClaimKeepsTables(w.db, r);
    ClaimEffect(w.db, r);
    var w' := Next(w, ClaimStep(r));
    forall p | p in w'.polls ensures PollOk(w'.db, p) { assert PollOk(w.db, p); }
    forall k | k in w'.calls ensures exists j :: j in w'.db.attempts && w'.db.attempts[j].key == k {
      var j :| j in w.db.attempts && w.db.attempts[j].key == k;
      assert w'.db.attempts[j].key == k;
    }
  }

  lemma {:induction false} ReadsKeep(w: World, step: Step)
    requires Inv(w) && Enabled(w, step) && (step.CallStep? || step.MatchStep? || step.PollStep?)
    ensures Inv(Next(w, step)) && Next(w, step).db == w.db
  {
    match step
    case CallStep(id) =>
    case MatchStep(key, id) =>
    case PollStep(id) => assert AttemptOk(w.db, id);
    case _ =>
  }

  lemma {:induction false} CallbackKeeps(w: World, key: EventKey, truth: Truth, found: Option<Id>)
    requires Inv(w) && Enabled(w, CallbackStep(key, truth, found))
    ensures Inv(Next(w, CallbackStep(key, truth, found)))
    ensures Extends(w.db, Next(w, CallbackStep(key, truth, found)).db)
  {
    hide Ingest, FlightOk;
    IngestTouches(w.db, key, truth, found);
    FoundHasPayment(w.db, key.provider, truth, found);
    var w' := Next(w, CallbackStep(key, truth, found));
    if w'.db.attempts == w.db.attempts && w'.db.jobs == w.db.jobs {
      EventsOnly(w, w');
    } else {
      TouchKeepsInv(w, w', found.value);
    }
  }

  lemma {:induction false} EventsOnly(w: World, w': World)
    requires Inv(w) && w' == w.(db := w.db.(events := w'.db.events, confirmations := w'.db.confirmations))
    requires w.db.events.Keys <= w'.db.events.Keys
    requires forall k :: k in w'.db.events ==> k.provider != EXTERNAL_TERMINAL && IsTruth(w'.db.events[k].truth.status)
    ensures Inv(w') && Extends(w.db, w'.db)
  {
    forall j ensures AttemptOk(w'.db, j) && JobOk(w'.db, j) { assert AttemptOk(w.db, j) && JobOk(w.db, j); }
    forall p | p in w'.polls ensures PollOk(w'.db, p) { assert PollOk(w.db, p); }
  }

  /** Every step keeps the invariant and lets every attempt only advance. */
  lemma {:induction false} StepKeeps(w: World, step: Step)
    requires Inv(w) && Enabled(w, step)
    ensures Inv(Next(w, step)) && Extends(w.db, Next(w, step).db)
  {
    hide FlightOk, ApplyInitiation, ApplyStored, PollWrite, UpsertJob, ScheduleRetry, Promote, Confirm, Claim, Ingest,
         Touches, LookupFinds, StoredMatches;
    var w' := Next(w, step);
    match step
    case ClaimStep(r) => ClaimKeeps(w, r);
    case CallStep(_) => ReadsKeep(w, step); ExtendsSelf(w.db);
    case MatchStep(_, _) => ReadsKeep(w, step); ExtendsSelf(w.db);
    case PollStep(_) => ReadsKeep(w, step); ExtendsSelf(w.db);
    case CallbackStep(key, truth, found) => CallbackKeeps(w, key, truth, found);
    case ResultStep(id, result) =>
      InFlight(w, step); assert AttemptOk(w.db, id) && JobOk(w.db, id);
      InitiationTouches(w.db, id, result); TouchKeepsInv(w, w', id);
    case StoredStep(key, id) =>
      InFlight(w, step); assert AttemptOk(w.db, id) && JobOk(w.db, id);
      StoredTouches(w.db, key, id); TouchKeepsInv(w, w', id);
    case AnswerStep(id, seen, answer) =>
      InFlight(w, step); assert AttemptOk(w.db, id) && JobOk(w.db, id);
      PollWriteTouches(w.db, id, seen, answer); TouchKeepsInv(w, w', id);
    case ReviewStep(id, _, code) =>
      InFlight(w, step); assert AttemptOk(w.db, id) && JobOk(w.db, id);
      ReviewTouches(w.db, id, Some(code)); TouchKeepsInv(w, w', id);
    case RetryStep(id, error) =>
      assert JobOk(w.db, id) && AttemptOk(w.db, id);
      RetryTouches(w.db, id, error); RetryEvents(w.db, id, error); TouchKeepsInv(w, w', id);
    case PromoteStep(id) =>
      assert AttemptOk(w.db, id) && JobOk(w.db, id);
      PromoteTouches(w.db, id); TouchKeepsInv(w, w', id);
    case ConfirmStep(key, c) => ConfirmKeeps(w, key, c);
  }

  lemma {:induction false} ExtendsSelf(db: Tables)
    ensures Extends(db, db)
  {
  }

  lemma {:induction false} InFlight(w: World, step: Step)
    requires FlightOk(w) && Enabled(w, step)
    ensures step.ResultStep? ==> step.id in w.db.attempts
    ensures step.StoredStep? ==> step.key in w.db.events && step.id in w.db.attempts
                                 && w.db.attempts[step.id].provider == step.key.provider
    ensures step.AnswerStep? ==> PollOk(w.db, (step.id, Some(step.seen)))
    ensures step.ReviewStep? ==> PollOk(w.db, (step.id, step.read))
  {
    if step.StoredStep? { assert (step.key, step.id) in w.matched; }
  }

  lemma {:induction false} ConfirmKeeps(w: World, key: string, c: Confirmation)
    requires Inv(w)
    ensures Inv(Next(w, ConfirmStep(key, c))) && Extends(w.db, Next(w, ConfirmStep(key, c)).db)
  {
    hide Touches, FlightOk, UpsertJob;
    assert AttemptOk(w.db, c.attemptId) && JobOk(w.db, c.attemptId);
    if c.attemptId in w.db.attempts {
      ConfirmTouches(w.db, key, c);
      TouchKeepsInv(w, Next(w, ConfirmStep(key, c)), c.attemptId);
    } else {
      ExtendsSelf(w.db);
    }
  }
}
