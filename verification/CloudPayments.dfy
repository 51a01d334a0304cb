/**
 The Cloud's payment tables.  Each function is one database transaction; None and Err leave every
 table as it was.  Ids are strings, and the request fingerprint stands for its own digest.
 */
module CloudPayments {
  import opened Common
  import opened PaymentDomain

  type Id = string

  datatype Payment = Payment(eventId: string, orderId: string, amount: nat, currency: string)

  datatype Fingerprint = Fingerprint(
    eventId: string, paymentId: Id, attemptId: Id, orderId: string, provider: string,
    amount: nat, currency: string, phone: Option<string>, account: string)

  datatype Request = Request(details: Fingerprint, key: string)

  datatype Attempt = Attempt(
    paymentId: Id, provider: string, key: string, status: Status,
    reference: Option<string>, failure: Option<string>, details: Fingerprint)

  /** A provider's answer to `initiate`. */
  datatype Initiation = Initiation(status: Status, reference: Option<string>, failure: Option<string>) {
    predicate Valid() { IsUnresolved(status) || status == Failed }
  }

  /** A provider's statement about a transaction, from a webhook or a status query. */
  datatype Truth = Truth(
    attemptId: Option<Id>, reference: Option<string>, status: Status,
    amount: Option<nat>, currency: Option<string>, failure: Option<string>)

  datatype JobStatus = JobPending | JobResolved | ManualReview

  datatype Job = Job(status: JobStatus, attempts: nat, error: Option<string>)

  datatype EventKey = EventKey(provider: string, key: string)

  datatype EventRow = EventRow(truth: Truth, attempt: Option<Id>)

  datatype Outcome = Approved | Declined

  datatype Confirmation = Confirmation(
    id: Id, attemptId: Id, externalProvider: string, externalReference: string,
    amount: nat, currency: string, outcome: Outcome, actor: string, reason: string)

  datatype Tables = Tables(
    payments: map<Id, Payment>, attempts: map<Id, Attempt>, jobs: map<Id, Job>,
    events: map<EventKey, EventRow>, confirmations: map<string, Confirmation>)

  datatype Error =
    | PaymentIdentityConflict
    | AttemptIdTaken
    | KeyReused
    | AttemptNotFound
    | ManualNotPermitted
    | AmountMismatch
    | UnknownFirst
    | AlreadyTerminal
    | DuplicateConfirmation

  const EXTERNAL_TERMINAL := "external_terminal"
  const PESAPAL_SABI := "pesapal_sabi"

  // ---------- jobs ----------

  function UpsertJob(db: Tables, id: Id, status: JobStatus, error: Option<string>): Tables {
    db.(jobs := db.jobs[id := if id in db.jobs then db.jobs[id].(status := status, error := error)
                              else Job(status, 0, error)])
  }

  function ScheduleRetry(db: Tables, id: Id, error: Option<string>): Tables {
    var next := (if id in db.jobs then db.jobs[id].attempts else 0) + 1;
    if next >= 6 then UpsertJob(db, id, ManualReview, error)
    else db.(jobs := db.jobs[id := Job(JobPending, next, error)])
  }

  // ---------- provider truth ----------

  function SetAttempt(db: Tables, id: Id, a: Attempt): Tables { db.(attempts := db.attempts[id := a]) }

  /** Truth that contradicts the attempt: reviewed by hand, and the attempt becomes unknown unless it is terminal. */
  function Distrust(db: Tables, id: Id, code: string): Tables
    requires id in db.attempts
  {
    var reviewed := UpsertJob(db, id, ManualReview, Some(code));
    if IsTerminal(db.attempts[id].status) then reviewed
    else SetAttempt(reviewed, id, db.attempts[id].(status := Unknown, failure := Some(code)))
  }

  function Accept(db: Tables, id: Id, truth: Truth): Tables
    requires id in db.attempts
  {
    var a := db.attempts[id];
    var updated := SetAttempt(db, id,
      a.(status := truth.status, reference := Coalesce(truth.reference, a.reference), failure := truth.failure));
    if truth.status == Unknown || truth.status == Pending then UpsertJob(updated, id, JobPending, truth.failure)
    else if IsTerminal(truth.status) then UpsertJob(updated, id, JobResolved, None)
    else updated
  }

  function ApplyTruth(db: Tables, id: Id, truth: Truth): (Tables, bool)
    requires id in db.attempts && db.attempts[id].paymentId in db.payments
  {
    var a := db.attempts[id];
    var p := db.payments[a.paymentId];
    if truth.attemptId.Some? && truth.attemptId.value != id then
      (Distrust(db, id, "PROVIDER_MERCHANT_REFERENCE_MISMATCH"), false)
    else if Clash(a.reference, truth.reference) then
      (Distrust(db, id, "PROVIDER_REFERENCE_MISMATCH"), false)
    else if (truth.amount.Some? && truth.amount.value != p.amount)
         || (truth.currency.Some? && truth.currency.value != p.currency) then
      (Distrust(db, id, "PROVIDER_AMOUNT_MISMATCH"), false)
    else if IsTerminal(a.status) && a.status != truth.status then
      (UpsertJob(db, id, ManualReview, Some("CONFLICTING_PROVIDER_TRUTH")), false)
    else if !CanTransition(a.status, truth.status) then
      (UpsertJob(db, id, ManualReview, Some("INVALID_PROVIDER_TRANSITION")), false)
    else (Accept(db, id, truth), true)
  }

  // ---------- initiation ----------

  /** Ok(true): this caller owns the provider call.  Ok(false): an idempotent replay. */
  function Claim(db: Tables, r: Request): (Tables, Result<bool, Error>) {
    var f := r.details;
    var payment := Payment(f.eventId, f.orderId, f.amount, f.currency);
    var kept := if f.paymentId in db.payments then db else db.(payments := db.payments[f.paymentId := payment]);
    if kept.payments[f.paymentId] != payment then (db, Err(PaymentIdentityConflict))
    else if exists id :: id in db.attempts && db.attempts[id].key == r.key then
      if exists id :: id in db.attempts && db.attempts[id].key == r.key && db.attempts[id].details == f
      then (kept, Ok(false)) else (db, Err(KeyReused))
    else if f.attemptId in db.attempts then (db, Err(AttemptIdTaken))
    else (SetAttempt(kept, f.attemptId, Attempt(f.paymentId, f.provider, r.key, Created, None, None, f)), Ok(true))
  }

  function ApplyInitiation(db: Tables, id: Id, result: Initiation): Tables
    requires id in db.attempts
  {
    var a := db.attempts[id];
    if a.status != Created then db
    else
      var updated := SetAttempt(db, id,
        a.(status := result.status, reference := Coalesce(result.reference, a.reference), failure := result.failure));
      if IsUnresolved(result.status) then
        if result.reference.Some? then UpsertJob(updated, id, JobPending, result.failure)
        else UpsertJob(updated, id, ManualReview, Some("MISSING_PROVIDER_REFERENCE"))
      else if result.status == Failed then UpsertJob(updated, id, JobResolved, None)
      else updated
  }

  /** One row of the stale-CREATED watchdog. */
  function Promote(db: Tables, id: Id): Tables
    requires id in db.attempts
  {
    var code := Some("AMBIGUOUS_INITIATION_CRASH");
    var moved := if db.attempts[id].status != Created then db
                 else SetAttempt(db, id, db.attempts[id].(status := Unknown, failure := code));
    UpsertJob(moved, id, ManualReview, code)
  }

  // ---------- callbacks ----------

  datatype IngestStatus = Applied | Duplicate | Unmatched | Conflict

  /** `found` is the row the lookup returns: by attempt id if the callback names one, else by reference. */
  predicate LookupFinds(db: Tables, provider: string, truth: Truth, found: Option<Id>) {
    match truth.attemptId
    case Some(id) => found == if id in db.attempts then Some(id) else None
    case None =>
      if found.Some? then
        && found.value in db.attempts && db.attempts[found.value].provider == provider
        && truth.reference.Some? && db.attempts[found.value].reference == truth.reference
      else
        forall id :: id in db.attempts && db.attempts[id].provider == provider ==>
          truth.reference.None? || db.attempts[id].reference != truth.reference
  }

  function Ingest(db: Tables, key: EventKey, truth: Truth, found: Option<Id>): (Tables, IngestStatus)
    requires found.Some? ==> found.value in db.attempts && db.attempts[found.value].paymentId in db.payments
  {
    if key in db.events then (db, Duplicate)
    else
      var stored := db.(events := db.events[key := EventRow(truth, None)]);
      if found.None? then (stored, Unmatched)
      else if db.attempts[found.value].provider != key.provider then (stored, Conflict)
      else
        var linked := db.(events := db.events[key := EventRow(truth, found)]);
        var (after, applied) := ApplyTruth(linked, found.value, truth);
        (after, if applied then Applied else Conflict)
  }

  /** A stored callback that names the attempt or its reference is linked to it and applied. */
  function ApplyStored(db: Tables, key: EventKey, id: Id): Tables
    requires key in db.events && id in db.attempts && db.attempts[id].paymentId in db.payments
  {
    var linked := db.(events := db.events[key := db.events[key].(attempt := Some(id))]);
    ApplyTruth(linked, id, db.events[key].truth).0
  }

  predicate StoredMatches(db: Tables, key: EventKey, id: Id) {
    && key in db.events && id in db.attempts
    && db.events[key].attempt == None && db.attempts[id].provider == key.provider
    && (|| db.events[key].truth.attemptId == Some(id)
        || (db.attempts[id].reference.Some? && db.events[key].truth.reference == db.attempts[id].reference))
  }

  // ---------- polling ----------

  /** The transaction after a status query; `seen` is the reference read before the query. */
  function PollWrite(db: Tables, id: Id, seen: string, answer: Truth): Tables
    requires id in db.attempts && db.attempts[id].paymentId in db.payments
  {
    if !IsUnresolved(db.attempts[id].status) then db
    else
      var truth := answer.(reference := if answer.reference.Some? then answer.reference else Some(seen));
      var (after, applied) := ApplyTruth(db, id, truth);
      if applied && (answer.status == Pending || answer.status == Unknown) then ScheduleRetry(after, id, answer.failure)
      else after
  }

  // ---------- manual confirmation ----------

  predicate SameConfirmation(existing: Confirmation, c: Confirmation) { existing == c }

  predicate TakenConfirmation(db: Tables, c: Confirmation) {
    exists k :: k in db.confirmations &&
      (db.confirmations[k].id == c.id ||
       (db.confirmations[k].externalProvider == c.externalProvider &&
        db.confirmations[k].externalReference == c.externalReference))
  }

  /** The attempt takes the outcome of the confirmation, and its job is closed. */
  function Decide(db: Tables, c: Confirmation): Tables
    requires c.attemptId in db.attempts
  {
    var a := db.attempts[c.attemptId];
    var code := if c.outcome == Approved then None
                else if a.provider == PESAPAL_SABI then Some("SABI_TERMINAL_DECLINED_MANUAL_EVIDENCE")
                else Some("EXTERNAL_TERMINAL_DECLINED");
    var decided := a.(status := if c.outcome == Approved then Succeeded else Failed,
                      reference := if a.provider == EXTERNAL_TERMINAL then Some(c.externalReference) else a.reference,
                      failure := code);
    UpsertJob(SetAttempt(db, c.attemptId, decided), c.attemptId, JobResolved, None)
  }

  function Confirm(db: Tables, key: string, c: Confirmation): (Tables, Result<Confirmation, Error>)
    requires c.attemptId in db.attempts ==> db.attempts[c.attemptId].paymentId in db.payments
  {
    if c.attemptId !in db.attempts then (db, Err(AttemptNotFound))
    else
      var a := db.attempts[c.attemptId];
      var external := a.provider == EXTERNAL_TERMINAL;
      var sabiDecline := a.provider == PESAPAL_SABI && c.outcome == Declined && a.reference == None;
      if !external && !sabiDecline then (db, Err(ManualNotPermitted))
      else if key in db.confirmations then
        if SameConfirmation(db.confirmations[key], c) then (db, Ok(db.confirmations[key])) else (db, Err(KeyReused))
      else if db.payments[a.paymentId].amount != c.amount || db.payments[a.paymentId].currency != c.currency then
        (db, Err(AmountMismatch))
      else if a.status == Unknown then (db, Err(UnknownFirst))
      else if IsTerminal(a.status) then (db, Err(AlreadyTerminal))
      else if TakenConfirmation(db, c) then (db, Err(DuplicateConfirmation))
      else
        (Decide(db.(confirmations := db.confirmations[key := c]), c), Ok(c))
  }
}
