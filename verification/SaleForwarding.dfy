/** From a device batch to the stock ledger: which sales of a batch are posted, refused ones included. */
module SaleForwarding {
  import opened Common
  import opened InventoryDomain
  import opened InventoryLedger
  import opened SaleConsumption
  import opened InventoryRuns
  import Sync = DeviceSync
  import SyncEvents

  // ---------- what one request posts ----------

  function InputsOf(job: Job): seq<Input>
    requires job.Valid()
  {
    match PlanOf(job.config, job.envelope)
    case Err(_) => []
    case Ok(plan) => PlanInputs(job.envelope, plan, job.keys)
  }

  function AllInputs(jobs: seq<Job>): seq<Input>
    requires forall j :: j in jobs ==> j.Valid()
  {
    if jobs == [] then []
    else
      assert jobs[|jobs| - 1].Valid();
      AllInputs(jobs[..|jobs| - 1]) + InputsOf(jobs[|jobs| - 1])
  }

  /** The event is usable, and `input` is one of its movements. */
  ghost predicate Wants(job: Job, input: Input) {
    PlanOf(job.config, job.envelope).Ok? && Moves(job.envelope, PlanOf(job.config, job.envelope).value, input)
  }

  ghost predicate Wanted(jobs: seq<Job>, input: Input) { exists j :: j in jobs && Wants(j, input) }

  lemma {:induction false} WantsIs(job: Job, input: Input)
    requires job.Valid()
    ensures Wants(job, input) <==> input in InputsOf(job)
    ensures Wants(job, input) ==> Plain(input) && ValidDelta(input.content.kind, input.content.delta)
  {
    hide PlanOf, SaleInputs, Moves, Ordered, Plain, ValidDelta;
    if PlanOf(job.config, job.envelope).Ok? {
      MovesAre(job.envelope, PlanOf(job.config, job.envelope).value, job.keys, input);
      PlanInputsFit(job.config, job.envelope, job.keys);
    }
  }

  lemma {:induction false} WantedIs(jobs: seq<Job>, input: Input)
    requires forall j :: j in jobs ==> j.Valid()
    ensures Wanted(jobs, input) <==> input in AllInputs(jobs)
    ensures Wanted(jobs, input) ==> Plain(input) && ValidDelta(input.content.kind, input.content.delta)
    decreases |jobs|
  {
    hide InputsOf, Wants, Plain;
    if jobs != [] {
      var n := |jobs| - 1;
      assert jobs == jobs[..n] + [jobs[n]];
      assert jobs[n].Valid();
      WantedIs(jobs[..n], input);
      WantsIs(jobs[n], input);
    }
  }

  lemma {:induction false} OneJob(ledger: Ledger, job: Job)
    requires job.Valid()
    ensures var result := Consume(ledger, job.config, job.envelope, job.keys);
      && (result.Ok? <==> InsertAll(ledger, InputsOf(job)).Ok?)
      && (result.Ok? ==> result.value.ledger == InsertAll(ledger, InputsOf(job)).value)
  {
    hide PlanOf, SaleInputs;
    if PlanOf(job.config, job.envelope).Ok? { ConsumeIs(ledger, job.config, job.envelope, job.keys); }
  }

  /** A request is consumed to its end exactly when all its rows could be written in one transaction. */
  lemma {:induction false} EachIsAll(ledger: Ledger, jobs: seq<Job>)
    requires forall j :: j in jobs ==> j.Valid()
    ensures ConsumeEach(ledger, jobs).1 == |jobs| <==> InsertAll(ledger, AllInputs(jobs)).Ok?
    ensures ConsumeEach(ledger, jobs).1 == |jobs| ==>
      ConsumeEach(ledger, jobs).0 == InsertAll(ledger, AllInputs(jobs)).value
    decreases |jobs|
  {
    hide InputsOf, Consume, PlanOf;
    if jobs != [] {
      var n := |jobs| - 1;
      assert jobs[n].Valid();
      EachIsAll(ledger, jobs[..n]);
      InsertAllSplit(ledger, AllInputs(jobs[..n]), InputsOf(jobs[n]));
      OneJob(ConsumeEach(ledger, jobs[..n]).0, jobs[n]);
    }
  }

  /** Every key that the request needs is free or holds the very movement it is needed for. */
  ghost predicate AllFit(ledger: Ledger, jobs: seq<Job>) {
    forall a :: Wanted(jobs, a) ==> KeyFree(ledger, a.key) || AlreadyThere(ledger, a)
  }

  ghost predicate NoneClash(jobs: seq<Job>) {
    forall a, b :: Wanted(jobs, a) && Wanted(jobs, b) ==> !Clashing(a, b)
  }

  /**
   All events of a request are posted exactly when their keys are free, or taken by themselves, and no
   two of their movements want one key for different things.
   */
  lemma {:induction false} AllPostedExactlyWhen(ledger: Ledger, jobs: seq<Job>)
    requires LedgerOk(ledger) && forall j :: j in jobs ==> j.Valid()
    ensures ConsumeEach(ledger, jobs).1 == |jobs| <==> AllFit(ledger, jobs) && NoneClash(jobs)
    ensures ConsumeEach(ledger, jobs).1 == |jobs| ==>
      && LedgerOk(ConsumeEach(ledger, jobs).0)
      && forall j :: j in jobs && PlanOf(j.config, j.envelope).Ok? ==>
           PostedFor(j.config, ConsumeEach(ledger, jobs).0, j.envelope)
  {
    hide LedgerOk, ConsumeEach, InsertAll, AllInputs, Wanted, KeyFree, AlreadyThere, Clashing, PostedFor, PlanOf, Plain;
    EachIsAll(ledger, jobs);
    forall a ensures Wanted(jobs, a) <==> a in AllInputs(jobs) { WantedIs(jobs, a); }
    forall a | a in AllInputs(jobs) ensures Plain(a) && ValidDelta(a.content.kind, a.content.delta) { WantedIs(jobs, a); }
    InsertAllWhen(ledger, AllInputs(jobs));
    if ConsumeEach(ledger, jobs).1 == |jobs| {
      forall j | j in jobs && PlanOf(j.config, j.envelope).Ok?
        ensures PostedFor(j.config, ConsumeEach(ledger, jobs).0, j.envelope)
      {
        JobIsPosted(jobs, j, ConsumeEach(ledger, jobs).0);
      }
    }
  }

  lemma {:induction false} JobIsPosted(jobs: seq<Job>, j: Job, after: Ledger)
    requires j in jobs && PlanOf(j.config, j.envelope).Ok? && forall a :: Wanted(jobs, a) ==> AlreadyThere(after, a)
    ensures PostedFor(j.config, after, j.envelope)
  {
    hide PlanOf, SaleInput, AlreadyThere;
    var plan := PlanOf(j.config, j.envelope).value;
    forall key | key in plan.movements ensures AlreadyThere(after, MoveInput(j.envelope, plan, key)) {
      assert Wants(j, MoveInput(j.envelope, plan, key));
      assert Wanted(jobs, MoveInput(j.envelope, plan, key));
    }
  }

  // ---------- two events under one instance id ----------

  /** A movement that both events need is the same movement for both. */
  ghost predicate Agree(first: Job, second: Job) {
    && PlanOf(first.config, first.envelope).Ok? && PlanOf(second.config, second.envelope).Ok?
    && var p, q := PlanOf(first.config, first.envelope).value, PlanOf(second.config, second.envelope).value;
       forall key :: key in p.movements && key in q.movements ==>
         MoveInput(first.envelope, p, key) == MoveInput(second.envelope, q, key)
  }

  /** a and b are what the two events write for one movement. */
  ghost predicate OneMove(first: Job, second: Job, a: Input, b: Input)
    requires PlanOf(first.config, first.envelope).Ok? && PlanOf(second.config, second.envelope).Ok?
  {
    var p, q := PlanOf(first.config, first.envelope).value, PlanOf(second.config, second.envelope).value;
    exists key :: key in p.movements && key in q.movements
      && a == MoveInput(first.envelope, p, key) && b == MoveInput(second.envelope, q, key)
  }

  lemma {:induction false} SameKeySameMove(first: Job, second: Job, a: Input, b: Input)
    requires Wants(first, a) && Wants(second, b) && first.envelope.instance == second.envelope.instance && a.key == b.key
    ensures OneMove(first, second, a, b)
  {
    hide PlanOf, SaleKey;
    var p, q := PlanOf(first.config, first.envelope).value, PlanOf(second.config, second.envelope).value;
    var k :| k in p.movements && a == MoveInput(first.envelope, p, k);
    var l :| l in q.movements && b == MoveInput(second.envelope, q, l);
    PlanMoves(first.config, first.envelope);
    PlanMoves(second.config, second.envelope);
    SaleKeysDiffer(first.envelope.instance, k, l);
  }

  lemma {:induction false} AgreeOnShared(first: Job, second: Job, a: Input, b: Input)
    requires first.envelope.instance == second.envelope.instance && Agree(first, second)
    requires Wants(first, a) && Wants(second, b)
    ensures !Clashing(a, b) && !Clashing(b, a)
  {
    hide PlanOf, SaleInput, Wants;
    if a.key == b.key { SameKeySameMove(first, second, a, b); }
  }

  lemma {:induction false} OwnMovesAgree(job: Job)
    requires PlanOf(job.config, job.envelope).Ok?
    ensures Agree(job, job) && NoneClash([job])
  {
    hide PlanOf, Wants, Clashing;
    forall a, b | Wants(job, a) && Wants(job, b) ensures !Clashing(a, b) { AgreeOnShared(job, job, a, b); }
    assert forall j :: j in [job] ==> j == job;
  }

  lemma {:induction false} PairClashes(first: Job, second: Job)
    requires first.envelope.instance == second.envelope.instance
    requires PlanOf(first.config, first.envelope).Ok? && PlanOf(second.config, second.envelope).Ok?
    ensures NoneClash([first, second]) <==> Agree(first, second)
  {
    hide PlanOf, SaleKey;
    var jobs := [first, second];
    assert first in jobs && second in jobs;
    var p, q := PlanOf(first.config, first.envelope).value, PlanOf(second.config, second.envelope).value;
    if NoneClash(jobs) {
      forall key | key in p.movements && key in q.movements
        ensures MoveInput(first.envelope, p, key) == MoveInput(second.envelope, q, key)
      {
        assert Wants(first, MoveInput(first.envelope, p, key)) && Wants(second, MoveInput(second.envelope, q, key));
        assert Wanted(jobs, MoveInput(first.envelope, p, key)) && Wanted(jobs, MoveInput(second.envelope, q, key));
      }
    }
    if Agree(first, second) { AgreeingPair(first, second); }
  }

  lemma {:induction false} AgreeingPair(first: Job, second: Job)
    requires first.envelope.instance == second.envelope.instance && Agree(first, second)
    ensures NoneClash([first, second])
  {
    hide PlanOf, Wants, Clashing, Agree;
    assert Agree(first, first) && Agree(second, second) by {
      AgreeOk(first, second);
      OwnMovesAgree(first);
      OwnMovesAgree(second);
    }
    forall a, b | Wanted([first, second], a) && Wanted([first, second], b) ensures !Clashing(a, b) {
      var j :| j in [first, second] && Wants(j, a);
      var k :| k in [first, second] && Wants(k, b);
      if j == first && k == first { AgreeOnShared(first, first, a, b); }
      if j == second && k == second { AgreeOnShared(second, second, a, b); }
      if j == first && k == second { AgreeOnShared(first, second, a, b); }
      if j == second && k == first { AgreeOnShared(first, second, b, a); }
    }
  }

  lemma {:induction false} AgreeOk(first: Job, second: Job)
    requires Agree(first, second)
    ensures PlanOf(first.config, first.envelope).Ok? && PlanOf(second.config, second.envelope).Ok?
  {
  }

  /**
   Two usable events under one instance id, every key of which is free or holds the very movement it is
   needed for: both are posted exactly when they agree on every movement that both of them need;
   otherwise the first is posted and the second one ends the request.
   */
  lemma {:induction false} TwoUnderOneInstance(ledger: Ledger, first: Job, second: Job)
    requires LedgerOk(ledger) && first.Valid() && second.Valid()
    requires first.envelope.instance == second.envelope.instance
    requires PlanOf(first.config, first.envelope).Ok? && PlanOf(second.config, second.envelope).Ok?
    requires AllFit(ledger, [first, second])
    ensures var (after, done) := ConsumeEach(ledger, [first, second]);
      && done == (if Agree(first, second) then 2 else 1)
      && PostedFor(first.config, after, first.envelope)
      && (Agree(first, second) ==> PostedFor(second.config, after, second.envelope))
      && (!Agree(first, second) ==> after == ConsumeEach(ledger, [first]).0)
  {
    hide PlanOf, LedgerOk, Consume, Agree, PostedFor, NoneClash, Wants;
    var jobs := [first, second];
    assert jobs[..1] == [first] && first in jobs && second in jobs;
    AllPostedExactlyWhen(ledger, jobs);
    PairClashes(first, second);
    OwnMovesAgree(first);
    forall a | Wanted([first], a) ensures Wanted(jobs, a) { assert first in jobs && Wants(first, a); }
    assert first in [first];
    AllPostedExactlyWhen(ledger, [first]);
  }

  // ---------- a request that is sent again ----------

  lemma {:induction false} PrefixOfRequest(ledger: Ledger, jobs: seq<Job>)
    requires LedgerOk(ledger) && forall j :: j in jobs ==> j.Valid()
    ensures var (after, done) := ConsumeEach(ledger, jobs);
      && ConsumeEach(ledger, jobs[..done]) == (after, done)
      && (done < |jobs| ==>
            jobs[done].Valid() && Consume(after, jobs[done].config, jobs[done].envelope, jobs[done].keys).Err?)
    decreases |jobs|
  {
    hide Consume, PlanOf;
    if jobs != [] {
      var n := |jobs| - 1;
      assert jobs[n].Valid();
      PrefixOfRequest(ledger, jobs[..n]);
      var (before, done) := ConsumeEach(ledger, jobs[..n]);
      if done < n {
        assert jobs[..n][..done] == jobs[..done] && jobs[..n][done] == jobs[done];
      } else {
        assert jobs[..n + 1] == jobs && jobs[..n][..n] == jobs[..n];
      }
    }
  }

  /** What has been consumed already is consumed again without any effect. */
  lemma {:induction false} PostedAgain(ledger: Ledger, jobs: seq<Job>)
    requires forall j :: j in jobs ==> j.Valid()
    requires LedgerOk(ledger)
    requires forall j :: j in jobs && PlanOf(j.config, j.envelope).Ok? ==> PostedFor(j.config, ledger, j.envelope)
    ensures ConsumeEach(ledger, jobs) == (ledger, |jobs|)
    decreases |jobs|
  {
    hide Consume, PlanOf, PostedFor, LedgerOk;
    if jobs != [] {
      var n := |jobs| - 1;
      var job := jobs[n];
      assert job in jobs && job.Valid();
      PostedAgain(ledger, jobs[..n]);
      if PlanOf(job.config, job.envelope).Ok? {
        ConsumedAgain(ledger, job.config, job.envelope, job.keys);
      } else {
        UnusableIsSkipped(ledger, job.config, job.envelope, job.keys);
      }
    }
  }

  lemma {:induction false} OneMoreJob(ledger: Ledger, jobs: seq<Job>, last: Job)
    requires forall j :: j in jobs + [last] ==> j.Valid()
    requires ConsumeEach(ledger, jobs).1 == |jobs|
    requires last.Valid() && Consume(ConsumeEach(ledger, jobs).0, last.config, last.envelope, last.keys).Err?
    ensures ConsumeEach(ledger, jobs + [last]) == (ConsumeEach(ledger, jobs).0, |jobs|)
  {
    assert (jobs + [last])[..|jobs|] == jobs;
  }

  /** A key that is taken by something else stays taken. */
  lemma {:induction false} StillTaken(before: Ledger, rows: Ledger, a: Input)
    requires LedgerOk(before + rows) && !KeyFree(before, a.key) && !AlreadyThere(before, a)
    ensures !KeyFree(before + rows, a.key) && !AlreadyThere(before + rows, a)
  {
    hide LedgerOk;
    var r :| r in before && r.key == a.key;
    forall r' | r' in before + rows && r'.key == a.key ensures r'.content != a.content {
      OneRowPerKey(before + rows, r, r');
    }
  }

  lemma {:induction false} FailsAgain(before: Ledger, rows: Ledger, job: Job)
    requires LedgerOk(before) && LedgerOk(before + rows) && job.Valid()
    requires Consume(before, job.config, job.envelope, job.keys).Err?
    ensures Consume(before + rows, job.config, job.envelope, job.keys).Err?
  {
    hide LedgerOk, PlanOf, KeyFree, AlreadyThere, InsertAll, MoveInput;
    assert PlanOf(job.config, job.envelope).Ok?;
    var plan := PlanOf(job.config, job.envelope).value;
    ConsumeExactly(before, job.config, job.envelope, job.keys);
    ConsumeExactly(before + rows, job.config, job.envelope, job.keys);
    var key :| key in plan.movements && !Fits(before, job.envelope, plan, key);
    StillTaken(before, rows, MoveInput(job.envelope, plan, key));
    assert !Fits(before + rows, job.envelope, plan, key);
  }

  /**
   Sending a request again under the same configuration changes nothing and stops at the same event,
   whatever has been posted since: the request itself never gets past a sale that clashes.  What becomes
   of the accepted sales behind it is decided by their inbox rows (SaleInbox).
   */
  lemma {:induction false} RetryStopsAtTheSamePlace(ledger: Ledger, jobs: seq<Job>, rows: Ledger)
    requires LedgerOk(ledger) && forall j :: j in jobs ==> j.Valid()
    requires LedgerOk(ConsumeEach(ledger, jobs).0 + rows)
    ensures ConsumeEach(ConsumeEach(ledger, jobs).0 + rows, jobs)
      == (ConsumeEach(ledger, jobs).0 + rows, ConsumeEach(ledger, jobs).1)
  {
    hide Consume, PlanOf, PostedFor, LedgerOk, ConsumeEach;
    var (after, done) := ConsumeEach(ledger, jobs);
    var later := after + rows;
    PrefixOfRequest(ledger, jobs);
    var first := jobs[..done];
    assert forall j :: j in first ==> j in jobs;
    AllPostedExactlyWhen(ledger, first);
    forall j | j in first && PlanOf(j.config, j.envelope).Ok? ensures PostedFor(j.config, later, j.envelope) {
      PostedStays(j.config, after, rows, j.envelope);
    }
    PostedAgain(later, first);
    if done < |jobs| {
      assert jobs[..done + 1] == first + [jobs[done]];
      assert forall j :: j in first + [jobs[done]] ==> j in jobs;
      FailsAgain(after, rows, jobs[done]);
      OneMoreJob(later, first, jobs[done]);
      RequestEnds(later, jobs, done + 1);
    } else {
      assert first == jobs;
    }
  }

  // ---------- the sales of a device batch ----------

  /** What the consumer makes of an event: only ORDER_CLOSED_CASH is read, and its payload may not parse. */
  datatype Reading = Skipped | Cash(at: int, sale: Option<SaleOrder>)

  type Reader = SyncEvents.Envelope -> Reading

  function SaleOf(read: Reader, e: SyncEvents.Envelope): Option<Envelope> {
    match read(e)
    case Skipped => None
    case Cash(at, sale) => Some(Envelope(e.instance, e.device, at, sale))
  }

  /** The sale events among the first n that are passed on, in the order of the batch. */
  function Forwarded(read: Reader, events: seq<SyncEvents.Envelope>, statuses: seq<Sync.Status>, n: nat)
    : (sales: seq<SyncEvents.Envelope>)
    requires n <= |events| == |statuses|
    ensures forall e :: e in sales ==> e in events && read(e) != Skipped
  {
    if n == 0 then []
    else
      Forwarded(read, events, statuses, n - 1)
        + if Sync.PassedOn(events, statuses, n - 1) && read(events[n - 1]) != Skipped then [events[n - 1]] else []
  }

  function EnvelopesOf(jobs: seq<Job>): seq<Envelope> { seq(|jobs|, i requires 0 <= i < |jobs| => jobs[i].envelope) }

  function SalesOf(read: Reader, events: seq<SyncEvents.Envelope>): seq<Envelope>
    requires forall e :: e in events ==> read(e) != Skipped
  {
    seq(|events|, i requires 0 <= i < |events| => assert events[i] in events; SaleOf(read, events[i]).value)
  }

  lemma {:induction false} ForwardedHas(read: Reader, events: seq<SyncEvents.Envelope>, statuses: seq<Sync.Status>,
                                        n: nat, k: nat)
    requires k < n <= |events| == |statuses| && Sync.PassedOn(events, statuses, k) && read(events[k]) != Skipped
    ensures events[k] in Forwarded(read, events, statuses, n)
    decreases n
  {
    hide Sync.PassedOn;
    if k < n - 1 { ForwardedHas(read, events, statuses, n - 1, k); }
  }

  /** The sale of event k has a job, and what it takes is in the ledger unless it is not usable. */
  ghost predicate IsPosted(jobs: seq<Job>, after: Ledger, sale: Envelope) {
    exists j :: j in jobs && j.envelope == sale
                && (PlanOf(j.config, sale).Ok? ==> PostedFor(j.config, after, sale))
  }

  /**
   The sales of a device batch, refused ones included: every sale with a receipt under its id that is no
   conflict is posted, or is not usable, exactly when no two of them, nor any row already there, want one
   key for different things.
   */
  lemma {:induction false} PassedOnIsPostedExactlyWhen(db: Sync.Edge, events: seq<SyncEvents.Envelope>, read: Reader,
                                                       ledger: Ledger, jobs: seq<Job>)
    requires LedgerOk(ledger) && forall j :: j in jobs ==> j.Valid()
    requires EnvelopesOf(jobs) == SalesOf(read, Forwarded(read, events, Sync.PersistAll(db, events).1, |events|))
    ensures var (after, done) := ConsumeEach(ledger, jobs);
      && (done == |jobs| <==> AllFit(ledger, jobs) && NoneClash(jobs))
      && (done == |jobs| ==>
            forall k :: 0 <= k < |events| && Sync.PassedOn(events, Sync.PersistAll(db, events).1, k)
                        && read(events[k]) != Skipped ==>
              IsPosted(jobs, after, SaleOf(read, events[k]).value))
  {
    hide LedgerOk, ConsumeEach, Sync.PersistAll, Sync.PassedOn, PlanOf, PostedFor, AllFit, NoneClash, Forwarded;
    AllPostedExactlyWhen(ledger, jobs);
    var statuses := Sync.PersistAll(db, events).1;
    var (after, done) := ConsumeEach(ledger, jobs);
    if done == |jobs| {
      forall k | 0 <= k < |events| && Sync.PassedOn(events, statuses, k) && read(events[k]) != Skipped
        ensures IsPosted(jobs, after, SaleOf(read, events[k]).value)
      {
        var sale := SaleOf(read, events[k]).value;
        ForwardedHas(read, events, statuses, |events|, k);
        var forwarded := Forwarded(read, events, statuses, |events|);
        var i :| 0 <= i < |forwarded| && forwarded[i] == events[k];
        assert SalesOf(read, forwarded)[i] == sale;
        assert EnvelopesOf(jobs)[i] == jobs[i].envelope;
        assert jobs[i] in jobs && jobs[i].envelope == sale;
      }
    }
  }

  // ---------- one beer accepted, ten bottles of wine refused ----------

  /** A closed cash order is read as a sale of its lines, with its aggregate as the order. */
  function ReadOrder(e: SyncEvents.Envelope): Reading {
    match e.body
    case Order(p) => if p.closeMethod == Some(SyncEvents.Cash) then Cash(p.at, SaleLines(e.aggregate, p)) else Skipped
    case _ => Skipped
  }

  function SaleLines(order: string, p: SyncEvents.OrderPayload): Option<SaleOrder> {
    if p.location.None? || p.lines.None? || p.lines.value == [] || exists l :: l in p.lines.value && l.quantity == 0
    then None
    else
      var lines := p.lines.value;
      Some(SaleOrder(p.event, p.location.value, order,
                     seq(|lines|, i requires 0 <= i < |lines| =>
                       assert lines[i] in lines;
                       SaleLine(lines[i].sku, lines[i].quantity))))
  }

  function CashOrder(sequence: nat, sku: string, quantity: nat): SyncEvents.Envelope {
    SyncEvents.Envelope("a", "till", sequence, "o",
      SyncEvents.Order(SyncEvents.OrderPayload(
        SyncEvents.Closed, 100, "KES", "E", Some("bar"), Some(SyncEvents.Cash), None,
        Some([SyncEvents.OrderLine(sku, quantity, 100, None)]), 0)), "")
  }

  const CELLAR := Config(map[("E", "bar") := "cellar"], map[], {("E", "beer"), ("E", "wine")})

  function Bottles(sku: string, quantity: Positive): Envelope {
    Envelope("a", "till", 0, Some(SaleOrder("E", "bar", "o", [SaleLine(sku, quantity)])))
  }

  function BottleJob(sku: string, quantity: Positive): Job {
    Job(CELLAR, Bottles(sku, quantity), [MovementKey(Sale, sku)])
  }

  lemma {:induction false} ReadsBottles(sequence: nat, sku: string, quantity: Positive)
    ensures SaleOf(ReadOrder, CashOrder(sequence, sku, quantity)) == Some(Bottles(sku, quantity))
  {
    var e := CashOrder(sequence, sku, quantity);
    assert SaleLines("o", e.body.payload).value.lines == [SaleLine(sku, quantity)];
  }

  lemma {:induction false} BottlePlan(sku: string, quantity: Positive)
    requires ("E", sku) in CELLAR.skus
    ensures PlanOf(CELLAR, Bottles(sku, quantity))
      == Ok(Plan(Bottles(sku, quantity).sale.value, "cellar", map[MovementKey(Sale, sku) := quantity]))
    ensures BottleJob(sku, quantity).Valid()
  {
    var lines := [SaleLine(sku, quantity)];
    assert lines[..0] == [] && MovementsOf(CELLAR, "E", lines[..0]) == Ok(map[]);
    assert MovementsOf(CELLAR, "E", lines) == AddLine(CELLAR, map[], "E", lines[0]);
  }

  function BottleInput(sku: string, quantity: int): Input {
    Input(None, SaleKey("a", MovementKey(Sale, sku)),
          Content(Place("E", "cellar", sku), Sale, -quantity, "ORDER", "o", Some("a"), None, Some("till"),
                  Some("sale-driven inventory consumption"), 0, None))
  }

  lemma {:induction false} BottleInputs(sku: string, quantity: Positive)
    requires ("E", sku) in CELLAR.skus
    ensures BottleJob(sku, quantity).Valid() && InputsOf(BottleJob(sku, quantity)) == [BottleInput(sku, quantity)]
    ensures Plain(BottleInput(sku, quantity)) && ValidDelta(Sale, BottleInput(sku, quantity).content.delta)
  {
    hide PlanOf, SaleKey;
    BottlePlan(sku, quantity);
  }

  /** An empty ledger takes two rows with different keys. */
  lemma {:induction false} TwoTaken(a: Input, b: Input)
    requires Plain(a) && ValidDelta(a.content.kind, a.content.delta)
    requires Plain(b) && ValidDelta(b.content.kind, b.content.delta) && a.key != b.key
    ensures InsertAll([], [a, b]) == Ok(RowsOf(0, [a, b]))
  {
    hide InsertAll, RowsOf, AlreadyThere, Missing, LedgerOk, ValidDelta, Plain;
    var inputs := [a, b];
    assert [] + [a] == [a] && [a] + [b] == inputs;
    NothingMissing();
    MissingOneMore([], [], a, true);
    MissingOneMore([], [a], b, true);
    InsertAllExactly([], inputs);
    assert [] + RowsOf(0, inputs) == RowsOf(0, inputs);
  }

  lemma {:induction false} NothingMissing()
    ensures LedgerOk([]) && Missing([], []) == []
  {
  }

  lemma {:induction false} KeysOfBottles()
    ensures BottleInput("beer", 1).key != BottleInput("wine", 10).key
  {
    hide SaleKey;
    if SaleKey("a", MovementKey(Sale, "beer")) == SaleKey("a", MovementKey(Sale, "wine")) {
      SaleKeysDiffer("a", MovementKey(Sale, "beer"), MovementKey(Sale, "wine"));
    }
  }

  lemma {:induction false} BothBottles() returns (rows: Ledger)
    ensures BottleJob("beer", 1).Valid() && BottleJob("wine", 10).Valid()
    ensures ConsumeEach([], [BottleJob("beer", 1), BottleJob("wine", 10)]) == (rows, 2)
    ensures |rows| == 2 && rows[0].content == BottleInput("beer", 1).content && rows[1].content == BottleInput("wine", 10).content
  {
    hide InsertAll, PlanOf, InputsOf, ConsumeEach, BottleJob, Plain, ValidDelta;
    var beer, wine := BottleJob("beer", 1), BottleJob("wine", 10);
    var jobs := [beer, wine];
    BottleInputs("beer", 1);
    BottleInputs("wine", 10);
    var inputs := [BottleInput("beer", 1), BottleInput("wine", 10)];
    assert jobs[..1] == [beer] && [beer][..0] == [];
    assert AllInputs([beer]) == [BottleInput("beer", 1)];
    assert AllInputs(jobs) == inputs;
    EachIsAll([], jobs);
    KeysOfBottles();
    TwoTaken(BottleInput("beer", 1), BottleInput("wine", 10));
    rows := RowsOf(0, inputs);
  }

  lemma {:induction false} TwoRows(rows: Ledger, place: Place)
    requires |rows| == 2 && rows[0].content.place != place && rows[1].content.place == place
    ensures OnHand(rows, place) == rows[1].content.delta
  {
    TotalSingle(rows, At(place), 1);
  }

  /** The beer's receipt is ACCEPTED and the wine's is CONFLICT. */
  lemma {:induction false} BeerThenWine(events: seq<SyncEvents.Envelope>)
    requires events == [CashOrder(1, "beer", 1), CashOrder(2, "wine", 10)]
    ensures var (db, statuses) := Sync.PersistAll(Sync.Edge(map[], map[], map[], []), events);
      statuses == [Sync.Accepted, Sync.Conflict] && !Sync.SameStored(db, events[1])
  {
    var db := Sync.Edge(map[], map[], map[], []);
    assert [] + [events[0]] == [events[0]] && [events[0]] + [events[1]] == events;
    Sync.PersistOneMore(db, [], events[0]);
    Sync.PersistOneMore(db, [events[0]], events[1]);
    assert events[0].body.payload.lines.value[0].sku != events[1].body.payload.lines.value[0].sku;
  }

  lemma {:induction false} BothForwarded(events: seq<SyncEvents.Envelope>, statuses: seq<Sync.Status>)
    requires events == [CashOrder(1, "beer", 1), CashOrder(2, "wine", 10)] && statuses == [Sync.Accepted, Sync.Conflict]
    ensures Sync.PassedOn(events, statuses, 1)
    ensures Forwarded(ReadOrder, events, statuses, 2) == events
    ensures SalesOf(ReadOrder, events) == [Bottles("beer", 1), Bottles("wine", 10)]
  {
    hide CashOrder;
    assert statuses[0] != Sync.Conflict && events[0].instance == "a" && events[1].instance == "a" by { SameInstance(); }
    assert Sync.PassedOn(events, statuses, 0) && Sync.PassedOn(events, statuses, 1);
    ReadsBottles(1, "beer", 1);
    ReadsBottles(2, "wine", 10);
    assert Forwarded(ReadOrder, events, statuses, 0) == [];
    assert Forwarded(ReadOrder, events, statuses, 1) == [events[0]];
  }

  lemma {:induction false} SameInstance()
    ensures CashOrder(1, "beer", 1).instance == "a" && CashOrder(2, "wine", 10).instance == "a"
  {
  }

  /**
   One batch with two closed cash orders under one instance id: the beer is accepted and the wine is
   refused as a conflict.  Both sales go on to inventory, and the ledger gives up ten bottles of wine.
   */
  lemma {:induction false} RefusedSaleIsPosted() returns (events: seq<SyncEvents.Envelope>, jobs: seq<Job>)
    ensures var (db, statuses) := Sync.PersistAll(Sync.Edge(map[], map[], map[], []), events);
      && Sync.Batch("till", events).Valid() && (forall j :: j in jobs ==> j.Valid())
      && statuses == [Sync.Accepted, Sync.Conflict] && !Sync.SameStored(db, events[1])
      && EnvelopesOf(jobs) == SalesOf(ReadOrder, Forwarded(ReadOrder, events, statuses, 2))
    ensures ConsumeEach([], jobs).1 == 2
    ensures OnHand(ConsumeEach([], jobs).0, Place("E", "cellar", "wine")) == -10
  {
    hide Sync.PersistAll, ConsumeEach, Forwarded, OnHand, PlanOf, Sync.SameStored;
    events := [CashOrder(1, "beer", 1), CashOrder(2, "wine", 10)];
    jobs := [BottleJob("beer", 1), BottleJob("wine", 10)];
    BeerThenWine(events);
    BothForwarded(events, [Sync.Accepted, Sync.Conflict]);
    assert EnvelopesOf(jobs) == [Bottles("beer", 1), Bottles("wine", 10)];
    var rows := BothBottles();
    TwoRows(rows, Place("E", "cellar", "wine"));
  }
}
