/**
 One Edge forwarding its outbox to its Cloud.  Batches and acknowledgements may be lost, repeated or
 arrive late, and the Edge may crash between sending and marking.
 */
module Relay {
  import opened Common
  import opened SyncEvents
  import opened DeviceSync
  import C = CloudSync

  // ---------- the forwarder ----------

  function Instances(events: seq<Envelope>): set<string> { set e | e in events :: e.instance }

  function Ids(ack: C.Ack): set<string> {
    (set i | i in ack.accepted) + (set i | i in ack.duplicates) + (set i | i in ack.conflicts)
  }

  function Marked(outbox: map<string, OutboxRow>, ids: set<string>): map<string, OutboxRow> {
    map i | i in outbox :: if i in ids then outbox[i].(delivered := true) else outbox[i]
  }

  function Retried(outbox: map<string, OutboxRow>, ids: set<string>): map<string, OutboxRow> {
    map i | i in outbox :: RetriedRow(outbox[i], i in ids)
  }

  function RetriedRow(row: OutboxRow, sent: bool): OutboxRow {
    if sent && !row.delivered then row.(attempts := row.attempts + 1) else row
  }

  function RowOf(events: seq<Envelope>, id: string): (row: ExceptionRow)
    requires id in Instances(events)
    ensures exists e :: e in events && e.instance == id &&
                        row == ExceptionRow(CloudReconciliation, e.device, e.sequence, id, false)
  {
    assert events[0] in events;
    if events[0].instance == id then ExceptionRow(CloudReconciliation, events[0].device, events[0].sequence, id, false)
    else RowOf(events[1..], id)
  }

  /** One exception per refused event, repeats in the list ignored. */
  function ConflictRows(events: seq<Envelope>, conflicts: seq<string>): seq<ExceptionRow>
    requires forall i :: i in conflicts ==> i in Instances(events)
    decreases |conflicts|
  {
    if conflicts == [] then []
    else
      var n := |conflicts| - 1;
      ConflictRows(events, conflicts[..n]) + if conflicts[n] in conflicts[..n] then [] else [RowOf(events, conflicts[n])]
  }

  /** Only an acknowledgement that covers exactly the sent batch counts. */
  function Mark(db: Edge, events: seq<Envelope>, ack: C.Ack): Edge {
    if Ids(ack) != Instances(events) then db.(outbox := Retried(db.outbox, Instances(events)))
    else
      db.(outbox := Marked(db.outbox, Ids(ack)), exceptions := db.exceptions + ConflictRows(events, ack.conflicts))
  }

  function Fail(db: Edge, events: seq<Envelope>): Edge { db.(outbox := Retried(db.outbox, Instances(events))) }

  class CloudForwarder {
    var events: map<string, Envelope>
    var outbox: map<string, OutboxRow>
    var watermarks: map<string, Watermark>
    var exceptions: seq<ExceptionRow>
    var running: bool

    function Db(): Edge
      reads this
    {
      Edge(events, outbox, watermarks, exceptions)
    }

    constructor (db: Edge)
      ensures Db() == db && !running
    {
      events, outbox, watermarks, exceptions, running := db.events, db.outbox, db.watermarks, db.exceptions, false;
    }

    method RetryRows(rows: seq<Envelope>)
      modifies this`outbox
      ensures Db() == Fail(old(Db()), rows)
    {
      var i := 0;
      while i < |rows|
        invariant i <= |rows| && outbox.Keys == old(outbox).Keys
        invariant forall id :: id in outbox ==> outbox[id] == RetriedRow(old(outbox)[id], id in Instances(rows[..i]))
      {
        var id := rows[i].instance;
        assert Instances(rows[..i + 1]) == Instances(rows[..i]) + {id} by { assert rows[..i + 1] == rows[..i] + [rows[i]]; }
        if id in outbox && !outbox[id].delivered && id !in Instances(rows[..i]) {
          outbox := outbox[id := outbox[id].(attempts := outbox[id].attempts + 1)];
        }
        i := i + 1;
      }
      assert rows[..i] == rows;
      assert outbox == Retried(old(outbox), Instances(rows));
    }

    method RecordConflicts(rows: seq<Envelope>, conflicts: seq<string>)
      requires forall i :: i in conflicts ==> i in Instances(rows)
      modifies this`exceptions
      ensures exceptions == old(exceptions) + ConflictRows(rows, conflicts)
    {
      var i := 0;
      while i < |conflicts|
        invariant i <= |conflicts|
        invariant exceptions == old(exceptions) + ConflictRows(rows, conflicts[..i])
      {
        assert conflicts[..i + 1][..i] == conflicts[..i];
        if conflicts[i] !in conflicts[..i] {
          exceptions := exceptions + [RowOf(rows, conflicts[i])];
        }
        i := i + 1;
      }
      assert conflicts[..i] == conflicts;
    }

    /** `rows` are due; the answer is None when the call failed or timed out. */
    method DrainOnce(rows: seq<Envelope>, answer: Option<C.Ack>) returns (sent: nat)
      modifies this`outbox, this`exceptions
      ensures Db() ==
        if rows == [] then old(Db())
        else if answer.Some? then Mark(old(Db()), rows, answer.value) else Fail(old(Db()), rows)
      ensures sent == if answer.Some? && Ids(answer.value) == Instances(rows) then |rows| else 0
    {
      hide Ids, Instances, Retried, Marked, ConflictRows;
      if rows == [] { return 0; }
      if answer.None? {
        RetryRows(rows);
        return 0;
      }
      var ack := answer.value;
      var sentIds, acknowledged := Instances(rows), Ids(ack);
      ExactCover(acknowledged, sentIds);
      if (exists id :: id in acknowledged && id !in sentIds) || |acknowledged| != |sentIds| {
        RetryRows(rows);
        return 0;
      }
      outbox := Marked(outbox, acknowledged);
      ConflictsAcknowledged(ack);
      RecordConflicts(rows, ack.conflicts);
      return |rows|;
    }

    /** A tick that comes while another drain is running does nothing, and so does one with no row due. */
    method Tick(rows: seq<Envelope>, answer: Option<C.Ack>)
      modifies this`outbox, this`exceptions, this`running
      ensures running == old(running)
      ensures Db() ==
        if old(running) || rows == [] then old(Db())
        else if answer.Some? then Mark(old(Db()), rows, answer.value) else Fail(old(Db()), rows)
    {
      if running { return; }
      running := true;
      var _ := DrainOnce(rows, answer);
      running := false;
    }
  }

  lemma {:induction false} ConflictsAcknowledged(ack: C.Ack)
    ensures forall i :: i in ack.conflicts ==> i in Ids(ack)
  {
  }

  /** Containment and equal size, which is how the forwarder compares, is equality. */
  lemma {:induction false} ExactCover(a: set<string>, b: set<string>)
    ensures a == b <==> a <= b && |a| == |b|
  {
    if a <= b && |a| == |b| {
      assert |b - a| == |b| - |a|;
      assert b == a + (b - a);
    }
  }

  // ---------- Edge and Cloud ----------

  datatype Link = Link(edge: Edge, cloud: C.Cloud, sent: set<seq<Envelope>>, acks: set<(seq<Envelope>, C.Ack)>)

  datatype Step =
    | IngestStep(batch: Batch)
    | ResolveStep(row: nat)
    | SendStep(events: seq<Envelope>)                   // rows read from the outbox and sent
    | ReceiveStep(events: seq<Envelope>)                // the Cloud gets a batch, for the first time or again
    | AckStep(events: seq<Envelope>, ack: C.Ack)        // an acknowledgement reaches the Edge
    | LoseStep(events: seq<Envelope>)                   // the Edge gives up waiting for one

  const EmptyLink := Link(Edge(map[], map[], map[], []), C.Cloud(map[], map[], []), {}, {})

  predicate Undelivered(edge: Edge, e: Envelope) {
    e.instance in edge.outbox && edge.outbox[e.instance].envelope == e && !edge.outbox[e.instance].delivered
  }

  predicate Enabled(l: Link, step: Step) {
    match step
    case IngestStep(batch) => batch.Valid()
    case ResolveStep(row) => row < |l.edge.exceptions|
    case SendStep(events) => DistinctIds(events) && forall e :: e in events ==> Undelivered(l.edge, e)
    case ReceiveStep(events) => events in l.sent
    case AckStep(events, ack) => (events, ack) in l.acks
    case LoseStep(events) => events in l.sent
  }

  predicate DistinctIds(events: seq<Envelope>) {
    forall i, j :: 0 <= i < j < |events| ==> events[i].instance != events[j].instance
  }

  function Next(l: Link, step: Step): Link
    requires Enabled(l, step)
  {
    match step
    case IngestStep(batch) => l.(edge := Ingest(l.edge, batch).0)
    case ResolveStep(row) => l.(edge := Resolve(l.edge, row))
    case SendStep(events) => l.(sent := l.sent + {events})
    case ReceiveStep(events) =>
      var (cloud, outcomes) := C.ProcessAll(l.cloud, events);
      l.(cloud := cloud, acks := l.acks + {(events, C.AckOf(events, outcomes))})
    case AckStep(events, ack) => l.(edge := Mark(l.edge, events, ack))
    case LoseStep(events) => l.(edge := Fail(l.edge, events))
  }

  // ---------- the invariant ----------

  predicate Stored(edge: Edge, e: Envelope) { e.instance in edge.events && edge.events[e.instance] == e }

  predicate Taken(cloud: C.Cloud, e: Envelope) {
    e.instance in cloud.processed && cloud.processed[e.instance] == e
  }

  ghost predicate CloudBehind(edge: Edge, cloud: C.Cloud) {
    && (forall i :: i in cloud.processed ==> cloud.processed[i].instance == i && Stored(edge, cloud.processed[i]))
    && (forall x :: x in cloud.exceptions ==> x.kind != C.EventInstanceReuse && x.kind != C.DeviceSequenceReuse)
  }

  ghost predicate InFlight(l: Link) {
    && (forall b :: b in l.sent ==> DistinctIds(b) && forall e :: e in b ==> Stored(l.edge, e))
    && (forall a :: a in l.acks ==> Ids(a.1) == Instances(a.0) && forall e :: e in a.0 ==> Taken(l.cloud, e))
  }

  ghost predicate DeliveredTaken(edge: Edge, cloud: C.Cloud) {
    forall i :: i in edge.outbox && edge.outbox[i].delivered ==> Taken(cloud, edge.outbox[i].envelope)
  }

  ghost predicate LinkOk(l: Link) {
    && EdgeOk(l.edge) && BelowConflicts(l.edge)
    && CloudBehind(l.edge, l.cloud) && InFlight(l) && DeliveredTaken(l.edge, l.cloud)
  }

  // ---------- what the Cloud does with events of this Edge ----------

  lemma {:induction false} ProcessStored(edge: Edge, cloud: C.Cloud, e: Envelope)
    requires RowsOk(edge) && CloudBehind(edge, cloud) && Stored(edge, e)
    ensures var after := C.ProcessEvent(cloud, e).0;
      && CloudBehind(edge, after) && Taken(after, e)
      && forall x :: Taken(cloud, x) ==> Taken(after, x)
  {
    hide C.Project;
    if e.instance !in cloud.processed {
      forall i | i in cloud.processed ensures !SameSlot(cloud.processed[i], e) {
        assert Stored(edge, cloud.processed[i]);
      }
      assert !C.SequenceUsed(cloud, e);
      ApplyKeeps(cloud.(processed := cloud.processed[e.instance := e]), e);
    }
  }

  lemma {:induction false} ApplyKeeps(cloud: C.Cloud, e: Envelope)
    ensures var after := C.ApplyOrder(cloud, e).0;
      && after.processed == cloud.processed
      && (after.exceptions == cloud.exceptions ||
          exists x: C.CloudException :: x.kind != C.EventInstanceReuse && x.kind != C.DeviceSequenceReuse
                                        && after.exceptions == cloud.exceptions + [x])
  {
    if e.body.InvalidOrder? {
      assert C.CloudException(C.InvalidOrderEvent, e.instance).kind != C.EventInstanceReuse;
    } else if e.body.Order? {
      var refusal := C.Project(C.RowFor(cloud, e.aggregate), e, e.body.payload).1;
      if refusal.Some? { assert C.CloudException(refusal.value, e.instance).kind != C.EventInstanceReuse; }
    }
  }

  lemma {:induction false} ProcessBatch(edge: Edge, cloud: C.Cloud, events: seq<Envelope>)
    requires RowsOk(edge) && CloudBehind(edge, cloud) && forall e :: e in events ==> Stored(edge, e)
    ensures var after := C.ProcessAll(cloud, events).0;
      && CloudBehind(edge, after) && (forall e :: e in events ==> Taken(after, e))
      && forall x :: Taken(cloud, x) ==> Taken(after, x)
    decreases |events|
  {
    hide C.ProcessEvent, CloudBehind, Taken, Stored, RowsOk;
    if events != [] {
      var n := |events| - 1;
      assert events == events[..n] + [events[n]];
      ProcessBatch(edge, cloud, events[..n]);
      ProcessStored(edge, C.ProcessAll(cloud, events[..n]).0, events[n]);
    }
  }

  /** The Cloud's acknowledgement names every event of the batch, and nothing else. */
  lemma {:induction false} AckCovers(events: seq<Envelope>, outcomes: seq<C.Outcome>)
    requires |events| == |outcomes|
    ensures Ids(C.AckOf(events, outcomes)) == Instances(events)
    decreases |events|
  {
    if events != [] {
      var n := |events| - 1;
      AckCovers(events[..n], outcomes[..n]);
      var before, ack := C.AckOf(events[..n], outcomes[..n]), C.AckOf(events, outcomes);
      assert events == events[..n] + [events[n]];
      forall i ensures i in Ids(ack) <==> i in Ids(before) || i == events[n].instance { }
      assert Instances(events) == Instances(events[..n]) + {events[n].instance};
    }
  }

  // ---------- every step ----------

  lemma {:induction false} OutboxOnly(l: Link, edge: Edge)
    requires LinkOk(l) && edge == l.edge.(outbox := edge.outbox, exceptions := edge.exceptions)
    requires edge.outbox.Keys == l.edge.outbox.Keys
    requires forall i :: i in edge.outbox ==> edge.outbox[i].envelope == l.edge.outbox[i].envelope
    requires DeliveredTaken(edge, l.cloud) && BelowConflicts(edge)
    ensures LinkOk(l.(edge := edge))
  {
    hide Continue, Taken, BelowConflicts;
    forall d ensures Sequences(edge, d) == Sequences(l.edge, d) { }
  }

  lemma {:induction false} EdgeGrowth(l: Link, edge: Edge)
    requires LinkOk(l) && EdgeOk(edge) && BelowConflicts(edge) && Grows(l.edge, edge) && DeliveredTaken(edge, l.cloud)
    ensures LinkOk(l.(edge := edge))
  {
    hide EdgeOk, Taken, BelowConflicts;
  }

  lemma {:induction false} IngestKeepsDelivered(db: Edge, cloud: C.Cloud, batch: Batch)
    requires EdgeOk(db) && DeliveredTaken(db, cloud) && batch.Valid()
    ensures DeliveredTaken(Ingest(db, batch).0, cloud)
  {
    hide Taken, Continue, LowestBlocking, EdgeOk;
    PersistedDelivered(db, cloud, batch.events);
  }

  lemma {:induction false} PersistedDelivered(db: Edge, cloud: C.Cloud, events: seq<Envelope>)
    requires DeliveredTaken(db, cloud)
    ensures DeliveredTaken(PersistAll(db, events).0, cloud)
    decreases |events|
  {
    hide Taken;
    if events != [] { PersistedDelivered(db, cloud, events[..|events| - 1]); }
  }

  lemma {:induction false} ReceiveKeeps(l: Link, events: seq<Envelope>)
    requires LinkOk(l) && events in l.sent
    ensures LinkOk(Next(l, ReceiveStep(events)))
  {
    hide C.ProcessAll, EdgeOk, CloudBehind, Ids, Instances, BelowConflicts;
    assert RowsOk(l.edge) by { EdgeRows(l.edge); }
    ProcessBatch(l.edge, l.cloud, events);
    AckCovers(events, C.ProcessAll(l.cloud, events).1);
  }

  lemma {:induction false} EdgeRows(edge: Edge)
    requires EdgeOk(edge)
    ensures RowsOk(edge)
  {
  }

  lemma {:induction false} StepKeeps(l: Link, step: Step)
    requires LinkOk(l) && Enabled(l, step)
    ensures LinkOk(Next(l, step))
  {
    hide EdgeOk, CloudBehind, Ingest, C.ProcessAll, ConflictRows, Grows, Taken, BelowConflicts;
    match step
    case IngestStep(batch) =>
      AcceptedIsExact(l.edge, batch);
      IngestKeepsDelivered(l.edge, l.cloud, batch);
      IngestStaysBelow(l.edge, batch);
      EdgeGrowth(l, Ingest(l.edge, batch).0);
    case ResolveStep(row) => ResolveKeeps(l.edge, row); ResolveStaysBelow(l.edge, row); EdgeGrowth(l, Resolve(l.edge, row));
    case SendStep(events) => SendKeeps(l, events);
    case ReceiveStep(events) => ReceiveKeeps(l, events);
    case AckStep(events, ack) => MarkKept(l, events, ack);
    case LoseStep(events) => NoneRaised(l.edge, Fail(l.edge, events)); OutboxOnly(l, Fail(l.edge, events));
  }

  lemma {:induction false} SendKeeps(l: Link, events: seq<Envelope>)
    requires LinkOk(l) && Enabled(l, SendStep(events))
    ensures LinkOk(Next(l, SendStep(events)))
  {
    forall e | e in events ensures Stored(l.edge, e) { assert Undelivered(l.edge, e); }
  }

  lemma {:induction false} NoneRaised(db: Edge, after: Edge)
    requires BelowConflicts(db) && after.watermarks == db.watermarks && after.exceptions == db.exceptions
    ensures BelowConflicts(after)
  {
  }

  lemma {:induction false} ConflictRowsNeverBlock(events: seq<Envelope>, conflicts: seq<string>)
    requires forall i :: i in conflicts ==> i in Instances(events)
    ensures forall x :: x in ConflictRows(events, conflicts) ==> x.kind == CloudReconciliation
    decreases |conflicts|
  {
    hide RowOf, Instances;
    if conflicts != [] { ConflictRowsNeverBlock(events, conflicts[..|conflicts| - 1]); }
  }

  /** What the Cloud refuses does not block the device. */
  lemma {:induction false} MarkStaysBelow(db: Edge, events: seq<Envelope>, ack: C.Ack)
    requires BelowConflicts(db)
    ensures BelowConflicts(Mark(db, events, ack))
  {
    hide ConflictRows, Instances;
    if Ids(ack) == Instances(events) {
      forall i | i in ack.conflicts ensures i in Instances(events) { assert i in Ids(ack); }
      ConflictRowsNeverBlock(events, ack.conflicts);
    }
  }

  lemma {:induction false} MarkKept(l: Link, events: seq<Envelope>, ack: C.Ack)
    requires LinkOk(l) && (events, ack) in l.acks
    ensures LinkOk(l.(edge := Mark(l.edge, events, ack)))
  {
    hide CloudBehind, ConflictRows, Taken, Continue, BelowConflicts;
    assert (events, ack).1 == ack && (events, ack).0 == events;
    var after := Mark(l.edge, events, ack);
    forall i | i in after.outbox && after.outbox[i].delivered ensures Taken(l.cloud, after.outbox[i].envelope) {
      if !l.edge.outbox[i].delivered {
        var e :| e in events && e.instance == i;
        assert Stored(l.edge, e) by { TakenIsStored(l.edge, l.cloud, e); }
      }
    }
    MarkStaysBelow(l.edge, events, ack);
    OutboxOnly(l, after);
  }

  lemma {:induction false} TakenIsStored(edge: Edge, cloud: C.Cloud, e: Envelope)
    requires CloudBehind(edge, cloud) && Taken(cloud, e)
    ensures Stored(edge, e)
  {
  }

  // ---------- every run ----------

  ghost function Run(l: Link, steps: seq<Step>): (res: Option<Link>)
    requires LinkOk(l)
    ensures res.Some? ==> LinkOk(res.value)
    decreases |steps|
  {
    if steps == [] then Some(l)
    else if !Enabled(l, steps[0]) then None
    else
      StepKeeps(l, steps[0]);
      Run(Next(l, steps[0]), steps[1..])
  }

  lemma {:induction false} EmptyLinkHolds()
    ensures LinkOk(EmptyLink)
  {
  }

  ghost predicate Reachable(steps: seq<Step>, l: Link) {
    EmptyLinkHolds();
    Run(EmptyLink, steps) == Some(l)
  }

  /** Stored events and outbox rows correspond one to one, and everything marked delivered is at the Cloud. */
  lemma {:induction false} NothingLost(steps: seq<Step>, l: Link, i: string)
    requires Reachable(steps, l)
    ensures i in l.edge.events <==> i in l.edge.outbox
    ensures i in l.edge.outbox ==> l.edge.outbox[i].envelope == l.edge.events[i]
    ensures i in l.edge.outbox && l.edge.outbox[i].delivered ==>
      i in l.cloud.processed && l.cloud.processed[i] == l.edge.events[i]
    ensures i in l.cloud.processed ==> i in l.edge.events && l.edge.events[i] == l.cloud.processed[i]
  {
    hide Next, Enabled;
    EmptyLinkHolds();
    if i in l.cloud.processed { assert Stored(l.edge, l.cloud.processed[i]); }
  }

  /** The Cloud never finds an instance or a sequence used for a different event. */
  lemma {:induction false} NoReuseAtCloud(steps: seq<Step>, l: Link, x: C.CloudException)
    requires Reachable(steps, l) && x in l.cloud.exceptions
    ensures x.kind != C.EventInstanceReuse && x.kind != C.DeviceSequenceReuse
  {
    hide Next, Enabled;
    EmptyLinkHolds();
  }

  /** When nothing is left undelivered, Edge and Cloud have processed the same events. */
  lemma {:induction false} DrainedMeansEqual(steps: seq<Step>, l: Link)
    requires Reachable(steps, l)
    requires forall i :: i in l.edge.outbox ==> l.edge.outbox[i].delivered
    ensures l.cloud.processed == l.edge.events
  {
    hide Next, Enabled;
    EmptyLinkHolds();
    forall i ensures i in l.cloud.processed <==> i in l.edge.events { NothingLost(steps, l, i); }
    forall i | i in l.cloud.processed ensures l.cloud.processed[i] == l.edge.events[i] { NothingLost(steps, l, i); }
  }

  /** Sending any undelivered rows, and getting the Cloud's answer back, delivers all of them. */
  lemma {:induction false} RoundTripDelivers(steps: seq<Step>, l: Link, events: seq<Envelope>)
    requires Reachable(steps, l) && Enabled(l, SendStep(events))
    ensures var received := Next(Next(l, SendStep(events)), ReceiveStep(events));
      var ack := C.AckOf(events, C.ProcessAll(l.cloud, events).1);
      && Enabled(received, AckStep(events, ack))
      && var after := Next(received, AckStep(events, ack));
      forall i :: i in l.edge.outbox ==>
        && i in after.edge.outbox
        && after.edge.outbox[i].delivered == (l.edge.outbox[i].delivered || i in Instances(events))
  {
    hide C.ProcessAll, EdgeOk, Run, ConflictRows;
    AckCovers(events, C.ProcessAll(l.cloud, events).1);
  }
}
