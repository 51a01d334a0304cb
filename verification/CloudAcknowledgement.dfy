/** What the Cloud refuses, what its acknowledgement says about it, and what the Edge then raises. */
module CloudAcknowledgement {
  import opened Common
  import opened SyncEvents
  import opened CloudSync
  import D = DeviceSync
  import R = Relay

  // ---------- one event ----------

  /** Why an order that is already known does not take this event, if it is newer than what is shown. */
  function OrderObjection(row: OrderRow, e: Envelope, p: OrderPayload): Option<Refusal> {
    if row.device != e.device then Some(DeviceConflict)
    else if e.sequence <= row.lastSequence then None
    else if row.event != p.event then Some(EventConflict)
    else if row.location.Some? && p.location.Some? && row.location != p.location then Some(LocationConflict)
    else if row.closeMethod.Some? && p.closeMethod.Some? && row.closeMethod != p.closeMethod then
      Some(CloseMethodConflict)
    else if row.cashier.Some? && p.cashier.Some? && row.cashier != p.cashier then Some(CashierConflict)
    else if row.state == Closed && p.state == Open then Some(StateRegression)
    else None
  }

  /** Why an event is refused; None if it is not. */
  function RefusedFor(cloud: Cloud, e: Envelope): Option<Refusal> {
    if e.instance in cloud.processed then
      if cloud.processed[e.instance] == e then None else Some(EventInstanceReuse)
    else if exists i :: i in cloud.processed && cloud.processed[i].device == e.device
                        && cloud.processed[i].sequence == e.sequence then Some(DeviceSequenceReuse)
    else
      match e.body
      case NotAnOrder => None
      case InvalidOrder => Some(InvalidOrderEvent)
      case Order(p) => if e.aggregate in cloud.orders then OrderObjection(cloud.orders[e.aggregate], e, p) else None
  }

  predicate KnownAs(cloud: Cloud, e: Envelope) { e.instance in cloud.processed && cloud.processed[e.instance] == e }

  /**
   An event is a conflict exactly when there is a reason to refuse it, and then adds exactly one exception,
   with that reason, and no change to any order.  It is a duplicate exactly when the same envelope was
   processed before, and then changes nothing.  Otherwise it is accepted, without an exception.
   */
  lemma {:induction false} OutcomeTells(cloud: Cloud, e: Envelope)
    ensures var (after, outcome) := ProcessEvent(cloud, e);
      && (outcome == Conflict <==> RefusedFor(cloud, e).Some?)
      && (outcome == Duplicate <==> KnownAs(cloud, e))
      && (outcome == Conflict ==>
            && after.exceptions == cloud.exceptions + [CloudException(RefusedFor(cloud, e).value, e.instance)]
            && after.orders == cloud.orders)
      && (outcome == Duplicate ==> after == cloud)
      && (outcome == Accepted ==> after.exceptions == cloud.exceptions)
      && (e.instance !in cloud.processed && RefusedFor(cloud, e) != Some(DeviceSequenceReuse) ==>
            after.processed == cloud.processed[e.instance := e])
      && (e.instance in cloud.processed || RefusedFor(cloud, e) == Some(DeviceSequenceReuse) ==>
            after.processed == cloud.processed)
  {
    hide Inserted, Advanced;
    if e.body.Order? && e.aggregate in cloud.orders {
      ObjectionTells(cloud.orders[e.aggregate], e, e.body.payload);
    }
  }

  lemma {:induction false} ObjectionTells(row: OrderRow, e: Envelope, p: OrderPayload)
    ensures Project(Some(row), e, p).1 == OrderObjection(row, e, p)
    ensures OrderObjection(row, e, p).Some? ==> Project(Some(row), e, p).0 == row
  {
    hide Advanced;
  }

  /** An accepted order event shows in its order if it is the first or the newest, and in no other order. */
  lemma {:induction false} AcceptedShows(cloud: Cloud, e: Envelope)
    requires ProcessEvent(cloud, e).1 == Accepted && e.body.Order?
    ensures var after, p := ProcessEvent(cloud, e).0, e.body.payload;
      && e.aggregate in after.orders && after.orders == cloud.orders[e.aggregate := after.orders[e.aggregate]]
      && var row := after.orders[e.aggregate];
      && (e.aggregate in cloud.orders && e.sequence <= cloud.orders[e.aggregate].lastSequence ==>
            row == cloud.orders[e.aggregate])
      && (e.aggregate !in cloud.orders || e.sequence > cloud.orders[e.aggregate].lastSequence ==>
            && row.device == e.device && row.lastSequence == e.sequence && row.state == p.state
            && row.total == p.total && row.currency == p.currency && row.event == p.event && row.at == p.at
            && (p.location.Some? ==> row.location == p.location)
            && (p.closeMethod.Some? ==> row.closeMethod == p.closeMethod)
            && (p.cashier.Some? ==> row.cashier == p.cashier)
            && (p.lines.Some? ==> row.lines == p.lines.value))
  {
  }

  // ---------- a batch ----------

  /** The state in which the k-th event of a batch is processed. */
  function Before(cloud: Cloud, events: seq<Envelope>, k: nat): Cloud
    requires k <= |events|
  {
    ProcessAll(cloud, events[..k]).0
  }

  lemma {:induction false} OutcomeOf(cloud: Cloud, events: seq<Envelope>, k: nat)
    requires k < |events|
    ensures ProcessAll(cloud, events).1[k] == ProcessEvent(Before(cloud, events, k), events[k]).1
    decreases |events|
  {
    hide ProcessEvent;
    var n := |events| - 1;
    if k < n {
      OutcomeOf(cloud, events[..n], k);
      assert events[..n][..k] == events[..k];
    }
  }

  lemma {:induction false} ListedWhen(events: seq<Envelope>, outcomes: seq<Outcome>, wanted: Outcome, k: nat)
    requires |events| == |outcomes| && k < |events| && R.DistinctIds(events)
    ensures events[k].instance in IdsWith(events, outcomes, wanted) <==> outcomes[k] == wanted
    decreases |events|
  {
    var n := |events| - 1;
    if k < n {
      ListedWhen(events[..n], outcomes[..n], wanted, k);
    } else {
      NotListedBefore(events[..n], outcomes[..n], wanted, events[n].instance);
    }
  }

  lemma {:induction false} NotListedBefore(events: seq<Envelope>, outcomes: seq<Outcome>, wanted: Outcome, id: string)
    requires |events| == |outcomes| && forall k :: 0 <= k < |events| ==> events[k].instance != id
    ensures id !in IdsWith(events, outcomes, wanted)
    decreases |events|
  {
    if events != [] { NotListedBefore(events[..|events| - 1], outcomes[..|events| - 1], wanted, id); }
  }

  /**
   The acknowledgement of a batch of distinct events names each event in one of its three lists: among
   the conflicts exactly if the Cloud refused it, among the duplicates exactly if it had it before.
   */
  lemma {:induction false} AckTells(cloud: Cloud, events: seq<Envelope>, k: nat)
    requires k < |events| && R.DistinctIds(events)
    ensures var ack, before := AckOf(events, ProcessAll(cloud, events).1), Before(cloud, events, k);
      && (events[k].instance in ack.conflicts <==> RefusedFor(before, events[k]).Some?)
      && (events[k].instance in ack.duplicates <==> KnownAs(before, events[k]))
      && (events[k].instance in ack.accepted <==> RefusedFor(before, events[k]).None? && !KnownAs(before, events[k]))
  {
    hide ProcessAll, ProcessEvent, RefusedFor, IdsWith;
    var outcomes := ProcessAll(cloud, events).1;
    OutcomeOf(cloud, events, k);
    OutcomeTells(Before(cloud, events, k), events[k]);
    ListedWhen(events, outcomes, Conflict, k);
    ListedWhen(events, outcomes, Duplicate, k);
    ListedWhen(events, outcomes, Accepted, k);
  }

  function ExceptionIds(exceptions: seq<CloudException>): seq<string> {
    seq(|exceptions|, i requires 0 <= i < |exceptions| => exceptions[i].instance)
  }

  /** Whatever the batch: the conflicts it is answered with are the exceptions it added, one for one, in order. */
  lemma {:induction false} ConflictsAreExceptions(cloud: Cloud, events: seq<Envelope>)
    ensures var (after, outcomes) := ProcessAll(cloud, events);
      && cloud.exceptions <= after.exceptions
      && ExceptionIds(after.exceptions[|cloud.exceptions|..]) == AckOf(events, outcomes).conflicts
    decreases |events|
  {
    hide ProcessEvent, RefusedFor;
    if events != [] {
      var n := |events| - 1;
      ConflictsAreExceptions(cloud, events[..n]);
      var before := ProcessAll(cloud, events[..n]).0;
      OutcomeTells(before, events[n]);
      var (after, outcomes) := ProcessAll(cloud, events);
      assert outcomes[..n] == ProcessAll(cloud, events[..n]).1;
    }
  }

  // ---------- back at the Edge ----------

  /** The exception an Edge raises for an event its Cloud refused. */
  function Raised(e: Envelope): D.ExceptionRow {
    D.ExceptionRow(D.CloudReconciliation, e.device, e.sequence, e.instance, false)
  }

  lemma {:induction false} RowOfIs(events: seq<Envelope>, k: nat)
    requires k < |events| && R.DistinctIds(events)
    ensures events[k].instance in R.Instances(events) && R.RowOf(events, events[k].instance) == Raised(events[k])
  {
    hide R.RowOf;
    assert events[k] in events;
    var e :| e in events && e.instance == events[k].instance
             && R.RowOf(events, events[k].instance)
                == D.ExceptionRow(D.CloudReconciliation, e.device, e.sequence, e.instance, false);
    var j :| 0 <= j < |events| && events[j] == e;
    assert j == k;
  }

  lemma {:induction false} RowsAre(events: seq<Envelope>, conflicts: seq<string>, k: nat)
    requires k < |events| && R.DistinctIds(events) && forall i :: i in conflicts ==> i in R.Instances(events)
    ensures Raised(events[k]) in R.ConflictRows(events, conflicts) <==> events[k].instance in conflicts
    decreases |conflicts|
  {
    hide R.RowOf, R.Instances;
    if conflicts != [] {
      var n := |conflicts| - 1;
      RowsAre(events, conflicts[..n], k);
      RowOfIs(events, k);
      RowNames(events, conflicts[n]);
    }
  }

  lemma {:induction false} RowNames(events: seq<Envelope>, id: string)
    requires id in R.Instances(events)
    ensures R.RowOf(events, id).instance == id
  {
  }

  lemma {:induction false} RowsOnlyOf(events: seq<Envelope>, conflicts: seq<string>, x: D.ExceptionRow)
    requires R.DistinctIds(events) && forall i :: i in conflicts ==> i in R.Instances(events)
    requires x in R.ConflictRows(events, conflicts)
    ensures exists k :: 0 <= k < |events| && x == Raised(events[k]) && events[k].instance in conflicts
    decreases |conflicts|
  {
    hide R.RowOf;
    var n := |conflicts| - 1;
    if x in R.ConflictRows(events, conflicts[..n]) {
      RowsOnlyOf(events, conflicts[..n], x);
      var k :| 0 <= k < |events| && x == Raised(events[k]) && events[k].instance in conflicts[..n];
    } else {
      var e :| e in events && e.instance == conflicts[n];
      var k :| 0 <= k < |events| && events[k] == e;
      RowOfIs(events, k);
    }
  }

  /** The refused event is in the batch that the Cloud got. */
  ghost predicate RefusedAt(cloud: Cloud, events: seq<Envelope>, k: int) {
    0 <= k < |events| && RefusedFor(Before(cloud, events, k), events[k]).Some?
  }

  /**
   Sending any undelivered rows, and getting the Cloud's answer back: the Edge raises one exception for
   each event the Cloud refused, naming its device, its sequence and the event, and none for any other.
   */
  lemma {:induction false} RoundTripRaises(steps: seq<R.Step>, l: R.Link, events: seq<Envelope>)
    requires R.Reachable(steps, l) && R.Enabled(l, R.SendStep(events))
    ensures var received := R.Next(R.Next(l, R.SendStep(events)), R.ReceiveStep(events));
      var ack := AckOf(events, ProcessAll(l.cloud, events).1);
      && R.Enabled(received, R.AckStep(events, ack))
      && var after := R.Next(received, R.AckStep(events, ack));
      && l.edge.exceptions <= after.edge.exceptions
      && var raised := after.edge.exceptions[|l.edge.exceptions|..];
      && (forall k :: 0 <= k < |events| ==> (Raised(events[k]) in raised <==> RefusedAt(l.cloud, events, k)))
      && (forall x :: x in raised ==> exists k :: RefusedAt(l.cloud, events, k) && x == Raised(events[k]))
      && |raised| == |ack.conflicts|
  {
    hide ProcessAll, RefusedFor, Before, R.Run, R.ConflictRows, R.Instances, AckOf, R.Ids;
    var outcomes := ProcessAll(l.cloud, events).1;
    var ack := AckOf(events, outcomes);
    R.AckCovers(events, outcomes);
    R.ConflictsAcknowledged(ack);
    forall k | 0 <= k < |events|
      ensures Raised(events[k]) in R.ConflictRows(events, ack.conflicts) <==> RefusedAt(l.cloud, events, k)
    {
      RowsAre(events, ack.conflicts, k);
      AckTells(l.cloud, events, k);
    }
    forall x | x in R.ConflictRows(events, ack.conflicts)
      ensures exists k :: RefusedAt(l.cloud, events, k) && x == Raised(events[k])
    {
      RowsOnlyOf(events, ack.conflicts, x);
      var k :| 0 <= k < |events| && x == Raised(events[k]) && events[k].instance in ack.conflicts;
      AckTells(l.cloud, events, k);
      assert RefusedAt(l.cloud, events, k);
    }
    ConflictsDistinct(events, outcomes);
    RowPerConflict(events, ack.conflicts);
  }

  lemma {:induction false} ConflictsDistinct(events: seq<Envelope>, outcomes: seq<Outcome>)
    requires |events| == |outcomes| && R.DistinctIds(events)
    ensures var ids := AckOf(events, outcomes).conflicts; forall i, j :: 0 <= i < j < |ids| ==> ids[i] != ids[j]
    decreases |events|
  {
    if events != [] {
      var n := |events| - 1;
      ConflictsDistinct(events[..n], outcomes[..n]);
      NotListedBefore(events[..n], outcomes[..n], Conflict, events[n].instance);
    }
  }

  lemma {:induction false} RowPerConflict(events: seq<Envelope>, conflicts: seq<string>)
    requires forall i :: i in conflicts ==> i in R.Instances(events)
    requires forall i, j :: 0 <= i < j < |conflicts| ==> conflicts[i] != conflicts[j]
    ensures |R.ConflictRows(events, conflicts)| == |conflicts|
    decreases |conflicts|
  {
    hide R.Instances, R.RowOf;
    if conflicts != [] {
      var n := |conflicts| - 1;
      RowPerConflict(events, conflicts[..n]);
      assert conflicts[n] !in conflicts[..n];
    }
  }

  /** Only an answer that covers exactly its batch marks a row delivered; any other one counts a failed try. */
  lemma {:induction false} MarkTells(db: D.Edge, events: seq<Envelope>, ack: Ack, id: string)
    requires id in db.outbox
    ensures var after, sent := R.Mark(db, events, ack), exists e :: e in events && e.instance == id;
      var covers := forall i :: i in ack.accepted || i in ack.duplicates || i in ack.conflicts
                                <==> exists e :: e in events && e.instance == i;
      && after.outbox.Keys == db.outbox.Keys
      && after.outbox[id].envelope == db.outbox[id].envelope
      && after.outbox[id].delivered == (db.outbox[id].delivered || (sent && covers))
      && after.outbox[id].attempts == db.outbox[id].attempts
           + (if sent && !covers && !db.outbox[id].delivered then 1 else 0)
      && (!covers ==> after.exceptions == db.exceptions)
  {
    hide R.ConflictRows;
    forall i ensures i in R.Instances(events) <==> exists e :: e in events && e.instance == i { }
    forall i ensures i in R.Ids(ack) <==> i in ack.accepted || i in ack.duplicates || i in ack.conflicts { }
  }
}
