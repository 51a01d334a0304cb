/** From the device to the Cloud's orders: what the projection shows once the Edge's outbox has drained. */
module OrderDelivery {
  import opened Common
  import opened SyncEvents
  import opened DeviceSync
  import opened CloudSync
  import opened OrderProjection
  import opened Relay

  predicate Concerns(e: Envelope, order: string) { IsOrder(e) && e.aggregate == order }

  /** `arrivals` are the processed events of the order, and the order's row is their projection. */
  ghost predicate Arrived(cloud: Cloud, order: string, arrivals: seq<Envelope>) {
    && (forall e :: e in arrivals <==> Taken(cloud, e) && Concerns(e, order))
    && RowFor(cloud, order) == ProjectAll(arrivals).0
  }

  ghost predicate HasArrivals(cloud: Cloud, order: string) { exists arrivals :: Arrived(cloud, order, arrivals) }

  ghost predicate Projected(cloud: Cloud) { forall order :: HasArrivals(cloud, order) }

  lemma {:induction false} ProjectOneMore(arrivals: seq<Envelope>, e: Envelope)
    requires forall x :: x in arrivals ==> IsOrder(x)
    requires IsOrder(e)
    ensures forall x :: x in arrivals + [e] ==> IsOrder(x)
    ensures ProjectAll(arrivals + [e]).0 == Some(Project(ProjectAll(arrivals).0, e, P(e)).0)
  {
    hide Project;
    assert (arrivals + [e])[..|arrivals|] == arrivals;
  }

  /** A new event is added to the arrivals of its own order and to no others. */
  lemma {:induction false} NewEventProjects(cloud: Cloud, e: Envelope, order: string, arrivals: seq<Envelope>)
    returns (after: seq<Envelope>)
    requires Arrived(cloud, order, arrivals) && e.instance !in cloud.processed
    ensures Arrived(ApplyOrder(cloud.(processed := cloud.processed[e.instance := e]), e).0, order, after)
  {
    hide ProjectAll, Project;
    if Concerns(e, order) {
      after := arrivals + [e];
      ProjectOneMore(arrivals, e);
      RefusalKeepsRow(RowFor(cloud, order), e, P(e));
    } else {
      after := arrivals;
    }
  }

  lemma {:induction false} RefusalKeepsRow(row: Option<OrderRow>, e: Envelope, p: OrderPayload)
    ensures Project(row, e, p).1.Some? ==> row == Some(Project(row, e, p).0)
  {
  }

  lemma {:induction false} EventProjects(cloud: Cloud, e: Envelope)
    requires Projected(cloud)
    ensures Projected(ProcessEvent(cloud, e).0)
  {
    hide ApplyOrder, ProjectAll;
    var after := ProcessEvent(cloud, e).0;
    forall order ensures HasArrivals(after, order) {
      assert HasArrivals(cloud, order);
      var arrivals :| Arrived(cloud, order, arrivals);
      if e.instance !in cloud.processed && !SequenceUsed(cloud, e) {
        var more := NewEventProjects(cloud, e, order, arrivals);
      } else {
        assert Arrived(after, order, arrivals);
      }
    }
  }

  lemma {:induction false} BatchProjects(cloud: Cloud, events: seq<Envelope>)
    requires Projected(cloud)
    ensures Projected(ProcessAll(cloud, events).0)
    decreases |events|
  {
    hide ProcessEvent, Projected;
    if events != [] {
      var n := |events| - 1;
      BatchProjects(cloud, events[..n]);
      EventProjects(ProcessAll(cloud, events[..n]).0, events[n]);
    }
  }

  lemma {:induction false} RunProjects(l: Link, steps: seq<Step>)
    requires LinkOk(l) && Projected(l.cloud) && Run(l, steps).Some?
    ensures Projected(Run(l, steps).value.cloud)
    decreases |steps|
  {
    hide LinkOk, Projected, ProcessAll, DeviceSync.Ingest, Mark, Fail;
    if steps != [] {
      StepKeeps(l, steps[0]);
      if steps[0].ReceiveStep? { BatchProjects(l.cloud, steps[0].events); }
      RunProjects(Next(l, steps[0]), steps[1..]);
    }
  }

  lemma {:induction false} EmptyProjects()
    ensures Projected(EmptyLink.cloud)
  {
    forall order ensures HasArrivals(EmptyLink.cloud, order) { assert Arrived(EmptyLink.cloud, order, []); }
  }

  /** The Edge's events of one order, listed in any order and with any repeats. */
  ghost predicate Lists(edge: Edge, order: string, events: seq<Envelope>) {
    forall e :: e in events <==> Stored(edge, e) && Concerns(e, order)
  }

  /** The processed events of an order, once the Cloud has everything, are the Edge's. */
  lemma {:induction false} DrainedArrivals(steps: seq<Step>, l: Link, order: string, events: seq<Envelope>)
    returns (arrivals: seq<Envelope>)
    requires Reachable(steps, l) && forall i :: i in l.edge.outbox ==> l.edge.outbox[i].delivered
    requires Lists(l.edge, order, events) && events != []
    ensures Arrived(l.cloud, order, arrivals) && arrivals != [] && forall e :: e in arrivals <==> e in events
  {
    hide Next, Enabled, LinkOk, ProjectAll;
    EmptyLinkHolds();
    EmptyProjects();
    RunProjects(EmptyLink, steps);
    DrainedMeansEqual(steps, l);
    assert HasArrivals(l.cloud, order);
    arrivals :| Arrived(l.cloud, order, arrivals);
    forall e ensures e in arrivals <==> e in events { assert Taken(l.cloud, e) <==> Stored(l.edge, e); }
    assert events[0] in arrivals;
  }

  /**
   Once everything is delivered, whatever was lost, repeated or reordered on the way, the Cloud's order
   shows the newest event the Edge holds for it, provided no event of the order contradicts that one.
   */
  lemma {:induction false} DrainedOrderIsCurrent(steps: seq<Step>, l: Link, order: string, events: seq<Envelope>,
                                                 newest: Envelope)
    requires Reachable(steps, l) && forall i :: i in l.edge.outbox ==> l.edge.outbox[i].delivered
    requires Lists(l.edge, order, events) && OrderEvents(events) && Highest(newest, events)
    requires forall e :: e in events ==> Agree(e, newest)
    ensures order in l.cloud.orders && ShowsNewest(l.cloud.orders[order], newest)
    ensures Consistent(events) ==> Shows(l.cloud.orders[order], newest, events)
  {
    hide ProjectAll, Shows, ShowsNewest, Agree, Reachable;
    var arrivals := DrainedArrivals(steps, l, order, events);
    NewestOnTop(arrivals, newest);
    if Consistent(events) {
      assert Consistent(arrivals);
      var top := EndsWithHighest(arrivals);
      assert Agree(top, newest);
      SameSequenceSame(top, newest);
      ShowsMore(l.cloud.orders[order], newest, arrivals, events);
    }
  }

  lemma {:induction false} SameSequenceSame(e: Envelope, f: Envelope)
    requires IsOrder(e) && IsOrder(f) && Agree(e, f) && e.sequence == f.sequence
    ensures e == f
  {
  }

  // ---------- a delivery that hides the newest event ----------

  ghost predicate Drained(edge: Edge) { forall i :: i in edge.outbox ==> edge.outbox[i].delivered }

  function Waiting(edge: Edge): set<string> { set i | i in edge.outbox && !edge.outbox[i].delivered }

  lemma {:induction false} OneMoreStep(l: Link, step: Step, steps: seq<Step>)
    requires LinkOk(l) && Enabled(l, step)
    ensures LinkOk(Next(l, step)) && Run(l, [step] + steps) == Run(Next(l, step), steps)
  {
    hide LinkOk, Enabled, Next;
    StepKeeps(l, step);
    assert ([step] + steps)[1..] == steps;
  }

  lemma {:induction false} RunAppend(l: Link, a: seq<Step>, b: seq<Step>)
    requires LinkOk(l) && Run(l, a).Some?
    ensures Run(l, a + b) == Run(Run(l, a).value, b)
    decreases |a|
  {
    hide LinkOk, Enabled, Next;
    if a == [] {
      assert a + b == b;
    } else {
      StepKeeps(l, a[0]);
      assert (a + b)[0] == a[0] && (a + b)[1..] == a[1..] + b;
      RunAppend(Next(l, a[0]), a[1..], b);
    }
  }

  /** Which events are stored depends on the stored events alone. */
  lemma {:induction false} SameEvents(db: Edge, db': Edge, events: seq<Envelope>)
    requires db.events == db'.events
    ensures PersistAll(db, events).0.events == PersistAll(db', events).0.events
    decreases |events|
  {
    if events != [] { SameEvents(db, db', events[..|events| - 1]); }
  }

  lemma {:induction false} NoneDelivered(db: Edge, events: seq<Envelope>)
    requires forall i :: i in db.outbox ==> !db.outbox[i].delivered
    ensures forall i :: i in PersistAll(db, events).0.outbox ==> !PersistAll(db, events).0.outbox[i].delivered
    decreases |events|
  {
    if events != [] { NoneDelivered(db, events[..|events| - 1]); }
  }

  /** The same ingests with nothing sent: the same events stored, all of them waiting, and an empty Cloud. */
  lemma {:induction false} OnlyIngests(l: Link, m: Link, steps: seq<Step>) returns (ingests: seq<Step>, unsent: Link)
    requires LinkOk(l) && LinkOk(m) && Run(l, steps).Some? && m.edge.events == l.edge.events
    requires m.cloud == EmptyLink.cloud && forall i :: i in m.edge.outbox ==> !m.edge.outbox[i].delivered
    ensures Run(m, ingests) == Some(unsent) && unsent.edge.events == Run(l, steps).value.edge.events
    ensures unsent.cloud == EmptyLink.cloud && forall i :: i in unsent.edge.outbox ==> !unsent.edge.outbox[i].delivered
    decreases |steps|
  {
    hide LinkOk, PersistAll, Continue, LowestBlocking, CloudSync.ProcessAll, Mark, Fail;
    if steps == [] {
      return [], m;
    }
    var step := steps[0];
    StepKeeps(l, step);
    if step.IngestStep? {
      SameEvents(l.edge, m.edge, step.batch.events);
      NoneDelivered(m.edge, step.batch.events);
      StepKeeps(m, step);
      var rest: seq<Step>;
      rest, unsent := OnlyIngests(Next(l, step), Next(m, step), steps[1..]);
      OneMoreStep(m, step, rest);
      ingests := [step] + rest;
    } else {
      EventsStay(l, step);
      ingests, unsent := OnlyIngests(Next(l, step), m, steps[1..]);
    }
  }

  lemma {:induction false} EventsStay(l: Link, step: Step)
    requires Enabled(l, step) && !step.IngestStep?
    ensures Next(l, step).edge.events == l.edge.events
  {
    hide CloudSync.ProcessAll, ConflictRows;
  }

  /** One event makes its round trip. */
  lemma {:induction false} RoundTrip(l: Link, e: Envelope) returns (steps: seq<Step>, after: Link)
    requires LinkOk(l) && Undelivered(l.edge, e)
    ensures Run(l, steps) == Some(after) && LinkOk(after)
    ensures after.cloud == CloudSync.ProcessEvent(l.cloud, e).0 && after.edge.events == l.edge.events
    ensures after.edge.outbox.Keys == l.edge.outbox.Keys
    ensures forall i :: i in after.edge.outbox ==>
      && after.edge.outbox[i].envelope == l.edge.outbox[i].envelope
      && after.edge.outbox[i].delivered == (l.edge.outbox[i].delivered || i == e.instance)
  {
    hide LinkOk, CloudSync.ProcessEvent, ConflictRows, Run;
    var (cloud, outcomes) := CloudSync.ProcessAll(l.cloud, [e]);
    ProcessOnly(l.cloud, e);
    var ack := CloudSync.AckOf([e], outcomes);
    AckCovers([e], outcomes);
    assert Instances([e]) == {e.instance} by { assert e in [e]; }
    var sent := Next(l, SendStep([e]));
    OneMoreStep(l, SendStep([e]), [ReceiveStep([e]), AckStep([e], ack)]);
    var received := Next(sent, ReceiveStep([e]));
    OneMoreStep(sent, ReceiveStep([e]), [AckStep([e], ack)]);
    after := Next(received, AckStep([e], ack));
    OneMoreStep(received, AckStep([e], ack), []);
    NoSteps(after);
    steps := [SendStep([e]), ReceiveStep([e]), AckStep([e], ack)];
    assert [SendStep([e])] + [ReceiveStep([e]), AckStep([e], ack)] == steps;
    assert [ReceiveStep([e])] + [AckStep([e], ack)] == [ReceiveStep([e]), AckStep([e], ack)];
    assert [AckStep([e], ack)] + [] == [AckStep([e], ack)];
  }

  lemma {:induction false} ProcessOnly(cloud: Cloud, e: Envelope)
    ensures CloudSync.ProcessAll(cloud, [e]).0 == CloudSync.ProcessEvent(cloud, e).0
  {
    hide CloudSync.ProcessEvent;
    assert [e][..0] == [];
  }

  lemma {:induction false} NoSteps(l: Link)
    requires LinkOk(l)
    ensures Run(l, []) == Some(l)
  {
    hide LinkOk;
  }

  ghost predicate ShutFor(cloud: Cloud, order: string, hi: Envelope)
    requires IsOrder(hi)
  {
    order in cloud.orders && Shut(cloud.orders[order], hi)
  }

  lemma {:induction false} EventStaysShut(cloud: Cloud, e: Envelope, order: string, hi: Envelope)
    requires IsOrder(hi) && ShutFor(cloud, order, hi)
    requires e.device == hi.device && e.sequence == hi.sequence ==> e == hi
    ensures ShutFor(CloudSync.ProcessEvent(cloud, e).0, order, hi)
  {
    hide Project, Shut;
    if Concerns(e, order) { StaysShut(cloud.orders[order], e, hi); }
  }

  lemma {:induction false} SlotIsOwn(l: Link, i: string, hi: Envelope)
    requires LinkOk(l) && i in l.edge.outbox && Stored(l.edge, hi)
    ensures var e := l.edge.outbox[i].envelope;
      && e.instance == i && Stored(l.edge, e) && (e.device == hi.device && e.sequence == hi.sequence ==> e == hi)
  {
    hide CloudBehind, InFlight, DeliveredTaken, BelowConflicts;
    assert SameSlot(l.edge.events[i], l.edge.events[hi.instance]) ==> i == hi.instance;
  }

  /** Whatever is still waiting is delivered, and the row stays shut. */
  lemma {:induction false} DrainShut(l: Link, order: string, hi: Envelope) returns (steps: seq<Step>, after: Link)
    requires LinkOk(l) && IsOrder(hi) && Stored(l.edge, hi) && ShutFor(l.cloud, order, hi)
    ensures Run(l, steps) == Some(after) && Drained(after.edge) && after.edge.events == l.edge.events
    ensures ShutFor(after.cloud, order, hi)
    decreases |Waiting(l.edge)|
  {
    hide LinkOk, ShutFor, Run;
    if Waiting(l.edge) == {} {
      NoSteps(l);
      forall i | i in l.edge.outbox ensures l.edge.outbox[i].delivered {
        assert i !in Waiting(l.edge);
      }
      return [], l;
    }
    var i :| i in Waiting(l.edge);
    SlotIsOwn(l, i, hi);
    var e := l.edge.outbox[i].envelope;
    var trip, next := RoundTrip(l, e);
    EventStaysShut(l.cloud, e, order, hi);
    assert Waiting(next.edge) == Waiting(l.edge) - {i};
    var rest: seq<Step>;
    rest, after := DrainShut(next, order, hi);
    RunAppend(l, trip, rest);
    steps := trip + rest;
  }

  /** The contradicting event first, then the newest. */
  lemma {:induction false} ContradictionArrives(cloud: Cloud, order: string, x: Envelope, hi: Envelope)
    requires cloud == EmptyLink.cloud && Concerns(x, order) && Concerns(hi, order)
    requires P(x).Valid() && P(hi).Valid() && !Agree(x, hi) && x.sequence <= hi.sequence
    requires x.instance != hi.instance && (x.device == hi.device ==> x.sequence != hi.sequence)
    ensures ShutFor(CloudSync.ProcessEvent(CloudSync.ProcessEvent(cloud, x).0, hi).0, order, hi)
  {
    ShutsOut(x, hi);
    assert [x, hi][..1] == [x];
    ProjectOne(x);
  }

  /** From the same stored events, a run that drains and leaves the newest event unseen. */
  lemma {:induction false} NewestHidden(past: seq<Step>, l: Link, order: string, x: Envelope, hi: Envelope)
    returns (steps: seq<Step>, after: Link)
    requires Reachable(past, l) && Stored(l.edge, x) && Stored(l.edge, hi) && Concerns(x, order) && Concerns(hi, order)
    requires P(x).Valid() && P(hi).Valid() && !Agree(x, hi) && x.sequence <= hi.sequence
    ensures Reachable(steps, after) && after.edge.events == l.edge.events && Drained(after.edge)
    ensures order in after.cloud.orders && !ShowsNewest(after.cloud.orders[order], hi)
  {
    hide LinkOk, Run, Agree, Shut, ShowsNewest, CloudSync.ProcessEvent;
    EmptyLinkHolds();
    var ingests, start := OnlyIngests(EmptyLink, EmptyLink, past);
    RunLinkOk(EmptyLink, ingests);
    StoredWaits(start, x);
    StoredWaits(start, hi);
    DifferentSlots(start, x, hi);
    var first, one := RoundTrip(start, x);
    assert Undelivered(one.edge, hi);
    var second, two := RoundTrip(one, hi);
    ContradictionArrives(start.cloud, order, x, hi);
    var rest, last := DrainShut(two, order, hi);
    RunAppend(one, second, rest);
    RunAppend(start, first, second + rest);
    RunAppend(EmptyLink, ingests, first + (second + rest));
    steps, after := ingests + (first + (second + rest)), last;
    ShutIsNotShown(after.cloud.orders[order], hi);
  }

  lemma {:induction false} RunLinkOk(l: Link, steps: seq<Step>)
    requires LinkOk(l) && Run(l, steps).Some?
    ensures LinkOk(Run(l, steps).value)
  {
    hide LinkOk, Next, Enabled;
  }

  lemma {:induction false} StoredWaits(l: Link, e: Envelope)
    requires LinkOk(l) && Stored(l.edge, e) && forall i :: i in l.edge.outbox ==> !l.edge.outbox[i].delivered
    ensures Undelivered(l.edge, e)
  {
    hide CloudBehind, InFlight, DeliveredTaken, BelowConflicts;
  }

  lemma {:induction false} DifferentSlots(l: Link, x: Envelope, hi: Envelope)
    requires LinkOk(l) && Stored(l.edge, x) && Stored(l.edge, hi) && IsOrder(x) && IsOrder(hi) && !Agree(x, hi)
    ensures x.instance != hi.instance && (x.device == hi.device ==> x.sequence != hi.sequence)
  {
    hide CloudBehind, InFlight, DeliveredTaken, BelowConflicts;
    assert SameSlot(l.edge.events[x.instance], l.edge.events[hi.instance]) ==> x.instance == hi.instance;
  }

  /**
   Read off the stored events alone: every run that drains them shows the newest event of the order,
   exactly when no event of the order contradicts it.
   */
  lemma {:induction false} DrainedOrderIsCurrentExactlyWhen(past: seq<Step>, l: Link, order: string,
                                                            events: seq<Envelope>, newest: Envelope)
    requires Reachable(past, l) && Lists(l.edge, order, events) && OrderEvents(events) && Highest(newest, events)
    ensures (forall steps, after: Link ::
               Reachable(steps, after) && after.edge.events == l.edge.events && Drained(after.edge) ==>
                 order in after.cloud.orders && ShowsNewest(after.cloud.orders[order], newest))
      <==> forall e :: e in events ==> Agree(e, newest)
  {
    hide Reachable, ShowsNewest, Agree, Shows;
    if forall e :: e in events ==> Agree(e, newest) {
      forall steps, after: Link | Reachable(steps, after) && after.edge.events == l.edge.events && Drained(after.edge)
        ensures order in after.cloud.orders && ShowsNewest(after.cloud.orders[order], newest)
      {
        forall e ensures Stored(after.edge, e) <==> Stored(l.edge, e) { }
        DrainedOrderIsCurrent(steps, after, order, events, newest);
      }
    } else {
      var x :| x in events && !Agree(x, newest);
      var steps, after := NewestHidden(past, l, order, x, newest);
    }
  }

  /** In every run, an ingest acknowledges exactly up to the gap-free prefix or the lowest unresolved conflict. */
  lemma {:induction false} AcknowledgedIsExact(steps: seq<Step>, l: Link, batch: Batch)
    requires Reachable(steps, l) && batch.Valid()
    ensures var db := Next(l, IngestStep(batch)).edge;
      && batch.device in db.watermarks
      && (db.watermarks[batch.device].accepted ==
            match LowestBlocking(db.exceptions, batch.device)
            case None => GapFree(db, batch.device)
            case Some(lowest) => Min(GapFree(db, batch.device), Max(0, lowest - 1)))
      && forall k :: 0 < k <= db.watermarks[batch.device].accepted ==> StoredAndQueued(db, batch.device, k)
  {
    hide EdgeOk, Run, DeviceSync.Ingest, GapFree, LowestBlocking;
    EmptyLinkHolds();
    assert EdgeOk(l.edge) by { ReachableEdge(steps, l); }
    AcceptedIsExact(l.edge, batch);
    var db := DeviceSync.Ingest(l.edge, batch).0;
    forall k | 0 < k <= db.watermarks[batch.device].accepted
      ensures StoredAndQueued(db, batch.device, k)
    {
      AcceptedIsDurable(db, batch.device, k);
    }
  }

  /**
   In every run, the acknowledgement drops exactly when a batch brings an event, at or below what was
   acknowledged, that is not the stored one.
   */
  lemma {:induction false} AcknowledgementDropsExactlyWhen(steps: seq<Step>, l: Link, batch: Batch)
    requires Reachable(steps, l) && batch.Valid()
    ensures var a := Known(l.edge, batch.device).accepted;
      Known(Next(l, IngestStep(batch)).edge, batch.device).accepted < a
      <==> exists e :: e in batch.events && e.sequence <= a && !SameStored(l.edge, e)
  {
    hide EdgeOk, Reachable, DeviceSync.Ingest, BelowConflicts;
    ReachableEdge(steps, l);
    WatermarkGoesBackExactlyWhen(l.edge, batch);
  }

  lemma {:induction false} ReachableEdge(steps: seq<Step>, l: Link)
    requires Reachable(steps, l)
    ensures EdgeOk(l.edge) && BelowConflicts(l.edge)
  {
    hide EdgeOk, BelowConflicts, Next, Enabled;
    EmptyLinkHolds();
  }
}
