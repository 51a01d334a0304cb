/** What the Edge raises for the events it cannot store, and the highest sequence it has seen. */
module DeviceConflicts {
  import opened Common
  import opened SyncEvents
  import opened DeviceSync

  /** The exception for an event that is not the stored one: its id is used, or else its place in the sequence. */
  function ConflictRow(db: Edge, e: Envelope): ExceptionRow {
    ExceptionRow(if e.instance in db.events then InstanceReuse else SequenceReuse, e.device, e.sequence, e.instance,
                 false)
  }

  predicate SlotUsed(db: Edge, e: Envelope) {
    exists i :: i in db.events && db.events[i].device == e.device && db.events[i].sequence == e.sequence
  }

  /**
   An event is stored, and queued for the Cloud, exactly when its id and its place in the sequence are
   free.  The stored event again is a duplicate and changes nothing.  Anything else is a conflict, and
   adds exactly one unresolved exception that says what was used before.
   */
  lemma {:induction false} ReceiptTells(db: Edge, e: Envelope)
    ensures var (after, status) := Persist(db, e);
      && (status == Accepted <==> e.instance !in db.events && !SlotUsed(db, e))
      && (status == Duplicate <==> e.instance in db.events && db.events[e.instance] == e)
      && (status == Accepted ==>
            after == db.(events := db.events[e.instance := e],
                         outbox := db.outbox[e.instance := OutboxRow(e, false, 0)]))
      && (status == Duplicate ==> after == db)
      && (status == Conflict ==> after == db.(exceptions := db.exceptions + [ConflictRow(db, e)]))
  {
  }

  /** The instances of the conflicting events of a batch, in its order. */
  function Conflicting(events: seq<Envelope>, statuses: seq<Status>): seq<string>
    requires |events| == |statuses|
  {
    if events == [] then []
    else
      var n := |events| - 1;
      Conflicting(events[..n], statuses[..n]) + if statuses[n] == Conflict then [events[n].instance] else []
  }

  function InstancesOf(rows: seq<ExceptionRow>): seq<string> {
    seq(|rows|, i requires 0 <= i < |rows| => rows[i].instance)
  }

  /** A batch adds one exception per conflicting event, in order, and none for any other. */
  lemma {:induction false} ConflictsRaised(db: Edge, events: seq<Envelope>)
    ensures var (after, statuses) := PersistAll(db, events);
      && db.exceptions <= after.exceptions
      && InstancesOf(after.exceptions[|db.exceptions|..]) == Conflicting(events, statuses)
      && forall i :: |db.exceptions| <= i < |after.exceptions| ==>
           !after.exceptions[i].resolved && after.exceptions[i].kind != CloudReconciliation
    decreases |events|
  {
    hide Persist, SequenceTaken;
    if events != [] {
      var n := |events| - 1;
      ConflictsRaised(db, events[..n]);
      ReceiptTells(PersistAll(db, events[..n]).0, events[n]);
      var (after, statuses) := PersistAll(db, events);
      assert statuses[..n] == PersistAll(db, events[..n]).1;
    }
  }

  lemma {:induction false} HighestIsLargest(events: seq<Envelope>)
    requires events != []
    ensures forall k :: 0 <= k < |events| ==> events[k].sequence <= HighestIn(events)
    ensures exists k :: 0 <= k < |events| && events[k].sequence == HighestIn(events)
    decreases |events|
  {
    var n := |events| - 1;
    if n == 0 {
      assert events[0].sequence == HighestIn(events);
    } else {
      HighestIsLargest(events[..n]);
      var k :| 0 <= k < n && events[..n][k].sequence == HighestIn(events[..n]);
      assert events[k].sequence == HighestIn(events[..n]);
      forall j | 0 <= j <= n ensures events[j].sequence <= HighestIn(events) {
        if j < n { assert events[..n][j] == events[j]; }
      }
      assert events[if HighestIn(events[..n]) >= events[n].sequence then k else n].sequence == HighestIn(events);
    }
  }

  /** After a batch the device's highest sequence is the largest ever seen, stored or not. */
  lemma {:induction false} HighestSeen(db: Edge, batch: Batch)
    requires batch.Valid()
    ensures var after, before := Ingest(db, batch).0, Known(db, batch.device).highest;
      && batch.device in after.watermarks
      && var highest := after.watermarks[batch.device].highest;
      && highest >= before && (forall e :: e in batch.events ==> e.sequence <= highest)
      && (highest == before || exists e :: e in batch.events && e.sequence == highest)
      && forall d :: d != batch.device ==> Known(after, d) == Known(db, d)
  {
    hide HighestIn, Continue, LowestBlocking, Persist;
    HighestIsLargest(batch.events);
    var k :| 0 <= k < |batch.events| && batch.events[k].sequence == HighestIn(batch.events);
    assert batch.events[k] in batch.events;
  }
}
