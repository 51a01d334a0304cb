/** An Edge accepting device events: deduplication, the outbox, and the gap-free watermark. */
module DeviceSync {
  import opened Common
  import opened SyncEvents

  datatype OutboxRow = OutboxRow(envelope: Envelope, delivered: bool, attempts: nat)

  datatype Watermark = Watermark(accepted: nat, highest: nat)

  datatype ExceptionKind = InstanceReuse | SequenceReuse | CloudReconciliation

  datatype ExceptionRow = ExceptionRow(kind: ExceptionKind, device: string, sequence: nat, instance: string, resolved: bool)

  datatype Edge = Edge(
    events: map<string, Envelope>, outbox: map<string, OutboxRow>, watermarks: map<string, Watermark>,
    exceptions: seq<ExceptionRow>)

  datatype Status = Accepted | Duplicate | Conflict

  datatype Batch = Batch(device: string, events: seq<Envelope>) {
    /** What the request parser guarantees. */
    predicate Valid() {
      events != [] && forall e :: e in events ==> e.device == device && e.sequence > 0
    }
  }

  // ---------- one event ----------

  predicate SequenceTaken(db: Edge, e: Envelope) {
    exists i :: i in db.events && db.events[i].device == e.device && db.events[i].sequence == e.sequence
  }

  function Raise(db: Edge, kind: ExceptionKind, e: Envelope): Edge {
    db.(exceptions := db.exceptions + [ExceptionRow(kind, e.device, e.sequence, e.instance, false)])
  }

  function Persist(db: Edge, e: Envelope): (Edge, Status) {
    if e.instance !in db.events && !SequenceTaken(db, e) then
      (db.(events := db.events[e.instance := e], outbox := db.outbox[e.instance := OutboxRow(e, false, 0)]), Accepted)
    else if e.instance in db.events then
      if db.events[e.instance] == e then (db, Duplicate) else (Raise(db, InstanceReuse, e), Conflict)
    else (Raise(db, SequenceReuse, e), Conflict)
  }

  function PersistAll(db: Edge, events: seq<Envelope>): (res: (Edge, seq<Status>))
    ensures |res.1| == |events| && res.0.watermarks == db.watermarks
    decreases |events|
  {
    if events == [] then (db, [])
    else
      var n := |events| - 1;
      var (before, statuses) := PersistAll(db, events[..n]);
      var (after, status) := Persist(before, events[n]);
      (after, statuses + [status])
  }

  // ---------- the watermark ----------

  function Sequences(db: Edge, device: string): set<nat> {
    set i | i in db.events && db.events[i].device == device :: db.events[i].sequence
  }

  /** The last number of the unbroken stretch of s that continues after n. */
  function Continue(s: set<nat>, n: nat): (last: nat)
    ensures n <= last && last + 1 !in s
    ensures forall k :: n < k <= last ==> k in s
    decreases s
  {
    if n + 1 in s then
      var last := Continue(s - {n + 1}, n + 1);
      assert last + 1 != n + 1;
      last
    else n
  }

  /** The longest gap-free durable prefix of the device's sequence. */
  function GapFree(db: Edge, device: string): nat { Continue(Sequences(db, device), 0) }

  predicate Blocks(x: ExceptionRow, device: string) {
    x.device == device && !x.resolved && (x.kind == SequenceReuse || x.kind == InstanceReuse)
  }

  function LowestBlocking(exceptions: seq<ExceptionRow>, device: string): (lowest: Option<nat>)
    ensures lowest.None? <==> forall x :: x in exceptions ==> !Blocks(x, device)
    ensures lowest.Some? ==>
      && (exists x :: x in exceptions && Blocks(x, device) && x.sequence == lowest.value)
      && (forall x :: x in exceptions && Blocks(x, device) ==> lowest.value <= x.sequence)
  {
    if exceptions == [] then None
    else
      var n := |exceptions| - 1;
      var before := LowestBlocking(exceptions[..n], device);
      assert forall x :: x in exceptions <==> x in exceptions[..n] || x == exceptions[n];
      if !Blocks(exceptions[n], device) then before
      else if before.None? || exceptions[n].sequence < before.value then Some(exceptions[n].sequence)
      else before
  }

  function Capped(durable: nat, lowest: Option<nat>): nat {
    if lowest.None? then durable else Min(durable, Max(0, lowest.value - 1))
  }

  function HighestIn(events: seq<Envelope>): nat
    requires events != []
  {
    if |events| == 1 then events[0].sequence
    else Max(HighestIn(events[..|events| - 1]), events[|events| - 1].sequence)
  }

  function Known(db: Edge, device: string): Watermark {
    if device in db.watermarks then db.watermarks[device] else Watermark(0, 0)
  }

  /** The watermark starts from what was accepted before and continues over what is stored now. */
  function Ingest(db: Edge, batch: Batch): (Edge, seq<Status>)
    requires batch.Valid()
  {
    var (stored, statuses) := PersistAll(db, batch.events);
    var known := Known(db, batch.device);
    var durable := Continue(Sequences(stored, batch.device), known.accepted);
    var mark := Watermark(Capped(durable, LowestBlocking(stored.exceptions, batch.device)),
                          Max(known.highest, HighestIn(batch.events)));
    (stored.(watermarks := stored.watermarks[batch.device := mark]), statuses)
  }

  /** Someone closes an exception by hand. */
  function Resolve(db: Edge, i: nat): Edge
    requires i < |db.exceptions|
  {
    db.(exceptions := db.exceptions[i := db.exceptions[i].(resolved := true)])
  }

  // ---------- the service ----------

  class DeviceSyncService {
    var events: map<string, Envelope>
    var outbox: map<string, OutboxRow>
    var watermarks: map<string, Watermark>
    var exceptions: seq<ExceptionRow>

    function Db(): Edge
      reads this
    {
      Edge(events, outbox, watermarks, exceptions)
    }

    constructor ()
      ensures Db() == Edge(map[], map[], map[], [])
    {
      events, outbox, watermarks, exceptions := map[], map[], map[], [];
    }

    method PersistEvent(e: Envelope) returns (status: Status)
      modifies this`events, this`outbox, this`exceptions
      ensures (Db(), status) == Persist(old(Db()), e)
    {
      var taken := exists i :: i in events && events[i].device == e.device && events[i].sequence == e.sequence;
      if e.instance !in events && !taken {
        events := events[e.instance := e];
        outbox := outbox[e.instance := OutboxRow(e, false, 0)];
        return Accepted;
      }
      if e.instance in events {
        if events[e.instance] == e { return Duplicate; }
        exceptions := exceptions + [ExceptionRow(InstanceReuse, e.device, e.sequence, e.instance, false)];
        return Conflict;
      }
      exceptions := exceptions + [ExceptionRow(SequenceReuse, e.device, e.sequence, e.instance, false)];
      return Conflict;
    }

    /** The query's rows: the device's stored sequences above the watermark, ascending. */
    method SequencesAbove(device: string, watermark: nat) returns (rows: seq<nat>)
      ensures forall k :: k in rows <==> k in Sequences(Db(), device) && k > watermark
      ensures forall i, j :: 0 <= i < j < |rows| ==> rows[i] < rows[j]
    {
      rows := [];
      var left := set k | k in Sequences(Db(), device) && k > watermark;
      while left != {}
        invariant forall k :: k in rows || k in left <==> k in Sequences(Db(), device) && k > watermark
        invariant forall i, j :: 0 <= i < j < |rows| ==> rows[i] < rows[j]
        invariant forall i, k :: 0 <= i < |rows| && k in left ==> rows[i] < k
        decreases left
      {
        var least := Least(left);
        rows := rows + [least];
        left := left - {least};
      }
    }

    method AdvanceWatermark(device: string) returns (watermark: nat)
      ensures watermark == Continue(Sequences(Db(), device), Known(Db(), device).accepted)
    {
      watermark := if device in watermarks then watermarks[device].accepted else 0;
      ghost var start := watermark;
      var rows := SequencesAbove(device, watermark);
      assert forall j :: 0 <= j < |rows| ==> rows[j] in rows;
      var i := 0;
      while i < |rows|
        invariant i <= |rows| && start <= watermark
        invariant forall k :: start < k <= watermark ==> k in Sequences(Db(), device)
        invariant forall j :: i <= j < |rows| ==> rows[j] > watermark
        invariant forall k :: k in Sequences(Db(), device) && k > watermark ==> k in rows[i..]
      {
        if rows[i] != watermark + 1 { break; }
        watermark := rows[i];
        i := i + 1;
      }
      forall j | i <= j < |rows| ensures rows[j] != watermark + 1 { }
      assert watermark + 1 !in rows[i..];
      ContinueUnique(Sequences(Db(), device), start, watermark);
    }

    method LowestUnresolved(device: string) returns (lowest: Option<nat>)
      ensures lowest == LowestBlocking(exceptions, device)
    {
      lowest := None;
      var i := 0;
      while i < |exceptions|
        invariant i <= |exceptions| && lowest == LowestBlocking(exceptions[..i], device)
      {
        assert exceptions[..i + 1][..i] == exceptions[..i];
        if Blocks(exceptions[i], device) && (lowest.None? || exceptions[i].sequence < lowest.value) {
          lowest := Some(exceptions[i].sequence);
        }
        i := i + 1;
      }
      assert exceptions[..i] == exceptions;
    }

    method PersistBatch(batch: seq<Envelope>) returns (statuses: seq<Status>, highest: nat)
      requires batch != []
      modifies this`events, this`outbox, this`exceptions
      ensures (Db(), statuses) == PersistAll(old(Db()), batch)
      ensures highest == HighestIn(batch)
    {
      hide Persist;
      statuses := [];
      highest := batch[0].sequence;
      var i := 0;
      while i < |batch|
        invariant i <= |batch|
        invariant (Db(), statuses) == PersistAll(old(Db()), batch[..i])
        invariant highest == HighestIn(batch[..if i == 0 then 1 else i])
      {
        assert batch[..i + 1][..i] == batch[..i];
        var status := PersistEvent(batch[i]);
        statuses := statuses + [status];
        highest := Max(highest, batch[i].sequence);
        i := i + 1;
      }
      assert batch[..i] == batch;
    }

    method IngestBatch(batch: Batch) returns (statuses: seq<Status>, acceptedThrough: nat)
      requires batch.Valid()
      modifies this
      ensures (Db(), statuses) == Ingest(old(Db()), batch)
      ensures acceptedThrough == Db().watermarks[batch.device].accepted
    {
      hide PersistAll, HighestIn, Continue, LowestBlocking;
      var highest: nat;
      statuses, highest := PersistBatch(batch.events);
      ghost var stored := Db();
      assert (stored, statuses) == PersistAll(old(Db()), batch.events) && stored.watermarks == old(watermarks);
      var known := if batch.device in watermarks then watermarks[batch.device] else Watermark(0, 0);
      watermarks := watermarks[batch.device := known.(highest := Max(known.highest, highest))];
      assert Sequences(Db(), batch.device) == Sequences(stored, batch.device);
      var durable := AdvanceWatermark(batch.device);
      var lowest := LowestUnresolved(batch.device);
      acceptedThrough := durable;
      if lowest.Some? {
        var before: nat := if lowest.value > 0 then lowest.value - 1 else 0;
        if before < durable { acceptedThrough := before; }
      }
      watermarks := watermarks[batch.device := watermarks[batch.device].(accepted := acceptedThrough)];
      assert Db() == stored.(watermarks := stored.watermarks[batch.device :=
        Watermark(acceptedThrough, Max(known.highest, highest))]);
    }
  }

  method Least(s: set<nat>) returns (least: nat)
    requires s != {}
    ensures least in s && forall k :: k in s ==> least <= k
  {
    least :| least in s;
    var left := s - {least};
    while left != {}
      invariant left <= s && least in s
      invariant forall k :: k in s && k !in left ==> least <= k
      decreases left
    {
      var k :| k in left;
      if k < least { least := k; }
      left := left - {k};
    }
  }

  // ---------- facts about the watermark ----------

  lemma {:induction false} ContinueUnique(s: set<nat>, n: nat, last: nat)
    requires n <= last && last + 1 !in s && forall k :: n < k <= last ==> k in s
    ensures Continue(s, n) == last
  {
    var found := Continue(s, n);
    assert found + 1 !in s && last + 1 !in s;
  }

  /** Starting inside the gap-free prefix gives the whole prefix. */
  lemma {:induction false} ContinueFromInside(s: set<nat>, n: nat)
    requires forall k :: 0 < k <= n ==> k in s
    ensures Continue(s, n) == Continue(s, 0)
  {
    ContinueUnique(s, 0, Continue(s, n));
  }

  lemma {:induction false} PrefixOnlyGrows(s: set<nat>, t: set<nat>, n: nat)
    requires s <= t
    ensures Continue(s, n) <= Continue(t, n)
  {
    var a, b := Continue(s, n), Continue(t, n);
    assert b + 1 !in t && b + 1 !in s;
  }

  // ---------- every reachable Edge ----------

  predicate SameSlot(e: Envelope, f: Envelope) { e.device == f.device && e.sequence == f.sequence }

  ghost predicate RowsOk(db: Edge) {
    && (forall i :: i in db.events ==> db.events[i].instance == i && db.events[i].sequence > 0)
    && (forall i, j :: i in db.events && j in db.events && SameSlot(db.events[i], db.events[j]) ==> i == j)
    && db.outbox.Keys == db.events.Keys
    && (forall i :: i in db.outbox ==> db.outbox[i].envelope == db.events[i])
  }

  ghost predicate EdgeOk(db: Edge) {
    RowsOk(db) && forall d :: d in db.watermarks ==> db.watermarks[d].accepted <= GapFree(db, d)
  }

  /** Stored events and their outbox rows are never lost or changed. */
  ghost predicate Grows(db: Edge, db': Edge) {
    && (forall i :: i in db.events ==> i in db'.events && db'.events[i] == db.events[i])
    && (forall i :: i in db.outbox ==> i in db'.outbox && (db.outbox[i].delivered ==> db'.outbox[i].delivered))
    && |db.exceptions| <= |db'.exceptions|
  }

  lemma {:induction false} GapFreeGrows(db: Edge, db': Edge, device: string)
    requires forall i :: i in db.events ==> i in db'.events && db'.events[i] == db.events[i]
    ensures Sequences(db, device) <= Sequences(db', device) && GapFree(db, device) <= GapFree(db', device)
  {
    forall k | k in Sequences(db, device) ensures k in Sequences(db', device) {
      var i :| i in db.events && db.events[i].device == device && db.events[i].sequence == k;
      assert db'.events[i].sequence == k;
    }
    PrefixOnlyGrows(Sequences(db, device), Sequences(db', device), 0);
  }

  /** At most one exception is raised, and it is about this event. */
  lemma {:induction false} PersistRaises(db: Edge, e: Envelope)
    ensures Persist(db, e).0.exceptions == db.exceptions
      || exists kind :: Persist(db, e).0.exceptions
           == db.exceptions + [ExceptionRow(kind, e.device, e.sequence, e.instance, false)]
  {
  }

  lemma {:induction false} PersistGrows(db: Edge, e: Envelope)
    requires db.outbox.Keys == db.events.Keys
    ensures Grows(db, Persist(db, e).0)
  {
  }

  lemma {:induction false} PersistRows(db: Edge, e: Envelope)
    requires RowsOk(db) && e.sequence > 0
    ensures RowsOk(Persist(db, e).0) && Grows(db, Persist(db, e).0) && Persist(db, e).0.watermarks == db.watermarks
  {
    hide Grows, SameSlot;
    PersistGrows(db, e);
    if e.instance !in db.events && !SequenceTaken(db, e) { StoreRows(db, e); }
  }

  lemma {:induction false} StoreRows(db: Edge, e: Envelope)
    requires RowsOk(db) && e.sequence > 0 && e.instance !in db.events && !SequenceTaken(db, e)
    ensures RowsOk(db.(events := db.events[e.instance := e], outbox := db.outbox[e.instance := OutboxRow(e, false, 0)]))
  {
    forall i | i in db.events ensures !SameSlot(db.events[i], e) { }
  }

  lemma {:induction false} PersistKeeps(db: Edge, e: Envelope)
    requires EdgeOk(db) && e.sequence > 0
    ensures EdgeOk(Persist(db, e).0) && Grows(db, Persist(db, e).0)
  {
    hide GapFree, RowsOk, Persist;
    PersistRows(db, e);
    var db' := Persist(db, e).0;
    forall d | d in db'.watermarks ensures db'.watermarks[d].accepted <= GapFree(db', d) { GapFreeGrows(db, db', d); }
  }

  lemma {:induction false} GrowsTransitive(a: Edge, b: Edge, c: Edge)
    requires Grows(a, b) && Grows(b, c)
    ensures Grows(a, c)
  {
  }

  lemma {:induction false} PersistAllKeeps(db: Edge, events: seq<Envelope>)
    requires EdgeOk(db) && forall e :: e in events ==> e.sequence > 0
    ensures EdgeOk(PersistAll(db, events).0) && Grows(db, PersistAll(db, events).0)
    decreases |events|
  {
    hide EdgeOk, Persist;
    if events != [] {
      var n := |events| - 1;
      assert forall e :: e in events[..n] ==> e in events;
      PersistAllKeeps(db, events[..n]);
      var before := PersistAll(db, events[..n]).0;
      PersistKeeps(before, events[n]);
      GrowsTransitive(db, before, Persist(before, events[n]).0);
    }
  }

  lemma {:induction false} AcceptedInside(db: Edge, device: string)
    requires EdgeOk(db)
    ensures Known(db, device).accepted <= GapFree(db, device)
  {
  }

  /**
   After every ingest the acknowledged sequence is exactly the smaller of the gap-free durable prefix
   and the number before the lowest unresolved conflict, whatever was acknowledged before.
   */
  lemma {:induction false} AcceptedIsExact(db: Edge, batch: Batch)
    requires EdgeOk(db) && batch.Valid()
    ensures var db' := Ingest(db, batch).0;
      && EdgeOk(db') && Grows(db, db')
      && batch.device in db'.watermarks
      && db'.watermarks[batch.device].accepted ==
           match LowestBlocking(db'.exceptions, batch.device)
           case None => GapFree(db', batch.device)
           case Some(lowest) => Min(GapFree(db', batch.device), Max(0, lowest - 1))
  {
    hide EdgeOk, Grows, PersistAll, LowestBlocking, Continue;
    var stored := PersistAll(db, batch.events).0;
    PersistAllKeeps(db, batch.events);
    AcceptedStays(db, stored, batch.device);
    ContinueFromInside(Sequences(stored, batch.device), Known(db, batch.device).accepted);
    var db' := Ingest(db, batch).0;
    assert Sequences(db', batch.device) == Sequences(stored, batch.device);
    MarkKeeps(stored, batch.device, db'.watermarks[batch.device]);
    MarkGrows(db, stored, db');
  }

  lemma {:induction false} AcceptedStays(db: Edge, stored: Edge, device: string)
    requires EdgeOk(db) && EdgeOk(stored) && stored.watermarks == db.watermarks
    ensures forall k :: 0 < k <= Known(db, device).accepted ==> k in Sequences(stored, device)
  {
    AcceptedInside(stored, device);
  }

  lemma {:induction false} MarkKeeps(db: Edge, device: string, mark: Watermark)
    requires EdgeOk(db) && mark.accepted <= GapFree(db, device)
    ensures EdgeOk(db.(watermarks := db.watermarks[device := mark]))
  {
    hide Continue;
    var db' := db.(watermarks := db.watermarks[device := mark]);
    forall d ensures Sequences(db', d) == Sequences(db, d) { }
  }

  lemma {:induction false} MarkGrows(db: Edge, stored: Edge, db': Edge)
    requires Grows(db, stored) && db' == stored.(watermarks := db'.watermarks)
    ensures Grows(db, db')
  {
  }

  lemma {:induction false} ResolveKeeps(db: Edge, i: nat)
    requires EdgeOk(db) && i < |db.exceptions|
    ensures EdgeOk(Resolve(db, i)) && Grows(db, Resolve(db, i))
  {
    hide Continue;
    forall d ensures Sequences(Resolve(db, i), d) == Sequences(db, d) { }
  }

  /** Some event of the device is stored under sequence k, and waits for the Cloud or was delivered, unchanged. */
  ghost predicate StoredAndQueued(db: Edge, device: string, k: nat) {
    exists i :: i in db.events && db.events[i].device == device && db.events[i].sequence == k
                && i in db.outbox && db.outbox[i].envelope == db.events[i]
  }

  /** Every acknowledged sequence is stored and queued for the Cloud with the same content. */
  lemma {:induction false} AcceptedIsDurable(db: Edge, device: string, k: nat)
    requires EdgeOk(db) && 0 < k <= Known(db, device).accepted
    ensures StoredAndQueued(db, device, k)
  {
    AcceptedInside(db, device);
    assert k in Sequences(db, device);
  }

  // ---------- when the watermark goes back ----------

  /** A stored row that is this very event. */
  predicate SameStored(db: Edge, e: Envelope) { e.instance in db.events && db.events[e.instance] == e }

  lemma {:induction false} StoredSequence(db: Edge, device: string, k: nat)
    requires EdgeOk(db) && 0 < k <= Known(db, device).accepted
    ensures exists i :: i in db.events && db.events[i].device == device && db.events[i].sequence == k
  {
    AcceptedIsDurable(db, device, k);
  }

  /** What persisting adds below the acknowledged sequence: one exception per event that is not already stored. */
  lemma {:induction false} ConflictsBelow(db: Edge, device: string, events: seq<Envelope>, a: nat)
    requires EdgeOk(db) && (forall e :: e in events ==> e.device == device && e.sequence > 0)
    requires a == Known(db, device).accepted
    ensures (exists x :: x in PersistAll(db, events).0.exceptions && Blocks(x, device) && x.sequence <= a)
      <==> (exists x :: x in db.exceptions && Blocks(x, device) && x.sequence <= a)
           || (exists e :: e in events && e.sequence <= a && !SameStored(db, e))
    decreases |events|
  {
    hide EdgeOk, Grows, Persist, SameStored, SequenceTaken;
    if events != [] {
      var n := |events| - 1;
      var init, e := events[..n], events[n];
      assert events == init + [e];
      assert forall x :: x in init ==> x in events;
      assert e in events;
      ConflictsBelow(db, device, init, a);
      PersistAllKeeps(db, init);
      var before := PersistAll(db, init).0;
      if e.sequence <= a {
        StoredSequence(db, device, e.sequence);
        SameStoredLater(db, before, e);
        PersistStored(before, e);
      } else {
        PersistRaises(before, e);
      }
    }
  }

  /** An event whose sequence is taken is raised as a conflict unless it is the stored event itself. */
  lemma {:induction false} PersistStored(db: Edge, e: Envelope)
    requires SequenceTaken(db, e)
    ensures if SameStored(db, e) then Persist(db, e).0 == db
            else exists x :: Blocks(x, e.device) && x.sequence == e.sequence
                             && Persist(db, e).0.exceptions == db.exceptions + [x]
  {
    if !SameStored(db, e) {
      var kind := if e.instance in db.events then InstanceReuse else SequenceReuse;
      var x := ExceptionRow(kind, e.device, e.sequence, e.instance, false);
      assert Blocks(x, e.device) && Persist(db, e).0.exceptions == db.exceptions + [x];
    }
  }

  lemma {:induction false} SameStoredLater(db: Edge, db': Edge, e: Envelope)
    requires EdgeOk(db') && Grows(db, db') && SequenceTaken(db, e)
    ensures SequenceTaken(db', e) && (SameStored(db', e) <==> SameStored(db, e))
  {
    var i :| i in db.events && db.events[i].device == e.device && db.events[i].sequence == e.sequence;
    assert db'.events[i] == db.events[i];
    if SameStored(db', e) { assert e.instance == i; }
  }

  /** Between two calls, everything acknowledged is below every unresolved conflict. */
  ghost predicate BelowConflicts(db: Edge) {
    forall x, d :: x in db.exceptions && Blocks(x, d) ==> Known(db, d).accepted < x.sequence
  }

  /** Persisting raises exceptions about this device only, and with positive sequences. */
  lemma {:induction false} PersistRaisesOwn(db: Edge, device: string, events: seq<Envelope>)
    requires forall e :: e in events ==> e.device == device && e.sequence > 0
    ensures forall x :: x in PersistAll(db, events).0.exceptions ==>
      x in db.exceptions || (x.device == device && x.sequence > 0)
    decreases |events|
  {
    hide Persist;
    if events != [] {
      var n := |events| - 1;
      assert events == events[..n] + [events[n]];
      PersistRaisesOwn(db, device, events[..n]);
      PersistRaises(PersistAll(db, events[..n]).0, events[n]);
    }
  }

  lemma {:induction false} IngestStaysBelow(db: Edge, batch: Batch)
    requires EdgeOk(db) && BelowConflicts(db) && batch.Valid()
    ensures BelowConflicts(Ingest(db, batch).0)
  {
    hide EdgeOk, PersistAll, Continue, LowestBlocking;
    AcceptedIsExact(db, batch);
    PersistRaisesOwn(db, batch.device, batch.events);
    var after := Ingest(db, batch).0;
    forall x, d | x in after.exceptions && Blocks(x, d) ensures Known(after, d).accepted < x.sequence {
      if d == batch.device {
        var lowest := LowestBlocking(after.exceptions, d);
        assert lowest.Some? && lowest.value <= x.sequence;
        assert x.sequence > 0;
      } else {
        assert x in db.exceptions && Known(after, d) == Known(db, d);
      }
    }
  }

  lemma {:induction false} ResolveStaysBelow(db: Edge, i: nat)
    requires BelowConflicts(db) && i < |db.exceptions|
    ensures BelowConflicts(Resolve(db, i))
  {
    var after := Resolve(db, i);
    forall x, d | x in after.exceptions && Blocks(x, d) ensures Known(after, d).accepted < x.sequence {
      var k :| 0 <= k < |after.exceptions| && after.exceptions[k] == x;
      assert k != i && db.exceptions[k] == x;
    }
  }

  /**
   The watermark is not monotone.  It goes back exactly when the batch brings an event, at or below what
   was acknowledged, that is not the stored one.
   */
  lemma {:induction false} WatermarkGoesBackExactlyWhen(db: Edge, batch: Batch)
    requires EdgeOk(db) && BelowConflicts(db) && batch.Valid()
    ensures var a := Known(db, batch.device).accepted;
      Known(Ingest(db, batch).0, batch.device).accepted < a
      <==> exists e :: e in batch.events && e.sequence <= a && !SameStored(db, e)
  {
    hide EdgeOk, PersistAll, Continue, LowestBlocking, SameStored;
    var a := Known(db, batch.device).accepted;
    ConflictsBelow(db, batch.device, batch.events, a);
    var stored := PersistAll(db, batch.events).0;
    var lowest := LowestBlocking(stored.exceptions, batch.device);
    AcceptedIsExact(db, batch);
    assert lowest.Some? && lowest.value <= a <==>
      exists x :: x in stored.exceptions && Blocks(x, batch.device) && x.sequence <= a;
    LowestIsPositive(db, batch);
  }

  lemma {:induction false} LowestIsPositive(db: Edge, batch: Batch)
    requires BelowConflicts(db) && batch.Valid()
    ensures var lowest := LowestBlocking(PersistAll(db, batch.events).0.exceptions, batch.device);
      lowest.Some? ==> lowest.value > 0
  {
    hide PersistAll, LowestBlocking;
    PersistRaisesOwn(db, batch.device, batch.events);
  }

  const NO_EVENTS := Edge(map[], map[], map[], [])

  /** The first event of a device is accepted and acknowledged. */
  lemma {:induction false} FirstAccepted(e: Envelope)
    requires e.device == "till" && e.sequence == 1
    ensures var db := Ingest(NO_EVENTS, Batch("till", [e])).0;
      EdgeOk(db) && BelowConflicts(db) && Known(db, "till").accepted == 1 && db.events == map[e.instance := e]
  {
    hide Continue, LowestBlocking, EdgeOk;
    var batch := Batch("till", [e]);
    NoEventsOk();
    assert [] + [e] == [e];
    PersistOneMore(NO_EVENTS, [], e);
    AcceptedIsExact(NO_EVENTS, batch);
    IngestStaysBelow(NO_EVENTS, batch);
    var db := Ingest(NO_EVENTS, batch).0;
    assert Sequences(db, "till") == {1} by { assert db.events[e.instance].sequence in Sequences(db, "till"); }
    ContinueUnique({1}, 0, 1);
    assert LowestBlocking([], "till").None?;
  }

  lemma {:induction false} NoEventsOk()
    ensures EdgeOk(NO_EVENTS) && BelowConflicts(NO_EVENTS)
  {
  }

  /** A device sends an event and then a different one under its sequence: the acknowledgement drops to zero. */
  lemma {:induction false} WatermarkCanGoBack() returns (first: Batch, second: Batch)
    ensures first.Valid() && second.Valid() && first.device == second.device
    ensures var db := Ingest(NO_EVENTS, first).0;
      Known(Ingest(db, second).0, second.device).accepted < Known(db, first.device).accepted
  {
    hide Ingest, Continue, EdgeOk, BelowConflicts;
    var sale := Envelope("a", "till", 1, "o", NotAnOrder, "");
    var reuse := Envelope("b", "till", 1, "o", NotAnOrder, "");
    first, second := Batch("till", [sale]), Batch("till", [reuse]);
    FirstAccepted(sale);
    var db := Ingest(NO_EVENTS, first).0;
    assert reuse in second.events && !SameStored(db, reuse);
    WatermarkGoesBackExactlyWhen(db, second);
  }

  // ---------- which events go on to inventory ----------

  /** The controller passes on every event of the batch whose instance id has a receipt that is no conflict. */
  predicate PassedOn(events: seq<Envelope>, statuses: seq<Status>, k: nat)
    requires |events| == |statuses| && k < |events|
  {
    exists j :: 0 <= j < |events| && statuses[j] != Conflict && events[j].instance == events[k].instance
  }

  predicate Settled(db: Edge, e: Envelope) { e.instance in db.events || SequenceTaken(db, e) }

  lemma {:induction false} SettledStays(db: Edge, e: Envelope, next: Envelope)
    requires Settled(db, e)
    ensures Settled(Persist(db, next).0, e) && (SameStored(Persist(db, next).0, e) <==> SameStored(db, e))
  {
    if e.instance !in db.events {
      var i :| i in db.events && db.events[i].device == e.device && db.events[i].sequence == e.sequence;
      assert i in Persist(db, next).0.events && Persist(db, next).0.events[i] == db.events[i];
    }
  }

  /** A receipt is a conflict exactly when the event is not the one that ends up stored under its instance id. */
  lemma {:induction false} ReceiptsTell(db: Edge, events: seq<Envelope>)
    ensures var (after, statuses) := PersistAll(db, events);
      forall k :: 0 <= k < |events| ==>
        Settled(after, events[k]) && (statuses[k] != Conflict <==> SameStored(after, events[k]))
    decreases |events|
  {
    hide Settled, SameStored;
    if events != [] {
      var n := |events| - 1;
      ReceiptsTell(db, events[..n]);
      var (before, statuses) := PersistAll(db, events[..n]);
      forall k | 0 <= k < n
        ensures Settled(Persist(before, events[n]).0, events[k])
        ensures SameStored(Persist(before, events[n]).0, events[k]) <==> SameStored(before, events[k])
      {
        assert events[..n][k] == events[k];
        SettledStays(before, events[k], events[n]);
      }
      LastReceipt(before, events[n]);
    }
  }

  lemma {:induction false} LastReceipt(db: Edge, e: Envelope)
    ensures Settled(Persist(db, e).0, e)
    ensures Persist(db, e).1 != Conflict <==> SameStored(Persist(db, e).0, e)
  {
  }

  /** The event is stored: its id and its slot are free, and no earlier event of the batch takes either. */
  ghost predicate Wins(db: Edge, events: seq<Envelope>, k: nat)
    requires k < |events|
    decreases k
  {
    && events[k].instance !in db.events && !SequenceTaken(db, events[k])
    && forall j: nat :: j < k && Wins(db, events, j) ==>
         events[j].instance != events[k].instance && !SameSlot(events[j], events[k])
  }

  /** The table after n events: what was there before, and the winners among them. */
  ghost predicate HoldsWinners(db: Edge, events: seq<Envelope>, n: nat, after: Edge)
    requires n <= |events|
  {
    && (forall i :: i in db.events ==> i in after.events && after.events[i] == db.events[i])
    && (forall k: nat :: k < n && Wins(db, events, k) ==>
          events[k].instance in after.events && after.events[events[k].instance] == events[k])
    && (forall i :: i in after.events && i !in db.events ==>
          exists k: nat :: k < n && Wins(db, events, k) && events[k].instance == i)
  }

  /** The next event is stored exactly when it wins. */
  lemma {:induction false} NextWins(db: Edge, events: seq<Envelope>, n: nat, before: Edge)
    requires n < |events| && HoldsWinners(db, events, n, before)
    ensures Wins(db, events, n) <==> events[n].instance !in before.events && !SequenceTaken(before, events[n])
  {
    var e := events[n];
    if Wins(db, events, n) {
      forall i | i in before.events ensures i != e.instance && !SameSlot(before.events[i], e) {
        if i !in db.events {
          var k: nat :| k < n && Wins(db, events, k) && events[k].instance == i;
          assert before.events[i] == events[k];
        }
      }
    }
  }

  lemma {:induction false} PersistTable(db: Edge, e: Envelope)
    ensures var (after, status) := Persist(db, e);
      && (status == Accepted <==> e.instance !in db.events && !SequenceTaken(db, e))
      && after.events == if status == Accepted then db.events[e.instance := e] else db.events
  {
  }

  lemma {:induction false} StoredNext(db: Edge, events: seq<Envelope>, n: nat, before: Edge, after: Edge)
    requires n < |events| && HoldsWinners(db, events, n, before)
    requires if Wins(db, events, n)
      then events[n].instance !in before.events && after.events == before.events[events[n].instance := events[n]]
      else after.events == before.events
    ensures HoldsWinners(db, events, n + 1, after)
  {
    hide Wins;
    forall i | i in after.events && i !in db.events
      ensures exists k: nat :: k < n + 1 && Wins(db, events, k) && events[k].instance == i
    {
      if i in before.events {
        var k: nat :| k < n && Wins(db, events, k) && events[k].instance == i;
        assert k < n + 1 && Wins(db, events, k);
      } else {
        assert Wins(db, events, n);
      }
    }
  }

  lemma {:induction false} PersistOneMore(db: Edge, events: seq<Envelope>, e: Envelope)
    ensures var (before, statuses) := PersistAll(db, events);
      PersistAll(db, events + [e]) == (Persist(before, e).0, statuses + [Persist(before, e).1])
  {
    assert (events + [e])[..|events|] == events;
  }

  lemma {:induction false} NoWinners(db: Edge, events: seq<Envelope>)
    ensures HoldsWinners(db, events, 0, db) && PersistAll(db, []) == (db, [])
  {
  }

  lemma {:induction false} AcceptedUpTo(db: Edge, events: seq<Envelope>, n: nat)
    requires n <= |events|
    ensures forall k: nat :: k < n ==> (PersistAll(db, events[..n]).1[k] == Accepted <==> Wins(db, events, k))
    ensures HoldsWinners(db, events, n, PersistAll(db, events[..n]).0)
    decreases n
  {
    hide Wins, HoldsWinners, SequenceTaken, Persist, PersistAll;
    if n == 0 {
      NoWinners(db, events);
    } else {
      var e := events[n - 1];
      AcceptedUpTo(db, events, n - 1);
      assert events[..n] == events[..n - 1] + [e];
      PersistOneMore(db, events[..n - 1], e);
      var before := PersistAll(db, events[..n - 1]).0;
      NextWins(db, events, n - 1, before);
      PersistTable(before, e);
      StoredNext(db, events, n - 1, before, Persist(before, e).0);
    }
  }

  /** Exactly the winners are accepted, and the table then holds what it held and the winners. */
  lemma {:induction false} AcceptedExactlyWhen(db: Edge, events: seq<Envelope>)
    ensures var (after, statuses) := PersistAll(db, events);
      && (forall k: nat :: k < |events| ==> (statuses[k] == Accepted <==> Wins(db, events, k)))
      && HoldsWinners(db, events, |events|, after)
  {
    hide Wins, HoldsWinners, PersistAll;
    AcceptedUpTo(db, events, |events|);
    assert events[..|events|] == events;
  }

  /** Everything that goes on to inventory is what is stored under its instance id. */
  ghost predicate OnlyStoredPassedOn(db: Edge, events: seq<Envelope>) {
    var (after, statuses) := PersistAll(db, events);
    forall k :: 0 <= k < |events| && PassedOn(events, statuses, k) ==> SameStored(after, events[k])
  }

  predicate OneContentPerId(events: seq<Envelope>) {
    forall j, k :: 0 <= j < |events| && 0 <= k < |events| && events[j].instance == events[k].instance ==>
      events[j] == events[k]
  }

  /** The event is the stored one before the batch, or becomes it. */
  ghost predicate Kept(db: Edge, events: seq<Envelope>, k: nat)
    requires k < |events|
  {
    SameStored(db, events[k]) || Wins(db, events, k)
  }

  /**
   Read off the tables and the batch before the call: something other than the stored content goes on
   to inventory exactly when the batch holds two different events under one id, one of which is kept.
   */
  lemma {:induction false} PassedOnIsStoredExactlyWhen(db: Edge, events: seq<Envelope>)
    ensures OnlyStoredPassedOn(db, events)
      <==> forall j: nat, k: nat ::
             (j < |events| && k < |events| && Kept(db, events, j) && events[j].instance == events[k].instance) ==>
               events[j] == events[k]
  {
    hide PersistAll, Wins;
    ReceiptsTell(db, events);
    AcceptedExactlyWhen(db, events);
    var (after, statuses) := PersistAll(db, events);
    forall k: nat | k < |events| && statuses[k] != Conflict
      ensures exists j: nat :: j < |events| && Kept(db, events, j) && events[j] == events[k]
    {
      assert SameStored(after, events[k]);
      if events[k].instance in db.events {
        assert Kept(db, events, k);
      } else {
        var j: nat :| j < |events| && Wins(db, events, j) && events[j].instance == events[k].instance;
        assert Kept(db, events, j);
      }
    }
    forall j: nat | j < |events| && Kept(db, events, j) ensures SameStored(after, events[j]) && statuses[j] != Conflict { }
    if OnlyStoredPassedOn(db, events) {
      forall j: nat, k: nat | j < |events| && k < |events| && Kept(db, events, j) && events[j].instance == events[k].instance
        ensures events[j] == events[k]
      {
        assert PassedOn(events, statuses, k);
      }
    }
  }

  /** An Edge that holds one event and nothing else. */
  function HoldingOnly(e: Envelope): Edge {
    Edge(map[e.instance := e], map[e.instance := OutboxRow(e, false, 0)], map[], [])
  }

  /**
   Read off the batch alone: whatever the Edge holds, only stored content goes on to inventory, exactly
   when no two different events of the batch share an instance id.
   */
  lemma {:induction false} EveryEdgePassesOnStoredExactlyWhen(batch: Batch)
    requires batch.Valid()
    ensures (forall db :: EdgeOk(db) ==> OnlyStoredPassedOn(db, batch.events)) <==> OneContentPerId(batch.events)
  {
    hide OnlyStoredPassedOn, Wins;
    var events := batch.events;
    forall db | EdgeOk(db) && OneContentPerId(events) ensures OnlyStoredPassedOn(db, events) {
      PassedOnIsStoredExactlyWhen(db, events);
    }
    forall j: nat, k: nat | j < |events| && k < |events| && events[j].instance == events[k].instance && events[j] != events[k]
      ensures EdgeOk(HoldingOnly(events[j])) && !OnlyStoredPassedOn(HoldingOnly(events[j]), events)
    {
      assert events[j] in events;
      PassedOnIsStoredExactlyWhen(HoldingOnly(events[j]), events);
      assert Kept(HoldingOnly(events[j]), events, j);
    }
  }
}
