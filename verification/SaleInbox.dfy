/**
 The sale inbox of an Edge.  Every stored cash sale has a row that says whether it has been consumed; a
 timer consumes the rows that are still pending.  Requests, timer rounds, installs and every other stock
 operation interleave freely, and a request may stop anywhere.
 */
module SaleInbox {
  import opened Common
  import opened InventoryLedger
  import opened SaleConsumption
  import opened InventoryRuns
  import opened SaleForwarding
  import Sync = DeviceSync
  import SyncEvents

  type Event = SyncEvents.Envelope

  /** No outcome: the row has not been processed. */
  datatype InboxRow = InboxRow(envelope: Event, outcome: Option<Outcome>)

  type Inbox = map<string, InboxRow>

  /** History: an event whose consumption committed, under which configuration, and how it ended. */
  datatype Commit = Commit(event: Event, config: Config, outcome: Outcome)

  /** A task is what a request, or the timer for one row, has read and still has to consume. */
  datatype World = World(
    edge: Sync.Edge, store: Store, inbox: Inbox, tasks: seq<seq<Event>>, commits: seq<Commit>)

  datatype Step =
    | Deliver(batch: Sync.Batch)
    | Wake(id: string)
    | Work(task: nat, keys: seq<MovementKey>)
    | Other(op: Op)

  const EmptyWorld := World(Sync.NO_EVENTS, EmptyStore, map[], [], [])

  // ---------- one step ----------

  /** The trigger on stored events: a new cash sale gets a row. */
  function Queue(read: Reader, inbox: Inbox, events: map<string, Event>): Inbox {
    inbox + map i | i in events && i !in inbox && read(events[i]) != Skipped :: InboxRow(events[i], None)
  }

  /** Sets the outcome of the instance's row, if it has one, whatever it was before. */
  function MarkProcessed(inbox: Inbox, instance: string, outcome: Outcome): Inbox {
    if instance in inbox then inbox[instance := inbox[instance].(outcome := Some(outcome))] else inbox
  }

  function JobFor(read: Reader, config: Config, e: Event, keys: seq<MovementKey>): Job
    requires read(e) != Skipped
  {
    Job(config, SaleOf(read, e).value, keys)
  }

  ghost predicate Enabled(read: Reader, w: World, step: Step) {
    match step
    case Deliver(batch) => batch.Valid()
    case Wake(id) => id in w.inbox && w.inbox[id].outcome.None?
    case Work(t, keys) =>
      && t < |w.tasks| && w.tasks[t] != [] && read(w.tasks[t][0]) != Skipped
      && JobFor(read, w.store.config, w.tasks[t][0], keys).Valid()
    case Other(op) => !op.ConsumeOp? && Sensible(w.store, op)
  }

  /** One event of a task: a commit goes on to the next event, a failure ends the task. */
  function Worked(read: Reader, w: World, t: nat, keys: seq<MovementKey>): World
    requires t < |w.tasks| && w.tasks[t] != [] && read(w.tasks[t][0]) != Skipped
    requires JobFor(read, w.store.config, w.tasks[t][0], keys).Valid()
  {
    var e := w.tasks[t][0];
    var sale := SaleOf(read, e).value;
    match Consume(w.store.stock.ledger, w.store.config, sale, keys)
    case Err(_) => w.(tasks := w.tasks[t := []])
    case Ok(consumed) =>
      World(w.edge, AfterSale(w.store, sale, consumed), MarkProcessed(w.inbox, e.instance, consumed.outcome),
            w.tasks[t := w.tasks[t][1..]], w.commits + [Commit(e, w.store.config, consumed.outcome)])
  }

  function Delivered(read: Reader, w: World, batch: Sync.Batch): World
    requires batch.Valid()
  {
    var (edge, statuses) := Sync.Ingest(w.edge, batch);
    w.(edge := edge, inbox := Queue(read, w.inbox, edge.events),
       tasks := w.tasks + [Forwarded(read, batch.events, statuses, |batch.events|)])
  }

  function Next(read: Reader, w: World, step: Step): World
    requires Enabled(read, w, step)
  {
    match step
    case Deliver(batch) => Delivered(read, w, batch)
    case Wake(id) => w.(tasks := w.tasks + [[w.inbox[id].envelope]])
    case Work(t, keys) => Worked(read, w, t, keys)
    case Other(op) => w.(store := InventoryRuns.Next(w.store, op))
  }

  // ---------- what every step keeps ----------

  /** The outcome of the last commit under an instance id. */
  function LastUnder(commits: seq<Commit>, instance: string): Option<Outcome> {
    if commits == [] then None
    else
      var n := |commits| - 1;
      if commits[n].event.instance == instance then Some(commits[n].outcome) else LastUnder(commits[..n], instance)
  }

  /** The inbox holds exactly the stored cash sales, each marked as the last commit under its id says. */
  ghost predicate InboxOk(read: Reader, events: map<string, Event>, inbox: Inbox, commits: seq<Commit>) {
    && (forall i :: i in inbox <==> i in events && read(events[i]) != Skipped)
    && (forall i :: i in inbox ==> inbox[i].envelope == events[i] && inbox[i].outcome == LastUnder(commits, i))
  }

  /** Only sales are consumed, and only under ids that are stored. */
  ghost predicate IsKnown(read: Reader, events: map<string, Event>, e: Event) {
    e.instance in events && read(e) != Skipped
  }

  ghost predicate CommitOk(read: Reader, events: map<string, Event>, applied: set<(Config, Envelope)>, c: Commit) {
    && IsKnown(read, events, c.event)
    && match c.outcome
       case Applied => (c.config, SaleOf(read, c.event).value) in applied
       case Excepted(problem) => PlanOf(c.config, SaleOf(read, c.event).value) == Err(problem)
  }

  ghost predicate WorldOk(read: Reader, w: World) {
    && Sync.EdgeOk(w.edge) && StoreOk(w.store)
    && InboxOk(read, w.edge.events, w.inbox, w.commits)
    && (forall t, e :: 0 <= t < |w.tasks| && e in w.tasks[t] ==> IsKnown(read, w.edge.events, e))
    && (forall c :: c in w.commits ==> CommitOk(read, w.edge.events, w.store.applied, c))
  }

  lemma {:induction false} LastOneMore(commits: seq<Commit>, c: Commit, instance: string)
    ensures LastUnder(commits + [c], instance) ==
      if c.event.instance == instance then Some(c.outcome) else LastUnder(commits, instance)
  {
    assert (commits + [c])[..|commits|] == commits;
  }

  lemma {:induction false} NoneUnder(commits: seq<Commit>, instance: string)
    ensures LastUnder(commits, instance).None? <==> forall c :: c in commits ==> c.event.instance != instance
    ensures LastUnder(commits, instance).Some? ==>
      exists c :: c in commits && c.event.instance == instance && c.outcome == LastUnder(commits, instance).value
    decreases |commits|
  {
    if commits != [] {
      var n := |commits| - 1;
      assert commits == commits[..n] + [commits[n]];
      NoneUnder(commits[..n], instance);
      assert commits[n] in commits;
    }
  }

  lemma {:induction false} StepKeeps(read: Reader, w: World, step: Step)
    requires WorldOk(read, w) && Enabled(read, w, step)
    ensures WorldOk(read, Next(read, w, step))
  {
    hide Sync.EdgeOk, StoreOk, InboxOk, CommitOk, IsKnown, Delivered, Worked, InventoryRuns.Next, Sensible;
    match step
    case Deliver(batch) => DeliverKeeps(read, w, batch);
    case Wake(id) => WakeKnown(read, w, id);
    case Work(t, keys) => WorkKeeps(read, w, t, keys);
    case Other(op) =>
      OpKeeps(w.store, op);
      forall c | c in w.commits ensures CommitOk(read, w.edge.events, InventoryRuns.Next(w.store, op).applied, c) {
        OtherOpApplied(w.store, op);
      }
  }

  lemma {:induction false} WakeKnown(read: Reader, w: World, id: string)
    requires WorldOk(read, w) && id in w.inbox
    ensures IsKnown(read, w.edge.events, w.inbox[id].envelope)
  {
    hide StoreOk;
    assert w.edge.events[id].instance == id;
  }

  lemma {:induction false} CommitStays(read: Reader, events: map<string, Event>, events': map<string, Event>,
                                       applied: set<(Config, Envelope)>, applied': set<(Config, Envelope)>, c: Commit)
    requires CommitOk(read, events, applied, c) && applied <= applied'
    requires forall i :: i in events ==> i in events' && events'[i] == events[i]
    ensures CommitOk(read, events', applied', c)
  {
    hide PlanOf;
  }

  lemma {:induction false} DeliveredEdge(db: Sync.Edge, batch: Sync.Batch)
    requires Sync.EdgeOk(db) && batch.Valid()
    ensures var (after, statuses) := Sync.Ingest(db, batch);
      && Sync.EdgeOk(after) && Sync.Grows(db, after)
      && after.events == Sync.PersistAll(db, batch.events).0.events && statuses == Sync.PersistAll(db, batch.events).1
  {
    hide Sync.EdgeOk, Sync.Grows, Sync.PersistAll, Sync.Continue, Sync.LowestBlocking;
    Sync.AcceptedIsExact(db, batch);
  }

  /** What a batch passes on is stored under its id, and is the stored event unless another one of the batch is. */
  lemma {:induction false} PassedOnKnown(db: Sync.Edge, events: seq<Event>, k: nat)
    requires k < |events| && Sync.PassedOn(events, Sync.PersistAll(db, events).1, k)
    ensures var after := Sync.PersistAll(db, events).0;
      exists j :: 0 <= j < |events| && events[j].instance == events[k].instance && Sync.SameStored(after, events[j])
  {
    hide Sync.PersistAll, Sync.SameStored;
    Sync.ReceiptsTell(db, events);
  }

  lemma {:induction false} ForwardedPassed(read: Reader, events: seq<Event>, statuses: seq<Sync.Status>, n: nat,
                                           e: Event)
    requires n <= |events| == |statuses| && e in Forwarded(read, events, statuses, n)
    ensures exists k :: 0 <= k < n && events[k] == e && Sync.PassedOn(events, statuses, k) && read(e) != Skipped
    decreases n
  {
    hide Sync.PassedOn;
    if n > 0 && e in Forwarded(read, events, statuses, n - 1) { ForwardedPassed(read, events, statuses, n - 1, e); }
  }

  lemma {:induction false} ForwardedKnown(read: Reader, db: Sync.Edge, events: seq<Event>, e: Event)
    requires e in Forwarded(read, events, Sync.PersistAll(db, events).1, |events|)
    ensures IsKnown(read, Sync.PersistAll(db, events).0.events, e)
  {
    hide Sync.PersistAll, Sync.PassedOn, Forwarded;
    var statuses := Sync.PersistAll(db, events).1;
    ForwardedPassed(read, events, statuses, |events|, e);
    var k :| 0 <= k < |events| && events[k] == e && Sync.PassedOn(events, statuses, k);
    PassedOnKnown(db, events, k);
  }

  lemma {:induction false} QueueOk(read: Reader, events: map<string, Event>, events': map<string, Event>, inbox: Inbox,
                                   commits: seq<Commit>)
    requires InboxOk(read, events, inbox, commits)
    requires forall i :: i in events ==> i in events' && events'[i] == events[i]
    requires forall c :: c in commits ==> c.event.instance in events
    ensures InboxOk(read, events', Queue(read, inbox, events'), commits)
  {
    forall i | i in events' && i !in events ensures LastUnder(commits, i).None? { NoneUnder(commits, i); }
  }

  lemma {:induction false} DeliverKeeps(read: Reader, w: World, batch: Sync.Batch)
    requires WorldOk(read, w) && batch.Valid()
    ensures WorldOk(read, Delivered(read, w, batch))
  {
    hide Sync.EdgeOk, StoreOk, InboxOk, CommitOk, Sync.Ingest, Forwarded, Queue, Sync.PersistAll;
    DeliveredEdge(w.edge, batch);
    var after := Delivered(read, w, batch);
    var events, events' := w.edge.events, after.edge.events;
    forall c | c in w.commits ensures c.event.instance in events && CommitOk(read, events', w.store.applied, c) {
      CommitKnown(read, events, w.store.applied, c);
      CommitStays(read, events, events', w.store.applied, w.store.applied, c);
    }
    QueueOk(read, events, events', w.inbox, w.commits);
    forall t, e | 0 <= t < |after.tasks| && e in after.tasks[t] ensures IsKnown(read, events', e) {
      if t < |w.tasks| {
        assert after.tasks[t] == w.tasks[t] && IsKnown(read, events, e);
      } else {
        ForwardedKnown(read, w.edge, batch.events, e);
      }
    }
  }

  lemma {:induction false} CommitKnown(read: Reader, events: map<string, Event>, applied: set<(Config, Envelope)>,
                                       c: Commit)
    requires CommitOk(read, events, applied, c)
    ensures IsKnown(read, events, c.event)
  {
  }

  /** The store after a commit is the store after the corresponding stock operation. */
  lemma {:induction false} ConsumedStore(st: Store, sale: Envelope, keys: seq<MovementKey>)
    requires StoreOk(st) && Sensible(st, ConsumeOp(sale, keys)) && Consume(st.stock.ledger, st.config, sale, keys).Ok?
    ensures var consumed := Consume(st.stock.ledger, st.config, sale, keys).value;
      && StoreOk(AfterSale(st, sale, consumed)) && st.applied <= AfterSale(st, sale, consumed).applied
      && match consumed.outcome
         case Applied => (st.config, sale) in AfterSale(st, sale, consumed).applied
         case Excepted(problem) => PlanOf(st.config, sale) == Err(problem)
  {
    hide StoreOk, PlanOf, InsertAll, SaleInputs;
    OpKeeps(st, ConsumeOp(sale, keys));
  }

  lemma {:induction false} MarkOk(read: Reader, events: map<string, Event>, inbox: Inbox, commits: seq<Commit>,
                                  c: Commit)
    requires InboxOk(read, events, inbox, commits)
    ensures InboxOk(read, events, MarkProcessed(inbox, c.event.instance, c.outcome), commits + [c])
  {
    hide LastUnder;
    forall i ensures LastUnder(commits + [c], i) ==
      if c.event.instance == i then Some(c.outcome) else LastUnder(commits, i)
    {
      LastOneMore(commits, c, i);
    }
  }

  lemma {:induction false} WorkKeeps(read: Reader, w: World, t: nat, keys: seq<MovementKey>)
    requires WorldOk(read, w) && Enabled(read, w, Work(t, keys))
    ensures WorldOk(read, Worked(read, w, t, keys))
  {
    hide Sync.EdgeOk, StoreOk, InboxOk, PlanOf, Consume, AfterSale, MarkProcessed, LastUnder;
    var e := w.tasks[t][0];
    var sale := SaleOf(read, e).value;
    var after := Worked(read, w, t, keys);
    assert e in w.tasks[t];
    forall s, x | 0 <= s < |after.tasks| && x in after.tasks[s] ensures IsKnown(read, w.edge.events, x) {
      assert x in w.tasks[s];
    }
    if Consume(w.store.stock.ledger, w.store.config, sale, keys).Ok? {
      ConsumedStore(w.store, sale, keys);
      var outcome := Consume(w.store.stock.ledger, w.store.config, sale, keys).value.outcome;
      var c := Commit(e, w.store.config, outcome);
      MarkOk(read, w.edge.events, w.inbox, w.commits, c);
      forall x | x in after.commits ensures CommitOk(read, w.edge.events, after.store.applied, x) {
        if x in w.commits { CommitStays(read, w.edge.events, w.edge.events, w.store.applied, after.store.applied, x); }
      }
    }
  }

  // ---------- every run ----------

  ghost function Run(read: Reader, w: World, steps: seq<Step>): (res: Option<World>)
    requires WorldOk(read, w)
    ensures res.Some? ==> WorldOk(read, res.value)
    decreases |steps|
  {
    if steps == [] then Some(w)
    else if !Enabled(read, w, steps[0]) then None
    else
      StepKeeps(read, w, steps[0]);
      Run(read, Next(read, w, steps[0]), steps[1..])
  }

  lemma {:induction false} EmptyWorldOk(read: Reader)
    ensures WorldOk(read, EmptyWorld)
  {
    hide StoreOk;
    EmptyStoreHolds();
    Sync.NoEventsOk();
  }

  ghost predicate Reachable(read: Reader, steps: seq<Step>, w: World) {
    EmptyWorldOk(read);
    Run(read, EmptyWorld, steps) == Some(w)
  }

  lemma {:induction false} ReachableOk(read: Reader, steps: seq<Step>, w: World)
    requires Reachable(read, steps, w)
    ensures WorldOk(read, w)
  {
    hide WorldOk, Enabled, Next;
    EmptyWorldOk(read);
  }

  // ---------- what a row tells ----------

  /**
   A row is pending exactly while nothing under its id has been consumed, and otherwise says how the last
   event under its id ended; every event whose consumption was applied is in the ledger.
   */
  lemma {:induction false} RowTells(read: Reader, steps: seq<Step>, w: World, i: string)
    requires Reachable(read, steps, w) && i in w.inbox
    ensures i in w.edge.events && w.inbox[i].envelope == w.edge.events[i]
    ensures w.inbox[i].outcome.None? <==> forall c :: c in w.commits ==> c.event.instance != i
    ensures w.inbox[i].outcome.Some? ==>
      exists c :: c in w.commits && c.event.instance == i && c.outcome == w.inbox[i].outcome.value
    ensures forall c :: c in w.commits && c.outcome == Applied ==>
      read(c.event) != Skipped && PostedFor(c.config, w.store.stock.ledger, SaleOf(read, c.event).value)
  {
    hide Sync.EdgeOk, StoreOk, Reachable, PlanOf, PostedFor, LastUnder;
    ReachableOk(read, steps, w);
    NoneUnder(w.commits, i);
    forall c | c in w.commits && c.outcome == Applied
      ensures read(c.event) != Skipped && PostedFor(c.config, w.store.stock.ledger, SaleOf(read, c.event).value)
    {
      assert CommitOk(read, w.edge.events, w.store.applied, c);
      StorePosted(w.store, (c.config, SaleOf(read, c.event).value));
    }
  }

  lemma {:induction false} StorePosted(st: Store, a: (Config, Envelope))
    requires StoreOk(st) && a in st.applied
    ensures PostedFor(a.0, st.stock.ledger, a.1)
  {
    hide BooksOk, SalesOk;
    AppliedIsPosted(st.stock.ledger, st.outcomes, st.applied, a);
  }

  /** Marked rows stay marked, so the timer never takes them again. */
  lemma {:induction false} MarkedStays(read: Reader, w: World, steps: seq<Step>, i: string)
    requires WorldOk(read, w) && Run(read, w, steps).Some? && i in w.inbox && w.inbox[i].outcome.Some?
    ensures i in Run(read, w, steps).value.inbox && Run(read, w, steps).value.inbox[i].outcome.Some?
    decreases |steps|
  {
    hide WorldOk, Enabled, Sync.Ingest, Forwarded, Consume, AfterSale, InventoryRuns.Next, Sensible;
    if steps != [] {
      StepKeeps(read, w, steps[0]);
      MarkedOnce(read, w, steps[0], i);
      MarkedStays(read, Next(read, w, steps[0]), steps[1..], i);
    }
  }

  lemma {:induction false} MarkedOnce(read: Reader, w: World, step: Step, i: string)
    requires Enabled(read, w, step) && i in w.inbox && w.inbox[i].outcome.Some?
    ensures i in Next(read, w, step).inbox && Next(read, w, step).inbox[i].outcome.Some?
  {
    hide Sync.Ingest, Forwarded, Consume, AfterSale, InventoryRuns.Next, Sensible, PlanOf;
  }

  /**
   The timer takes a pending row: it ends excepted when the sale is not usable, posted when all its
   movements fit, and otherwise it stays pending and nothing has changed.
   */
  lemma {:induction false} TimerSettlesExactlyWhen(read: Reader, steps: seq<Step>, w: World, i: string,
                                                   keys: seq<MovementKey>)
    requires Reachable(read, steps, w) && Enabled(read, w, Wake(i))
    requires Enabled(read, Next(read, w, Wake(i)), Work(|w.tasks|, keys))
    ensures var after := Next(read, Next(read, w, Wake(i)), Work(|w.tasks|, keys));
      var e := w.inbox[i].envelope;
      && read(e) != Skipped && i in after.inbox
      && var sale := SaleOf(read, e).value;
      match PlanOf(w.store.config, sale)
      case Err(problem) => after.inbox[i].outcome == Some(Excepted(problem)) && after.store.stock == w.store.stock
      case Ok(plan) =>
        if forall key :: key in plan.movements ==> Fits(w.store.stock.ledger, sale, plan, key)
        then after.inbox[i].outcome == Some(Applied) && PostedFor(w.store.config, after.store.stock.ledger, sale)
        else after.inbox == w.inbox && after.store == w.store
  {
    hide Sync.EdgeOk, BooksOk, SalesOk, Reachable, PlanOf, PostedFor, LastUnder, Fits, InsertAll, SaleInputs;
    ReachableOk(read, steps, w);
    var e := w.inbox[i].envelope;
    assert e.instance == i by { WakeInstance(read, w, i); }
    var sale := SaleOf(read, e).value;
    if PlanOf(w.store.config, sale).Ok? {
      LedgerIsOk(w.store);
      ConsumeExactly(w.store.stock.ledger, w.store.config, sale, keys);
    }
  }

  lemma {:induction false} LedgerIsOk(st: Store)
    requires StoreOk(st)
    ensures LedgerOk(st.stock.ledger)
  {
    hide SalesOk, LedgerOk;
  }

  lemma {:induction false} WakeInstance(read: Reader, w: World, i: string)
    requires WorldOk(read, w) && i in w.inbox
    ensures w.inbox[i].envelope.instance == i && read(w.inbox[i].envelope) != Skipped
  {
    hide StoreOk;
  }

  // ---------- no sale is lost ----------

  /** No two different sales of the batch share an instance id. */
  ghost predicate OneSalePerId(read: Reader, events: seq<Event>) {
    forall j, k ::
      (&& 0 <= j < |events| && 0 <= k < |events| && events[j].instance == events[k].instance
       && read(events[j]) != Skipped && read(events[k]) != Skipped) ==> events[j] == events[k]
  }

  /** What is consumed under the id of a row is the row's own sale. */
  ghost predicate IsOwn(inbox: Inbox, e: Event) { e.instance in inbox ==> e == inbox[e.instance].envelope }

  ghost predicate OwnOnly(w: World) {
    && (forall t, e :: 0 <= t < |w.tasks| && e in w.tasks[t] ==> IsOwn(w.inbox, e))
    && (forall c :: c in w.commits ==> IsOwn(w.inbox, c.event))
  }

  /** The event's own consumption has committed. */
  ghost predicate WasConsumed(commits: seq<Commit>, e: Event) { exists c :: c in commits && c.event == e }

  /** No row is marked without its own sale having been consumed. */
  ghost predicate NoneLost(w: World) {
    forall i :: i in w.inbox && w.inbox[i].outcome.Some? ==> WasConsumed(w.commits, w.inbox[i].envelope)
  }

  ghost predicate IsClean(read: Reader, step: Step) { step.Deliver? ==> OneSalePerId(read, step.batch.events) }

  lemma {:induction false} OwnIsNotLost(read: Reader, w: World)
    requires WorldOk(read, w) && OwnOnly(w)
    ensures NoneLost(w)
  {
    hide Sync.EdgeOk, StoreOk, CommitOk, LastUnder;
    forall i | i in w.inbox && w.inbox[i].outcome.Some? ensures WasConsumed(w.commits, w.inbox[i].envelope) {
      NoneUnder(w.commits, i);
      var c :| c in w.commits && c.event.instance == i;
      assert IsOwn(w.inbox, c.event);
    }
  }

  /** Old rows and old events under their ids are as they were. */
  lemma {:induction false} OwnStays(read: Reader, w: World, events': map<string, Event>, e: Event)
    requires InboxOk(read, w.edge.events, w.inbox, w.commits) && IsKnown(read, w.edge.events, e) && IsOwn(w.inbox, e)
    requires forall i :: i in w.edge.events ==> i in events' && events'[i] == w.edge.events[i]
    ensures IsOwn(Queue(read, w.inbox, events'), e)
  {
    hide LastUnder;
  }

  lemma {:induction false} CleanForwardsOwn(read: Reader, db: Sync.Edge, events: seq<Event>, e: Event)
    requires OneSalePerId(read, events)
    requires e in Forwarded(read, events, Sync.PersistAll(db, events).1, |events|)
    ensures var stored := Sync.PersistAll(db, events).0.events;
      e.instance in stored && (read(stored[e.instance]) != Skipped ==> stored[e.instance] == e)
  {
    hide Sync.PersistAll, Sync.PassedOn, Forwarded;
    var (after, statuses) := Sync.PersistAll(db, events);
    ForwardedPassed(read, events, statuses, |events|, e);
    var k :| 0 <= k < |events| && events[k] == e && Sync.PassedOn(events, statuses, k);
    PassedOnKnown(db, events, k);
    var j :| 0 <= j < |events| && events[j].instance == events[k].instance && Sync.SameStored(after, events[j]);
  }

  lemma {:induction false} CleanDeliverKeeps(read: Reader, w: World, batch: Sync.Batch)
    requires WorldOk(read, w) && OwnOnly(w) && batch.Valid() && OneSalePerId(read, batch.events)
    ensures OwnOnly(Delivered(read, w, batch))
  {
    hide Sync.EdgeOk, StoreOk, InboxOk, CommitOk, Sync.Ingest, Forwarded, Queue, Sync.PersistAll, OneSalePerId, IsOwn, IsKnown;
    DeliveredEdge(w.edge, batch);
    DeliverKeeps(read, w, batch);
    var after := Delivered(read, w, batch);
    forall c | c in w.commits ensures IsOwn(after.inbox, c.event) {
      CommitKnown(read, w.edge.events, w.store.applied, c);
      OwnStays(read, w, after.edge.events, c.event);
    }
    forall t, e | 0 <= t < |after.tasks| && e in after.tasks[t] ensures IsOwn(after.inbox, e) {
      if t < |w.tasks| {
        assert after.tasks[t] == w.tasks[t];
        OwnStays(read, w, after.edge.events, e);
      } else {
        CleanForwardsOwn(read, w.edge, batch.events, e);
        StoredIsOwn(read, after, e);
      }
    }
  }

  lemma {:induction false} StoredIsOwn(read: Reader, w: World, e: Event)
    requires InboxOk(read, w.edge.events, w.inbox, w.commits) && e.instance in w.edge.events
    requires read(w.edge.events[e.instance]) != Skipped ==> w.edge.events[e.instance] == e
    ensures IsOwn(w.inbox, e)
  {
    hide LastUnder;
  }

  lemma {:induction false} CleanStepKeeps(read: Reader, w: World, step: Step)
    requires WorldOk(read, w) && OwnOnly(w) && Enabled(read, w, step) && IsClean(read, step)
    ensures OwnOnly(Next(read, w, step))
  {
    hide WorldOk, Delivered, Consume, AfterSale, InventoryRuns.Next, Sensible, OneSalePerId;
    match step
    case Deliver(batch) => CleanDeliverKeeps(read, w, batch);
    case Wake(id) => WakeInstance(read, w, id);
    case Work(t, keys) => CleanWorkKeeps(read, w, t, keys);
    case Other(op) =>
  }

  lemma {:induction false} CleanWorkKeeps(read: Reader, w: World, t: nat, keys: seq<MovementKey>)
    requires OwnOnly(w) && Enabled(read, w, Work(t, keys))
    ensures OwnOnly(Worked(read, w, t, keys))
  {
    hide Consume, AfterSale, PlanOf, IsOwn;
    var after := Worked(read, w, t, keys);
    var e := w.tasks[t][0];
    assert e in w.tasks[t];
    forall x | IsOwn(w.inbox, x) ensures IsOwn(after.inbox, x) { MarkingKeepsOwn(read, w, t, keys, x); }
    forall s, x | 0 <= s < |after.tasks| && x in after.tasks[s] ensures IsOwn(after.inbox, x) {
      assert s != t ==> after.tasks[s] == w.tasks[s];
      assert x in w.tasks[s];
    }
    assert forall c :: c in after.commits ==> c in w.commits || c.event == e;
  }

  /** Marking a row leaves the sale it is about alone. */
  lemma {:induction false} MarkingKeepsOwn(read: Reader, w: World, t: nat, keys: seq<MovementKey>, x: Event)
    requires t < |w.tasks| && w.tasks[t] != [] && read(w.tasks[t][0]) != Skipped
    requires JobFor(read, w.store.config, w.tasks[t][0], keys).Valid()
    requires IsOwn(w.inbox, x)
    ensures IsOwn(Worked(read, w, t, keys).inbox, x)
  {
    hide Consume, AfterSale, PlanOf;
  }

  lemma {:induction false} CleanRunKeeps(read: Reader, w: World, steps: seq<Step>)
    requires WorldOk(read, w) && OwnOnly(w) && Run(read, w, steps).Some? && forall s :: s in steps ==> IsClean(read, s)
    ensures OwnOnly(Run(read, w, steps).value)
    decreases |steps|
  {
    hide WorldOk, OwnOnly, Enabled, Next, IsClean;
    if steps != [] {
      StepKeeps(read, w, steps[0]);
      CleanStepKeeps(read, w, steps[0]);
      CleanRunKeeps(read, Next(read, w, steps[0]), steps[1..]);
    }
  }

  lemma {:induction false} CleanReachable(read: Reader, steps: seq<Step>, w: World)
    requires Reachable(read, steps, w) && forall s :: s in steps ==> IsClean(read, s)
    ensures OwnOnly(w) && WorldOk(read, w)
  {
    hide WorldOk, Enabled, Next, IsClean;
    EmptyWorldOk(read);
    CleanRunKeeps(read, EmptyWorld, steps);
  }

  /**
   As long as no batch brings two different sales under one id, an accepted sale is pending, so that the
   timer may take it, or posted, or excepted for a reason of its own.
   */
  lemma {:induction false} CleanRunsLoseNothing(read: Reader, steps: seq<Step>, w: World, i: string)
    requires Reachable(read, steps, w) && forall s :: s in steps ==> IsClean(read, s)
    requires i in w.inbox
    ensures read(w.inbox[i].envelope) != Skipped
    ensures var sale := SaleOf(read, w.inbox[i].envelope).value;
      match w.inbox[i].outcome
      case None => Enabled(read, w, Wake(i))
      case Some(Applied) => exists config :: PostedFor(config, w.store.stock.ledger, sale)
      case Some(Excepted(problem)) => exists config :: PlanOf(config, sale) == Err(problem)
  {
    hide Reachable, PlanOf, PostedFor, IsClean, WorldOk;
    CleanReachable(read, steps, w);
    WakeInstance(read, w, i);
    if w.inbox[i].outcome.Some? {
      RowTells(read, steps, w, i);
      var c :| c in w.commits && c.event.instance == i && c.outcome == w.inbox[i].outcome.value;
      assert IsOwn(w.inbox, c.event);
      if c.outcome.Excepted? { ExceptedWhy(read, w, c); }
    }
  }

  lemma {:induction false} ExceptedWhy(read: Reader, w: World, c: Commit)
    requires WorldOk(read, w) && c in w.commits && c.outcome.Excepted?
    ensures read(c.event) != Skipped && PlanOf(c.config, SaleOf(read, c.event).value) == Err(c.outcome.problem)
  {
    hide StoreOk, PlanOf;
    assert CommitOk(read, w.edge.events, w.store.applied, c);
  }

  // ---------- a batch that can lose a sale ----------

  /** Besides this batch, only batches without two sales under one id. */
  ghost predicate OnlyDirty(read: Reader, steps: seq<Step>, batch: Sync.Batch) {
    forall s :: s in steps && s.Deliver? && s.batch != batch ==> OneSalePerId(read, s.batch.events)
  }

  lemma {:induction false} OneMoreStep(read: Reader, w: World, step: Step, steps: seq<Step>)
    requires WorldOk(read, w) && Enabled(read, w, step)
    ensures WorldOk(read, Next(read, w, step)) && Run(read, w, [step] + steps) == Run(read, Next(read, w, step), steps)
  {
    hide WorldOk, Enabled, Next;
    StepKeeps(read, w, step);
    assert ([step] + steps)[1..] == steps;
  }

  /** The first sale under an id, in the order of the batch. */
  function FirstSale(read: Reader, events: seq<Event>, i: string): Option<Event> {
    if events == [] then None
    else
      var n := |events| - 1;
      var before := FirstSale(read, events[..n], i);
      if before.Some? then before
      else if events[n].instance == i && read(events[n]) != Skipped then Some(events[n]) else None
  }

  lemma {:induction false} FirstSaleTells(read: Reader, events: seq<Event>, i: string)
    ensures var first := FirstSale(read, events, i);
      && (first.None? ==> forall e :: e in events ==> e.instance != i || read(e) == Skipped)
      && (first.Some? ==> first.value in events && first.value.instance == i && read(first.value) != Skipped)
    decreases |events|
  {
    if events != [] {
      var n := |events| - 1;
      FirstSaleTells(read, events[..n], i);
      assert events == events[..n] + [events[n]];
    }
  }

  lemma {:induction false} FirstSaleAt(read: Reader, events: seq<Event>, i: string) returns (p: nat)
    requires FirstSale(read, events, i).Some? && forall e :: e in events ==> read(e) != Skipped
    ensures p < |events| && events[p] == FirstSale(read, events, i).value
    ensures forall q :: 0 <= q < p ==> events[q].instance != i
    decreases |events|
  {
    var n := |events| - 1;
    assert events == events[..n] + [events[n]];
    FirstSaleTells(read, events[..n], i);
    if FirstSale(read, events[..n], i).Some? {
      p := FirstSaleAt(read, events[..n], i);
    } else {
      p := n;
    }
  }

  lemma {:induction false} FirstOneMore(read: Reader, events: seq<Event>, e: Event, i: string)
    ensures FirstSale(read, events + [e], i) ==
      if FirstSale(read, events, i).Some? then FirstSale(read, events, i)
      else if e.instance == i && read(e) != Skipped then Some(e) else None
  {
    assert (events + [e])[..|events|] == events;
  }

  lemma {:induction false} ForwardedOneMore(read: Reader, events: seq<Event>, statuses: seq<Sync.Status>, n: nat)
    requires n < |events| == |statuses|
    ensures Forwarded(read, events, statuses, n + 1) ==
      if Sync.PassedOn(events, statuses, n) && read(events[n]) != Skipped
      then Forwarded(read, events, statuses, n) + [events[n]] else Forwarded(read, events, statuses, n)
  {
    hide Sync.PassedOn;
  }

  /** If all sales under an id are passed on, the first of them is also the first to be consumed. */
  lemma {:induction false} ForwardedFirst(read: Reader, events: seq<Event>, statuses: seq<Sync.Status>, n: nat,
                                          i: string)
    requires n <= |events| == |statuses|
    requires forall k :: 0 <= k < |events| && events[k].instance == i && read(events[k]) != Skipped ==>
      Sync.PassedOn(events, statuses, k)
    ensures FirstSale(read, Forwarded(read, events, statuses, n), i) == FirstSale(read, events[..n], i)
    decreases n
  {
    if n > 0 {
      hide Sync.PassedOn, FirstSale, Forwarded;
      ForwardedFirst(read, events, statuses, n - 1, i);
      ForwardedOneMore(read, events, statuses, n - 1);
      FirstOfPrefix(read, events, n - 1, i);
      if Sync.PassedOn(events, statuses, n - 1) && read(events[n - 1]) != Skipped {
        FirstOneMore(read, Forwarded(read, events, statuses, n - 1), events[n - 1], i);
      }
    }
  }

  lemma {:induction false} FirstOfPrefix(read: Reader, events: seq<Event>, n: nat, i: string)
    requires n < |events|
    ensures FirstSale(read, events[..n + 1], i) ==
      if FirstSale(read, events[..n], i).Some? then FirstSale(read, events[..n], i)
      else if events[n].instance == i && read(events[n]) != Skipped then Some(events[n]) else None
  {
    hide FirstSale;
    assert events[..n + 1] == events[..n] + [events[n]];
    FirstOneMore(read, events[..n], events[n], i);
  }

  /** With no mapping configured every sale is an exception, so any part of a task can be worked off. */
  lemma {:induction false} ExceptSome(read: Reader, w: World, t: nat, n: nat) returns (steps: seq<Step>, after: World)
    requires WorldOk(read, w) && w.store.config.mapping == map[] && t < |w.tasks| && n <= |w.tasks[t]|
    ensures Run(read, w, steps) == Some(after) && forall s :: s in steps ==> !s.Deliver?
    ensures after.edge == w.edge
    ensures forall c :: c in after.commits ==> c in w.commits || c.event in w.tasks[t][..n]
    ensures forall e :: e in w.tasks[t][..n] ==> exists c :: c in after.commits && c.event == e
    ensures forall c :: c in w.commits ==> c in after.commits
    decreases n
  {
    hide WorldOk, Enabled, Next, Run;
    if n == 0 {
      Finished(read, w);
      return [], w;
    }
    var e := w.tasks[t][0];
    var next := ExceptOne(read, w, t);
    var rest, last := ExceptSome(read, next, t, n - 1);
    OneMoreStep(read, w, Work(t, []), rest);
    steps, after := [Work(t, [])] + rest, last;
    assert w.tasks[t][..n] == [e] + next.tasks[t][..n - 1];
    assert next.commits[|w.commits|].event == e;
  }

  lemma {:induction false} ExceptOne(read: Reader, w: World, t: nat) returns (next: World)
    requires WorldOk(read, w) && w.store.config.mapping == map[] && t < |w.tasks| && w.tasks[t] != []
    ensures Enabled(read, w, Work(t, [])) && next == Next(read, w, Work(t, [])) && WorldOk(read, next)
    ensures next.edge == w.edge && next.store.config == w.store.config && next.tasks == w.tasks[t := w.tasks[t][1..]]
    ensures |next.commits| == |w.commits| + 1 && next.commits[..|w.commits|] == w.commits
    ensures next.commits[|w.commits|].event == w.tasks[t][0]
  {
    hide Sync.EdgeOk, StoreOk, InboxOk, CommitOk, MovementsOf, InsertAll, SaleInputs;
    var e := w.tasks[t][0];
    assert e in w.tasks[t] && IsKnown(read, w.edge.events, e);
    assert PlanOf(w.store.config, SaleOf(read, e).value).Err?;
    next := Next(read, w, Work(t, []));
    StepKeeps(read, w, Work(t, []));
  }

  lemma {:induction false} FirstStored(e: Event)
    requires e.sequence > 0
    ensures Sync.Ingest(Sync.NO_EVENTS, Sync.Batch(e.device, [e])).0.events == map[e.instance := e]
  {
    hide Sync.EdgeOk, Sync.Grows, Sync.Continue, Sync.LowestBlocking;
    Sync.NoEventsOk();
    DeliveredEdge(Sync.NO_EVENTS, Sync.Batch(e.device, [e]));
    assert [] + [e] == [e];
    Sync.PersistOneMore(Sync.NO_EVENTS, [], e);
  }

  /** With one of its sales stored, every sale of a batch under that id is passed on. */
  lemma {:induction false} AllPassedOn(db: Sync.Edge, events: seq<Event>, a: nat, k: nat)
    requires a < |events| && k < |events| && events[a].instance == events[k].instance && Sync.SameStored(db, events[a])
    requires db.outbox.Keys == db.events.Keys && Sync.EdgeOk(db) && forall e :: e in events ==> e.sequence > 0
    ensures Sync.PassedOn(events, Sync.PersistAll(db, events).1, k)
  {
    hide Sync.PersistAll, Sync.EdgeOk;
    Sync.ReceiptsTell(db, events);
    Sync.PersistAllKeeps(db, events);
    assert Sync.SameStored(Sync.PersistAll(db, events).0, events[a]);
  }

  /** One sale stored and pending, and the batch delivered: its task starts with another sale under the id. */
  lemma {:induction false} BeforeLoss(read: Reader, batch: Sync.Batch, a: nat) returns (w: World, p: nat)
    requires batch.Valid() && a < |batch.events| && read(batch.events[a]) != Skipped
    ensures var kept := batch.events[a];
      var first := Deliver(Sync.Batch(batch.device, [kept]));
      && Reachable(read, [first, Deliver(batch)], w) && WorldOk(read, w) && w.store.config.mapping == map[] && w.commits == []
      && kept.instance in w.inbox && w.inbox[kept.instance].envelope == kept
      && |w.tasks| == 2 && p < |w.tasks[1]| && Some(w.tasks[1][p]) == FirstSale(read, batch.events, kept.instance)
      && forall q :: 0 <= q < p ==> w.tasks[1][q].instance != kept.instance
  {
    hide WorldOk, Sync.Ingest, Forwarded, Sync.EdgeOk, Sync.PersistAll, Sync.PassedOn, Queue, FirstSale, Run, Sync.Grows;
    var kept := batch.events[a];
    assert kept in batch.events;
    var first := Sync.Batch(batch.device, [kept]);
    EmptyWorldOk(read);
    OneMoreStep(read, EmptyWorld, Deliver(first), [Deliver(batch)]);
    var w1 := Next(read, EmptyWorld, Deliver(first));
    FirstStored(kept);
    OneMoreStep(read, w1, Deliver(batch), []);
    w := Next(read, w1, Deliver(batch));
    assert [Deliver(first)] + [Deliver(batch)] == [Deliver(first), Deliver(batch)] && [Deliver(batch)] + [] == [Deliver(batch)];
    WorldEdge(read, w1);
    DeliveredEdge(w1.edge, batch);
    var statuses := Sync.PersistAll(w1.edge, batch.events).1;
    forall k | 0 <= k < |batch.events| && batch.events[k].instance == kept.instance && read(batch.events[k]) != Skipped
      ensures Sync.PassedOn(batch.events, statuses, k)
    {
      AllPassedOn(w1.edge, batch.events, a, k);
    }
    ForwardedFirst(read, batch.events, statuses, |batch.events|, kept.instance);
    assert batch.events[..|batch.events|] == batch.events;
    FirstSaleTells(read, batch.events, kept.instance);
    p := FirstSaleAt(read, w.tasks[1], kept.instance);
    StillStored(read, w1, w, kept);
    Finished(read, w);
  }

  lemma {:induction false} Finished(read: Reader, w: World)
    requires WorldOk(read, w)
    ensures Run(read, w, []) == Some(w)
  {
    hide WorldOk;
  }

  lemma {:induction false} WorldEdge(read: Reader, w: World)
    requires WorldOk(read, w)
    ensures Sync.EdgeOk(w.edge) && w.edge.outbox.Keys == w.edge.events.Keys
  {
    hide StoreOk;
  }

  lemma {:induction false} StillStored(read: Reader, w: World, w': World, e: Event)
    requires WorldOk(read, w') && Sync.Grows(w.edge, w'.edge) && Sync.SameStored(w.edge, e) && read(e) != Skipped
    ensures e.instance in w'.inbox && w'.inbox[e.instance].envelope == e
  {
    hide StoreOk, Sync.EdgeOk;
  }

  lemma {:induction false} RunAppend(read: Reader, w: World, a: seq<Step>, b: seq<Step>)
    requires WorldOk(read, w) && Run(read, w, a).Some?
    ensures Run(read, w, a + b) == Run(read, Run(read, w, a).value, b)
    decreases |a|
  {
    hide WorldOk, Enabled, Next;
    if a == [] {
      assert a + b == b;
    } else {
      StepKeeps(read, w, a[0]);
      assert (a + b)[0] == a[0] && (a + b)[1..] == a[1..] + b;
      RunAppend(read, Next(read, w, a[0]), a[1..], b);
    }
  }

  /** The other sale is consumed first and marks the row; then the request stops. */
  lemma {:induction false} Loses(read: Reader, batch: Sync.Batch, a: nat) returns (steps: seq<Step>, w: World)
    requires batch.Valid() && a < |batch.events| && read(batch.events[a]) != Skipped
    requires FirstSale(read, batch.events, batch.events[a].instance) != Some(batch.events[a])
    ensures Reachable(read, steps, w) && OnlyDirty(read, steps, batch) && !NoneLost(w)
  {
    hide WorldOk, Enabled, Next, FirstSale;
    var kept := batch.events[a];
    var i := kept.instance;
    var before, p := BeforeLoss(read, batch, a);
    var task := before.tasks[1];
    var start := [Deliver(Sync.Batch(batch.device, [kept])), Deliver(batch)];
    var works, after := ExceptSome(read, before, 1, p + 1);
    EmptyWorldOk(read);
    RunAppend(read, EmptyWorld, start, works);
    steps, w := start + works, after;
    ReachableOk(read, steps, w);
    assert task[p] in task[..p + 1] && task[p].instance == i by { FirstIsUnder(read, batch.events, i, task[p]); }
    forall c | c in w.commits ensures c.event != kept {
      var q :| 0 <= q < p + 1 && task[q] == c.event;
    }
    MarkedBy(read, before, w, i, task[p]);
  }

  lemma {:induction false} FirstIsUnder(read: Reader, events: seq<Event>, i: string, e: Event)
    requires FirstSale(read, events, i) == Some(e)
    ensures e.instance == i
  {
    FirstSaleTells(read, events, i);
  }

  /** A commit under an id marks its row. */
  lemma {:induction false} MarkedBy(read: Reader, before: World, w: World, i: string, e: Event)
    requires WorldOk(read, before) && WorldOk(read, w) && w.edge == before.edge && i in before.inbox
    requires e.instance == i && WasConsumed(w.commits, e)
    ensures i in w.inbox && w.inbox[i].envelope == before.inbox[i].envelope && w.inbox[i].outcome.Some?
  {
    hide StoreOk, Sync.EdgeOk, LastUnder, CommitOk;
    NoneUnder(w.commits, i);
  }

  /**
   Read off the batch alone: no run in which every other batch keeps to one sale per id loses a sale,
   exactly when this batch keeps to it too.
   */
  lemma {:induction false} BatchLosesNothingExactlyWhen(read: Reader, batch: Sync.Batch)
    requires batch.Valid()
    ensures (forall steps, w :: Reachable(read, steps, w) && OnlyDirty(read, steps, batch) ==> NoneLost(w))
      <==> OneSalePerId(read, batch.events)
  {
    hide Reachable, NoneLost, FirstSale;
    if OneSalePerId(read, batch.events) {
      forall steps, w | Reachable(read, steps, w) && OnlyDirty(read, steps, batch) ensures NoneLost(w) {
        CleanReachable(read, steps, w);
        OwnIsNotLost(read, w);
      }
    } else {
      var a := DiffersFromFirst(read, batch.events);
      var steps, w := Loses(read, batch, a);
    }
  }

  /** Of two different sales under one id, one is not the first. */
  lemma {:induction false} DiffersFromFirst(read: Reader, events: seq<Event>) returns (a: nat)
    requires !OneSalePerId(read, events)
    ensures a < |events| && read(events[a]) != Skipped && FirstSale(read, events, events[a].instance) != Some(events[a])
  {
    hide FirstSale;
    var j, k :| 0 <= j < |events| && 0 <= k < |events| && events[j].instance == events[k].instance
      && read(events[j]) != Skipped && read(events[k]) != Skipped && events[j] != events[k];
    a := if FirstSale(read, events, events[j].instance) != Some(events[j]) then j else k;
  }
}
