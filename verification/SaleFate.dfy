/** What becomes of an accepted sale when one request is worked off without interruption. */
module SaleFate {
  import opened Common
  import opened InventoryDomain
  import opened InventoryLedger
  import opened SaleConsumption
  import opened InventoryRuns
  import opened SaleForwarding
  import opened SaleInbox
  import Sync = DeviceSync
  import SyncEvents

  /** The jobs are the events of the task, under the present configuration. */
  ghost predicate JobsOf(read: Reader, w: World, t: nat, jobs: seq<Job>) {
    && t < |w.tasks| && |jobs| == |w.tasks[t]|
    && forall k :: 0 <= k < |jobs| ==>
         && read(w.tasks[t][k]) != Skipped && jobs[k].Valid()
         && jobs[k] == JobFor(read, w.store.config, w.tasks[t][k], jobs[k].keys)
  }

  function Ending(job: Job): Outcome {
    match PlanOf(job.config, job.envelope)
    case Ok(_) => Applied
    case Err(problem) => Excepted(problem)
  }

  function DoneCommits(task: seq<Event>, jobs: seq<Job>, n: nat): seq<Commit>
    requires n <= |task| == |jobs|
  {
    seq(n, k requires 0 <= k < n => Commit(task[k], jobs[k].config, Ending(jobs[k])))
  }

  lemma {:induction false} AllValid(jobs: seq<Job>)
    requires forall k :: 0 <= k < |jobs| ==> jobs[k].Valid()
    ensures forall j :: j in jobs ==> j.Valid()
  {
  }

  lemma {:induction false} PrefixDone(ledger: Ledger, jobs: seq<Job>, n: nat)
    requires (forall j :: j in jobs ==> j.Valid()) && n <= ConsumeEach(ledger, jobs).1
    ensures ConsumeEach(ledger, jobs[..n]).1 == n
  {
    hide Consume, PlanOf;
    if ConsumeEach(ledger, jobs[..n]).1 < n { RequestEnds(ledger, jobs, n); }
  }

  lemma {:induction false} OneMoreDone(ledger: Ledger, jobs: seq<Job>, n: nat)
    requires (forall j :: j in jobs ==> j.Valid()) && n < ConsumeEach(ledger, jobs).1
    ensures jobs[n].Valid()
    ensures var before := ConsumeEach(ledger, jobs[..n]).0;
      var result := Consume(before, jobs[n].config, jobs[n].envelope, jobs[n].keys);
      && result.Ok? && ConsumeEach(ledger, jobs[..n + 1]).0 == result.value.ledger
      && result.value.outcome == Ending(jobs[n])
  {
    hide InsertAll, PlanOf, SaleInputs;
    PrefixDone(ledger, jobs, n);
    PrefixDone(ledger, jobs, n + 1);
    assert jobs[..n + 1][..n] == jobs[..n];
    assert jobs[n] in jobs;
  }

  lemma {:induction false} RunOneMore(read: Reader, w: World, steps: seq<Step>, step: Step)
    requires WorldOk(read, w) && Run(read, w, steps).Some? && Enabled(read, Run(read, w, steps).value, step)
    ensures Run(read, w, steps + [step]) == Some(SaleInbox.Next(read, Run(read, w, steps).value, step))
  {
    hide WorldOk, Enabled, SaleInbox.Next, Run;
    var v := Run(read, w, steps).value;
    RunAppend(read, w, steps, [step]);
    OneMoreStep(read, v, step, []);
    assert [step] + [] == [step];
    SaleInbox.Finished(read, SaleInbox.Next(read, v, step));
  }

  /** The next event of the task commits. */
  lemma {:induction false} WorkOne(read: Reader, w: World, v: World, t: nat, jobs: seq<Job>, n: nat)
    requires WorldOk(read, v) && JobsOf(read, w, t, jobs) && n < ConsumeEach(w.store.stock.ledger, jobs).1
    requires v.edge == w.edge && v.store.config == w.store.config && v.tasks == w.tasks[t := w.tasks[t][n..]]
    requires (forall j :: j in jobs ==> j.Valid())
      && v.store.stock.ledger == ConsumeEach(w.store.stock.ledger, jobs[..n]).0
    ensures Enabled(read, v, Work(t, jobs[n].keys))
    ensures var next := SaleInbox.Next(read, v, Work(t, jobs[n].keys));
      && next.edge == w.edge && next.store.config == w.store.config && next.tasks == w.tasks[t := w.tasks[t][n + 1..]]
      && next.store.stock.ledger == ConsumeEach(w.store.stock.ledger, jobs[..n + 1]).0
      && next.commits == v.commits + [Commit(w.tasks[t][n], jobs[n].config, Ending(jobs[n]))]
  {
    hide WorldOk, ConsumeEach, Consume, PlanOf, Ending;
    OneMoreDone(w.store.stock.ledger, jobs, n);
    assert v.tasks[t][0] == w.tasks[t][n] && v.tasks[t][1..] == w.tasks[t][n + 1..];
  }

  lemma {:induction false} RequestTo(read: Reader, w: World, t: nat, jobs: seq<Job>, n: nat)
    returns (steps: seq<Step>, v: World)
    requires WorldOk(read, w) && JobsOf(read, w, t, jobs) && (forall j :: j in jobs ==> j.Valid())
    requires n <= ConsumeEach(w.store.stock.ledger, jobs).1
    ensures Run(read, w, steps) == Some(v) && forall s :: s in steps ==> s.Work?
    ensures v.edge == w.edge && v.store.config == w.store.config && v.tasks == w.tasks[t := w.tasks[t][n..]]
    ensures v.store.stock.ledger == ConsumeEach(w.store.stock.ledger, jobs[..n]).0
    ensures v.commits == w.commits + DoneCommits(w.tasks[t], jobs, n)
    decreases n
  {
    hide WorldOk, Enabled, SaleInbox.Next, Run, ConsumeEach, Ending;
    if n == 0 {
      SaleInbox.Finished(read, w);
      NothingDone(w.store.stock.ledger, jobs);
      assert w.tasks[t][0..] == w.tasks[t] && w.tasks[t := w.tasks[t]] == w.tasks;
      return [], w;
    }
    var before: World;
    steps, before := RequestTo(read, w, t, jobs, n - 1);
    RunWorldOk(read, w, steps);
    WorkOne(read, w, before, t, jobs, n - 1);
    RunOneMore(read, w, steps, Work(t, jobs[n - 1].keys));
    steps, v := steps + [Work(t, jobs[n - 1].keys)], SaleInbox.Next(read, before, Work(t, jobs[n - 1].keys));
    assert DoneCommits(w.tasks[t], jobs, n)
        == DoneCommits(w.tasks[t], jobs, n - 1) + [Commit(w.tasks[t][n - 1], jobs[n - 1].config, Ending(jobs[n - 1]))];
  }

  lemma {:induction false} NothingDone(ledger: Ledger, jobs: seq<Job>)
    ensures ConsumeEach(ledger, jobs[..0]) == (ledger, 0)
  {
  }

  lemma {:induction false} RunWorldOk(read: Reader, w: World, steps: seq<Step>)
    requires WorldOk(read, w) && Run(read, w, steps).Some?
    ensures WorldOk(read, Run(read, w, steps).value)
  {
    hide WorldOk, Enabled, SaleInbox.Next;
  }

  /** Working off a task consumes its events in order, up to the first that fails. */
  lemma {:induction false} RequestRuns(read: Reader, w: World, t: nat, jobs: seq<Job>)
    returns (steps: seq<Step>, after: World)
    requires WorldOk(read, w) && JobsOf(read, w, t, jobs) && forall j :: j in jobs ==> j.Valid()
    ensures Run(read, w, steps) == Some(after) && WorldOk(read, after) && forall s :: s in steps ==> s.Work?
    ensures after.edge == w.edge && after.tasks == w.tasks[t := []]
    ensures var (ledger, done) := ConsumeEach(w.store.stock.ledger, jobs);
      after.store.stock.ledger == ledger && after.commits == w.commits + DoneCommits(w.tasks[t], jobs, done)
  {
    hide WorldOk, SaleInbox.Next, Run, ConsumeEach, DoneCommits, PlanOf;
    var (ledger, done) := ConsumeEach(w.store.stock.ledger, jobs);
    steps, after := RequestTo(read, w, t, jobs, done);
    RunWorldOk(read, w, steps);
    LedgerIsOk(w.store) by { WorldStore(read, w); }
    PrefixOfRequest(w.store.stock.ledger, jobs);
    if done < |jobs| {
      FailingStep(read, w, after, t, jobs, done);
      RunOneMore(read, w, steps, Work(t, jobs[done].keys));
      steps, after := steps + [Work(t, jobs[done].keys)], SaleInbox.Next(read, after, Work(t, jobs[done].keys));
      RunWorldOk(read, w, steps);
    } else {
      assert w.tasks[t][done..] == [];
    }
  }

  lemma {:induction false} WorldStore(read: Reader, w: World)
    requires WorldOk(read, w)
    ensures StoreOk(w.store)
  {
    hide StoreOk;
  }

  lemma {:induction false} FailingStep(read: Reader, w: World, v: World, t: nat, jobs: seq<Job>, n: nat)
    requires JobsOf(read, w, t, jobs) && n < |jobs|
    requires v.edge == w.edge && v.store.config == w.store.config && v.tasks == w.tasks[t := w.tasks[t][n..]]
    requires Consume(v.store.stock.ledger, jobs[n].config, jobs[n].envelope, jobs[n].keys).Err?
    ensures Enabled(read, v, Work(t, jobs[n].keys))
    ensures SaleInbox.Next(read, v, Work(t, jobs[n].keys)) == v.(tasks := w.tasks[t := []])
  {
    hide Consume, PlanOf;
  }

  // ---------- the three ways ----------

  /** Everything up to and including event k fits the ledger and each other. */
  ghost predicate Reached(ledger: Ledger, jobs: seq<Job>, k: nat)
    requires k < |jobs|
  {
    AllFit(ledger, jobs[..k + 1]) && NoneClash(jobs[..k + 1])
  }

  lemma {:induction false} ReachedExactlyWhen(ledger: Ledger, jobs: seq<Job>, k: nat)
    requires LedgerOk(ledger) && (forall j :: j in jobs ==> j.Valid()) && k < |jobs|
    ensures k < ConsumeEach(ledger, jobs).1 <==> Reached(ledger, jobs, k)
  {
    hide LedgerOk, ConsumeEach, AllFit, NoneClash, PlanOf, PostedFor;
    var first := jobs[..k + 1];
    assert forall j :: j in first ==> j in jobs;
    AllPostedExactlyWhen(ledger, first);
    if k < ConsumeEach(ledger, jobs).1 { PrefixDone(ledger, jobs, k + 1); }
    if ConsumeEach(ledger, first).1 == k + 1 { DoneStays(ledger, jobs, k + 1); }
  }

  lemma {:induction false} DoneStays(ledger: Ledger, jobs: seq<Job>, n: nat)
    requires (forall j :: j in jobs ==> j.Valid()) && n <= |jobs| && ConsumeEach(ledger, jobs[..n]).1 == n
    ensures ConsumeEach(ledger, jobs).1 >= n
    decreases |jobs| - n
  {
    hide Consume, PlanOf;
    if n < |jobs| {
      assert jobs[..n + 1][..n] == jobs[..n];
      if ConsumeEach(ledger, jobs[..n + 1]).1 == n + 1 { DoneStays(ledger, jobs, n + 1); } else { RequestEnds(ledger, jobs, n + 1); }
    } else {
      assert jobs[..n] == jobs;
    }
  }

  /**
   A pending sale whose request is worked off, read off the ledger and the request alone.  It stays pending
   exactly when no event under its id is reached.  It is consumed itself exactly when it is reached, and
   then posted if it is usable.  Otherwise another event has marked its row, and neither the timer nor
   anything else but a new delivery of the event will consume it.
   */
  lemma {:induction false} AcceptedSaleFate(read: Reader, past: seq<Step>, w: World, t: nat, jobs: seq<Job>, i: string)
    returns (steps: seq<Step>, after: World)
    requires SaleInbox.Reachable(read, past, w) && JobsOf(read, w, t, jobs)
    requires i in w.inbox && w.inbox[i].outcome.None?
    ensures SaleInbox.Reachable(read, past + steps, after) && after.tasks == w.tasks[t := []]
    ensures forall s :: s in steps ==> s.Work?
    ensures i in after.inbox && after.inbox[i].envelope == w.inbox[i].envelope
    ensures after.inbox[i].outcome.None?
      <==> forall k: nat :: k < |jobs| && w.tasks[t][k].instance == i ==> !Reached(w.store.stock.ledger, jobs, k)
    ensures WasConsumed(after.commits, w.inbox[i].envelope)
      <==> exists k: nat :: k < |jobs| && w.tasks[t][k] == w.inbox[i].envelope && Reached(w.store.stock.ledger, jobs, k)
    ensures forall k: nat ::
      (k < |jobs| && Reached(w.store.stock.ledger, jobs, k) && PlanOf(jobs[k].config, jobs[k].envelope).Ok?) ==>
        PostedFor(jobs[k].config, after.store.stock.ledger, jobs[k].envelope)
  {
    hide WorldOk, Run, ConsumeEach, DoneCommits, PlanOf, PostedFor, Reached, SaleInbox.Reachable, LedgerOk, Ending;
    AllValid(jobs);
    var done := ConsumeEach(w.store.stock.ledger, jobs).1;
    SaleInbox.ReachableOk(read, past, w);
    LedgerIsOk(w.store) by { WorldStore(read, w); }
    steps, after := RequestRuns(read, w, t, jobs);
    ReachableMore(read, past, w, steps, after);
    forall k: nat | k < |jobs| ensures k < done <==> Reached(w.store.stock.ledger, jobs, k) {
      ReachedExactlyWhen(w.store.stock.ledger, jobs, k);
    }
    SameRows(read, w, after, i);
    RowTells(read, past, w, i);
    RowTells(read, past + steps, after, i);
    WakeInstance(read, w, i);
    forall e ensures WasConsumed(after.commits, e)
      <==> WasConsumed(w.commits, e) || exists k: nat :: k < done && w.tasks[t][k] == e
    {
      DoneEvents(w.commits, w.tasks[t], jobs, done, e);
    }
    DoneUnder(w.commits, w.tasks[t], jobs, done, i);
    PrefixIsPosted(w.store.stock.ledger, jobs);
  }

  lemma {:induction false} DoneUnder(commits: seq<Commit>, task: seq<Event>, jobs: seq<Job>, n: nat, i: string)
    requires n <= |task| == |jobs|
    ensures (forall c :: c in commits + DoneCommits(task, jobs, n) ==> c.event.instance != i)
      <==> (forall c :: c in commits ==> c.event.instance != i) && forall k: nat :: k < n ==> task[k].instance != i
  {
    var more := DoneCommits(task, jobs, n);
    forall k: nat | k < n ensures more[k] in commits + more && more[k].event == task[k] { }
    forall c | c in commits ensures c in commits + more { }
  }

  lemma {:induction false} DoneEvents(commits: seq<Commit>, task: seq<Event>, jobs: seq<Job>, n: nat, e: Event)
    requires n <= |task| == |jobs|
    ensures WasConsumed(commits + DoneCommits(task, jobs, n), e)
      <==> WasConsumed(commits, e) || exists k: nat :: k < n && task[k] == e
  {
    var more := DoneCommits(task, jobs, n);
    forall k: nat | k < n ensures more[k] in commits + more && more[k].event == task[k] { }
    forall c | c in commits ensures c in commits + more { }
  }

  lemma {:induction false} ReachableMore(read: Reader, past: seq<Step>, w: World, steps: seq<Step>, after: World)
    requires SaleInbox.Reachable(read, past, w) && WorldOk(read, w) && Run(read, w, steps) == Some(after)
    ensures SaleInbox.Reachable(read, past + steps, after)
  {
    hide WorldOk, Run;
    EmptyWorldOk(read);
    RunAppend(read, EmptyWorld, past, steps);
  }

  lemma {:induction false} SameRows(read: Reader, w: World, after: World, i: string)
    requires WorldOk(read, w) && WorldOk(read, after) && after.edge == w.edge && i in w.inbox
    ensures i in after.inbox && after.inbox[i].envelope == w.inbox[i].envelope
  {
    hide StoreOk, Sync.EdgeOk, LastUnder, CommitOk;
  }

  /** Every event a request has consumed is posted when it ends, unless it is not usable. */
  lemma {:induction false} PrefixIsPosted(ledger: Ledger, jobs: seq<Job>)
    requires LedgerOk(ledger) && forall j :: j in jobs ==> j.Valid()
    ensures var (after, done) := ConsumeEach(ledger, jobs);
      forall k: nat :: k < done && PlanOf(jobs[k].config, jobs[k].envelope).Ok? ==>
        PostedFor(jobs[k].config, after, jobs[k].envelope)
  {
    hide LedgerOk, ConsumeEach, PlanOf, PostedFor, AllFit, NoneClash, Consume;
    PrefixOfRequest(ledger, jobs);
    var (after, done) := ConsumeEach(ledger, jobs);
    var first := jobs[..done];
    assert forall j :: j in first ==> j in jobs;
    AllPostedExactlyWhen(ledger, first);
    forall k: nat | k < done ensures jobs[k] in first { assert first[k] == jobs[k]; }
  }

  // ---------- ten bottles refused and posted, one accepted and lost ----------

  const WINES := Snapshot("E", 10, 30, 6000, map["bar" := "cellar"], map[], {"beer", "wine"})

  const NO_SALE := SyncEvents.Envelope("x", "till", 1, "o", SyncEvents.NotAnOrder, "")

  const TEN := CashOrder(1, "wine", 10)

  const ONE := CashOrder(2, "wine", 1)

  lemma {:induction false} InstallsCellar()
    ensures Install(EmptyStore.config, WINES) == Ok(CELLAR)
  {
    var config := Install(EmptyStore.config, WINES).value;
    hide Replaced;
    forall k: (string, string) ensures k !in config.recipes && (k in config.mapping <==> k == ("E", "bar")) {
      var (x, y) := k;
      assert k == (x, y);
    }
    assert config.mapping == CELLAR.mapping && config.recipes == CELLAR.recipes && config.skus == CELLAR.skus;
  }

  lemma {:induction false} TenRefused(db: Sync.Edge)
    requires db.events == map["x" := NO_SALE]
    ensures Sync.Persist(db, TEN).1 == Sync.Conflict && Sync.Persist(db, TEN).0.events == db.events
  {
    assert Sync.SequenceTaken(db, TEN) by { assert db.events["x"].sequence == TEN.sequence; }
  }

  lemma {:induction false} OneAccepted(db: Sync.Edge)
    requires db.events == map["x" := NO_SALE]
    ensures Sync.Persist(db, ONE).1 == Sync.Accepted && Sync.Persist(db, ONE).0.events == db.events["a" := ONE]
  {
  }

  lemma {:induction false} WineEvents()
    ensures TEN.instance == ONE.instance == "a" && Sync.Batch("till", [TEN, ONE]).Valid()
    ensures ReadOrder(TEN) != Skipped && ReadOrder(ONE) != Skipped
  {
  }

  lemma {:induction false} WinesForwarded(statuses: seq<Sync.Status>)
    requires statuses == [Sync.Conflict, Sync.Accepted]
    ensures Forwarded(ReadOrder, [TEN, ONE], statuses, 2) == [TEN, ONE]
  {
    hide ReadOrder, CashOrder;
    var events := [TEN, ONE];
    WineEvents();
    assert statuses[1] != Sync.Conflict && events[0].instance == events[1].instance;
    assert Sync.PassedOn(events, statuses, 0) && Sync.PassedOn(events, statuses, 1);
    assert Forwarded(ReadOrder, events, statuses, 0) == [];
    ForwardedOneMore(ReadOrder, events, statuses, 0);
    ForwardedOneMore(ReadOrder, events, statuses, 1);
  }

  /** With sequence 1 taken, the ten bottles are refused and the one bottle is accepted; both go on. */
  lemma {:induction false} TenThenOne(db: Sync.Edge)
    requires db.events == map["x" := NO_SALE]
    ensures var batch := Sync.Batch("till", [TEN, ONE]);
      var (after, statuses) := Sync.PersistAll(db, batch.events);
      && batch.Valid() && "a" in after.events && after.events["a"] == ONE
      && |statuses| == 2 && Forwarded(ReadOrder, batch.events, statuses, 2) == [TEN, ONE]
  {
    hide Sync.Persist, Sync.PersistAll, CashOrder, Forwarded;
    assert [] + [TEN] == [TEN] && [TEN] + [ONE] == [TEN, ONE];
    NothingPersisted(db);
    Sync.PersistOneMore(db, [], TEN);
    TenRefused(db);
    Sync.PersistOneMore(db, [TEN], ONE);
    OneAccepted(Sync.Persist(db, TEN).0);
    WineEvents();
    WinesForwarded([Sync.Conflict, Sync.Accepted]);
    assert Sync.PersistAll(db, [TEN, ONE]).1 == [Sync.Conflict, Sync.Accepted];
  }

  lemma {:induction false} NothingPersisted(db: Sync.Edge)
    ensures Sync.PersistAll(db, []) == (db, [])
  {
  }

  lemma {:induction false} WineJobs()
    ensures ReadOrder(TEN) != Skipped && ReadOrder(ONE) != Skipped
    ensures BottleJob("wine", 10).Valid() && BottleJob("wine", 1).Valid()
    ensures BottleJob("wine", 10) == JobFor(ReadOrder, CELLAR, TEN, BottleJob("wine", 10).keys)
    ensures BottleJob("wine", 1) == JobFor(ReadOrder, CELLAR, ONE, BottleJob("wine", 1).keys)
  {
    hide PlanOf, ReadOrder;
    ReadsBottles(1, "wine", 10);
    ReadsBottles(2, "wine", 1);
    BottlePlan("wine", 10);
    BottlePlan("wine", 1);
  }

  /** Ten bottles are posted; one bottle wants the same key for a different quantity and fails. */
  lemma {:induction false} OnlyTenPosted()
    ensures BottleJob("wine", 10).Valid() && BottleJob("wine", 1).Valid()
    ensures ConsumeEach([], [BottleJob("wine", 10), BottleJob("wine", 1)]).1 == 1
    ensures OnHand(ConsumeEach([], [BottleJob("wine", 10), BottleJob("wine", 1)]).0, Place("E", "cellar", "wine")) == -10
  {
    hide PlanOf, ConsumeEach, SaleKey, AlreadyThere, Wanted, NoneClash, InputsOf, AllInputs, InsertAll, OnHand;
    var ten, one := BottleJob("wine", 10), BottleJob("wine", 1);
    BottlePlan("wine", 10);
    BottlePlan("wine", 1);
    EmptyLedgerOk();
    TwoUnderOneInstance([], ten, one);
    assert !Agree(ten, one) by { assert MovementKey(Sale, "wine") in PlanOf(CELLAR, ten.envelope).value.movements; }
    TenAlone();
  }

  lemma {:induction false} EmptyLedgerOk()
    ensures LedgerOk([])
  {
  }

  lemma {:induction false} TenAlone()
    ensures BottleJob("wine", 10).Valid()
    ensures OnHand(ConsumeEach([], [BottleJob("wine", 10)]).0, Place("E", "cellar", "wine")) == -10
  {
    hide PlanOf, SaleKey, InputsOf, ConsumeEach, InsertAll, OnHand, Plain, ValidDelta;
    var ten := BottleJob("wine", 10);
    var input := BottleInput("wine", 10);
    BottleInputs("wine", 10);
    assert [ten][..0] == [] && AllInputs([ten]) == [] + [input] && [] + [input] == [input];
    EachIsAll([], [ten]);
    OneTaken(input);
    var row := Row(Random(0), input.key, input.content);
    assert [] + [row] == [row];
    OneMoreRow([], row);
    NothingOnHand(row.content.place);
  }

  lemma {:induction false} NothingOnHand(place: Place)
    ensures OnHand([], place) == 0
  {
  }

  /** An empty ledger takes one row. */
  lemma {:induction false} OneTaken(a: Input)
    requires Plain(a) && ValidDelta(a.content.kind, a.content.delta)
    ensures InsertAll([], [a]) == Ok([Row(Random(0), a.key, a.content)])
  {
    hide LedgerOk, InsertAll, Missing;
    EmptyLedgerOk();
    NothingMissing();
    assert [] + [a] == [a];
    MissingOneMore([], [], a, true);
    InsertAllExactly([], [a]);
    assert [] + RowsOf(0, [a]) == [Row(Random(0), a.key, a.content)];
  }

  /** The cellar is configured, and sequence 1 belongs to another event. */
  lemma {:induction false} BeforeWine() returns (steps: seq<Step>, w: World)
    ensures SaleInbox.Reachable(ReadOrder, steps, w) && WorldOk(ReadOrder, w)
    ensures w.store.config == CELLAR && w.store.stock.ledger == [] && w.commits == [] && w.edge.events == map["x" := NO_SALE]
    ensures w.tasks == [[]]
  {
    hide WorldOk, Install, Forwarded, Queue, Sync.Ingest, Run;
    EmptyWorldOk(ReadOrder);
    InstallsCellar();
    var install, deliver := Other(InstallOp(WINES)), Deliver(Sync.Batch("till", [NO_SALE]));
    OneMoreStep(ReadOrder, EmptyWorld, install, [deliver]);
    var first := SaleInbox.Next(ReadOrder, EmptyWorld, install);
    OneMoreStep(ReadOrder, first, deliver, []);
    w := SaleInbox.Next(ReadOrder, first, deliver);
    SaleInbox.Finished(ReadOrder, w);
    FirstStored(NO_SALE);
    Sync.NoEventsOk();
    DeliveredEdge(Sync.NO_EVENTS, Sync.Batch("till", [NO_SALE]));
    NothingForwarded(Sync.Ingest(Sync.NO_EVENTS, Sync.Batch("till", [NO_SALE])).1);
    assert [install] + [deliver] == [install, deliver] && [deliver] + [] == [deliver];
    steps := [install, deliver];
  }

  lemma {:induction false} NothingForwarded(statuses: seq<Sync.Status>)
    requires |statuses| == 1
    ensures Forwarded(ReadOrder, [NO_SALE], statuses, 1) == []
  {
    hide Sync.PassedOn;
    assert Forwarded(ReadOrder, [NO_SALE], statuses, 0) == [];
  }

  /** The batch with both sales has been delivered. */
  lemma {:induction false} WineDelivered() returns (steps: seq<Step>, w: World)
    ensures SaleInbox.Reachable(ReadOrder, steps, w) && WorldOk(ReadOrder, w)
    ensures w.store.config == CELLAR && w.store.stock.ledger == [] && w.commits == []
    ensures "a" in w.inbox && w.inbox["a"].envelope == ONE && w.tasks == [[], [TEN, ONE]]
  {
    hide WorldOk, Forwarded, Queue, Sync.Ingest, Run, Sync.PersistAll, Sync.EdgeOk, CashOrder, SaleInbox.Reachable;
    var past, before := BeforeWine();
    WorldEdge(ReadOrder, before);
    TenThenOne(before.edge);
    var batch := Sync.Batch("till", [TEN, ONE]);
    DeliveredEdge(before.edge, batch);
    OneMoreStep(ReadOrder, before, Deliver(batch), []);
    w := SaleInbox.Next(ReadOrder, before, Deliver(batch));
    SaleInbox.Finished(ReadOrder, w);
    assert [Deliver(batch)] + [] == [Deliver(batch)];
    ReachableMore(ReadOrder, past, before, [Deliver(batch)], w);
    steps := past + [Deliver(batch)];
    WineJobs();
    StoredIsQueued(ReadOrder, w, "a");
  }

  lemma {:induction false} StoredIsQueued(read: Reader, w: World, i: string)
    requires WorldOk(read, w) && i in w.edge.events && read(w.edge.events[i]) != Skipped
    ensures i in w.inbox && w.inbox[i].envelope == w.edge.events[i]
  {
    hide StoreOk, Sync.EdgeOk, LastUnder, CommitOk;
  }

  /**
   An accepted sale that is lost.  Sequence 1 of a till is taken.  One batch then brings ten bottles at
   sequence 1, refused, and one bottle under the same id at sequence 2, accepted.  The ten are posted and
   mark the inbox row APPLIED; the one clashes with them and ends the request.  Nothing is left to do, the
   accepted bottle was never posted, and in no continuation does its row become pending again.
   */
  lemma {:induction false} AcceptedSaleLost() returns (steps: seq<Step>, w: World)
    ensures SaleInbox.Reachable(ReadOrder, steps, w)
    ensures "a" in w.edge.events && w.edge.events["a"] == CashOrder(2, "wine", 1) && !WasConsumed(w.commits, w.edge.events["a"])
    ensures "a" in w.inbox && w.inbox["a"].outcome == Some(Applied) && w.tasks == [[], []]
    ensures OnHand(w.store.stock.ledger, Place("E", "cellar", "wine")) == -10
    ensures WorldOk(ReadOrder, w) && forall more :: Run(ReadOrder, w, more).Some? ==>
      "a" in Run(ReadOrder, w, more).value.inbox && Run(ReadOrder, w, more).value.inbox["a"].outcome.Some?
  {
    hide WorldOk, Run, ConsumeEach, PlanOf, SaleInbox.Reachable, OnHand, CashOrder, BottleJob;
    var past, before := WineDelivered();
    var jobs := [BottleJob("wine", 10), BottleJob("wine", 1)];
    WineJobs();
    OnlyTenPosted();
    var works: seq<Step>;
    works, w := RequestRuns(ReadOrder, before, 1, jobs);
    ReachableMore(ReadOrder, past, before, works, w);
    steps := past + works;
    TenCommitted(before.tasks[1], jobs);
    assert w.commits == DoneCommits(before.tasks[1], jobs, 1);
    SameRows(ReadOrder, before, w, "a");
    RowTells(ReadOrder, steps, w, "a");
    assert w.commits[0] in w.commits;
    forall more | Run(ReadOrder, w, more).Some?
      ensures "a" in Run(ReadOrder, w, more).value.inbox && Run(ReadOrder, w, more).value.inbox["a"].outcome.Some?
    {
      MarkedStays(ReadOrder, w, more, "a");
    }
  }

  lemma {:induction false} TenCommitted(task: seq<Event>, jobs: seq<Job>)
    requires task == [TEN, ONE] && jobs == [BottleJob("wine", 10), BottleJob("wine", 1)]
    ensures DoneCommits(task, jobs, 1) == [Commit(TEN, CELLAR, Applied)]
    ensures TEN.instance == "a" && ONE.instance == "a" && TEN != ONE
  {
    hide PlanOf;
    BottlePlan("wine", 10);
  }
}
