/** What the invariant means for a run's release assertions, and when a run settles. */
module SimulatorTheorems {
  import opened Common
  import opened Randomness
  import opened SimulatorModel
  import opened SimulatorInvariants

  // ---------- the release assertions ----------

  lemma {:induction false} PaymentsCounted(payments: seq<Payment>)
    ensures Completed(payments) + Unresolved(payments) == |payments|
  {
    if payments != [] { PaymentsCounted(payments[..|payments| - 1]); }
  }

  /** With both queues empty the three inventories and the two order sets are equal. */
  lemma {:induction false} DrainedMeansConverged(s: Sim)
    requires Inv(s) && s.localQueue == [] && s.edgeQueue == []
    ensures forall k :: Stock(s.physical, k) == Stock(s.edge, k) == Stock(s.cloud, k)
    ensures s.cloudOrders == s.durableOrders
  {
    assert Entries(s.localQueue) == {} && Undelivered(s.edgeQueue, s.cloudApplied) == {};
    forall k ensures Stock(s.physical, k) == Stock(s.edge, k) == Stock(s.cloud, k) { assert ConservedAt(s, k); }
    assert Ids(s.edgeQueue) == {} && Ids(s.localQueue) == {};
    forall n: nat ensures n in s.cloudOrders <==> n in s.durableOrders { }
  }

  /** How the seven modelled release assertions of any run relate to each other. */
  lemma {:induction false} AssertionsAgree(cfg: Config, stream: nat -> Fraction, second: nat)
    requires Accepts(cfg)
    ensures var s := After(cfg, stream, second);
      && Passes(s, LocalDurability)
      && Passes(s, NoDuplicateBusinessEffect)
      && (Passes(s, SyncDrains) <==> Passes(s, EdgeCloudConvergence))
      && (Passes(s, SyncDrains) ==> Passes(s, InventoryConvergence))
      && (Passes(s, PaymentTruthResolves) <==> Passes(s, PaymentEffectCount))
  {
    hide Accepts, QueueInv, NumberInv, PaymentInv, Conserved;
    var s := After(cfg, stream, second);
    EveryRunHolds(cfg, stream, second);
    PaymentsCounted(s.payments);
    if Passes(s, SyncDrains) { DrainedMeansConverged(s); }
  }

  // ---------- faults end ----------

  lemma {:induction false} EndsByLast(windows: seq<Window>, w: Window)
    requires w in windows
    ensures w.end <= LastEnd(windows)
  {
    var last := windows[|windows| - 1];
    assert windows == windows[..|windows| - 1] + [last];
    if w != last { EndsByLast(windows[..|windows| - 1], w); }
  }

  lemma {:induction false} RestartedByLast(restarts: seq<int>, r: int)
    requires r in restarts
    ensures r + 2 <= LastRestart(restarts)
  {
    var last := restarts[|restarts| - 1];
    assert restarts == restarts[..|restarts| - 1] + [last];
    if r != last { RestartedByLast(restarts[..|restarts| - 1], r); }
  }

  /** After the last recovery fault every link is up and the database is fast. */
  lemma {:induction false} FaultsOver(faults: Faults, second: int)
    requires second > LastRecoveryFaultSecond(faults)
    ensures EdgeAvailable(faults, second) && EdgeToCloudAvailable(faults, second)
    ensures forall r :: PosToEdgeAvailable(faults, r, second)
    ensures Capacity(faults, second) == 300
  {
    forall r | r in faults.edgeRestarts ensures !(r <= second <= r + 2) { RestartedByLast(faults.edgeRestarts, r); }
    forall w | w in RecoveryWindows(faults) ensures !w.Contains(second) { EndsByLast(RecoveryWindows(faults), w); }
    forall w | w in faults.posIsolations ensures !w.window.Contains(second) {
      var i :| 0 <= i < |faults.posIsolations| && faults.posIsolations[i] == w;
      assert IsolationWindows(faults.posIsolations)[i] == w.window;
    }
  }

  // ---------- nothing is postponed for ever ----------

  ghost function PaymentDeadline(cfg: Config): int {
    Max(cfg.duration - 1 + MaxDelay(cfg.faults) + 22, LastRecoveryFaultSecond(cfg.faults) + 1)
  }

  function PlanWindows(plans: seq<Plan>): seq<Window> {
    seq(|plans|, i requires 0 <= i < |plans| => plans[i].window)
  }

  ghost function LastPlanSecond(cfg: Config): int { LastEnd(PlanWindows(cfg.faults.replenishment)) }

  ghost function TransferDeadline(cfg: Config): int {
    Max(LastPlanSecond(cfg) + 10, LastRecoveryFaultSecond(cfg.faults) + 1)
  }

  ghost predicate PaymentsDue(cfg: Config, payments: seq<Payment>) {
    forall i :: 0 <= i < |payments| ==> payments[i].due <= PaymentDeadline(cfg)
  }

  ghost predicate TransfersDue(cfg: Config, transfers: seq<Transfer>) {
    forall i :: 0 <= i < |transfers| && !transfers[i].completed ==> transfers[i].due <= TransferDeadline(cfg)
  }

  ghost predicate Bounded(cfg: Config, s: Sim) { PaymentsDue(cfg, s.payments) && TransfersDue(cfg, s.transfers) }

  lemma {:induction false} SalePaymentDue(cfg: Config, random: Random, register: RegisterId, order: nat, second: int)
    requires second < cfg.duration
    ensures SalePayment(cfg, random, register, order, second).0.due <= PaymentDeadline(cfg)
  {
    assert SalePayment(cfg, random, register, order, second).0.due <= second + MaxDelay(cfg.faults) + 22;
  }

  lemma {:induction false} CreateSaleBounded(cfg: Config, s: Sim, register: RegisterId, second: int)
    requires Bounded(cfg, s) && second < cfg.duration
    ensures Bounded(cfg, CreateSale(cfg, s, register, second))
  {
    var (pick, r0) := Weighted(s.random, ProductWeights(cfg, second));
    if pick.Some? && Stock(s.physical, Key(register.bar, cfg.products[pick.value].sku)) > 0 {
      var (_, r1) := Integer(r0, 0, 45);
      var (_, r2) := Integer(r1, 0, 80);
      SalePaymentDue(cfg, r2, register, s.sequence + 1, second);
    }
  }

  lemma {:induction false} SellWhileDueBounded(cfg: Config, s: Sim, i: nat, second: int)
    requires i < |s.registers| && Bounded(cfg, s) && second < cfg.duration
    ensures Bounded(cfg, SellWhileDue(cfg, s, i, second))
    decreases if s.registers[i].accumulator < 1.0 then 0 else s.registers[i].accumulator.Floor
  {
    var register := s.registers[i];
    if !s.failed && register.accumulator >= 1.0 {
      var charged := s.(registers := s.registers[i := register.(accumulator := register.accumulator - 1.0)]);
      CreateSaleBounded(cfg, charged, register.id, second);
      SellWhileDueBounded(cfg, CreateSale(cfg, charged, register.id, second), i, second);
    }
  }

  lemma {:induction false} TrafficBounded(cfg: Config, s: Sim, second: int, i: nat)
    requires Bounded(cfg, s) && second < cfg.duration
    ensures Bounded(cfg, GenerateTraffic(cfg, s, second, i))
    decreases |s.registers| - i
  {
    if !s.failed && i < |s.registers| {
      SellWhileDueBounded(cfg, Accrue(cfg, s, i), i, second);
      TrafficBounded(cfg, SellWhileDue(cfg, Accrue(cfg, s, i), i, second), second, i + 1);
    }
  }

  /** Replenishment only adds transfers, due ten seconds later, and only inside a plan's window. */
  ghost predicate Replenished(s: Sim, s': Sim, second: int) {
    && s' == s.(planUsage := s'.planUsage, planLeft := s'.planLeft, sequence := s'.sequence, transfers := s'.transfers)
    && |s.transfers| <= |s'.transfers|
    && (forall j :: 0 <= j < |s.transfers| ==> s'.transfers[j] == s.transfers[j])
    && (forall j :: |s.transfers| <= j < |s'.transfers| ==> s'.transfers[j].due == second + 10)
  }

  lemma {:induction false} ReplenishBarsEffect(cfg: Config, s: Sim, plan: Plan, second: int, bar: nat)
    ensures Replenished(s, ReplenishBars(cfg, s, plan, second, bar), second)
    decreases cfg.bars - bar
  {
    if bar < cfg.bars { ReplenishBarsEffect(cfg, ReplenishBar(s, plan, second, bar), plan, second, bar + 1); }
  }

  ghost predicate PlanActive(cfg: Config, second: int) { AnyContains(PlanWindows(cfg.faults.replenishment), second) }

  lemma {:induction false} CreateTransfersEffect(cfg: Config, s: Sim, second: int, p: nat)
    ensures Replenished(s, MaybeCreateTransfers(cfg, s, second, p), second)
    ensures !PlanActive(cfg, second) ==> MaybeCreateTransfers(cfg, s, second, p) == s
    decreases |cfg.faults.replenishment| - p
  {
    if p < |cfg.faults.replenishment| {
      var plan := cfg.faults.replenishment[p];
      if plan.window.Contains(second) {
        assert PlanWindows(cfg.faults.replenishment)[p] == plan.window;
        ReplenishBarsEffect(cfg, OpenPlan(s, plan), plan, second, 0);
        CreateTransfersEffect(cfg, ReplenishBars(cfg, OpenPlan(s, plan), plan, second, 0), second, p + 1);
      } else {
        CreateTransfersEffect(cfg, s, second, p + 1);
      }
    }
  }

  lemma {:induction false} PlansOver(cfg: Config, second: int)
    ensures PlanActive(cfg, second) ==> second <= LastPlanSecond(cfg)
  {
    var windows := PlanWindows(cfg.faults.replenishment);
    forall w | w in windows && w.Contains(second) ensures second <= LastEnd(windows) { EndsByLast(windows, w); }
  }

  lemma {:induction false} VisitTransferEffect(cfg: Config, s: Sim, second: int, i: nat)
    requires i < |s.transfers| && (!s.transfers[i].completed ==> s.transfers[i].due <= TransferDeadline(cfg))
    ensures var t, v := s.transfers[i], VisitTransfer(cfg, s, second, i);
      && v.payments == s.payments && v.localQueue == s.localQueue && v.failed == s.failed
      && (exists t' :: v.transfers == s.transfers[i := t'] && (t'.completed || t'.due <= TransferDeadline(cfg))
            && (EdgeAvailable(cfg.faults, second) ==> t'.completed || t'.due > second))
      && (t.completed || t.due > second ==> v == s)
  {
    hide LastRecoveryFaultSecond, EdgeAvailable, LastPlanSecond;
    if !EdgeAvailable(cfg.faults, second) && second > LastRecoveryFaultSecond(cfg.faults) {
      FaultsOver(cfg.faults, second);
    }
    var v := VisitTransfer(cfg, s, second, i);
    assert v.transfers == s.transfers[i := v.transfers[i]];
  }

  /** Visiting transfers touches no device mutation and no payment, and leaves none due that could complete. */
  lemma {:induction false} CompleteTransfersEffect(cfg: Config, s: Sim, second: int, i: nat)
    requires TransfersDue(cfg, s.transfers) && i <= |s.transfers|
    requires EdgeAvailable(cfg.faults, second) ==>
      forall j :: 0 <= j < i ==> s.transfers[j].completed || s.transfers[j].due > second
    ensures var s' := CompleteTransfers(cfg, s, second, i);
      && s'.payments == s.payments && s'.localQueue == s.localQueue && s'.failed == s.failed
      && |s'.transfers| == |s.transfers|
      && TransfersDue(cfg, s'.transfers)
      && (EdgeAvailable(cfg.faults, second) ==>
            forall j :: 0 <= j < |s'.transfers| ==> s'.transfers[j].completed || s'.transfers[j].due > second)
      && ((forall j :: i <= j < |s.transfers| ==> s.transfers[j].completed || s.transfers[j].due > second) ==> s' == s)
    decreases |s.transfers| - i
  {
    hide VisitTransfer, TransferDeadline, EdgeAvailable;
    if i < |s.transfers| {
      VisitTransferEffect(cfg, s, second, i);
      CompleteTransfersEffect(cfg, VisitTransfer(cfg, s, second, i), second, i + 1);
    }
  }

  lemma {:induction false} VisitLocalEffect(cfg: Config, s: Sim, second: int, i: nat)
    requires i < |s.localQueue|
    ensures var s' := VisitLocal(cfg, s, second, i).0;
      s'.payments == s.payments && s'.transfers == s.transfers && s'.failed == s.failed
  {
  }

  lemma {:induction false} DrainLocalEffect(cfg: Config, s: Sim, second: int, i: nat, moved: nat)
    ensures var s' := DrainLocalQueue(cfg, s, second, i, moved);
      s'.payments == s.payments && s'.transfers == s.transfers && s'.failed == s.failed
    decreases |s.localQueue| - i
  {
    hide VisitLocal;
    if i < |s.localQueue| && moved < 250 {
      var (s', gone) := VisitLocal(cfg, s, second, i);
      VisitLocalEffect(cfg, s, second, i);
      DrainLocalEffect(cfg, s', second, if gone then i else i + 1, if gone then moved + 1 else moved);
    }
  }

  lemma {:induction false} DeliverEffect(s: Sim)
    requires s.edgeQueue != []
    ensures var s' := Deliver(s);
      && s'.payments == s.payments && s'.transfers == s.transfers && s'.failed == s.failed
      && s'.localQueue == s.localQueue && |s'.edgeQueue| == |s.edgeQueue| - 1
  {
  }

  lemma {:induction false} DeliverUpToEffect(cfg: Config, s: Sim, capacity: nat)
    ensures var s' := DeliverUpTo(cfg, s, capacity);
      && s'.payments == s.payments && s'.transfers == s.transfers && s'.failed == s.failed
      && s'.localQueue == s.localQueue
      && (Rate(cfg.faults.networkLossRate) == 0.0 ==> |s'.edgeQueue| == Max(0, |s.edgeQueue| - capacity))
    decreases capacity
  {
    hide Deliver, Rate;
    if s.edgeQueue != [] && capacity > 0 {
      var (lost, r) := Chance(s.random, Rate(cfg.faults.networkLossRate));
      if !lost {
        DeliverEffect(s.(random := r));
        DeliverUpToEffect(cfg, Deliver(s.(random := r)), capacity - 1);
      }
    }
  }

  lemma {:induction false} DrainEdgeEffect(cfg: Config, s: Sim, second: int)
    ensures var s' := DrainEdgeQueue(cfg, s, second);
      && s'.payments == s.payments && s'.transfers == s.transfers && s'.failed == s.failed
      && s'.localQueue == s.localQueue
      && (Rate(cfg.faults.networkLossRate) == 0.0 && EdgeToCloudAvailable(cfg.faults, second) ==>
            |s'.edgeQueue| == Max(0, |s.edgeQueue| - Capacity(cfg.faults, second)))
  {
    hide DeliverUpTo, Capacity, EdgeToCloudAvailable, Chance, Rate;
    DeliverUpToEffect(cfg, MaybeRotate(cfg, s), Capacity(cfg.faults, second));
  }

  /** Signals touch payments only, respect the deadline, and while the Cloud is reachable leave none due. */
  lemma {:induction false} PaymentSignalsEffect(cfg: Config, s: Sim, second: int, i: nat)
    requires PaymentInv(s) && PaymentsDue(cfg, s.payments) && i <= |s.payments|
    requires EdgeToCloudAvailable(cfg.faults, second) ==>
      forall j :: 0 <= j < i ==> s.payments[j].status == Succeeded || s.payments[j].due > second
    ensures var s' := ProcessPaymentSignals(cfg, s, second, i);
      && s'.localQueue == s.localQueue && s'.edgeQueue == s.edgeQueue && s'.transfers == s.transfers
      && s'.failed == s.failed
      && PaymentsDue(cfg, s'.payments)
      && (EdgeToCloudAvailable(cfg.faults, second) ==>
            forall j :: 0 <= j < |s'.payments| ==> s'.payments[j].status == Succeeded || s'.payments[j].due > second)
    decreases |s.payments| - i
  {
    if i < |s.payments| {
      if !EdgeToCloudAvailable(cfg.faults, second) && second > LastRecoveryFaultSecond(cfg.faults) {
        FaultsOver(cfg.faults, second);
      }
      var p := s.payments[i];
      var v := VisitPayment(cfg, s, second, i);
      VisitPaymentFields(cfg, s, second, i);
      OnePaymentChanges(s.payments, s.signals, s.sequence, i, p.(status := Succeeded));
      OnePaymentChanges(s.payments, s.signals, s.sequence, i, p.(due := second + 1));
      PaymentSignalsEffect(cfg, v, second, i + 1);
    }
  }

  /** One second: deadlines hold, and whatever could be settled by the end of it has been. */
  ghost predicate Settled(cfg: Config, s: Sim, second: int) {
    && (EdgeToCloudAvailable(cfg.faults, second) ==>
          forall j :: 0 <= j < |s.payments| ==> s.payments[j].status == Succeeded || s.payments[j].due > second)
    && (EdgeAvailable(cfg.faults, second) ==>
          forall j :: 0 <= j < |s.transfers| ==> s.transfers[j].completed || s.transfers[j].due > second)
  }

  lemma {:induction false} PaymentsIn(s: Sim)
    requires Inv(s)
    ensures PaymentInv(s)
  {
  }

  lemma {:induction false} SecondSettles(cfg: Config, s: Sim, second: int)
    requires Inv(s) && Bounded(cfg, s)
    ensures Bounded(cfg, Second(cfg, s, second))
    ensures !Second(cfg, s, second).failed ==> Settled(cfg, Second(cfg, s, second), second)
  {
    hide Inv, GenerateTraffic, MaybeCreateTransfers, CompleteTransfers, DrainLocalQueue, DrainEdgeQueue, ProcessPaymentSignals, PaymentsOk;
    var sold := if second < cfg.duration then GenerateTraffic(cfg, s, second, 0) else s;
    if second < cfg.duration { TrafficKeeps(cfg, s, second, 0); TrafficBounded(cfg, s, second, 0); }
    if !sold.failed {
      var planned := MaybeCreateTransfers(cfg, sold, second, 0);
      CreateTransfersKeeps(cfg, sold, second, 0);
      CreateTransfersEffect(cfg, sold, second, 0);
      PlansOver(cfg, second);
      var stocked := CompleteTransfers(cfg, planned, second, 0);
      CompleteTransfersKeeps(cfg, planned, second, 0);
      CompleteTransfersEffect(cfg, planned, second, 0);
      var local := DrainLocalQueue(cfg, stocked, second, 0, 0);
      DrainLocalKeeps(cfg, stocked, second, 0, 0);
      DrainLocalEffect(cfg, stocked, second, 0, 0);
      var cloud := DrainEdgeQueue(cfg, local, second);
      DrainEdgeEffect(cfg, local, second);
      DrainEdgeKeeps(cfg, local, second);
      PaymentsIn(cloud);
      PaymentSignalsEffect(cfg, cloud, second, 0);
    }
  }

  lemma {:induction false} StartBounded(cfg: Config, stream: nat -> Fraction)
    ensures Bounded(cfg, Start(cfg, stream))
  {
  }

  lemma {:induction false} EveryRunBounded(cfg: Config, stream: nat -> Fraction, second: nat)
    requires Accepts(cfg)
    ensures Bounded(cfg, After(cfg, stream, second))
    ensures second > 0 && !After(cfg, stream, second).failed ==> Settled(cfg, After(cfg, stream, second), second - 1)
  {
    hide Inv, Second, Bounded, Settled, Accepts;
    if second == 0 {
      StartBounded(cfg, stream);
    } else {
      EveryRunBounded(cfg, stream, second - 1);
      EveryRunHolds(cfg, stream, second - 1);
      SecondSettles(cfg, After(cfg, stream, second - 1), second - 1);
    }
  }

  lemma {:induction false} AllSucceeded(cfg: Config, stream: nat -> Fraction)
    requires Accepts(cfg) && !After(cfg, stream, FinalSecond(cfg) + 1).failed
    requires FinalSecond(cfg) > LastRecoveryFaultSecond(cfg.faults)
    requires FinalSecond(cfg) >= cfg.duration - 1 + MaxDelay(cfg.faults) + 22
    ensures var payments := After(cfg, stream, FinalSecond(cfg) + 1).payments;
      forall i :: 0 <= i < |payments| ==> payments[i].status == Succeeded
  {
    hide After, MaxDelay, LastRecoveryFaultSecond, TransfersDue;
    EveryRunBounded(cfg, stream, FinalSecond(cfg) + 1);
    FaultsOver(cfg.faults, FinalSecond(cfg));
  }

  /** A run that is long enough ends with every payment succeeded. */
  lemma {:induction false} PaymentsResolve(cfg: Config, stream: nat -> Fraction)
    requires Accepts(cfg)
    requires FinalSecond(cfg) > LastRecoveryFaultSecond(cfg.faults)
    requires FinalSecond(cfg) >= cfg.duration - 1 + MaxDelay(cfg.faults) + 22
    ensures var s := After(cfg, stream, FinalSecond(cfg) + 1);
      !s.failed ==> (forall p :: p in s.payments ==> p.status == Succeeded) && Passes(s, PaymentTruthResolves)
                    && Passes(s, PaymentEffectCount)
  {
    hide After, MaxDelay, Completed, LastRecoveryFaultSecond;
    var s := After(cfg, stream, FinalSecond(cfg) + 1);
    AssertionsAgree(cfg, stream, FinalSecond(cfg) + 1);
    if !s.failed {
      AllSucceeded(cfg, stream);
      NoneUnresolved(s.payments);
    }
  }

  lemma {:induction false} NoneUnresolved(payments: seq<Payment>)
    requires forall i :: 0 <= i < |payments| ==> payments[i].status == Succeeded
    ensures Unresolved(payments) == 0
  {
    if payments != [] { NoneUnresolved(payments[..|payments| - 1]); }
  }

  // ---------- the backlog drains ----------

  function Backlog(s: Sim): nat { 2 * |s.localQueue| + |s.edgeQueue| }

  lemma {:induction false} LocalQueueMoves(cfg: Config, s: Sim, second: int, moved: nat)
    requires Rate(cfg.faults.networkLossRate) == 0.0
    requires forall r :: PosToEdgeAvailable(cfg.faults, r, second)
    ensures var s' := DrainLocalQueue(cfg, s, second, 0, moved);
      var k := Min(|s.localQueue|, Max(0, 250 - moved));
      && |s'.localQueue| == |s.localQueue| - k
      && |s.edgeQueue| + k <= |s'.edgeQueue| <= |s.edgeQueue| + 2 * k
    decreases |s.localQueue|
  {
    if 0 < |s.localQueue| && moved < 250 {
      LocalQueueMoves(cfg, VisitLocal(cfg, s, second, 0).0, second, moved + 1);
    }
  }

  /** In a quiet second the weighted backlog falls by 250, unless both queues end empty. */
  lemma {:induction false} QuietSecondDrains(cfg: Config, s: Sim, second: int)
    requires Inv(s) && Bounded(cfg, s) && !s.failed
    requires second >= cfg.duration && second > LastRecoveryFaultSecond(cfg.faults)
    requires Rate(cfg.faults.networkLossRate) == 0.0
    requires forall j :: 0 <= j < |s.transfers| ==> s.transfers[j].completed || s.transfers[j].due > second
    ensures var s' := Second(cfg, s, second);
      !s'.failed && (Backlog(s') == 0 || Backlog(s') + 250 <= Backlog(s))
  {
    hide Inv, GenerateTraffic, MaybeCreateTransfers, CompleteTransfers, DrainLocalQueue, DrainEdgeQueue, ProcessPaymentSignals, PaymentsOk, EdgeAvailable, PosToEdgeAvailable, LastRecoveryFaultSecond;
    FaultsOver(cfg.faults, second);
    var planned := MaybeCreateTransfers(cfg, s, second, 0);
    CreateTransfersKeeps(cfg, s, second, 0);
    CreateTransfersEffect(cfg, s, second, 0);
    PlansOver(cfg, second);
    CompleteTransfersEffect(cfg, planned, second, 0);
    var local := DrainLocalQueue(cfg, planned, second, 0, 0);
    DrainLocalKeeps(cfg, planned, second, 0, 0);
    DrainLocalEffect(cfg, planned, second, 0, 0);
    LocalQueueMoves(cfg, planned, second, 0);
    DrainEdgeEffect(cfg, local, second);
    DrainEdgeKeeps(cfg, local, second);
    PaymentsIn(DrainEdgeQueue(cfg, local, second));
    PaymentSignalsEffect(cfg, DrainEdgeQueue(cfg, local, second), second, 0);
  }

  /** The second from which nothing new can enter either queue: it follows from the configuration alone. */
  ghost function QuietFrom(cfg: Config): nat {
    Max(0, Max(cfg.duration, Max(LastRecoveryFaultSecond(cfg.faults), TransferDeadline(cfg)) + 1))
  }

  lemma {:induction false} QuietSecond(cfg: Config, second: int)
    requires second >= QuietFrom(cfg)
    ensures second >= cfg.duration && second > LastRecoveryFaultSecond(cfg.faults)
  {
  }

  lemma {:induction false} QuietTransfers(cfg: Config, stream: nat -> Fraction, second: nat)
    requires Accepts(cfg) && second > QuietFrom(cfg) && !After(cfg, stream, second).failed
    ensures var s := After(cfg, stream, second);
      forall j :: 0 <= j < |s.transfers| ==> s.transfers[j].completed
  {
    EveryRunBounded(cfg, stream, second);
    FaultsOver(cfg.faults, second - 1);
  }

  /** Once quiet, a backlog of weight b is gone within b / 250 + 1 seconds, and stays gone. */
  lemma {:induction false} BacklogDrains(cfg: Config, stream: nat -> Fraction, from: nat, second: nat)
    requires Accepts(cfg) && Rate(cfg.faults.networkLossRate) == 0.0
    requires QuietFrom(cfg) < from <= second && !After(cfg, stream, from).failed
    ensures var s := After(cfg, stream, second);
      && !s.failed
      && (Backlog(s) == 0 || Backlog(s) + 250 * (second - from) <= Backlog(After(cfg, stream, from)))
    ensures second >= from + Backlog(After(cfg, stream, from)) / 250 + 1 ==>
      Passes(After(cfg, stream, second), SyncDrains) && Passes(After(cfg, stream, second), EdgeCloudConvergence)
    decreases second - from
  {
    hide Inv, Second, Bounded, Settled, QuietFrom, Accepts, InventoryConverged;
    if second > from {
      BacklogDrains(cfg, stream, from, second - 1);
      var s := After(cfg, stream, second - 1);
      EveryRunHolds(cfg, stream, second - 1);
      EveryRunBounded(cfg, stream, second - 1);
      QuietTransfers(cfg, stream, second - 1);
      QuietSecond(cfg, second - 1);
      QuietSecondDrains(cfg, s, second - 1);
    }
    AssertionsAgree(cfg, stream, second);
  }
}
