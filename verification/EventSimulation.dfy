/**
 The simulator as the source writes it: fields changed in place by nested loops.  Every method is
 tied to the phase function of SimulatorModel that the theorems are about.
 */
module EventSimulationClass {
  import opened Common
  import opened Randomness
  import opened SimulatorModel
  import opened SimulatorInvariants
  import opened SimulatorTheorems

  datatype SimulationError = InvalidConfig | NothingToSelect

  /** Which release assertions passed. */
  type Report = map<Assertion, bool>

  const ALL_ASSERTIONS: set<Assertion> :=
    {LocalDurability, NoDuplicateBusinessEffect, SyncDrains, PaymentTruthResolves, PaymentEffectCount,
     InventoryConvergence, EdgeCloudConvergence}

  class EventSimulation {
    const cfg: Config
    var random: Random
    var registers: seq<Register>
    var physical: map<Key, int>
    var edge: map<Key, int>
    var cloud: map<Key, int>
    var localQueue: seq<Mutation>
    var edgeQueue: seq<Mutation>
    var edgeApplied: set<MutationId>
    var cloudApplied: set<MutationId>
    var durableOrders: set<nat>
    var cloudOrders: set<nat>
    var payments: seq<Payment>
    var signals: set<(nat, Rail)>
    var transfers: seq<Transfer>
    var planUsage: set<(PlanKey, nat)>
    var planLeft: map<PlanKey, int>
    var committed: nat
    var duplicateEffects: nat
    var sequence: nat
    var failed: bool

    function State(): Sim
      reads this
    {
      Sim(random, registers, physical, edge, cloud, localQueue, edgeQueue, edgeApplied, cloudApplied,
          durableOrders, cloudOrders, payments, signals, transfers, planUsage, planLeft,
          committed, duplicateEffects, sequence, failed)
    }

    constructor (cfg: Config, stream: nat -> Fraction)
      requires Accepts(cfg)
      ensures this.cfg == cfg && State() == Start(cfg, stream)
    {
      this.cfg := cfg;
      random := Random(stream, 0);
      var stock, desks := map[], [];
      var bar := 0;
      while bar < cfg.bars
        invariant 0 <= bar <= cfg.bars
        invariant OpenBars(cfg, stock, bar) == OpenBars(cfg, map[], 0)
        invariant AllRegisters(cfg, desks, bar) == AllRegisters(cfg, [], 0)
      {
        ghost var stock0, desks0 := stock, desks;
        var i := 0;
        while i < cfg.registersPerBar
          invariant 0 <= i <= cfg.registersPerBar
          invariant BarRegisters(cfg, desks, bar, i) == BarRegisters(cfg, desks0, bar, 0)
        {
          desks := desks + [Register(RegisterId(bar, i), 0.0)];
          i := i + 1;
        }
        i := 0;
        while i < |cfg.products|
          invariant 0 <= i <= |cfg.products|
          invariant OpenBar(cfg.products, stock, bar, i) == OpenBar(cfg.products, stock0, bar, 0)
        {
          stock := stock[Key(bar, cfg.products[i].sku) := cfg.products[i].opening];
          i := i + 1;
        }
        bar := bar + 1;
      }
      registers, physical, edge, cloud := desks, stock, stock, stock;
      localQueue, edgeQueue, edgeApplied, cloudApplied := [], [], {}, {};
      durableOrders, cloudOrders, payments, signals, transfers := {}, {}, [], {}, [];
      planUsage, planLeft, committed, duplicateEffects, sequence, failed := {}, map[], 0, 0, 0, false;
    }

    method Flip(rate: Option<real>) returns (heads: bool)
      modifies this`random
      ensures (heads, random) == Chance(old(random), Rate(rate))
    {
      var (outcome, rest) := Chance(random, Rate(rate));
      heads, random := outcome, rest;
    }

    // ---------- traffic ----------

    method CreateSale(register: Register, second: int)
      modifies this`random, this`failed, this`physical, this`sequence, this`committed, this`durableOrders,
               this`localQueue, this`payments
      ensures State() == SimulatorModel.CreateSale(cfg, old(State()), register.id, second)
    {
      hide SimulatorModel.SellProduct;
      var (pick, r0) := Weighted(random, ProductWeights(cfg, second));
      random := r0;
      if pick.None? {
        failed := true;
        return;
      }
      var sku := cfg.products[pick.value].sku;
      var key := Key(register.id.bar, sku);
      if Stock(physical, key) <= 0 { return; }
      SellProduct(register.id, sku, second);
    }

    method RecordOrder()
      modifies this`sequence, this`committed, this`durableOrders
      ensures State() == SimulatorModel.RecordOrder(old(State()))
    {
      sequence := sequence + 1;
      committed := committed + 1;
      durableOrders := durableOrders + {sequence};
    }

    method SellProduct(register: RegisterId, sku: string, second: int)
      modifies this`random, this`physical, this`sequence, this`committed, this`durableOrders,
               this`localQueue, this`payments
      ensures State() == SimulatorModel.SellProduct(cfg, old(State()), register, sku, second)
    {
      hide SimulatorModel.SalePayment, Stock, SaleMutations, Integer;
      RecordOrder();
      var key := Key(register.bar, sku);
      physical := physical[key := Stock(physical, key) - 1];
      localQueue := localQueue + SaleMutations(register, sku, sequence, second);
      var (_, r1) := Integer(random, 0, 45);
      var (_, r2) := Integer(r1, 0, 80);
      var (payment, r3) := SalePayment(cfg, r2, register, sequence, second);
      payments, random := payments + [payment], r3;
    }

    method SellRegister(i: nat, second: int)
      requires i < |registers|
      modifies this
      ensures State() == SellWhileDue(cfg, old(State()), i, second)
    {
      hide SimulatorModel.CreateSale;
      while !failed && registers[i].accumulator >= 1.0
        invariant i < |registers|
        invariant SellWhileDue(cfg, State(), i, second) == SellWhileDue(cfg, old(State()), i, second)
        decreases if registers[i].accumulator < 1.0 then 0 else registers[i].accumulator.Floor, !failed
      {
        registers := registers[i := registers[i].(accumulator := registers[i].accumulator - 1.0)];
        CreateSale(registers[i], second);
      }
    }

    method GenerateTraffic(second: int)
      modifies this
      ensures State() == SimulatorModel.GenerateTraffic(cfg, old(State()), second, 0)
    {
      var i := 0;
      while i < |registers| && !failed
        invariant 0 <= i <= |registers| == old(|registers|)
        invariant SimulatorModel.GenerateTraffic(cfg, State(), second, i)
               == SimulatorModel.GenerateTraffic(cfg, old(State()), second, 0)
        decreases old(|registers|) - i
      {
        ghost var before := State();
        registers := registers[i := registers[i].(accumulator := registers[i].accumulator + cfg.salesPerMinute / 60.0)];
        assert State() == Accrue(cfg, before, i);
        SellRegister(i, second);
        i := i + 1;
      }
    }

    // ---------- transfers ----------

    method ReplenishBar(plan: Plan, second: int, bar: nat)
      modifies this
      ensures State() == SimulatorModel.ReplenishBar(old(State()), plan, second, bar)
    {
      hide Stock, Min, Max, SimulatorModel.StartTransfer;
      var planKey := PlanKeyOf(plan);
      if Stock(physical, Key(bar, plan.sku)) > plan.triggerBelow || (planKey, bar) in planUsage { return; }
      var available := if planKey in planLeft then planLeft[planKey] else 0;
      var quantity := Min(available, Max(0, plan.transferQuantity));
      if quantity <= 0 { return; }
      planUsage := planUsage + {(planKey, bar)};
      planLeft := planLeft[planKey := available - quantity];
      StartTransfer(Key(bar, plan.sku), quantity, second);
    }

    method StartTransfer(key: Key, quantity: int, second: int)
      modifies this`sequence, this`transfers
      ensures State() == SimulatorModel.StartTransfer(old(State()), key, quantity, second)
    {
      sequence := sequence + 1;
      transfers := transfers + [Transfer(sequence, key, quantity, second + 10, false)];
    }

    method MaybeCreateTransfers(second: int)
      modifies this
      ensures State() == SimulatorModel.MaybeCreateTransfers(cfg, old(State()), second, 0)
    {
      var p := 0;
      while p < |cfg.faults.replenishment|
        invariant 0 <= p <= |cfg.faults.replenishment|
        invariant SimulatorModel.MaybeCreateTransfers(cfg, State(), second, p)
               == SimulatorModel.MaybeCreateTransfers(cfg, old(State()), second, 0)
      {
        var plan := cfg.faults.replenishment[p];
        if plan.window.Contains(second) {
          if PlanKeyOf(plan) !in planLeft {
            planLeft := planLeft[PlanKeyOf(plan) := Max(0, plan.sourceStock)];
          }
          ghost var before := State();
          var bar := 0;
          while bar < cfg.bars
            invariant 0 <= bar
            invariant ReplenishBars(cfg, State(), plan, second, bar) == ReplenishBars(cfg, before, plan, second, 0)
          {
            ReplenishBar(plan, second, bar);
            bar := bar + 1;
          }
        }
        p := p + 1;
      }
    }

    method CompleteTransfer(i: nat, second: int)
      requires i < |transfers|
      modifies this
      ensures State() == SimulatorModel.CompleteTransfer(old(State()), i, second)
    {
      hide SimulatorModel.ApplyAtEdge;
      var t := transfers[i];
      physical := physical[t.key := Stock(physical, t.key) + t.quantity];
      transfers := transfers[i := t.(completed := true)];
      var m := TransferMutation(t, second);
      ApplyAtEdge(m);
      edgeQueue := edgeQueue + [m];
    }

    method CompleteTransfers(second: int)
      modifies this
      ensures State() == SimulatorModel.CompleteTransfers(cfg, old(State()), second, 0)
    {
      var i := 0;
      while i < |transfers|
        invariant 0 <= i <= |transfers| == old(|transfers|)
        invariant SimulatorModel.CompleteTransfers(cfg, State(), second, i)
               == SimulatorModel.CompleteTransfers(cfg, old(State()), second, 0)
        decreases old(|transfers|) - i
      {
        ghost var before := State();
        if transfers[i].completed || transfers[i].due > second {
        } else if !EdgeAvailable(cfg.faults, second) {
          transfers := transfers[i := transfers[i].(due := second + 1)];
        } else {
          CompleteTransfer(i, second);
        }
        assert State() == VisitTransfer(cfg, before, second, i);
        i := i + 1;
      }
    }

    // ---------- synchronisation ----------

    method ApplyAtEdge(m: Mutation)
      modifies this`edgeApplied, this`edge
      ensures State() == SimulatorModel.ApplyAtEdge(old(State()), m)
    {
      if m.id in edgeApplied { return; }
      edgeApplied := edgeApplied + {m.id};
      if m.kind.StockKind? {
        edge := edge[m.kind.key := Stock(edge, m.kind.key) + m.kind.delta];
      }
    }

    method Forward(i: nat, twice: bool)
      requires i < |localQueue|
      modifies this
      ensures State() == SimulatorModel.Forward(old(State()), i, twice)
    {
      var m := localQueue[i];
      localQueue := localQueue[..i] + localQueue[i + 1..];
      ApplyAtEdge(m);
      edgeQueue := edgeQueue + [m];
      if twice { edgeQueue := edgeQueue + [m]; }
      assert twice ==> edgeQueue == old(edgeQueue) + [m, m];
    }

    method VisitLocal(i: nat, second: int) returns (gone: bool)
      requires i < |localQueue|
      modifies this
      ensures (State(), gone) == SimulatorModel.VisitLocal(cfg, old(State()), second, i)
    {
      hide SimulatorModel.Forward;
      if !PosToEdgeAvailable(cfg.faults, localQueue[i].register, second) { return false; }
      var lost := Flip(cfg.faults.networkLossRate);
      if lost { return false; }
      var twice := Flip(cfg.faults.syncDuplicateRate);
      Forward(i, twice);
      return true;
    }

    method DrainLocalQueue(second: int)
      modifies this
      ensures State() == SimulatorModel.DrainLocalQueue(cfg, old(State()), second, 0, 0)
    {
      var i, moved := 0, 0;
      while i < |localQueue| && moved < 250
        invariant 0 <= i <= |localQueue| && 0 <= moved
        invariant SimulatorModel.DrainLocalQueue(cfg, State(), second, i, moved)
               == SimulatorModel.DrainLocalQueue(cfg, old(State()), second, 0, 0)
        decreases |localQueue| - i
      {
        var gone := VisitLocal(i, second);
        if gone { moved := moved + 1; } else { i := i + 1; }
      }
    }

    method ApplyAtCloud(m: Mutation)
      modifies this
      ensures State() == SimulatorModel.ApplyAtCloud(old(State()), m)
    {
      hide Stock;
      if m.id in cloudApplied { return; }
      cloudApplied := cloudApplied + {m.id};
      match m.kind {
        case OrderKind(order) =>
          var known := order in cloudOrders;
          cloudOrders := cloudOrders + {order};
          if known { duplicateEffects := duplicateEffects + 1; }
        case StockKind(key, delta) =>
          cloud := cloud[key := Stock(cloud, key) + delta];
      }
    }

    method MaybeRotate()
      modifies this`random, this`edgeQueue
      ensures State() == SimulatorModel.MaybeRotate(cfg, old(State()))
    {
      if |edgeQueue| > 1 {
        var rotate := Flip(cfg.faults.syncReorderRate);
        if rotate { edgeQueue := Rotated(edgeQueue); }
      }
    }

    method ForwardNext()
      requires edgeQueue != []
      modifies this
      ensures State() == Deliver(old(State()))
    {
      hide SimulatorModel.ApplyAtCloud;
      var m := edgeQueue[0];
      edgeQueue := edgeQueue[1..];
      ApplyAtCloud(m);
    }

    method DrainEdgeQueue(second: int)
      modifies this
      ensures State() == SimulatorModel.DrainEdgeQueue(cfg, old(State()), second)
    {
      hide SimulatorModel.MaybeRotate, Deliver, EdgeToCloudAvailable, Capacity;
      if !EdgeToCloudAvailable(cfg.faults, second) { return; }
      MaybeRotate();
      ghost var start := State();
      var left := Capacity(cfg.faults, second);
      while edgeQueue != [] && left > 0
        invariant 0 <= left
        invariant DeliverUpTo(cfg, State(), left) == DeliverUpTo(cfg, start, Capacity(cfg.faults, second))
        decreases left
      {
        var lost := Flip(cfg.faults.networkLossRate);
        if lost { break; }
        ForwardNext();
        left := left - 1;
      }
    }

    // ---------- payments ----------

    method ApplyPaymentSignal(i: nat)
      requires i < |payments|
      modifies this`signals, this`payments
      ensures State() == SimulatorModel.ApplyPaymentSignal(old(State()), i)
    {
      var id := (payments[i].order, payments[i].rail);
      if id in signals { return; }
      signals := signals + {id};
      payments := payments[i := payments[i].(status := Succeeded)];
    }

    method VisitPayment(i: nat, second: int)
      requires i < |payments|
      modifies this
      ensures State() == SimulatorModel.VisitPayment(cfg, old(State()), second, i)
    {
      if payments[i].status == Succeeded || payments[i].due > second { return; }
      if !EdgeToCloudAvailable(cfg.faults, second) {
        payments := payments[i := payments[i].(due := second + 1)];
        return;
      }
      ApplyPaymentSignal(i);
      var again := Flip(cfg.faults.callbackDuplicateRate);
      if again { ApplyPaymentSignal(i); }
    }

    method ProcessPaymentSignals(second: int)
      modifies this
      ensures State() == SimulatorModel.ProcessPaymentSignals(cfg, old(State()), second, 0)
    {
      var i := 0;
      while i < |payments|
        invariant 0 <= i <= |payments| == old(|payments|)
        invariant SimulatorModel.ProcessPaymentSignals(cfg, State(), second, i)
               == SimulatorModel.ProcessPaymentSignals(cfg, old(State()), second, 0)
        decreases old(|payments|) - i
      {
        VisitPayment(i, second);
        i := i + 1;
      }
    }

    // ---------- run ----------

    method RunSecond(second: int)
      modifies this
      ensures State() == Second(cfg, old(State()), second)
    {
      if second < cfg.duration { GenerateTraffic(second); }
      if failed { return; }
      MaybeCreateTransfers(second);
      CompleteTransfers(second);
      DrainLocalQueue(second);
      DrainEdgeQueue(second);
      ProcessPaymentSignals(second);
    }

    /** A whole run: conserved at every step, and reporting what the final state passes. */
    method Run(ghost stream: nat -> Fraction) returns (res: Result<Report, SimulationError>)
      requires Accepts(cfg) && State() == Start(cfg, stream)
      modifies this
      ensures State() == After(cfg, stream, FinalSecond(cfg) + 1) && Inv(State())
      ensures failed ==> res == Err(NothingToSelect)
      ensures !failed ==> res.Ok? && forall a :: a in res.value && res.value[a] == Passes(State(), a)
      ensures !failed ==>
        var passed := res.value;
        && passed[LocalDurability] && passed[NoDuplicateBusinessEffect]
        && passed[SyncDrains] == passed[EdgeCloudConvergence]
        && (passed[SyncDrains] ==> passed[InventoryConvergence])
        && passed[PaymentTruthResolves] == passed[PaymentEffectCount]
    {
      hide Inv, Second, Passes, Start;
      var second := 0;
      while second <= cfg.duration + cfg.recovery && !failed
        invariant 0 <= second <= FinalSecond(cfg) + 1
        invariant State() == After(cfg, stream, second)
      {
        RunSecond(second);
        second := second + 1;
      }
      if failed { Stuck(cfg, stream, second, FinalSecond(cfg) + 1); }
      EveryRunHolds(cfg, stream, FinalSecond(cfg) + 1);
      AssertionsAgree(cfg, stream, FinalSecond(cfg) + 1);
      if failed { return Err(NothingToSelect); }
      res := Ok(map a | a in ALL_ASSERTIONS :: Passes(State(), a));
      forall a ensures a in ALL_ASSERTIONS { Listed(a); }
    }
  }

  lemma {:induction false} Listed(a: Assertion)
    ensures a in ALL_ASSERTIONS
  {
    match a {
      case LocalDurability =>
      case NoDuplicateBusinessEffect =>
      case SyncDrains =>
      case PaymentTruthResolves =>
      case PaymentEffectCount =>
      case InventoryConvergence =>
      case EdgeCloudConvergence =>
    }
  }

  /** A run that threw keeps the state it threw in. */
  lemma {:induction false} Stuck(cfg: Config, stream: nat -> Fraction, at: nat, second: nat)
    requires at <= second && After(cfg, stream, at).failed
    ensures After(cfg, stream, second) == After(cfg, stream, at)
    decreases second - at
  {
    if at < second { Stuck(cfg, stream, at, second - 1); }
  }

  method Simulate(cfg: Config, stream: nat -> Fraction) returns (res: Result<Report, SimulationError>)
    ensures !Accepts(cfg) <==> res == Err(InvalidConfig)
    ensures Accepts(cfg) ==>
      var end := After(cfg, stream, FinalSecond(cfg) + 1);
      if end.failed then res == Err(NothingToSelect)
      else res.Ok? && forall a :: a in res.value && res.value[a] == Passes(end, a)
  {
    if !Accepts(cfg) { return Err(InvalidConfig); }
    var simulation := new EventSimulation(cfg, stream);
    res := simulation.Run(stream);
  }
}
