/** What moves in a simulated second besides sales, and exactly when. */
module SimulatorPhases {
  import opened Common
  import opened Randomness
  import opened SimulatorModel
  import opened SimulatorInvariants

  // ---------- replenishment ----------

  /** What a bar may still be given under a plan. */
  function Grant(s: Sim, plan: Plan): int { Min(PlanLeft(s, PlanKeyOf(plan)), plan.transferQuantity) }

  /**
   A bar is replenished under a plan exactly when it has not been yet, its stock is at most the trigger
   and something is left to send.  The transfer to that bar is due ten seconds later, and what it carries
   is taken from the plan.
   */
  lemma {:induction false} ReplenishedExactlyWhen(s: Sim, plan: Plan, second: int, bar: nat)
    ensures var after, key := ReplenishBar(s, plan, second, bar), Key(bar, plan.sku);
      var planKey := PlanKey(plan.sku, plan.window.start, plan.window.end);
      if Stock(s.physical, key) <= plan.triggerBelow && (planKey, bar) !in s.planUsage && Grant(s, plan) > 0 then
        && after.transfers == s.transfers + [Transfer(s.sequence + 1, key, Grant(s, plan), second + 10, false)]
        && (forall k :: PlanLeft(after, k) == PlanLeft(s, k) - if k == planKey then Grant(s, plan) else 0)
        && after == s.(transfers := after.transfers, sequence := s.sequence + 1,
                       planUsage := s.planUsage + {(planKey, bar)}, planLeft := after.planLeft)
      else after == s
  {
  }

  // ---------- transfers that arrive ----------

  function Visited(cfg: Config, t: Transfer, second: int): Transfer {
    if t.completed || t.due > second then t
    else if EdgeAvailable(cfg.faults, second) then t.(completed := true)
    else t.(due := second + 1)
  }

  /** What the transfers from i on bring to one place. */
  function BroughtTo(cfg: Config, transfers: seq<Transfer>, second: int, i: nat, k: Key): int
    decreases |transfers| - i
  {
    if i >= |transfers| then 0
    else
      (if !transfers[i].completed && Visited(cfg, transfers[i], second).completed && transfers[i].key == k
       then transfers[i].quantity else 0)
      + BroughtTo(cfg, transfers, second, i + 1, k)
  }

  lemma {:induction false} BroughtElsewhere(cfg: Config, transfers: seq<Transfer>, second: int, i: nat, j: nat,
                                            t: Transfer, k: Key)
    requires j < i && j < |transfers|
    ensures BroughtTo(cfg, transfers[j := t], second, i, k) == BroughtTo(cfg, transfers, second, i, k)
    decreases |transfers| - i
  {
    if i < |transfers| { BroughtElsewhere(cfg, transfers, second, i + 1, j, t, k); }
  }

  lemma {:induction false} ArrivalBrings(s: Sim, i: nat, second: int)
    requires i < |s.transfers|
    ensures var after, t := CompleteTransfer(s, i, second), s.transfers[i];
      && after.transfers == s.transfers[i := t.(completed := true)]
      && after.physical == s.physical[t.key := Stock(s.physical, t.key) + t.quantity]
  {
    hide Stock;
  }

  lemma {:induction false} VisitBrings(cfg: Config, s: Sim, second: int, i: nat, k: Key)
    requires i < |s.transfers|
    ensures var after, t := VisitTransfer(cfg, s, second, i), s.transfers[i];
      && after.transfers == s.transfers[i := Visited(cfg, t, second)]
      && Stock(after.physical, k) == Stock(s.physical, k)
           + if !t.completed && Visited(cfg, t, second).completed && t.key == k then t.quantity else 0
  {
    hide EdgeAvailable, CompleteTransfer;
    ArrivalBrings(s, i, second);
  }

  /**
   A transfer arrives in the second it is due if the Edge is up, and is otherwise put off to the next
   second.  Stock at every bar grows by exactly what arrives there.
   */
  lemma {:induction false} ArrivesExactlyWhen(cfg: Config, s: Sim, second: int, i: nat, k: Key)
    requires i <= |s.transfers|
    ensures var after := CompleteTransfers(cfg, s, second, i);
      && |after.transfers| == |s.transfers|
      && (forall j :: 0 <= j < |s.transfers| ==>
            after.transfers[j] == if j < i then s.transfers[j] else Visited(cfg, s.transfers[j], second))
      && Stock(after.physical, k) == Stock(s.physical, k) + BroughtTo(cfg, s.transfers, second, i, k)
    decreases |s.transfers| - i
  {
    hide VisitTransfer, Visited, Stock;
    if i < |s.transfers| {
      VisitBrings(cfg, s, second, i, k);
      ArrivesExactlyWhen(cfg, VisitTransfer(cfg, s, second, i), second, i + 1, k);
      BroughtElsewhere(cfg, s.transfers, second, i + 1, i, Visited(cfg, s.transfers[i], second), k);
    }
  }

  // ---------- payments ----------

  function Signalled(cfg: Config, p: Payment, second: int): Payment {
    if p.status == Succeeded || p.due > second then p
    else if EdgeToCloudAvailable(cfg.faults, second) then p.(status := Succeeded)
    else p.(due := second + 1)
  }

  /** A payment succeeds in the second its truth is due if the Cloud is reachable, and is otherwise put off. */
  lemma {:induction false} SettlesExactlyWhen(cfg: Config, s: Sim, second: int, i: nat)
    requires PaymentInv(s) && i <= |s.payments|
    ensures var after := ProcessPaymentSignals(cfg, s, second, i);
      && |after.payments| == |s.payments|
      && forall j :: 0 <= j < |s.payments| ==>
           after.payments[j] == if j < i then s.payments[j] else Signalled(cfg, s.payments[j], second)
    decreases |s.payments| - i
  {
    hide VisitPayment, EdgeToCloudAvailable;
    if i < |s.payments| {
      var p, v := s.payments[i], VisitPayment(cfg, s, second, i);
      VisitPaymentFields(cfg, s, second, i);
      OnePaymentChanges(s.payments, s.signals, s.sequence, i, p.(status := Succeeded));
      OnePaymentChanges(s.payments, s.signals, s.sequence, i, p.(due := second + 1));
      assert v.payments == s.payments[i := Signalled(cfg, p, second)];
      SettlesExactlyWhen(cfg, v, second, i + 1);
    }
  }

  // ---------- what leaves the device queue ----------

  predicate NoLoss(cfg: Config) { Rate(cfg.faults.networkLossRate) == 0.0 }

  predicate NoDuplicates(cfg: Config) { Rate(cfg.faults.syncDuplicateRate) == 0.0 }

  /** Mutations of registers that cannot reach the Edge stay, and no more than 250 leave in a second. */
  lemma {:induction false} LocalLimits(cfg: Config, s: Sim, second: int, i: nat, moved: nat)
    requires i <= |s.localQueue| && moved <= 250
    ensures var after := DrainLocalQueue(cfg, s, second, i, moved);
      && |after.localQueue| >= |s.localQueue| - (250 - moved)
      && forall m :: m in s.localQueue && !PosToEdgeAvailable(cfg.faults, m.register, second) ==> m in after.localQueue
    decreases |s.localQueue| - i
  {
    hide PosToEdgeAvailable, VisitLocal;
    if i < |s.localQueue| && moved < 250 {
      var (s', gone) := VisitLocal(cfg, s, second, i);
      LocalVisitTells(cfg, s, second, i);
      LocalLimits(cfg, s', second, if gone then i else i + 1, if gone then moved + 1 else moved);
    }
  }

  lemma {:induction false} LocalVisitTells(cfg: Config, s: Sim, second: int, i: nat)
    requires i < |s.localQueue|
    ensures var (after, gone) := VisitLocal(cfg, s, second, i);
      && (gone ==> PosToEdgeAvailable(cfg.faults, s.localQueue[i].register, second))
      && after.localQueue == (if gone then s.localQueue[..i] + s.localQueue[i + 1..] else s.localQueue)
      && (NoLoss(cfg) && PosToEdgeAvailable(cfg.faults, s.localQueue[i].register, second) ==> gone)
      && (gone && NoDuplicates(cfg) ==> after.edgeQueue == s.edgeQueue + [s.localQueue[i]])
      && (!gone ==> after.edgeQueue == s.edgeQueue)
  {
    hide PosToEdgeAvailable, Stock, Rate;
  }

  lemma {:induction false} OneMoved<T>(queue: seq<T>, done: seq<T>, n: nat)
    requires n < |queue|
    ensures (done + [queue[0]]) + queue[1..][..n] == done + queue[..n + 1] && queue[1..][n..] == queue[n + 1..]
    ensures queue[..0] + queue[1..] == queue[1..]
  {
  }

  /** Without loss or repetition, and with every register reachable, exactly the first 250 go, in order. */
  lemma {:induction false} FirstOnesGo(cfg: Config, s: Sim, second: int, moved: nat)
    requires NoLoss(cfg) && NoDuplicates(cfg) && moved <= 250
    requires forall i :: 0 <= i < |s.localQueue| ==> PosToEdgeAvailable(cfg.faults, s.localQueue[i].register, second)
    ensures var after, n := DrainLocalQueue(cfg, s, second, 0, moved), Min(|s.localQueue|, 250 - moved);
      && after.localQueue == s.localQueue[n..]
      && after.edgeQueue == s.edgeQueue + s.localQueue[..n]
    decreases 250 - moved
  {
    hide PosToEdgeAvailable, VisitLocal, NoLoss, NoDuplicates;
    if |s.localQueue| > 0 && moved < 250 {
      var next := VisitLocal(cfg, s, second, 0).0;
      LocalVisitTells(cfg, s, second, 0);
      OneMoved(s.localQueue, s.edgeQueue, Min(|s.localQueue|, 250 - moved) - 1);
      forall i | 0 <= i < |next.localQueue|
        ensures PosToEdgeAvailable(cfg.faults, next.localQueue[i].register, second)
      {
        assert next.localQueue[i] == s.localQueue[i + 1];
      }
      FirstOnesGo(cfg, next, second, moved + 1);
    }
  }

  // ---------- what reaches the Cloud ----------

  /** Deliveries take the queue from its front, stop at a loss or at the capacity, and reach the Cloud's set. */
  ghost predicate Delivered(s: Sim, after: Sim, queue: seq<Mutation>, n: nat) {
    && n <= |queue| && after.edgeQueue == queue[n..]
    && after.cloudApplied == s.cloudApplied + Ids(queue[..n])
  }

  lemma {:induction false} SameDelivered(s: Sim, after: Sim)
    requires after.edgeQueue == s.edgeQueue && after.cloudApplied == s.cloudApplied
    ensures Delivered(s, after, s.edgeQueue, 0)
  {
    assert Ids(s.edgeQueue[..0]) == {};
  }

  lemma {:induction false} OneMoreDelivered(s: Sim, next: Sim, after: Sim, queue: seq<Mutation>, n: nat)
    requires queue != [] && next.cloudApplied == s.cloudApplied + {queue[0].id}
    requires Delivered(next, after, queue[1..], n)
    ensures Delivered(s, after, queue, n + 1)
  {
    assert queue[..n + 1] == [queue[0]] + queue[1..][..n];
    assert Ids(queue[..n + 1]) == {queue[0].id} + Ids(queue[1..][..n]);
  }

  lemma {:induction false} DeliveredUpTo(cfg: Config, s: Sim, capacity: nat) returns (n: nat)
    ensures n <= capacity && Delivered(s, DeliverUpTo(cfg, s, capacity), s.edgeQueue, n)
    ensures NoLoss(cfg) ==> n == Min(|s.edgeQueue|, capacity)
    decreases capacity
  {
    hide Deliver, Rate, Delivered;
    n := 0;
    SameDelivered(s, s);
    if s.edgeQueue != [] && capacity > 0 {
      var (lost, r) := Chance(s.random, Rate(cfg.faults.networkLossRate));
      if !lost {
        var next, queue := Deliver(s.(random := r)), s.edgeQueue;
        DeliverTells(s.(random := r));
        n := DeliveredUpTo(cfg, next, capacity - 1);
        OneMoreDelivered(s, next, DeliverUpTo(cfg, next, capacity - 1), queue, n);
        n := n + 1;
      } else {
        SameDelivered(s, s.(random := r));
      }
    }
  }

  lemma {:induction false} DeliverTells(s: Sim)
    requires s.edgeQueue != []
    ensures Deliver(s).edgeQueue == s.edgeQueue[1..]
    ensures Deliver(s).cloudApplied == s.cloudApplied + {s.edgeQueue[0].id}
  {
  }

  /**
   While the Cloud is out of reach nothing is delivered.  Otherwise the front of the queue is, at most 300
   entries or 20 on a slow database, and exactly as many when nothing is lost; the first two entries of the
   queue may have changed places before, the first going to the back.
   */
  lemma {:induction false} EdgeDelivers(cfg: Config, s: Sim, second: int) returns (queue: seq<Mutation>, n: nat)
    ensures queue == s.edgeQueue || (|s.edgeQueue| > 1
              && queue == [s.edgeQueue[1]] + s.edgeQueue[2..] + [s.edgeQueue[0]]
              && Rate(cfg.faults.syncReorderRate) > 0.0)
    ensures Delivered(s, DrainEdgeQueue(cfg, s, second), queue, n)
    ensures n <= if AnyContains(cfg.faults.slowDatabase, second) then 20 else 300
    ensures !EdgeToCloudAvailable(cfg.faults, second) ==> n == 0 && queue == s.edgeQueue
    ensures EdgeToCloudAvailable(cfg.faults, second) && NoLoss(cfg) ==>
      n == Min(|queue|, if AnyContains(cfg.faults.slowDatabase, second) then 20 else 300)
  {
    hide EdgeToCloudAvailable, DeliverUpTo, AnyContains, Rate;
    if EdgeToCloudAvailable(cfg.faults, second) {
      queue := MaybeRotate(cfg, s).edgeQueue;
      n := DeliveredUpTo(cfg, MaybeRotate(cfg, s), Capacity(cfg.faults, second));
    } else {
      queue, n := s.edgeQueue, 0;
      assert Ids(queue[..0]) == {};
    }
  }

  // ---------- what the release assertions say ----------

  /** Each assertion, read off the rows of the state instead of counted. */
  lemma {:induction false} AssertionsTell(s: Sim)
    ensures Passes(s, LocalDurability) <==> s.committed <= |s.durableOrders|
    ensures Passes(s, NoDuplicateBusinessEffect) <==> s.duplicateEffects == 0
    ensures Passes(s, SyncDrains) <==> s.localQueue == [] && s.edgeQueue == []
    ensures Passes(s, PaymentTruthResolves) <==>
      forall i :: 0 <= i < |s.payments| ==> s.payments[i].status == Succeeded
    ensures Passes(s, InventoryConvergence) <==>
      forall k :: Stock(s.physical, k) == Stock(s.edge, k) == Stock(s.cloud, k)
    ensures Passes(s, EdgeCloudConvergence) <==>
      Passes(s, SyncDrains) && Passes(s, InventoryConvergence) && |s.cloudOrders| == |s.durableOrders|
    ensures Passes(s, PaymentEffectCount) <==> |Effects(s.payments)| == |s.durableOrders|
  {
    hide Stock;
    UnresolvedTell(s.payments);
    EffectsCount(s.payments);
    StockEverywhere(s);
  }

  /** The payments that have succeeded. */
  function Effects(payments: seq<Payment>): set<nat> {
    set i | 0 <= i < |payments| && payments[i].status == Succeeded
  }

  lemma {:induction false} EffectsCount(payments: seq<Payment>)
    ensures Completed(payments) == |Effects(payments)|
    decreases |payments|
  {
    if payments != [] {
      var n := |payments| - 1;
      EffectsCount(payments[..n]);
      if payments[n].status == Succeeded {
        assert Effects(payments) == Effects(payments[..n]) + {n};
      } else {
        assert Effects(payments) == Effects(payments[..n]);
      }
    }
  }

  lemma {:induction false} UnresolvedTell(payments: seq<Payment>)
    ensures Unresolved(payments) == 0 <==> forall i :: 0 <= i < |payments| ==> payments[i].status == Succeeded
    decreases |payments|
  {
    if payments != [] { UnresolvedTell(payments[..|payments| - 1]); }
  }

  lemma {:induction false} StockEverywhere(s: Sim)
    ensures InventoryConverged(s) <==> forall k :: Stock(s.physical, k) == Stock(s.edge, k) == Stock(s.cloud, k)
  {
  }
}
