/** What every phase of every simulated second keeps. */
module SimulatorInvariants {
  import opened Randomness
  import opened SimulatorModel
  import Sums

  // ---------- the invariant ----------

  ghost function DeltaAt(k: Key): Mutation -> int {
    (m: Mutation) => if m.kind.StockKind? && m.kind.key == k then m.kind.delta else 0
  }

  ghost function Entries(queue: seq<Mutation>): set<Mutation> { set m | m in queue }

  ghost function Ids(queue: seq<Mutation>): set<MutationId> { set m | m in queue :: m.id }

  /** Distinct queued mutations that the Cloud has not applied yet. */
  ghost function Undelivered(queue: seq<Mutation>, applied: set<MutationId>): set<Mutation> {
    set m | m in queue && m.id !in applied
  }

  ghost predicate DistinctIds(queue: seq<Mutation>) {
    forall i, j :: 0 <= i < j < |queue| ==> queue[i].id != queue[j].id
  }

  ghost predicate QueuesOk(local: seq<Mutation>, edge: seq<Mutation>, atEdge: set<MutationId>, atCloud: set<MutationId>) {
    && atEdge == atCloud + Ids(edge)
    && DistinctIds(local)
    && (forall m :: m in local ==> m.id !in atEdge)
    && (forall m, n :: m in edge && n in edge && m.id == n.id ==> m == n)
  }

  ghost predicate QueueInv(s: Sim) { QueuesOk(s.localQueue, s.edgeQueue, s.edgeApplied, s.cloudApplied) }

  ghost predicate ConservedAt(s: Sim, k: Key) {
    && Stock(s.physical, k) == Stock(s.edge, k) + Sums.Over(Entries(s.localQueue), DeltaAt(k))
    && Stock(s.edge, k) == Stock(s.cloud, k) + Sums.Over(Undelivered(s.edgeQueue, s.cloudApplied), DeltaAt(k))
    && Stock(s.edge, k) >= Stock(s.physical, k) >= 0
  }

  ghost predicate Conserved(s: Sim) { forall k :: ConservedAt(s, k) }

  /** Local mutations come from sales; numbers are issued in order. */
  ghost predicate NumberInv(s: Sim) {
    && (forall m :: m in s.localQueue ==> m.id.number <= s.sequence && !m.id.TransferPart?)
    && (forall m :: m in s.localQueue && m.kind.StockKind? ==> m.kind.delta <= 0)
    && (forall id :: id in s.edgeApplied ==> id.number <= s.sequence)
    && (forall i :: 0 <= i < |s.transfers| ==> s.transfers[i].number <= s.sequence && s.transfers[i].quantity > 0)
    && (forall i, j :: 0 <= i < j < |s.transfers| ==> s.transfers[i].number != s.transfers[j].number)
    && (forall i :: 0 <= i < |s.transfers| && !s.transfers[i].completed ==>
          TransferPart(s.transfers[i].number) !in s.edgeApplied)
  }

  predicate KindMatchesId(m: Mutation) {
    if m.id.OrderPart? then m.kind == OrderKind(m.id.number) else m.kind.StockKind?
  }

  ghost predicate OrderInv(s: Sim) {
    && (forall m :: m in s.localQueue || m in s.edgeQueue ==> KindMatchesId(m))
    && (forall n: nat :: n in s.durableOrders <==>
          OrderPart(n) in s.edgeApplied || OrderPart(n) in Ids(s.localQueue))
    && (forall n: nat :: n in s.cloudOrders <==> OrderPart(n) in s.cloudApplied)
    && s.committed == |s.durableOrders| == |s.payments|
    && s.duplicateEffects == 0
  }

  ghost predicate PaymentsOk(payments: seq<Payment>, signals: set<(nat, Rail)>, sequence: nat) {
    && (forall i :: 0 <= i < |payments| ==> payments[i].order <= sequence)
    && (forall i, j :: 0 <= i < j < |payments| ==> payments[i].order != payments[j].order)
    && (forall p :: p in signals ==> p.0 <= sequence)
    && (forall i :: 0 <= i < |payments| && payments[i].status != Succeeded ==>
          (payments[i].order, payments[i].rail) !in signals)
  }

  ghost predicate PaymentInv(s: Sim) { PaymentsOk(s.payments, s.signals, s.sequence) }

  ghost predicate Inv(s: Sim) {
    QueueInv(s) && Conserved(s) && NumberInv(s) && OrderInv(s) && PaymentInv(s)
  }

  // ---------- the start ----------

  lemma {:induction false} OpenBarNonNegative(products: seq<Product>, inventory: map<Key, int>, bar: nat, i: nat)
    requires forall p :: p in products ==> p.opening >= 0
    requires forall k :: Stock(inventory, k) >= 0
    ensures forall k :: Stock(OpenBar(products, inventory, bar, i), k) >= 0
    decreases |products| - i
  {
    if i < |products| {
      assert products[i] in products;
      var stocked := inventory[Key(bar, products[i].sku) := products[i].opening];
      forall k ensures Stock(stocked, k) >= 0 { assert Stock(inventory, k) >= 0; }
      OpenBarNonNegative(products, stocked, bar, i + 1);
    }
  }

  lemma {:induction false} OpenBarsNonNegative(cfg: Config, inventory: map<Key, int>, bar: nat)
    requires Accepts(cfg)
    requires forall k :: Stock(inventory, k) >= 0
    ensures forall k :: Stock(OpenBars(cfg, inventory, bar), k) >= 0
    decreases cfg.bars - bar
  {
    if bar < cfg.bars {
      OpenBarNonNegative(cfg.products, inventory, bar, 0);
      OpenBarsNonNegative(cfg, OpenBar(cfg.products, inventory, bar, 0), bar + 1);
    }
  }

  lemma {:induction false} StartHolds(cfg: Config, stream: nat -> Fraction)
    requires Accepts(cfg)
    ensures Inv(Start(cfg, stream))
  {
    OpenBarsNonNegative(cfg, map[], 0);
    var s := Start(cfg, stream);
    forall k ensures ConservedAt(s, k) {
      assert Entries(s.localQueue) == {};
      assert Undelivered(s.edgeQueue, s.cloudApplied) == {};
    }
  }

  // ---------- a sale ----------

  lemma {:induction false} SellConservesAt(s: Sim, register: RegisterId, sku: string, second: int, payment: Payment,
                                           random: Random, k: Key)
    requires NumberInv(s) && ConservedAt(s, k) && Stock(s.physical, Key(register.bar, sku)) > 0
    ensures ConservedAt(Sell(s, register, sku, second, payment, random), k)
  {
    var s' := Sell(s, register, sku, second, payment, random);
    var added := SaleMutations(register, sku, s.sequence + 1, second);
    var before, order, stock := Entries(s.localQueue), added[0], added[1];
    assert order !in before && stock !in before + {order};
    assert Entries(s'.localQueue) == before + {order} + {stock};
    Sums.Insert(before, order, DeltaAt(k));
    Sums.Insert(before + {order}, stock, DeltaAt(k));
  }

  lemma {:induction false} SellKeepsQueues(s: Sim, register: RegisterId, sku: string, second: int, payment: Payment,
                                           random: Random)
    requires QueueInv(s) && NumberInv(s)
    ensures QueueInv(Sell(s, register, sku, second, payment, random))
  {
    var s' := Sell(s, register, sku, second, payment, random);
    var added := SaleMutations(register, sku, s.sequence + 1, second);
    assert s'.localQueue == s.localQueue + added && |added| == 2;
    assert forall i :: 0 <= i < |s.localQueue| ==> s.localQueue[i] in s.localQueue && s'.localQueue[i] == s.localQueue[i];
  }

  lemma {:induction false} SellKeepsNumbers(s: Sim, register: RegisterId, sku: string, second: int, payment: Payment,
                                            random: Random)
    requires NumberInv(s)
    ensures NumberInv(Sell(s, register, sku, second, payment, random))
  {
    var s' := Sell(s, register, sku, second, payment, random);
    var added := SaleMutations(register, sku, s.sequence + 1, second);
    assert forall m :: m in s'.localQueue <==> m in s.localQueue || m == added[0] || m == added[1];
  }

  lemma {:induction false} SellKeepsOrders(s: Sim, register: RegisterId, sku: string, second: int, payment: Payment,
                                           random: Random)
    requires NumberInv(s) && OrderInv(s)
    ensures OrderInv(Sell(s, register, sku, second, payment, random))
  {
    var s' := Sell(s, register, sku, second, payment, random);
    var added := SaleMutations(register, sku, s.sequence + 1, second);
    assert forall m :: m in s'.localQueue <==> m in s.localQueue || m == added[0] || m == added[1];
    assert Ids(s'.localQueue) == Ids(s.localQueue) + {added[0].id, added[1].id};
    assert OrderPart(s.sequence + 1) !in s.edgeApplied && OrderPart(s.sequence + 1) !in Ids(s.localQueue);
    assert s.sequence + 1 !in s.durableOrders;
  }

  lemma {:induction false} SellKeeps(s: Sim, register: RegisterId, sku: string, second: int, payment: Payment,
                                     random: Random)
    requires Inv(s) && Stock(s.physical, Key(register.bar, sku)) > 0
    requires payment.order == s.sequence + 1
    ensures Inv(Sell(s, register, sku, second, payment, random))
  {
    forall k ensures ConservedAt(Sell(s, register, sku, second, payment, random), k) {
      assert ConservedAt(s, k);
      SellConservesAt(s, register, sku, second, payment, random, k);
    }
    SellKeepsQueues(s, register, sku, second, payment, random);
    SellKeepsNumbers(s, register, sku, second, payment, random);
    SellKeepsOrders(s, register, sku, second, payment, random);
    assert PaymentInv(Sell(s, register, sku, second, payment, random));
  }

  lemma {:induction false} SellProductKeeps(cfg: Config, s: Sim, register: RegisterId, sku: string, second: int)
    requires Inv(s) && Stock(s.physical, Key(register.bar, sku)) > 0
    ensures Inv(SellProduct(cfg, s, register, sku, second))
  {
    hide Inv;
    var (_, r1) := Integer(s.random, 0, 45);
    var (_, r2) := Integer(r1, 0, 80);
    var (payment, r3) := SalePayment(cfg, r2, register, s.sequence + 1, second);
    SellKeeps(s, register, sku, second, payment, r3);
  }

  lemma {:induction false} CreateSaleKeeps(cfg: Config, s: Sim, register: RegisterId, second: int)
    requires Inv(s)
    ensures Inv(CreateSale(cfg, s, register, second))
  {
    hide Inv;
    var (pick, r0) := Weighted(s.random, ProductWeights(cfg, second));
    if pick.Some? && Stock(s.physical, Key(register.bar, cfg.products[pick.value].sku)) > 0 {
      Unobserved(s, s.(random := r0));
      SellProductKeeps(cfg, s.(random := r0), register, cfg.products[pick.value].sku, second);
    } else {
      Unobserved(s, CreateSale(cfg, s, register, second));
    }
  }

  /** The parts of the state the invariant speaks about. */
  ghost predicate SameBooks(s: Sim, t: Sim) {
    && s.physical == t.physical && s.edge == t.edge && s.cloud == t.cloud
    && s.localQueue == t.localQueue && s.edgeQueue == t.edgeQueue
    && s.edgeApplied == t.edgeApplied && s.cloudApplied == t.cloudApplied
    && s.durableOrders == t.durableOrders && s.cloudOrders == t.cloudOrders
    && s.payments == t.payments && s.signals == t.signals && s.transfers == t.transfers
    && s.committed == t.committed && s.duplicateEffects == t.duplicateEffects && s.sequence == t.sequence
  }

  lemma {:induction false} Unobserved(s: Sim, t: Sim)
    requires Inv(s) && SameBooks(s, t)
    ensures Inv(t)
  {
    forall k ensures ConservedAt(t, k) { assert ConservedAt(s, k); }
  }

  lemma {:induction false} SellWhileDueKeeps(cfg: Config, s: Sim, i: nat, second: int)
    requires i < |s.registers| && Inv(s)
    ensures Inv(SellWhileDue(cfg, s, i, second))
    decreases if s.registers[i].accumulator < 1.0 then 0 else s.registers[i].accumulator.Floor
  {
    hide Inv;
    var register := s.registers[i];
    if !s.failed && register.accumulator >= 1.0 {
      var charged := s.(registers := s.registers[i := register.(accumulator := register.accumulator - 1.0)]);
      Unobserved(s, charged);
      CreateSaleKeeps(cfg, charged, register.id, second);
      SellWhileDueKeeps(cfg, CreateSale(cfg, charged, register.id, second), i, second);
    }
  }

  lemma {:induction false} TrafficKeeps(cfg: Config, s: Sim, second: int, i: nat)
    requires Inv(s)
    ensures Inv(GenerateTraffic(cfg, s, second, i))
    decreases |s.registers| - i
  {
    hide Inv;
    if !s.failed && i < |s.registers| {
      Unobserved(s, Accrue(cfg, s, i));
      SellWhileDueKeeps(cfg, Accrue(cfg, s, i), i, second);
      TrafficKeeps(cfg, SellWhileDue(cfg, Accrue(cfg, s, i), i, second), second, i + 1);
    }
  }

  // ---------- transfers ----------

  lemma {:induction false} ReplenishBarKeeps(s: Sim, plan: Plan, second: int, bar: nat)
    requires Inv(s)
    ensures Inv(ReplenishBar(s, plan, second, bar))
  {
    var s' := ReplenishBar(s, plan, second, bar);
    forall k ensures ConservedAt(s', k) { assert ConservedAt(s, k); }
  }

  lemma {:induction false} ReplenishBarsKeeps(cfg: Config, s: Sim, plan: Plan, second: int, bar: nat)
    requires Inv(s)
    ensures Inv(ReplenishBars(cfg, s, plan, second, bar))
    decreases cfg.bars - bar
  {
    if bar < cfg.bars {
      ReplenishBarKeeps(s, plan, second, bar);
      ReplenishBarsKeeps(cfg, ReplenishBar(s, plan, second, bar), plan, second, bar + 1);
    }
  }

  lemma {:induction false} CreateTransfersKeeps(cfg: Config, s: Sim, second: int, p: nat)
    requires Inv(s)
    ensures Inv(MaybeCreateTransfers(cfg, s, second, p))
    decreases |cfg.faults.replenishment| - p
  {
    if p < |cfg.faults.replenishment| {
      var plan := cfg.faults.replenishment[p];
      if plan.window.Contains(second) {
        Unobserved(s, OpenPlan(s, plan));
        ReplenishBarsKeeps(cfg, OpenPlan(s, plan), plan, second, 0);
        CreateTransfersKeeps(cfg, ReplenishBars(cfg, OpenPlan(s, plan), plan, second, 0), second, p + 1);
      } else {
        CreateTransfersKeeps(cfg, s, second, p + 1);
      }
    }
  }

  /** A new mutation joins the Edge's set and the Cloud queue at the same moment. */
  lemma {:induction false} ArrivalQueues(local: seq<Mutation>, edge: seq<Mutation>, m: Mutation,
                                         atEdge: set<MutationId>, atCloud: set<MutationId>)
    requires QueuesOk(local, edge, atEdge, atCloud) && m.id !in atEdge && m.id !in Ids(local)
    ensures QueuesOk(local, edge + [m], atEdge + {m.id}, atCloud)
    ensures Undelivered(edge + [m], atCloud) == Undelivered(edge, atCloud) + {m}
    ensures m !in Undelivered(edge, atCloud)
  {
    Appended(edge, m, false);
    assert forall n :: n in edge ==> n.id in Ids(edge);
    assert forall n :: n in local ==> n.id in Ids(local);
  }

  lemma {:induction false} CompleteTransferFields(s: Sim, i: nat, second: int)
    requires i < |s.transfers| && TransferPart(s.transfers[i].number) !in s.edgeApplied
    ensures var t, m, s' := s.transfers[i], TransferMutation(s.transfers[i], second), CompleteTransfer(s, i, second);
      && s'.edgeQueue == s.edgeQueue + [m]
      && s'.edgeApplied == s.edgeApplied + {m.id}
      && s'.transfers == s.transfers[i := t.(completed := true)]
      && s'.physical == s.physical[t.key := Stock(s.physical, t.key) + t.quantity]
      && s'.edge == s.edge[t.key := Stock(s.edge, t.key) + t.quantity]
      && s' == s.(edgeQueue := s'.edgeQueue, edgeApplied := s'.edgeApplied, transfers := s'.transfers,
                  physical := s'.physical, edge := s'.edge)
  {
  }

  lemma {:induction false} CompleteTransferConservesAt(s: Sim, i: nat, second: int, k: Key)
    requires QueueInv(s) && NumberInv(s) && ConservedAt(s, k) && i < |s.transfers| && !s.transfers[i].completed
    ensures ConservedAt(CompleteTransfer(s, i, second), k)
  {
    hide CompleteTransfer;
    var m := TransferMutation(s.transfers[i], second);
    CompleteTransferFields(s, i, second);
    ArrivalQueues(s.localQueue, s.edgeQueue, m, s.edgeApplied, s.cloudApplied);
    Sums.Insert(Undelivered(s.edgeQueue, s.cloudApplied), m, DeltaAt(k));
  }

  lemma {:induction false} CompleteTransferKeepsNumbers(s: Sim, i: nat, second: int)
    requires QueueInv(s) && NumberInv(s) && OrderInv(s) && i < |s.transfers| && !s.transfers[i].completed
    ensures NumberInv(CompleteTransfer(s, i, second)) && OrderInv(CompleteTransfer(s, i, second))
  {
    CompleteTransferFields(s, i, second);
    assert forall j :: 0 <= j < |s.transfers| && j != i ==> s.transfers[j].number != s.transfers[i].number;
  }

  lemma {:induction false} CompleteTransferKeeps(s: Sim, i: nat, second: int)
    requires Inv(s) && i < |s.transfers| && !s.transfers[i].completed
    ensures Inv(CompleteTransfer(s, i, second))
  {
    forall k ensures ConservedAt(CompleteTransfer(s, i, second), k) {
      assert ConservedAt(s, k);
      CompleteTransferConservesAt(s, i, second, k);
    }
    CompleteTransferFields(s, i, second);
    ArrivalQueues(s.localQueue, s.edgeQueue, TransferMutation(s.transfers[i], second), s.edgeApplied, s.cloudApplied);
    CompleteTransferKeepsNumbers(s, i, second);
  }

  lemma {:induction false} PostponeTransferKeeps(s: Sim, i: nat, second: int)
    requires Inv(s) && i < |s.transfers|
    ensures Inv(PostponeTransfer(s, i, second))
  {
    forall k ensures ConservedAt(PostponeTransfer(s, i, second), k) { assert ConservedAt(s, k); }
  }

  lemma {:induction false} VisitTransferKeeps(cfg: Config, s: Sim, second: int, i: nat)
    requires Inv(s) && i < |s.transfers|
    ensures Inv(VisitTransfer(cfg, s, second, i))
  {
    hide Inv;
    if !s.transfers[i].completed && s.transfers[i].due <= second {
      if EdgeAvailable(cfg.faults, second) {
        CompleteTransferKeeps(s, i, second);
      } else {
        PostponeTransferKeeps(s, i, second);
      }
    }
  }

  lemma {:induction false} CompleteTransfersKeeps(cfg: Config, s: Sim, second: int, i: nat)
    requires Inv(s)
    ensures Inv(CompleteTransfers(cfg, s, second, i))
    decreases |s.transfers| - i
  {
    if i < |s.transfers| {
      VisitTransferKeeps(cfg, s, second, i);
      CompleteTransfersKeeps(cfg, VisitTransfer(cfg, s, second, i), second, i + 1);
    }
  }

  // ---------- device to Edge ----------

  function Without<T>(queue: seq<T>, i: nat): seq<T>
    requires i < |queue|
  {
    queue[..i] + queue[i + 1..]
  }

  lemma {:induction false} Removed(queue: seq<Mutation>, i: nat)
    requires DistinctIds(queue) && i < |queue|
    ensures Entries(Without(queue, i)) == Entries(queue) - {queue[i]}
    ensures Ids(Without(queue, i)) == Ids(queue) - {queue[i].id}
    ensures DistinctIds(Without(queue, i))
  {
    var m, rest := queue[i], Without(queue, i);
    assert queue == queue[..i] + [m] + queue[i + 1..];
    forall n | n in queue && n != m ensures n in rest { }
    forall n | n in rest ensures n in queue && n.id != m.id {
      var j :| 0 <= j < |rest| && rest[j] == n;
      assert n == queue[if j < i then j else j + 1];
    }
    assert forall j :: 0 <= j < |rest| ==> rest[j] == queue[if j < i then j else j + 1];
  }

  function Copies(m: Mutation, twice: bool): seq<Mutation> { if twice then [m, m] else [m] }

  lemma {:induction false} Appended(queue: seq<Mutation>, m: Mutation, twice: bool)
    ensures Ids(queue + Copies(m, twice)) == Ids(queue) + {m.id}
    ensures forall n :: n in queue + Copies(m, twice) <==> n in queue || n == m
  {
  }

  lemma {:induction false} ForwardQueues(local: seq<Mutation>, i: nat, edge: seq<Mutation>, twice: bool,
                                         atEdge: set<MutationId>, atCloud: set<MutationId>)
    requires QueuesOk(local, edge, atEdge, atCloud) && i < |local|
    ensures local[i].id !in atEdge
    ensures QueuesOk(Without(local, i), edge + Copies(local[i], twice), atEdge + {local[i].id}, atCloud)
    ensures Undelivered(edge + Copies(local[i], twice), atCloud) == Undelivered(edge, atCloud) + {local[i]}
    ensures local[i] !in Undelivered(edge, atCloud)
  {
    var m := local[i];
    Removed(local, i);
    Appended(edge, m, twice);
    assert m in local;
    assert forall n :: n in edge ==> n.id in Ids(edge);
    forall n | n in Without(local, i) ensures n.id !in atEdge + {m.id} {
      assert n in Entries(Without(local, i)) && n.id in Ids(Without(local, i));
    }
  }

  lemma {:induction false} ForwardFields(s: Sim, i: nat, twice: bool)
    requires i < |s.localQueue| && s.localQueue[i].id !in s.edgeApplied
    ensures var m, s' := s.localQueue[i], Forward(s, i, twice);
      && s'.localQueue == Without(s.localQueue, i)
      && s'.edgeQueue == s.edgeQueue + Copies(m, twice)
      && s'.edgeApplied == s.edgeApplied + {m.id}
      && s' == s.(localQueue := s'.localQueue, edgeQueue := s'.edgeQueue, edgeApplied := s'.edgeApplied, edge := s'.edge)
  {
  }

  lemma {:induction false} ForwardStock(s: Sim, i: nat, twice: bool, k: Key)
    requires i < |s.localQueue| && s.localQueue[i].id !in s.edgeApplied
    ensures Stock(Forward(s, i, twice).edge, k) == Stock(s.edge, k) + DeltaAt(k)(s.localQueue[i])
  {
  }

  lemma {:induction false} ForwardConservesAt(s: Sim, i: nat, twice: bool, k: Key)
    requires QueueInv(s) && NumberInv(s) && ConservedAt(s, k) && i < |s.localQueue|
    ensures ConservedAt(Forward(s, i, twice), k)
  {
    var m := s.localQueue[i];
    ForwardQueues(s.localQueue, i, s.edgeQueue, twice, s.edgeApplied, s.cloudApplied);
    ForwardFields(s, i, twice);
    ForwardStock(s, i, twice, k);
    Removed(s.localQueue, i);
    var rest := Entries(s.localQueue) - {m};
    assert m in s.localQueue;
    Sums.Split(Entries(s.localQueue), m, DeltaAt(k));
    assert forall n :: n in rest ==> DeltaAt(k)(n) <= 0;
    Sums.AtMostZero(rest, DeltaAt(k));
    Sums.Insert(Undelivered(s.edgeQueue, s.cloudApplied), m, DeltaAt(k));
  }

  lemma {:induction false} ForwardKeepsNumbers(s: Sim, i: nat, twice: bool)
    requires QueueInv(s) && NumberInv(s) && i < |s.localQueue|
    ensures NumberInv(Forward(s, i, twice))
  {
    ForwardQueues(s.localQueue, i, s.edgeQueue, twice, s.edgeApplied, s.cloudApplied);
    ForwardFields(s, i, twice);
    Removed(s.localQueue, i);
    assert s.localQueue[i] in s.localQueue;
    assert forall n :: n in Without(s.localQueue, i) ==> n in Entries(s.localQueue);
  }

  lemma {:induction false} ForwardKeepsOrders(s: Sim, i: nat, twice: bool)
    requires QueueInv(s) && OrderInv(s) && i < |s.localQueue|
    ensures OrderInv(Forward(s, i, twice))
  {
    var m := s.localQueue[i];
    ForwardQueues(s.localQueue, i, s.edgeQueue, twice, s.edgeApplied, s.cloudApplied);
    ForwardFields(s, i, twice);
    Removed(s.localQueue, i);
    Appended(s.edgeQueue, m, twice);
    assert m in s.localQueue && m.id in Ids(s.localQueue);
    assert forall n :: n in Without(s.localQueue, i) ==> n in Entries(s.localQueue);
  }

  lemma {:induction false} ForwardKeeps(s: Sim, i: nat, twice: bool)
    requires Inv(s) && i < |s.localQueue|
    ensures Inv(Forward(s, i, twice))
  {
    forall k ensures ConservedAt(Forward(s, i, twice), k) {
      assert ConservedAt(s, k);
      ForwardConservesAt(s, i, twice, k);
    }
    ForwardQueues(s.localQueue, i, s.edgeQueue, twice, s.edgeApplied, s.cloudApplied);
    ForwardFields(s, i, twice);
    ForwardKeepsNumbers(s, i, twice);
    ForwardKeepsOrders(s, i, twice);
  }

  lemma {:induction false} VisitLocalKeeps(cfg: Config, s: Sim, second: int, i: nat)
    requires Inv(s) && i < |s.localQueue|
    ensures Inv(VisitLocal(cfg, s, second, i).0)
  {
    hide Inv;
    var s' := VisitLocal(cfg, s, second, i).0;
    var (lost, r0) := Chance(s.random, Rate(cfg.faults.networkLossRate));
    var (twice, r1) := Chance(r0, Rate(cfg.faults.syncDuplicateRate));
    if PosToEdgeAvailable(cfg.faults, s.localQueue[i].register, second) && !lost {
      Unobserved(s, s.(random := r1));
      ForwardKeeps(s.(random := r1), i, twice);
    } else {
      Unobserved(s, s');
    }
  }

  lemma {:induction false} DrainLocalKeeps(cfg: Config, s: Sim, second: int, i: nat, moved: nat)
    requires Inv(s)
    ensures Inv(DrainLocalQueue(cfg, s, second, i, moved))
    decreases |s.localQueue| - i
  {
    hide Inv;
    if i < |s.localQueue| && moved < 250 {
      var (s', gone) := VisitLocal(cfg, s, second, i);
      VisitLocalKeeps(cfg, s, second, i);
      DrainLocalKeeps(cfg, s', second, if gone then i else i + 1, if gone then moved + 1 else moved);
    }
  }

  // ---------- Edge to Cloud ----------

  lemma {:induction false} SameEntriesKeep(s: Sim, t: Sim)
    requires Inv(s) && SameBooks(s.(edgeQueue := t.edgeQueue), t)
    requires forall m :: m in s.edgeQueue <==> m in t.edgeQueue
    ensures Inv(t)
  {
    assert Ids(s.edgeQueue) == Ids(t.edgeQueue);
    forall k ensures ConservedAt(t, k) {
      assert ConservedAt(s, k);
      assert Undelivered(s.edgeQueue, s.cloudApplied) == Undelivered(t.edgeQueue, t.cloudApplied);
    }
  }

  lemma {:induction false} MaybeRotateKeeps(cfg: Config, s: Sim)
    requires Inv(s)
    ensures Inv(MaybeRotate(cfg, s))
  {
    var q := s.edgeQueue;
    if |q| > 1 {
      assert q == [q[0], q[1]] + q[2..];
      SameEntriesKeep(s, MaybeRotate(cfg, s));
    }
  }

  lemma {:induction false} DeliverQueues(local: seq<Mutation>, edge: seq<Mutation>, atEdge: set<MutationId>,
                                         atCloud: set<MutationId>)
    requires QueuesOk(local, edge, atEdge, atCloud) && edge != []
    ensures QueuesOk(local, edge[1..], atEdge, atCloud + {edge[0].id})
    ensures Undelivered(edge[1..], atCloud + {edge[0].id}) == Undelivered(edge, atCloud) - {edge[0]}
  {
    assert edge == [edge[0]] + edge[1..];
    assert Ids(edge) == Ids(edge[1..]) + {edge[0].id};
    assert edge[0] in edge && forall n :: n in edge[1..] ==> n in edge;
  }

  lemma {:induction false} DeliverFields(s: Sim)
    requires s.edgeQueue != []
    ensures var m, s' := s.edgeQueue[0], Deliver(s);
      && s'.edgeQueue == s.edgeQueue[1..]
      && s'.cloudApplied == s.cloudApplied + {m.id}
      && (m.id in s.cloudApplied ==> s' == s.(edgeQueue := s'.edgeQueue))
      && s' == s.(edgeQueue := s'.edgeQueue, cloudApplied := s'.cloudApplied, cloud := s'.cloud,
                  cloudOrders := s'.cloudOrders, duplicateEffects := s'.duplicateEffects)
  {
  }

  lemma {:induction false} DeliverStock(s: Sim, k: Key)
    requires s.edgeQueue != [] && s.edgeQueue[0].id !in s.cloudApplied
    ensures Stock(Deliver(s).cloud, k) == Stock(s.cloud, k) + DeltaAt(k)(s.edgeQueue[0])
  {
  }

  lemma {:induction false} DeliverConservesAt(s: Sim, k: Key)
    requires QueueInv(s) && ConservedAt(s, k) && s.edgeQueue != []
    ensures ConservedAt(Deliver(s), k)
  {
    var m := s.edgeQueue[0];
    DeliverFields(s);
    DeliverQueues(s.localQueue, s.edgeQueue, s.edgeApplied, s.cloudApplied);
    var before := Undelivered(s.edgeQueue, s.cloudApplied);
    if m.id in s.cloudApplied {
      assert m !in before && before - {m} == before;
    } else {
      assert m in s.edgeQueue;
      DeliverStock(s, k);
      Sums.Split(before, m, DeltaAt(k));
    }
  }

  lemma {:induction false} DeliverKeepsOrders(s: Sim)
    requires OrderInv(s) && s.edgeApplied == s.cloudApplied + Ids(s.edgeQueue) && s.edgeQueue != []
    ensures OrderInv(Deliver(s))
  {
    var m := s.edgeQueue[0];
    DeliverFields(s);
    assert m in s.edgeQueue && KindMatchesId(m);
    assert forall n :: n in s.edgeQueue[1..] ==> n in s.edgeQueue;
    assert m.id.OrderPart? && m.id !in s.cloudApplied ==> m.id.number !in s.cloudOrders;
  }

  lemma {:induction false} DeliverKeeps(s: Sim)
    requires Inv(s) && s.edgeQueue != []
    ensures Inv(Deliver(s))
  {
    forall k ensures ConservedAt(Deliver(s), k) {
      assert ConservedAt(s, k);
      DeliverConservesAt(s, k);
    }
    DeliverFields(s);
    DeliverQueues(s.localQueue, s.edgeQueue, s.edgeApplied, s.cloudApplied);
    DeliverKeepsOrders(s);
  }

  lemma {:induction false} DeliverUpToKeeps(cfg: Config, s: Sim, capacity: nat)
    requires Inv(s)
    ensures Inv(DeliverUpTo(cfg, s, capacity))
    decreases capacity
  {
    if s.edgeQueue != [] && capacity > 0 {
      var (lost, r) := Chance(s.random, Rate(cfg.faults.networkLossRate));
      Unobserved(s, s.(random := r));
      if !lost {
        DeliverKeeps(s.(random := r));
        DeliverUpToKeeps(cfg, Deliver(s.(random := r)), capacity - 1);
      }
    }
  }

  lemma {:induction false} DrainEdgeKeeps(cfg: Config, s: Sim, second: int)
    requires Inv(s)
    ensures Inv(DrainEdgeQueue(cfg, s, second))
  {
    hide Inv;
    if EdgeToCloudAvailable(cfg.faults, second) {
      MaybeRotateKeeps(cfg, s);
      DeliverUpToKeeps(cfg, MaybeRotate(cfg, s), Capacity(cfg.faults, second));
    }
  }

  // ---------- payments ----------

  lemma {:induction false} OnePaymentChanges(payments: seq<Payment>, signals: set<(nat, Rail)>, sequence: nat, i: nat,
                                             p: Payment)
    requires PaymentsOk(payments, signals, sequence) && i < |payments|
    requires p.order == payments[i].order && p.rail == payments[i].rail
    ensures payments[i].status != Succeeded && p.status != Succeeded ==>
      PaymentsOk(payments[i := p], signals, sequence)
    ensures p.status == Succeeded ==> PaymentsOk(payments[i := p], signals + {(p.order, p.rail)}, sequence)
  {
  }

  lemma {:induction false} VisitPaymentFields(cfg: Config, s: Sim, second: int, i: nat)
    requires i < |s.payments|
    requires s.payments[i].status != Succeeded ==> (s.payments[i].order, s.payments[i].rail) !in s.signals
    ensures var p, s' := s.payments[i], VisitPayment(cfg, s, second, i);
      && s' == s.(payments := s'.payments, signals := s'.signals, random := s'.random)
      && ((p.status == Succeeded || p.due > second) ==> s' == s)
      && (p.status != Succeeded && p.due <= second ==>
            if EdgeToCloudAvailable(cfg.faults, second) then
              s'.payments == s.payments[i := p.(status := Succeeded)] && s'.signals == s.signals + {(p.order, p.rail)}
            else
              s'.payments == s.payments[i := p.(due := second + 1)] && s'.signals == s.signals)
  {
  }

  lemma {:induction false} VisitPaymentKeeps(cfg: Config, s: Sim, second: int, i: nat)
    requires Inv(s) && i < |s.payments|
    ensures Inv(VisitPayment(cfg, s, second, i))
  {
    var p := s.payments[i];
    var s' := VisitPayment(cfg, s, second, i);
    VisitPaymentFields(cfg, s, second, i);
    OnePaymentChanges(s.payments, s.signals, s.sequence, i, p.(status := Succeeded));
    OnePaymentChanges(s.payments, s.signals, s.sequence, i, p.(due := second + 1));
    forall k ensures ConservedAt(s', k) { assert ConservedAt(s, k); }
  }

  lemma {:induction false} PaymentSignalsKeep(cfg: Config, s: Sim, second: int, i: nat)
    requires Inv(s)
    ensures Inv(ProcessPaymentSignals(cfg, s, second, i))
    decreases |s.payments| - i
  {
    if i < |s.payments| {
      VisitPaymentKeeps(cfg, s, second, i);
      PaymentSignalsKeep(cfg, VisitPayment(cfg, s, second, i), second, i + 1);
    }
  }

  // ---------- a second, and every run ----------

  lemma {:induction false} SecondKeeps(cfg: Config, s: Sim, second: int)
    requires Inv(s)
    ensures Inv(Second(cfg, s, second))
  {
    hide Inv;
    var sold := if second < cfg.duration then GenerateTraffic(cfg, s, second, 0) else s;
    if second < cfg.duration { TrafficKeeps(cfg, s, second, 0); }
    if !sold.failed {
      CreateTransfersKeeps(cfg, sold, second, 0);
      var planned := MaybeCreateTransfers(cfg, sold, second, 0);
      CompleteTransfersKeeps(cfg, planned, second, 0);
      var stocked := CompleteTransfers(cfg, planned, second, 0);
      DrainLocalKeeps(cfg, stocked, second, 0, 0);
      var local := DrainLocalQueue(cfg, stocked, second, 0, 0);
      DrainEdgeKeeps(cfg, local, second);
      PaymentSignalsKeep(cfg, DrainEdgeQueue(cfg, local, second), second, 0);
    }
  }

  /** Every state of every run, whatever the faults and the random stream. */
  lemma {:induction false} EveryRunHolds(cfg: Config, stream: nat -> Fraction, second: nat)
    requires Accepts(cfg)
    ensures Inv(After(cfg, stream, second))
  {
    hide Inv, Second, Start;
    if second == 0 {
      StartHolds(cfg, stream);
    } else {
      EveryRunHolds(cfg, stream, second - 1);
      SecondKeeps(cfg, After(cfg, stream, second - 1), second - 1);
    }
  }
}
