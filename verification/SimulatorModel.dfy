/**
 The simulator's source of chance.  The stream of numbers in [0, 1) is arbitrary, so whatever is
 proved for every stream holds for the generator's own stream too.
 */
module Randomness {
  import opened Common

  type Fraction = x: real | 0.0 <= x < 1.0 witness 0.0

  datatype Random = Random(stream: nat -> Fraction, drawn: nat)

  function Chance(r: Random, probability: real): (bool, Random) {
    if probability <= 0.0 then (false, r)
    else if probability >= 1.0 then (true, r)
    else (r.stream(r.drawn) < probability, r.(drawn := r.drawn + 1))
  }

  lemma {:induction false} ScaledFloor(x: Fraction, n: nat)
    requires n > 0
    ensures 0 <= (x * n as real).Floor < n
  {
    assert 0.0 <= x * n as real < n as real;
  }

  function Integer(r: Random, lo: int, hi: int): (res: (int, Random))
    requires lo <= hi
    ensures lo <= res.0 <= hi
  {
    ScaledFloor(r.stream(r.drawn), hi - lo + 1);
    (lo + (r.stream(r.drawn) * (hi - lo + 1) as real).Floor, r.(drawn := r.drawn + 1))
  }

  function Clip(weight: real): real { if weight < 0.0 then 0.0 else weight }

  function Total(weights: seq<real>): real {
    if weights == [] then 0.0 else Total(weights[..|weights| - 1]) + Clip(weights[|weights| - 1])
  }

  /** The first index at which the running total reaches the cursor, else the last one. */
  function Scan(weights: seq<real>, cursor: real, i: nat): (index: nat)
    requires i < |weights|
    ensures i <= index < |weights|
    decreases |weights| - i
  {
    var left := cursor - Clip(weights[i]);
    if left <= 0.0 || i == |weights| - 1 then i else Scan(weights, left, i + 1)
  }

  /** None stands for the thrown error: nothing to choose from, or no positive weight. */
  function Weighted(r: Random, weights: seq<real>): (res: (Option<nat>, Random))
    ensures res.0.Some? ==> res.0.value < |weights|
  {
    if weights == [] || Total(weights) <= 0.0 then (None, r)
    else (Some(Scan(weights, r.stream(r.drawn) * Total(weights), 0)), r.(drawn := r.drawn + 1))
  }
}

/** The state of one simulation run, and what each phase of a simulated second does to it. */
module SimulatorModel {
  import opened Common
  import opened Randomness

  datatype Rail = Cash | Mpesa | PesapalSabi

  datatype Window = Window(start: int, end: int) {
    predicate Contains(second: int) { start <= second <= end }
  }

  datatype RegisterId = RegisterId(bar: nat, index: nat)

  datatype Product = Product(sku: string, weight: real, opening: int)

  datatype RailShare = RailShare(rail: Rail, weight: real)

  datatype Isolation = Isolation(registers: set<RegisterId>, window: Window)

  datatype Spike = Spike(sku: string, multiplier: real, window: Window)

  datatype Plan = Plan(sku: string, sourceStock: int, transferQuantity: int, triggerBelow: int, window: Window)

  /** An absent list is the empty list. */
  datatype Faults = Faults(
    cloudOutages: seq<Window>, edgeCloudOutages: seq<Window>, posIsolations: seq<Isolation>,
    edgeRestarts: seq<int>, slowDatabase: seq<Window>, wanFailovers: seq<Window>,
    demandSpikes: seq<Spike>, replenishment: seq<Plan>,
    networkLossRate: Option<real>, syncDuplicateRate: Option<real>, syncReorderRate: Option<real>,
    callbackDuplicateRate: Option<real>, providerTimeoutRate: Option<real>,
    callbackDelayMin: Option<real>, callbackDelayMax: Option<real>, callbackReorder: bool)

  datatype Config = Config(
    duration: int, recovery: int, bars: int, registersPerBar: int, salesPerMinute: real,
    products: seq<Product>, rails: seq<RailShare>, faults: Faults)

  /** The checks made before a run starts. */
  predicate Accepts(cfg: Config) {
    && cfg.duration > 0 && cfg.recovery >= 0 && cfg.bars > 0 && cfg.registersPerBar > 0
    && cfg.salesPerMinute > 0.0
    && cfg.products != [] && cfg.rails != []
    && (forall p :: p in cfg.products ==> p.weight > 0.0 && p.opening >= 0)
    && (forall r :: r in cfg.rails ==> r.weight > 0.0)
  }

  // The source spells keys and ids as strings; each constructor below is one of its spellings.
  datatype Key = Key(bar: nat, sku: string)

  datatype MutationId = OrderPart(number: nat) | StockPart(number: nat, sku: string) | TransferPart(number: nat)

  datatype Kind = OrderKind(order: nat) | StockKind(key: Key, delta: int)

  datatype Mutation = Mutation(id: MutationId, register: RegisterId, occurred: int, kind: Kind)

  datatype Register = Register(id: RegisterId, accumulator: real)

  datatype PaymentStatus = Pending | Unknown | Succeeded

  datatype Payment = Payment(order: nat, rail: Rail, created: int, due: int, status: PaymentStatus)

  datatype Transfer = Transfer(number: nat, key: Key, quantity: int, due: int, completed: bool)

  datatype PlanKey = PlanKey(sku: string, start: int, end: int)

  datatype Sim = Sim(
    random: Random, registers: seq<Register>,
    physical: map<Key, int>, edge: map<Key, int>, cloud: map<Key, int>,
    localQueue: seq<Mutation>, edgeQueue: seq<Mutation>,
    edgeApplied: set<MutationId>, cloudApplied: set<MutationId>,
    durableOrders: set<nat>, cloudOrders: set<nat>,
    payments: seq<Payment>, signals: set<(nat, Rail)>,
    transfers: seq<Transfer>, planUsage: set<(PlanKey, nat)>, planLeft: map<PlanKey, int>,
    committed: nat, duplicateEffects: nat, sequence: nat, failed: bool)

  function Stock(inventory: map<Key, int>, key: Key): int {
    if key in inventory then inventory[key] else 0
  }

  function Rate(value: Option<real>): real {
    match value
    case None => 0.0
    case Some(v) => if v < 0.0 then 0.0 else if v > 1.0 then 1.0 else v
  }

  function WholeSeconds(value: Option<real>, fallback: nat): nat {
    match value
    case None => fallback
    case Some(v) => if v <= 0.0 then 0 else v.Floor
  }

  function MinDelay(faults: Faults): nat { WholeSeconds(faults.callbackDelayMin, 2) }

  function MaxDelay(faults: Faults): nat {
    Max(MinDelay(faults), WholeSeconds(faults.callbackDelayMax, 8))
  }

  // ---------- availability ----------

  predicate EdgeAvailable(faults: Faults, second: int) {
    !exists r :: r in faults.edgeRestarts && r <= second <= r + 2
  }

  predicate PosToEdgeAvailable(faults: Faults, register: RegisterId, second: int) {
    && EdgeAvailable(faults, second)
    && !exists w :: w in faults.posIsolations && register in w.registers && w.window.Contains(second)
  }

  predicate AnyContains(windows: seq<Window>, second: int) {
    exists w :: w in windows && w.Contains(second)
  }

  predicate EdgeToCloudAvailable(faults: Faults, second: int) {
    && EdgeAvailable(faults, second)
    && !AnyContains(faults.cloudOutages, second)
    && !AnyContains(faults.edgeCloudOutages, second)
    && !AnyContains(faults.wanFailovers, second)
  }

  // ---------- start of a run ----------

  function OpenBar(products: seq<Product>, inventory: map<Key, int>, bar: nat, i: nat): map<Key, int>
    decreases |products| - i
  {
    if i >= |products| then inventory
    else OpenBar(products, inventory[Key(bar, products[i].sku) := products[i].opening], bar, i + 1)
  }

  function OpenBars(cfg: Config, inventory: map<Key, int>, bar: nat): map<Key, int>
    decreases cfg.bars - bar
  {
    if bar >= cfg.bars then inventory
    else OpenBars(cfg, OpenBar(cfg.products, inventory, bar, 0), bar + 1)
  }

  function BarRegisters(cfg: Config, registers: seq<Register>, bar: nat, i: nat): seq<Register>
    decreases cfg.registersPerBar - i
  {
    if i >= cfg.registersPerBar then registers
    else BarRegisters(cfg, registers + [Register(RegisterId(bar, i), 0.0)], bar, i + 1)
  }

  function AllRegisters(cfg: Config, registers: seq<Register>, bar: nat): seq<Register>
    decreases cfg.bars - bar
  {
    if bar >= cfg.bars then registers
    else AllRegisters(cfg, BarRegisters(cfg, registers, bar, 0), bar + 1)
  }

  function Start(cfg: Config, stream: nat -> Fraction): Sim {
    var opening := OpenBars(cfg, map[], 0);
    Sim(Random(stream, 0), AllRegisters(cfg, [], 0), opening, opening, opening, [], [], {}, {}, {}, {}, [], {},
        [], {}, map[], 0, 0, 0, false)
  }

  // ---------- sales ----------

  function Multiplier(spikes: seq<Spike>, sku: string, second: int): real {
    if spikes == [] then 1.0
    else if spikes[0].sku == sku && spikes[0].window.Contains(second) then spikes[0].multiplier
    else Multiplier(spikes[1..], sku, second)
  }

  function ProductWeights(cfg: Config, second: int): seq<real> {
    seq(|cfg.products|, i requires 0 <= i < |cfg.products| =>
      cfg.products[i].weight * Multiplier(cfg.faults.demandSpikes, cfg.products[i].sku, second))
  }

  function RailWeights(cfg: Config): seq<real> {
    seq(|cfg.rails|, i requires 0 <= i < |cfg.rails| => cfg.rails[i].weight)
  }

  /** The payment of a sale on a provider rail: when its truth is due and how it starts out. */
  function ProviderPayment(cfg: Config, random: Random, register: RegisterId, order: nat, rail: Rail, second: int)
    : (Payment, Random)
  {
    var reachable := PosToEdgeAvailable(cfg.faults, register, second) && EdgeToCloudAvailable(cfg.faults, second);
    var (timeout, r0) := Chance(random, Rate(cfg.faults.providerTimeoutRate));
    var status := if reachable && !timeout then Pending else Unknown;
    var (base, r1) := Integer(r0, MinDelay(cfg.faults), MaxDelay(cfg.faults));
    var delay := if timeout then base + 12 else base;
    var (reorder, r2) := if cfg.faults.callbackReorder then Chance(r1, 0.35) else (false, r1);
    var (extra, r3) := if reorder then Integer(r2, 1, 10) else (0, r2);
    (Payment(order, rail, second, second + delay + extra, status), r3)
  }

  function SalePayment(cfg: Config, random: Random, register: RegisterId, order: nat, second: int): (Payment, Random) {
    var (pick, r) := Weighted(random, RailWeights(cfg));
    if pick.None? || cfg.rails[pick.value].rail == Cash then
      (Payment(order, Cash, second, second, Succeeded), r)
    else ProviderPayment(cfg, r, register, order, cfg.rails[pick.value].rail, second)
  }

  /** The two mutations a sale writes locally. */
  function SaleMutations(register: RegisterId, sku: string, order: nat, second: int): seq<Mutation> {
    [Mutation(OrderPart(order), register, second, OrderKind(order)),
     Mutation(StockPart(order, sku), register, second, StockKind(Key(register.bar, sku), -1))]
  }

  function RecordOrder(s: Sim): Sim {
    s.(sequence := s.sequence + 1, committed := s.committed + 1, durableOrders := s.durableOrders + {s.sequence + 1})
  }

  /** A sale of a product in stock: stock, order, queue and payment change together. */
  function Sell(s: Sim, register: RegisterId, sku: string, second: int, payment: Payment, random: Random): Sim {
    var key := Key(register.bar, sku);
    RecordOrder(s).(
      random := random,
      physical := s.physical[key := Stock(s.physical, key) - 1],
      localQueue := s.localQueue + SaleMutations(register, sku, s.sequence + 1, second),
      payments := s.payments + [payment])
  }

  function SellProduct(cfg: Config, s: Sim, register: RegisterId, sku: string, second: int): Sim {
    var (_, r1) := Integer(s.random, 0, 45);   // interaction latency sample
    var (_, r2) := Integer(r1, 0, 80);         // local commit latency sample
    var (payment, r3) := SalePayment(cfg, r2, register, s.sequence + 1, second);
    Sell(s, register, sku, second, payment, r3)
  }

  function CreateSale(cfg: Config, s: Sim, register: RegisterId, second: int): Sim {
    var (pick, r0) := Weighted(s.random, ProductWeights(cfg, second));
    if pick.None? then s.(random := r0, failed := true)
    else
      var sku := cfg.products[pick.value].sku;
      if Stock(s.physical, Key(register.bar, sku)) <= 0 then s.(random := r0)
      else SellProduct(cfg, s.(random := r0), register, sku, second)
  }

  /** The inner while loop of one register's traffic. */
  function SellWhileDue(cfg: Config, s: Sim, i: nat, second: int): (s': Sim)
    requires i < |s.registers|
    ensures |s'.registers| == |s.registers|
    decreases if s.registers[i].accumulator < 1.0 then 0 else s.registers[i].accumulator.Floor
  {
    var register := s.registers[i];
    if s.failed || register.accumulator < 1.0 then s
    else
      var charged := s.(registers := s.registers[i := register.(accumulator := register.accumulator - 1.0)]);
      SellWhileDue(cfg, CreateSale(cfg, charged, register.id, second), i, second)
  }

  function Accrue(cfg: Config, s: Sim, i: nat): Sim
    requires i < |s.registers|
  {
    var register := s.registers[i];
    s.(registers := s.registers[i := register.(accumulator := register.accumulator + cfg.salesPerMinute / 60.0)])
  }

  function GenerateTraffic(cfg: Config, s: Sim, second: int, i: nat): Sim
    decreases |s.registers| - i
  {
    if s.failed || i >= |s.registers| then s
    else GenerateTraffic(cfg, SellWhileDue(cfg, Accrue(cfg, s, i), i, second), second, i + 1)
  }

  // ---------- replenishment ----------

  function PlanKeyOf(plan: Plan): PlanKey { PlanKey(plan.sku, plan.window.start, plan.window.end) }

  function OpenPlan(s: Sim, plan: Plan): Sim {
    if PlanKeyOf(plan) in s.planLeft then s
    else s.(planLeft := s.planLeft[PlanKeyOf(plan) := Max(0, plan.sourceStock)])
  }

  function PlanLeft(s: Sim, key: PlanKey): int { if key in s.planLeft then s.planLeft[key] else 0 }

  function StartTransfer(s: Sim, key: Key, quantity: int, second: int): Sim {
    s.(sequence := s.sequence + 1,
       transfers := s.transfers + [Transfer(s.sequence + 1, key, quantity, second + 10, false)])
  }

  function ReplenishBar(s: Sim, plan: Plan, second: int, bar: nat): Sim {
    var key := PlanKeyOf(plan);
    var left := PlanLeft(s, key);
    var quantity := Min(left, Max(0, plan.transferQuantity));
    if Stock(s.physical, Key(bar, plan.sku)) > plan.triggerBelow || (key, bar) in s.planUsage || quantity <= 0 then s
    else
      var charged := s.(planUsage := s.planUsage + {(key, bar)}, planLeft := s.planLeft[key := left - quantity]);
      StartTransfer(charged, Key(bar, plan.sku), quantity, second)
  }

  function ReplenishBars(cfg: Config, s: Sim, plan: Plan, second: int, bar: nat): Sim
    decreases cfg.bars - bar
  {
    if bar >= cfg.bars then s
    else ReplenishBars(cfg, ReplenishBar(s, plan, second, bar), plan, second, bar + 1)
  }

  function MaybeCreateTransfers(cfg: Config, s: Sim, second: int, p: nat): Sim
    decreases |cfg.faults.replenishment| - p
  {
    if p >= |cfg.faults.replenishment| then s
    else
      var plan := cfg.faults.replenishment[p];
      if !plan.window.Contains(second) then MaybeCreateTransfers(cfg, s, second, p + 1)
      else MaybeCreateTransfers(cfg, ReplenishBars(cfg, OpenPlan(s, plan), plan, second, 0), second, p + 1)
  }

  // ---------- Edge ----------

  function ApplyAtEdge(s: Sim, m: Mutation): Sim {
    if m.id in s.edgeApplied then s
    else
      var applied := s.(edgeApplied := s.edgeApplied + {m.id});
      match m.kind
      case OrderKind(_) => applied
      case StockKind(key, delta) => applied.(edge := s.edge[key := Stock(s.edge, key) + delta])
  }

  function TransferMutation(t: Transfer, second: int): Mutation {
    Mutation(TransferPart(t.number), RegisterId(t.key.bar, 0), second, StockKind(t.key, t.quantity))
  }

  function CompleteTransfer(s: Sim, i: nat, second: int): Sim
    requires i < |s.transfers|
  {
    var t := s.transfers[i];
    var m := TransferMutation(t, second);
    var arrived := s.(physical := s.physical[t.key := Stock(s.physical, t.key) + t.quantity],
                      transfers := s.transfers[i := t.(completed := true)]);
    var applied := ApplyAtEdge(arrived, m);
    applied.(edgeQueue := applied.edgeQueue + [m])
  }

  function PostponeTransfer(s: Sim, i: nat, second: int): Sim
    requires i < |s.transfers|
  {
    s.(transfers := s.transfers[i := s.transfers[i].(due := second + 1)])
  }

  function VisitTransfer(cfg: Config, s: Sim, second: int, i: nat): (s': Sim)
    requires i < |s.transfers|
    ensures |s'.transfers| == |s.transfers|
  {
    if s.transfers[i].completed || s.transfers[i].due > second then s
    else if EdgeAvailable(cfg.faults, second) then CompleteTransfer(s, i, second)
    else PostponeTransfer(s, i, second)
  }

  function CompleteTransfers(cfg: Config, s: Sim, second: int, i: nat): Sim
    decreases |s.transfers| - i
  {
    if i >= |s.transfers| then s
    else CompleteTransfers(cfg, VisitTransfer(cfg, s, second, i), second, i + 1)
  }

  /** Mutation i leaves the device queue, is applied at the Edge and queued for the Cloud, perhaps twice. */
  function Forward(s: Sim, i: nat, twice: bool): (s': Sim)
    requires i < |s.localQueue|
    ensures |s'.localQueue| == |s.localQueue| - 1
  {
    var m := s.localQueue[i];
    var applied := ApplyAtEdge(s.(localQueue := s.localQueue[..i] + s.localQueue[i + 1..]), m);
    applied.(edgeQueue := applied.edgeQueue + (if twice then [m, m] else [m]))
  }

  /** One turn of the drain loop at position i; true when the mutation there moved on. */
  function VisitLocal(cfg: Config, s: Sim, second: int, i: nat): (res: (Sim, bool))
    requires i < |s.localQueue|
    ensures |res.0.localQueue| == |s.localQueue| - (if res.1 then 1 else 0)
  {
    if !PosToEdgeAvailable(cfg.faults, s.localQueue[i].register, second) then (s, false)
    else
      var (lost, r0) := Chance(s.random, Rate(cfg.faults.networkLossRate));
      if lost then (s.(random := r0), false)
      else
        var (twice, r1) := Chance(r0, Rate(cfg.faults.syncDuplicateRate));
        (Forward(s.(random := r1), i, twice), true)
  }

  function DrainLocalQueue(cfg: Config, s: Sim, second: int, i: nat, moved: nat): Sim
    decreases |s.localQueue| - i
  {
    if i >= |s.localQueue| || moved >= 250 then s
    else
      var (s', gone) := VisitLocal(cfg, s, second, i);
      if gone then DrainLocalQueue(cfg, s', second, i, moved + 1) else DrainLocalQueue(cfg, s', second, i + 1, moved)
  }

  // ---------- Cloud ----------

  function ApplyAtCloud(s: Sim, m: Mutation): Sim {
    if m.id in s.cloudApplied then s
    else
      var applied := s.(cloudApplied := s.cloudApplied + {m.id});
      match m.kind
      case OrderKind(order) =>
        applied.(cloudOrders := s.cloudOrders + {order},
                 duplicateEffects := if order in s.cloudOrders then s.duplicateEffects + 1 else s.duplicateEffects)
      case StockKind(key, delta) => applied.(cloud := s.cloud[key := Stock(s.cloud, key) + delta])
  }

  function Deliver(s: Sim): Sim
    requires s.edgeQueue != []
  {
    ApplyAtCloud(s.(edgeQueue := s.edgeQueue[1..]), s.edgeQueue[0])
  }

  function DeliverUpTo(cfg: Config, s: Sim, capacity: nat): Sim
    decreases capacity
  {
    if s.edgeQueue == [] || capacity == 0 then s
    else
      var (lost, r) := Chance(s.random, Rate(cfg.faults.networkLossRate));
      if lost then s.(random := r) else DeliverUpTo(cfg, Deliver(s.(random := r)), capacity - 1)
  }

  /** The second entry overtakes, and the first goes to the back. */
  function Rotated<T>(queue: seq<T>): seq<T>
    requires |queue| > 1
  {
    [queue[1]] + queue[2..] + [queue[0]]
  }

  function MaybeRotate(cfg: Config, s: Sim): Sim {
    if |s.edgeQueue| <= 1 then s
    else
      var (rotate, r) := Chance(s.random, Rate(cfg.faults.syncReorderRate));
      s.(random := r, edgeQueue := if rotate then Rotated(s.edgeQueue) else s.edgeQueue)
  }

  function Capacity(faults: Faults, second: int): nat {
    if AnyContains(faults.slowDatabase, second) then 20 else 300
  }

  function DrainEdgeQueue(cfg: Config, s: Sim, second: int): Sim {
    if !EdgeToCloudAvailable(cfg.faults, second) then s
    else DeliverUpTo(cfg, MaybeRotate(cfg, s), Capacity(cfg.faults, second))
  }

  // ---------- payments ----------

  function ApplyPaymentSignal(s: Sim, i: nat): Sim
    requires i < |s.payments|
  {
    var p := s.payments[i];
    if (p.order, p.rail) in s.signals then s
    else s.(signals := s.signals + {(p.order, p.rail)}, payments := s.payments[i := p.(status := Succeeded)])
  }

  function VisitPayment(cfg: Config, s: Sim, second: int, i: nat): (s': Sim)
    requires i < |s.payments|
    ensures |s'.payments| == |s.payments|
  {
    var p := s.payments[i];
    if p.status == Succeeded || p.due > second then s
    else if !EdgeToCloudAvailable(cfg.faults, second) then
      s.(payments := s.payments[i := p.(due := second + 1)])
    else
      var once := ApplyPaymentSignal(s, i);
      var (again, r) := Chance(once.random, Rate(cfg.faults.callbackDuplicateRate));
      var counted := once.(random := r);
      if again then ApplyPaymentSignal(counted, i) else counted
  }

  function ProcessPaymentSignals(cfg: Config, s: Sim, second: int, i: nat): Sim
    decreases |s.payments| - i
  {
    if i >= |s.payments| then s
    else ProcessPaymentSignals(cfg, VisitPayment(cfg, s, second, i), second, i + 1)
  }

  // ---------- a second, a run, its report ----------

  function Second(cfg: Config, s: Sim, second: int): Sim {
    var sold := if second < cfg.duration then GenerateTraffic(cfg, s, second, 0) else s;
    if sold.failed then sold
    else
      var planned := MaybeCreateTransfers(cfg, sold, second, 0);
      var stocked := CompleteTransfers(cfg, planned, second, 0);
      var local := DrainLocalQueue(cfg, stocked, second, 0, 0);
      ProcessPaymentSignals(cfg, DrainEdgeQueue(cfg, local, second), second, 0)
  }

  /** The state after the seconds before `second`. */
  function After(cfg: Config, stream: nat -> Fraction, second: nat): Sim {
    if second == 0 then Start(cfg, stream)
    else
      var s := After(cfg, stream, second - 1);
      if s.failed then s else Second(cfg, s, second - 1)
  }

  function FinalSecond(cfg: Config): int { cfg.duration + cfg.recovery }

  function LastEnd(windows: seq<Window>): int {
    if windows == [] then 0 else Max(LastEnd(windows[..|windows| - 1]), windows[|windows| - 1].end)
  }

  function LastRestart(restarts: seq<int>): int {
    if restarts == [] then 0 else Max(LastRestart(restarts[..|restarts| - 1]), restarts[|restarts| - 1] + 2)
  }

  function IsolationWindows(isolations: seq<Isolation>): seq<Window> {
    seq(|isolations|, i requires 0 <= i < |isolations| => isolations[i].window)
  }

  function RecoveryWindows(faults: Faults): seq<Window> {
    faults.cloudOutages + faults.edgeCloudOutages + IsolationWindows(faults.posIsolations)
      + faults.slowDatabase + faults.wanFailovers
  }

  function LastRecoveryFaultSecond(faults: Faults): int {
    Max(LastEnd(RecoveryWindows(faults)), LastRestart(faults.edgeRestarts))
  }

  function Completed(payments: seq<Payment>): nat {
    if payments == [] then 0
    else Completed(payments[..|payments| - 1]) + (if payments[|payments| - 1].status == Succeeded then 1 else 0)
  }

  function Unresolved(payments: seq<Payment>): nat {
    if payments == [] then 0
    else Unresolved(payments[..|payments| - 1]) + (if payments[|payments| - 1].status == Succeeded then 0 else 1)
  }

  predicate SameInventory(left: map<Key, int>, right: map<Key, int>) {
    forall k :: k in left.Keys + right.Keys ==> Stock(left, k) == Stock(right, k)
  }

  datatype Assertion =
    | LocalDurability
    | NoDuplicateBusinessEffect
    | SyncDrains
    | PaymentTruthResolves
    | PaymentEffectCount
    | InventoryConvergence
    | EdgeCloudConvergence

  predicate InventoryConverged(s: Sim) {
    SameInventory(s.physical, s.edge) && SameInventory(s.physical, s.cloud)
  }

  /** What the final metrics make of one release assertion. */
  predicate Passes(s: Sim, a: Assertion) {
    var backlog := |s.localQueue| + |s.edgeQueue|;
    match a
    case LocalDurability => Max(0, s.committed - |s.durableOrders|) == 0
    case NoDuplicateBusinessEffect => s.duplicateEffects == 0
    case SyncDrains => backlog == 0
    case PaymentTruthResolves => Unresolved(s.payments) == 0
    case PaymentEffectCount => Completed(s.payments) == |s.durableOrders|
    case InventoryConvergence => InventoryConverged(s)
    case EdgeCloudConvergence => backlog == 0 && |s.cloudOrders| == |s.durableOrders| && InventoryConverged(s)
  }
}
