/** How many sales a run makes: what the configured rate asks for, while stock lasts. */
module SimulatorRate {
  import opened Common
  import opened Randomness
  import opened SimulatorModel
  import opened SimulatorInvariants
  import opened SimulatorTheorems
  import opened SimulatorSales

  // ---------- one register ----------

  predicate Drawable(cfg: Config, second: int) { !NothingWeighs(ProductWeights(cfg, second)) }

  /** At least n units of every product at one bar. */
  ghost predicate InStock(cfg: Config, s: Sim, bar: nat, n: int) {
    forall i :: 0 <= i < |cfg.products| ==> Stock(s.physical, Key(bar, cfg.products[i].sku)) >= n
  }

  /** At most n sales, each of which takes a unit of stock. */
  ghost predicate SoldUpTo(s: Sim, after: Sim, n: int) {
    && !after.failed && s.committed <= after.committed <= s.committed + n
    && forall k :: Stock(s.physical, k) - (after.committed - s.committed) <= Stock(after.physical, k)
  }

  ghost predicate OtherBarsKeep(s: Sim, after: Sim, bar: nat) {
    forall k: Key :: k.bar != bar ==> Stock(after.physical, k) == Stock(s.physical, k)
  }

  lemma {:induction false} OneSale(cfg: Config, s: Sim, register: RegisterId, second: int)
    requires !s.failed && Drawable(cfg, second)
    ensures var after := CreateSale(cfg, s, register, second);
      && after.registers == s.registers && SoldUpTo(s, after, 1) && OtherBarsKeep(s, after, register.bar)
      && (InStock(cfg, s, register.bar, 1) ==> after.committed == s.committed + 1)
  {
    hide CreateSale, NothingWeighs, SalePayment, Weighted;
    SaleMadeExactlyWhen(cfg, s, register, second);
    var pick := Weighted(s.random, ProductWeights(cfg, second)).0;
    assert Drawn(cfg, s, second) == Some(cfg.products[pick.value].sku);
  }

  /**
   A register whose accumulator holds n whole sales spends exactly those n and keeps the fraction.  It makes
   at most n sales, all at its own bar, and all n of them if every product is there n times.
   */
  lemma {:induction false} RegisterSells(cfg: Config, s: Sim, i: nat, second: int, n: nat)
    requires i < |s.registers| && !s.failed && Drawable(cfg, second)
    requires n as real <= s.registers[i].accumulator < n as real + 1.0
    ensures var after, register := SellWhileDue(cfg, s, i, second), s.registers[i];
      && after.registers == s.registers[i := register.(accumulator := register.accumulator - n as real)]
      && SoldUpTo(s, after, n) && OtherBarsKeep(s, after, register.id.bar)
      && (InStock(cfg, s, register.id.bar, n) ==> after.committed == s.committed + n)
    decreases n
  {
    hide CreateSale, Drawable;
    var register := s.registers[i];
    if n > 0 {
      var charged := s.(registers := s.registers[i := register.(accumulator := register.accumulator - 1.0)]);
      OneSale(cfg, charged, register.id, second);
      var sold := CreateSale(cfg, charged, register.id, second);
      RegisterSells(cfg, sold, i, second, n - 1);
      if InStock(cfg, s, register.id.bar, n) {
        assert InStock(cfg, charged, register.id.bar, 1);
        assert InStock(cfg, sold, register.id.bar, n - 1);
      }
    }
  }

  // ---------- one second ----------

  function PerSecond(cfg: Config): real { cfg.salesPerMinute / 60.0 }

  /** The whole sales a register owes in the next second, and what it keeps. */
  function Due(cfg: Config, register: Register): int { (register.accumulator + PerSecond(cfg)).Floor }

  function Settle(cfg: Config, register: Register): Register {
    register.(accumulator := register.accumulator + PerSecond(cfg) - Due(cfg, register) as real)
  }

  function DueSales(cfg: Config, registers: seq<Register>): int {
    if registers == [] then 0 else Due(cfg, registers[0]) + DueSales(cfg, registers[1..])
  }

  predicate Accrued(registers: seq<Register>) { forall i :: 0 <= i < |registers| ==> registers[i].accumulator >= 0.0 }

  lemma {:induction false} DueNotNegative(cfg: Config, registers: seq<Register>)
    requires Accrued(registers) && cfg.salesPerMinute > 0.0
    ensures DueSales(cfg, registers) >= 0
    decreases |registers|
  {
    if registers != [] { DueNotNegative(cfg, registers[1..]); }
  }

  lemma {:induction false} TurnSells(cfg: Config, s: Sim, second: int, i: nat)
    requires i < |s.registers| && !s.failed && Drawable(cfg, second) && cfg.salesPerMinute > 0.0
    requires s.registers[i].accumulator >= 0.0
    ensures var after, register := SellWhileDue(cfg, Accrue(cfg, s, i), i, second), s.registers[i];
      var n := Due(cfg, register);
      && n >= 0 && after.registers == s.registers[i := Settle(cfg, register)]
      && SoldUpTo(s, after, n) && OtherBarsKeep(s, after, register.id.bar)
      && (InStock(cfg, s, register.id.bar, n) ==> after.committed == s.committed + n)
  {
    hide Drawable, SellWhileDue;
    RegisterSells(cfg, Accrue(cfg, s, i), i, second, Due(cfg, s.registers[i]));
    if InStock(cfg, s, s.registers[i].id.bar, Due(cfg, s.registers[i])) {
      assert InStock(cfg, Accrue(cfg, s, i), s.registers[i].id.bar, Due(cfg, s.registers[i]));
    }
  }

  /** Every register from i on sells what it owes: at most that, and all of it while stock lasts. */
  lemma {:induction false} TrafficSells(cfg: Config, s: Sim, second: int, i: nat)
    requires i <= |s.registers| && !s.failed && Drawable(cfg, second) && cfg.salesPerMinute > 0.0
    requires Accrued(s.registers)
    ensures var after, due := GenerateTraffic(cfg, s, second, i), DueSales(cfg, s.registers[i..]);
      && |after.registers| == |s.registers|
      && (forall j :: 0 <= j < |s.registers| ==>
            after.registers[j] == if j < i then s.registers[j] else Settle(cfg, s.registers[j]))
      && SoldUpTo(s, after, due)
      && ((forall j :: i <= j < |s.registers| ==> InStock(cfg, s, s.registers[j].id.bar, due)) ==>
            after.committed == s.committed + due)
    decreases |s.registers| - i
  {
    hide Drawable, SellWhileDue, Settle, Due;
    if i < |s.registers| {
      TurnSells(cfg, s, second, i);
      var turn, n := SellWhileDue(cfg, Accrue(cfg, s, i), i, second), Due(cfg, s.registers[i]);
      assert s.registers[i..][1..] == s.registers[i + 1..] == turn.registers[i + 1..];
      SettleNotNegative(cfg, s.registers[i]);
      TrafficSells(cfg, turn, second, i + 1);
      DueNotNegative(cfg, s.registers[i + 1..]);
      var due := DueSales(cfg, s.registers[i..]);
      if forall j :: i <= j < |s.registers| ==> InStock(cfg, s, s.registers[j].id.bar, due) {
        assert InStock(cfg, s, s.registers[i].id.bar, due);
        assert InStock(cfg, s, s.registers[i].id.bar, n);
        forall j | i + 1 <= j < |s.registers| ensures InStock(cfg, turn, turn.registers[j].id.bar, due - n) {
          assert InStock(cfg, s, s.registers[j].id.bar, due);
        }
      }
    }
  }

  lemma {:induction false} SettleNotNegative(cfg: Config, register: Register)
    ensures 0.0 <= Settle(cfg, register).accumulator < 1.0
    ensures Settle(cfg, register).id == register.id
  {
  }

  // ---------- the other phases of a second ----------

  /** Registers, sales and what is physically there stay as they are. */
  ghost predicate SalesKeep(s: Sim, after: Sim) {
    after.registers == s.registers && after.committed == s.committed && after.failed == s.failed
    && after.physical == s.physical
  }

  ghost predicate Arriving(transfers: seq<Transfer>) {
    forall i :: 0 <= i < |transfers| ==> transfers[i].quantity > 0
  }

  lemma {:induction false} ArrivalKeepsSales(s: Sim, i: nat, second: int)
    requires i < |s.transfers| && Arriving(s.transfers)
    ensures var after, t := CompleteTransfer(s, i, second), s.transfers[i];
      && after.registers == s.registers && after.committed == s.committed && after.failed == s.failed
      && after.transfers == s.transfers[i := t.(completed := true)]
      && after.physical == s.physical[t.key := Stock(s.physical, t.key) + t.quantity]
  {
    hide Arriving, Stock;
  }

  lemma {:induction false} VisitKeepsSales(cfg: Config, s: Sim, second: int, i: nat)
    requires i < |s.transfers| && Arriving(s.transfers)
    ensures var after := VisitTransfer(cfg, s, second, i);
      && after.registers == s.registers && after.committed == s.committed && after.failed == s.failed
      && Arriving(after.transfers)
      && forall k :: Stock(s.physical, k) <= Stock(after.physical, k)
  {
    hide EdgeAvailable, CompleteTransfer;
    ArrivalKeepsSales(s, i, second);
  }

  lemma {:induction false} TransfersKeepSales(cfg: Config, s: Sim, second: int, i: nat)
    requires Arriving(s.transfers)
    ensures var after := CompleteTransfers(cfg, s, second, i);
      && after.registers == s.registers && after.committed == s.committed && after.failed == s.failed
      && forall k :: Stock(s.physical, k) <= Stock(after.physical, k)
    decreases |s.transfers| - i
  {
    hide VisitTransfer, Stock, Arriving;
    if i < |s.transfers| {
      VisitKeepsSales(cfg, s, second, i);
      TransfersKeepSales(cfg, VisitTransfer(cfg, s, second, i), second, i + 1);
    }
  }

  lemma {:induction false} ForwardKeepsSales(s: Sim, i: nat, twice: bool)
    requires i < |s.localQueue|
    ensures SalesKeep(s, Forward(s, i, twice))
  {
    hide Stock;
  }

  lemma {:induction false} VisitLocalKeepsSales(cfg: Config, s: Sim, second: int, i: nat)
    requires i < |s.localQueue|
    ensures SalesKeep(s, VisitLocal(cfg, s, second, i).0)
  {
    hide PosToEdgeAvailable, Chance, Rate, Forward;
    var (lost, r0) := Chance(s.random, Rate(cfg.faults.networkLossRate));
    var (twice, r1) := Chance(r0, Rate(cfg.faults.syncDuplicateRate));
    ForwardKeepsSales(s.(random := r1), i, twice);
  }

  lemma {:induction false} LocalKeepsSales(cfg: Config, s: Sim, second: int, i: nat, moved: nat)
    ensures SalesKeep(s, DrainLocalQueue(cfg, s, second, i, moved))
    decreases |s.localQueue| - i
  {
    hide VisitLocal;
    if i < |s.localQueue| && moved < 250 {
      var (s', gone) := VisitLocal(cfg, s, second, i);
      VisitLocalKeepsSales(cfg, s, second, i);
      LocalKeepsSales(cfg, s', second, if gone then i else i + 1, if gone then moved + 1 else moved);
    }
  }

  lemma {:induction false} DeliverKeepsSales(s: Sim)
    requires s.edgeQueue != []
    ensures SalesKeep(s, Deliver(s))
  {
  }

  lemma {:induction false} DeliveryKeepsSales(cfg: Config, s: Sim, capacity: nat)
    ensures SalesKeep(s, DeliverUpTo(cfg, s, capacity))
    decreases capacity
  {
    hide Deliver, Chance, Rate;
    if s.edgeQueue != [] && capacity > 0 {
      var (lost, r) := Chance(s.random, Rate(cfg.faults.networkLossRate));
      if !lost {
        DeliverKeepsSales(s.(random := r));
        DeliveryKeepsSales(cfg, Deliver(s.(random := r)), capacity - 1);
      }
    }
  }

  lemma {:induction false} SignalKeepsSales(s: Sim, i: nat)
    requires i < |s.payments|
    ensures SalesKeep(s, ApplyPaymentSignal(s, i)) && |ApplyPaymentSignal(s, i).payments| == |s.payments|
  {
  }

  lemma {:induction false} VisitPaymentKeepsSales(cfg: Config, s: Sim, second: int, i: nat)
    requires i < |s.payments|
    ensures SalesKeep(s, VisitPayment(cfg, s, second, i))
  {
    SignalKeepsSales(s, i);
    var once := ApplyPaymentSignal(s, i);
    hide EdgeToCloudAvailable, Chance, Rate, ApplyPaymentSignal;
    var (again, r) := Chance(once.random, Rate(cfg.faults.callbackDuplicateRate));
    SignalKeepsSales(once.(random := r), i);
  }

  lemma {:induction false} SignalsKeepSales(cfg: Config, s: Sim, second: int, i: nat)
    ensures SalesKeep(s, ProcessPaymentSignals(cfg, s, second, i))
    decreases |s.payments| - i
  {
    hide VisitPayment;
    if i < |s.payments| {
      VisitPaymentKeepsSales(cfg, s, second, i);
      SignalsKeepSales(cfg, VisitPayment(cfg, s, second, i), second, i + 1);
    }
  }

  lemma {:induction false} DeliveriesKeepSales(cfg: Config, s: Sim, second: int)
    ensures SalesKeep(s, ProcessPaymentSignals(cfg, DrainEdgeQueue(cfg, DrainLocalQueue(cfg, s, second, 0, 0), second),
                                               second, 0))
  {
    hide DrainLocalQueue, DeliverUpTo, ProcessPaymentSignals, Capacity, EdgeToCloudAvailable, Chance;
    var local := DrainLocalQueue(cfg, s, second, 0, 0);
    LocalKeepsSales(cfg, s, second, 0, 0);
    DeliveryKeepsSales(cfg, MaybeRotate(cfg, local), Capacity(cfg.faults, second));
    SignalsKeepSales(cfg, DrainEdgeQueue(cfg, local, second), second, 0);
  }

  /** A second of an accepted run makes the sales that are due, all of them while stock lasts. */
  lemma {:induction false} SecondSells(cfg: Config, s: Sim, second: int)
    requires Inv(s) && !s.failed && second < cfg.duration && Drawable(cfg, second) && cfg.salesPerMinute > 0.0
    requires Accrued(s.registers)
    ensures var after, due := Second(cfg, s, second), DueSales(cfg, s.registers);
      && |after.registers| == |s.registers|
      && (forall j :: 0 <= j < |s.registers| ==> after.registers[j] == Settle(cfg, s.registers[j]))
      && SoldUpTo(s, after, due)
      && ((forall j :: 0 <= j < |s.registers| ==> InStock(cfg, s, s.registers[j].id.bar, due)) ==>
            after.committed == s.committed + due)
  {
    hide Drawable, GenerateTraffic, MaybeCreateTransfers, CompleteTransfers, DrainLocalQueue, DrainEdgeQueue,
         ProcessPaymentSignals, Inv, InStock, Settle, DueSales;
    var sold := GenerateTraffic(cfg, s, second, 0);
    assert s.registers[0..] == s.registers;
    TrafficSells(cfg, s, second, 0);
    TrafficKeeps(cfg, s, second, 0);
    var planned := MaybeCreateTransfers(cfg, sold, second, 0);
    CreateTransfersKeeps(cfg, sold, second, 0);
    CreateTransfersEffect(cfg, sold, second, 0);
    QuantitiesIn(planned);
    TransfersKeepSales(cfg, planned, second, 0);
    DeliveriesKeepSales(cfg, CompleteTransfers(cfg, planned, second, 0), second);
  }

  lemma {:induction false} QuantitiesIn(s: Sim)
    requires Inv(s)
    ensures Arriving(s.transfers)
  {
  }

  // ---------- a run ----------

  function RegisterCount(cfg: Config): int { cfg.bars * cfg.registersPerBar }

  /** The whole sales of one register in the first t seconds, and the fraction left over. */
  function Whole(cfg: Config, t: nat): int { (t as real * PerSecond(cfg)).Floor }

  function Left(cfg: Config, t: nat): real { t as real * PerSecond(cfg) - Whole(cfg, t) as real }

  predicate AllHold(registers: seq<Register>, accumulator: real) {
    forall i :: 0 <= i < |registers| ==> registers[i].accumulator == accumulator
  }

  lemma {:induction false} OneSecondMore(cfg: Config, t: nat, register: Register)
    requires register.accumulator == Left(cfg, t)
    ensures Due(cfg, register) == Whole(cfg, t + 1) - Whole(cfg, t)
    ensures Settle(cfg, register).accumulator == Left(cfg, t + 1)
  {
    assert (t + 1) as real * PerSecond(cfg) == t as real * PerSecond(cfg) + PerSecond(cfg);
  }

  lemma {:induction false} EqualDues(cfg: Config, registers: seq<Register>, t: nat)
    requires AllHold(registers, Left(cfg, t))
    ensures DueSales(cfg, registers) == |registers| * (Whole(cfg, t + 1) - Whole(cfg, t))
    decreases |registers|
  {
    hide Whole, Left, Due;
    if registers != [] {
      OneSecondMore(cfg, t, registers[0]);
      EqualDues(cfg, registers[1..], t);
      var each := Whole(cfg, t + 1) - Whole(cfg, t);
      assert |registers| * each == each + (|registers| - 1) * each;
    }
  }

  lemma {:induction false} BarRegisterCount(cfg: Config, registers: seq<Register>, bar: nat, i: nat)
    requires i <= cfg.registersPerBar
    ensures |BarRegisters(cfg, registers, bar, i)| == |registers| + cfg.registersPerBar - i
    decreases cfg.registersPerBar - i
  {
    if i < cfg.registersPerBar {
      BarRegisterCount(cfg, registers + [Register(RegisterId(bar, i), 0.0)], bar, i + 1);
    }
  }

  lemma {:induction false} AllRegisterCount(cfg: Config, registers: seq<Register>, bar: nat)
    requires bar <= cfg.bars && cfg.registersPerBar >= 0
    ensures |AllRegisters(cfg, registers, bar)| == |registers| + (cfg.bars - bar) * cfg.registersPerBar
    decreases cfg.bars - bar
  {
    if bar < cfg.bars {
      BarRegisterCount(cfg, registers, bar, 0);
      AllRegisterCount(cfg, BarRegisters(cfg, registers, bar, 0), bar + 1);
      assert (cfg.bars - bar) * cfg.registersPerBar == cfg.registersPerBar + (cfg.bars - bar - 1) * cfg.registersPerBar;
    }
  }

  lemma {:induction false} OpensWith(cfg: Config, stream: nat -> Fraction, m: int)
    requires Accepts(cfg) && OpensAtLeast(cfg, m)
    ensures forall bar: nat :: bar < cfg.bars ==> InStock(cfg, Start(cfg, stream), bar, m)
  {
    hide Start;
    forall bar: nat, i | bar < cfg.bars && 0 <= i < |cfg.products|
      ensures Stock(Start(cfg, stream).physical, Key(bar, cfg.products[i].sku)) >= m
    {
      assert cfg.products[i] in cfg.products;
      var last := LastNamed(cfg.products, cfg.products[i].sku);
      OpeningStock(cfg, stream, bar, last);
      assert cfg.products[last] in cfg.products;
    }
  }

  /** Where the registers of a run stand after t seconds of selling. */
  ghost predicate Ticking(cfg: Config, s: Sim, t: nat) {
    && !s.failed && |s.registers| == RegisterCount(cfg) && AllHold(s.registers, Left(cfg, t))
    && forall i :: 0 <= i < |s.registers| ==> s.registers[i].id.bar < cfg.bars
  }

  lemma {:induction false} StartTicks(cfg: Config, stream: nat -> Fraction)
    requires Accepts(cfg)
    ensures Ticking(cfg, Start(cfg, stream), 0) && Start(cfg, stream).committed == 0
  {
    AllRegisterCount(cfg, [], 0);
    var s := Start(cfg, stream);
    forall i | 0 <= i < |s.registers| ensures s.registers[i].accumulator == 0.0 && s.registers[i].id.bar < cfg.bars {
      StartingRegisters(cfg, stream, s.registers[i]);
    }
  }

  lemma {:induction false} TicksOn(cfg: Config, s: Sim, t: nat, after: Sim)
    requires Ticking(cfg, s, t) && !after.failed && |after.registers| == |s.registers|
    requires forall j :: 0 <= j < |s.registers| ==> after.registers[j] == Settle(cfg, s.registers[j])
    ensures Ticking(cfg, after, t + 1)
  {
    hide Settle, Left, RegisterCount;
    forall j | 0 <= j < |s.registers|
      ensures after.registers[j].accumulator == Left(cfg, t + 1) && after.registers[j].id.bar < cfg.bars
    {
      OneSecondMore(cfg, t, s.registers[j]);
      SettleNotNegative(cfg, s.registers[j]);
    }
  }

  lemma {:induction false} MoreInStock(cfg: Config, s: Sim, bar: nat, m: int, n: int)
    requires InStock(cfg, s, bar, m) && m >= n
    ensures InStock(cfg, s, bar, n)
  {
  }

  ghost predicate StockedAll(cfg: Config, s: Sim, m: int) {
    forall bar: nat :: bar < cfg.bars ==> InStock(cfg, s, bar, m)
  }

  lemma {:induction false} SecondTicks(cfg: Config, s: Sim, t: nat, m: int)
    requires Inv(s) && Ticking(cfg, s, t) && t < cfg.duration && Drawable(cfg, t) && cfg.salesPerMinute > 0.0
    ensures var after, due := Second(cfg, s, t), RegisterCount(cfg) * (Whole(cfg, t + 1) - Whole(cfg, t));
      && Ticking(cfg, after, t + 1) && SoldUpTo(s, after, due)
      && (StockedAll(cfg, s, m) && m >= due ==> after.committed == s.committed + due)
  {
    hide Drawable, Second, Inv, Whole, Left, DueSales, RegisterCount, Settle, InStock, Stock;
    EqualDues(cfg, s.registers, t);
    LeftIsFraction(cfg, t);
    SecondSells(cfg, s, t);
    TicksOn(cfg, s, t, Second(cfg, s, t));
    var due := DueSales(cfg, s.registers);
    if StockedAll(cfg, s, m) && m >= due {
      forall j | 0 <= j < |s.registers| ensures InStock(cfg, s, s.registers[j].id.bar, due) {
        MoreInStock(cfg, s, s.registers[j].id.bar, m, due);
      }
    }
  }

  lemma {:induction false} LeftIsFraction(cfg: Config, t: nat)
    ensures 0.0 <= Left(cfg, t) < 1.0
  {
  }

  /** What the rate asks of all registers in the first t seconds. */
  function Asked(cfg: Config, t: nat): int { RegisterCount(cfg) * Whole(cfg, t) }

  lemma {:induction false} AskedGrows(cfg: Config, t: nat)
    requires Accepts(cfg)
    ensures Asked(cfg, 0) == 0
    ensures Asked(cfg, t + 1) == Asked(cfg, t) + RegisterCount(cfg) * (Whole(cfg, t + 1) - Whole(cfg, t))
    ensures Asked(cfg, t) <= Asked(cfg, t + 1)
  {
    var more := Whole(cfg, t + 1) - Whole(cfg, t);
    assert more >= 0 by { assert (t + 1) as real * PerSecond(cfg) == t as real * PerSecond(cfg) + PerSecond(cfg); }
    assert RegisterCount(cfg) >= 0;
    assert RegisterCount(cfg) * more >= 0;
  }

  lemma {:induction false} StillStocked(cfg: Config, s: Sim, after: Sim, m: int, n: int)
    requires StockedAll(cfg, s, m) && SoldUpTo(s, after, n)
    ensures StockedAll(cfg, after, m - (after.committed - s.committed))
  {
    forall bar: nat, i | bar < cfg.bars && 0 <= i < |cfg.products|
      ensures Stock(after.physical, Key(bar, cfg.products[i].sku)) >= m - (after.committed - s.committed)
    {
      assert InStock(cfg, s, bar, m);
    }
  }

  ghost predicate OpensAtLeast(cfg: Config, m: int) { forall p :: p in cfg.products ==> p.opening >= m }

  lemma {:induction false} SecondAsks(cfg: Config, s: Sim, t: nat, m: int)
    requires Accepts(cfg) && Inv(s) && Ticking(cfg, s, t) && t < cfg.duration && Drawable(cfg, t)
    ensures var after, due := Second(cfg, s, t), Asked(cfg, t + 1) - Asked(cfg, t);
      && due >= 0 && Ticking(cfg, after, t + 1) && SoldUpTo(s, after, due)
      && (StockedAll(cfg, s, m) && m >= due ==>
            after.committed == s.committed + due && StockedAll(cfg, after, m - due))
  {
    hide Drawable, Second, Inv, Whole, RegisterCount, Ticking, StockedAll, Asked, Stock;
    AskedGrows(cfg, t);
    SecondTicks(cfg, s, t, m);
    var after, due := Second(cfg, s, t), Asked(cfg, t + 1) - Asked(cfg, t);
    if StockedAll(cfg, s, m) && m >= due { StillStocked(cfg, s, after, m, due); }
  }

  /** After t seconds of selling: no more sales than the rate asks for, and as many while stock lasts. */
  lemma {:induction false} RunTicks(cfg: Config, stream: nat -> Fraction, t: nat, m: int)
    requires Accepts(cfg) && t <= cfg.duration && forall second: nat :: second < t ==> Drawable(cfg, second)
    ensures var s := After(cfg, stream, t);
      && Ticking(cfg, s, t) && s.committed <= Asked(cfg, t)
      && (OpensAtLeast(cfg, m) && m >= Asked(cfg, t) ==>
            s.committed == Asked(cfg, t) && StockedAll(cfg, s, m - s.committed))
  {
    hide Drawable, Second, Start, Inv, AllHold, Left, RegisterCount, Stock, Asked, Accepts, StockedAll, OpensAtLeast;
    if t == 0 {
      StartTicks(cfg, stream);
      AskedGrows(cfg, 0);
      if OpensAtLeast(cfg, m) { StartStocked(cfg, stream, m); }
    } else {
      var s := After(cfg, stream, t - 1);
      RunTicks(cfg, stream, t - 1, m);
      EveryRunHolds(cfg, stream, t - 1);
      SecondAsks(cfg, s, t - 1, m - s.committed);
    }
  }

  lemma {:induction false} StartStocked(cfg: Config, stream: nat -> Fraction, m: int)
    requires Accepts(cfg) && OpensAtLeast(cfg, m)
    ensures StockedAll(cfg, Start(cfg, stream), m)
  {
    OpensWith(cfg, stream, m);
  }

  lemma {:induction false} OrdersCounted(s: Sim)
    requires Inv(s)
    ensures s.committed == |s.durableOrders|
  {
  }

  /**
   Each register owes the configured number of sales a minute, fractions of a sale carried over from second
   to second.  A run never makes more sales than all registers owe, and if every product opens with that
   many units at every bar it has made exactly those.
   */
  lemma {:induction false} RunSells(cfg: Config, stream: nat -> Fraction, t: nat)
    requires Accepts(cfg) && t <= cfg.duration && forall second: nat :: second < t ==> Drawable(cfg, second)
    ensures var s, asked := After(cfg, stream, t), Asked(cfg, t);
      && !s.failed && |s.durableOrders| <= asked
      && ((forall p :: p in cfg.products ==> p.opening >= asked) ==> |s.durableOrders| == asked)
  {
    hide After, Inv, Accepts, AllHold, Left, RegisterCount;
    RunTicks(cfg, stream, t, Asked(cfg, t));
    EveryRunHolds(cfg, stream, t);
    OrdersCounted(After(cfg, stream, t));
  }
}
