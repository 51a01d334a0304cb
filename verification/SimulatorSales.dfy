/** What a simulated second really does: which sales are made, what they are paid with, what moves. */
module SimulatorSales {
  import opened Common
  import opened Randomness
  import opened SimulatorModel

  // ---------- a weighted choice ----------

  lemma {:induction false} TotalOneMore(weights: seq<real>, k: nat)
    requires k < |weights|
    ensures Total(weights[..k + 1]) == Total(weights[..k]) + Clip(weights[k])
  {
    assert weights[..k + 1][..k] == weights[..k];
  }

  lemma {:induction false} ScanFinds(weights: seq<real>, cursor: real, i: nat)
    requires i < |weights|
    ensures var k := Scan(weights, cursor, i);
      && (k > i ==> Total(weights[..k]) - Total(weights[..i]) < cursor)
      && (k < |weights| - 1 ==> cursor <= Total(weights[..k + 1]) - Total(weights[..i]))
    decreases |weights| - i
  {
    TotalOneMore(weights, i);
    var left := cursor - Clip(weights[i]);
    if left > 0.0 && i < |weights| - 1 { ScanFinds(weights, left, i + 1); }
  }

  /** There is nothing to choose. */
  predicate NothingWeighs(weights: seq<real>) { forall i :: 0 <= i < |weights| ==> weights[i] <= 0.0 }

  lemma {:induction false} TotalPositive(weights: seq<real>)
    ensures if NothingWeighs(weights) then Total(weights) == 0.0 else Total(weights) > 0.0
    decreases |weights|
  {
    if weights != [] {
      var rest := weights[..|weights| - 1];
      TotalPositive(rest);
      assert forall i :: 0 <= i < |rest| ==> rest[i] == weights[i];
    }
  }

  /** The number drawn falls into the share of entry k: between the running totals before and after it. */
  predicate InShare(weights: seq<real>, drawn: real, k: nat) {
    k < |weights| && (k > 0 ==> Total(weights[..k]) < drawn) && drawn <= Total(weights[..k + 1])
  }

  lemma {:induction false} ScanFollowsDraw(weights: seq<real>, drawn: real)
    requires weights != [] && drawn <= Total(weights)
    ensures InShare(weights, drawn, Scan(weights, drawn, 0))
  {
    ScanFinds(weights, drawn, 0);
    var k := Scan(weights, drawn, 0);
    assert weights[..0] == [];
    if k == |weights| - 1 { assert weights[..k + 1] == weights; }
  }

  lemma {:induction false} PortionSmall(x: Fraction, total: real)
    requires total >= 0.0
    ensures x * total <= total
  {
  }

  function Portion(x: Fraction, total: real): (part: real)
    requires total >= 0.0
    ensures part <= total
  {
    PortionSmall(x, total);
    x * total
  }

  /** The next number of the stream, scaled to the total weight. */
  function Cursor(r: Random, weights: seq<real>): real {
    TotalPositive(weights);
    Portion(r.stream(r.drawn), Total(weights))
  }

  lemma {:induction false} WeightedScans(r: Random, weights: seq<real>)
    requires Total(weights) > 0.0
    ensures Weighted(r, weights) == (Some(Scan(weights, Cursor(r, weights), 0)), r.(drawn := r.drawn + 1))
  {
    hide Scan;
  }

  /** A choice fails exactly when no weight is positive.  Otherwise the entry follows from one number drawn. */
  lemma {:induction false} WeightedFollowsDraw(r: Random, weights: seq<real>)
    ensures var (pick, after) := Weighted(r, weights);
      if NothingWeighs(weights) then pick == None && after == r
      else pick.Some? && after == r.(drawn := r.drawn + 1) && InShare(weights, Cursor(r, weights), pick.value)
  {
    TotalPositive(weights);
    if Total(weights) > 0.0 {
      hide Scan, NothingWeighs, InShare, Portion, Weighted;
      WeightedScans(r, weights);
      assert weights != [];
      ScanFollowsDraw(weights, Cursor(r, weights));
    }
  }

  /** The first spike for a SKU that is on sets its multiplier. */
  lemma {:induction false} MultiplierIs(spikes: seq<Spike>, sku: string, second: int, i: nat)
    requires i <= |spikes|
    requires forall j :: 0 <= j < i ==> spikes[j].sku != sku || !spikes[j].window.Contains(second)
    requires i < |spikes| ==> spikes[i].sku == sku && spikes[i].window.Contains(second)
    ensures Multiplier(spikes, sku, second) == if i < |spikes| then spikes[i].multiplier else 1.0
    decreases |spikes|
  {
    if i > 0 { MultiplierIs(spikes[1..], sku, second, i - 1); }
  }

  /** A product weighs its own weight, times the multiplier of the first spike for its SKU that is on. */
  lemma {:induction false} ProductWeighs(cfg: Config, second: int, p: nat, i: nat)
    requires p < |cfg.products| && i <= |cfg.faults.demandSpikes|
    requires forall j :: 0 <= j < i ==>
      cfg.faults.demandSpikes[j].sku != cfg.products[p].sku || !cfg.faults.demandSpikes[j].window.Contains(second)
    requires i < |cfg.faults.demandSpikes| ==>
      cfg.faults.demandSpikes[i].sku == cfg.products[p].sku && cfg.faults.demandSpikes[i].window.Contains(second)
    ensures |ProductWeights(cfg, second)| == |cfg.products|
    ensures ProductWeights(cfg, second)[p] == if i < |cfg.faults.demandSpikes|
      then cfg.products[p].weight * cfg.faults.demandSpikes[i].multiplier else cfg.products[p].weight
  {
    MultiplierIs(cfg.faults.demandSpikes, cfg.products[p].sku, second, i);
  }

  /** A whole number is drawn evenly: the stream's next fraction of the range, rounded down. */
  lemma {:induction false} IntegerFollowsDraw(r: Random, lo: int, hi: int)
    requires lo <= hi
    ensures var (k, after), scaled := Integer(r, lo, hi), r.stream(r.drawn) * (hi - lo + 1) as real;
      after == r.(drawn := r.drawn + 1) && (k - lo) as real <= scaled < (k - lo) as real + 1.0
  {
  }

  // ---------- the opening stock ----------

  lemma {:induction false} OpenBarSets(products: seq<Product>, inventory: map<Key, int>, bar: nat, from: nat, k: Key)
    ensures var after := OpenBar(products, inventory, bar, from);
      && (k.bar != bar ==> Stock(after, k) == Stock(inventory, k))
      && (k.bar == bar && (forall j :: from <= j < |products| ==> products[j].sku != k.sku) ==>
            Stock(after, k) == Stock(inventory, k))
      && forall i :: from <= i < |products| && k == Key(bar, products[i].sku)
                     && (forall j :: i < j < |products| ==> products[j].sku != k.sku) ==>
           Stock(after, k) == products[i].opening
    decreases |products| - from
  {
    if from < |products| {
      OpenBarSets(products, inventory[Key(bar, products[from].sku) := products[from].opening], bar, from + 1, k);
    }
  }

  lemma {:induction false} OpenBarsSets(cfg: Config, inventory: map<Key, int>, bar: nat, i: nat, k: Key)
    requires i < |cfg.products| && k.sku == cfg.products[i].sku
    requires forall j :: i < j < |cfg.products| ==> cfg.products[j].sku != k.sku
    ensures Stock(OpenBars(cfg, inventory, bar), k) ==
      if bar <= k.bar < cfg.bars then cfg.products[i].opening else Stock(inventory, k)
    decreases cfg.bars - bar
  {
    if bar < cfg.bars {
      OpenBarSets(cfg.products, inventory, bar, 0, k);
      OpenBarsSets(cfg, OpenBar(cfg.products, inventory, bar, 0), bar + 1, i, k);
    }
  }

  /** Every bar starts with the opening stock of every product, the last one named if a SKU is repeated. */
  lemma {:induction false} OpeningStock(cfg: Config, stream: nat -> Fraction, bar: nat, i: nat)
    requires bar < cfg.bars && i < |cfg.products|
    requires forall j :: i < j < |cfg.products| ==> cfg.products[j].sku != cfg.products[i].sku
    ensures var s, key := Start(cfg, stream), Key(bar, cfg.products[i].sku);
      Stock(s.physical, key) == Stock(s.edge, key) == Stock(s.cloud, key) == cfg.products[i].opening
  {
    OpenBarsSets(cfg, map[], 0, i, Key(bar, cfg.products[i].sku));
  }

  lemma {:induction false} BarRegistersAre(cfg: Config, registers: seq<Register>, bar: nat, i: nat, r: Register)
    ensures r in BarRegisters(cfg, registers, bar, i)
      <==> r in registers || (r.accumulator == 0.0 && r.id.bar == bar && i <= r.id.index < cfg.registersPerBar)
    decreases cfg.registersPerBar - i
  {
    if i < cfg.registersPerBar {
      BarRegistersAre(cfg, registers + [Register(RegisterId(bar, i), 0.0)], bar, i + 1, r);
    }
  }

  lemma {:induction false} AllRegistersAre(cfg: Config, registers: seq<Register>, bar: nat, r: Register)
    ensures r in AllRegisters(cfg, registers, bar)
      <==> || r in registers
           || (r.accumulator == 0.0 && bar <= r.id.bar < cfg.bars && r.id.index < cfg.registersPerBar)
    decreases cfg.bars - bar
  {
    if bar < cfg.bars {
      BarRegistersAre(cfg, registers, bar, 0, r);
      AllRegistersAre(cfg, BarRegisters(cfg, registers, bar, 0), bar + 1, r);
    }
  }

  /** The registers of a new run are those of every bar, with nothing accumulated. */
  lemma {:induction false} StartingRegisters(cfg: Config, stream: nat -> Fraction, r: Register)
    ensures r in Start(cfg, stream).registers
      <==> r.accumulator == 0.0 && r.id.bar < cfg.bars && r.id.index < cfg.registersPerBar
  {
    AllRegistersAre(cfg, [], 0, r);
  }

  lemma {:induction false} LastNamed(products: seq<Product>, sku: string) returns (i: nat)
    requires exists p :: p in products && p.sku == sku
    ensures i < |products| && products[i].sku == sku
    ensures forall j :: i < j < |products| ==> products[j].sku != sku
    decreases |products|
  {
    i := |products| - 1;
    if products[i].sku != sku { i := LastNamed(products[..i], sku); }
  }

  // ---------- one sale ----------

  /** Which product the draw gives. */
  function Drawn(cfg: Config, s: Sim, second: int): Option<string> {
    var pick := Weighted(s.random, ProductWeights(cfg, second)).0;
    if pick.Some? then Some(cfg.products[pick.value].sku) else None
  }

  function Skip(r: Random, n: nat): Random { r.(drawn := r.drawn + n) }

  /**
   Exactly one unit of one product at one bar has been sold, with its order, its payment, which is decided
   from the fourth number on, and its two mutations.
   */
  ghost predicate SoldOne(cfg: Config, s: Sim, after: Sim, register: RegisterId, sku: string, second: int) {
    var key, order := Key(register.bar, sku), s.sequence + 1;
    && Stock(after.physical, key) == Stock(s.physical, key) - 1
    && (forall k :: k != key ==> Stock(after.physical, k) == Stock(s.physical, k))
    && after.sequence == order && after.committed == s.committed + 1
    && after.durableOrders == s.durableOrders + {order}
    && after.payments == s.payments + [SalePayment(cfg, Skip(s.random, 3), register, order, second).0]
    && after.localQueue == s.localQueue
         + [Mutation(OrderPart(order), register, second, OrderKind(order)),
            Mutation(StockPart(order, sku), register, second, StockKind(key, -1))]
    && after == s.(random := after.random, physical := after.physical, sequence := after.sequence,
                   committed := after.committed, durableOrders := after.durableOrders, payments := after.payments,
                   localQueue := after.localQueue)
  }

  /**
   A register that is due sells exactly when the product it draws is in stock at its bar.  Without stock
   only the random stream advances, by one number; without any product to draw the run fails.
   */
  lemma {:induction false} SaleMadeExactlyWhen(cfg: Config, s: Sim, register: RegisterId, second: int)
    ensures Drawn(cfg, s, second).None? <==> NothingWeighs(ProductWeights(cfg, second))
    ensures var after := CreateSale(cfg, s, register, second);
      match Drawn(cfg, s, second)
      case None => after == s.(failed := true)
      case Some(sku) =>
        if Stock(s.physical, Key(register.bar, sku)) > 0 then SoldOne(cfg, s, after, register, sku, second)
        else after == s.(random := Skip(s.random, 1))
  {
    hide SalePayment, Weighted, ProductWeights;
    WeightedFollowsDraw(s.random, ProductWeights(cfg, second));
  }

  /** The rail a sale draws, and whether its provider times out. */
  function DrawnRail(cfg: Config, random: Random): Rail {
    var pick := Weighted(random, RailWeights(cfg)).0;
    if pick.Some? then cfg.rails[pick.value].rail else Cash
  }

  predicate TimesOut(cfg: Config, random: Random) {
    Chance(Skip(random, 1), Rate(cfg.faults.providerTimeoutRate)).0
  }

  /**
   The payment of a sale is for its order, on the rail drawn.  Cash has succeeded at once.  A provider
   payment is pending if the register reaches the Cloud and the provider does not time out, and unknown
   otherwise; its truth is due after a delay between the configured bounds, with 12 seconds more after a
   timeout and 1 to 10 more when it is reordered.
   */
  lemma {:induction false} PaymentTells(cfg: Config, random: Random, register: RegisterId, order: nat, second: int)
    ensures var p := SalePayment(cfg, random, register, order, second).0;
      var reachable := PosToEdgeAvailable(cfg.faults, register, second) && EdgeToCloudAvailable(cfg.faults, second);
      && p.order == order && p.created == second && p.rail == DrawnRail(cfg, random)
      && if p.rail == Cash then p.status == Succeeded && p.due == second
         else
           && p.status == (if reachable && !TimesOut(cfg, random) then Pending else Unknown)
           && var earliest := second + MinDelay(cfg.faults) + if TimesOut(cfg, random) then 12 else 0;
              earliest <= p.due
                <= earliest + MaxDelay(cfg.faults) - MinDelay(cfg.faults) + if cfg.faults.callbackReorder then 10 else 0
  {
    WeightedFollowsDraw(random, RailWeights(cfg));
  }
}
