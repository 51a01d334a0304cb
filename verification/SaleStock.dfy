/** Where a cash sale takes its stock from, what its rows say, and why it takes none. */
module SaleStock {
  import opened Common
  import opened InventoryDomain
  import opened InventoryLedger
  import opened SaleConsumption

  // ---------- the configuration in force ----------

  /**
   A configuration is installed exactly when its windows and its weight are in range.  Its event then has
   exactly its mappings and its recipes, and keeps the SKUs it had besides the new ones.
   */
  lemma {:induction false} InstallSets(cfg: Config, s: Snapshot)
    ensures Install(cfg, s).Ok? <==> s.shortWindow <= s.mediumWindow && 0 <= s.shortWeight <= 10000
    ensures Install(cfg, s).Ok? ==>
      var after := Install(cfg, s).value;
      && (forall l :: (s.event, l) in after.mapping <==> l in s.mappings)
      && (forall l :: l in s.mappings ==> after.mapping[(s.event, l)] == s.mappings[l])
      && (forall sku :: RecipeOf(after, s.event, sku) == if sku in s.recipes then s.recipes[sku] else [])
      && (forall sku :: (s.event, sku) in after.skus <==> (s.event, sku) in cfg.skus || sku in s.skus)
  {
  }

  // ---------- why a sale takes nothing ----------

  /** Line k is the first that is not configured. */
  predicate FirstUnusable(cfg: Config, event: string, lines: seq<SaleLine>, k: int) {
    && 0 <= k < |lines| && !Configured(cfg, event, lines[k])
    && forall j :: 0 <= j < k ==> Configured(cfg, event, lines[j])
  }

  lemma {:induction false} LineProblem(cfg: Config, m: Movements, event: string, line: SaleLine)
    requires !Configured(cfg, event, line)
    ensures AddLine(cfg, m, event, line)
      == Err(if RecipeOf(cfg, event, line.sku) == [] then UnconfiguredSku else UnconfiguredComponent)
  {
    if RecipeOf(cfg, event, line.sku) != [] {
      ComponentProblem(cfg, m, event, line.quantity, RecipeOf(cfg, event, line.sku));
    }
  }

  lemma {:induction false} ComponentProblem(cfg: Config, m: Movements, event: string, quantity: int,
                                            components: seq<Component>)
    requires exists c :: c in components && (event, c.sku) !in cfg.skus
    ensures AddComponents(cfg, m, event, quantity, components) == Err(UnconfiguredComponent)
    decreases |components|
  {
    var n := |components| - 1;
    assert components == components[..n] + [components[n]];
    if exists c :: c in components[..n] && (event, c.sku) !in cfg.skus {
      ComponentProblem(cfg, m, event, quantity, components[..n]);
    } else {
      OnlyUnconfigured(cfg, m, event, quantity, components[..n]);
    }
  }

  lemma {:induction false} OnlyUnconfigured(cfg: Config, m: Movements, event: string, quantity: int,
                                            components: seq<Component>)
    ensures AddComponents(cfg, m, event, quantity, components).Err? ==>
      AddComponents(cfg, m, event, quantity, components).error == UnconfiguredComponent
    decreases |components|
  {
    if components != [] { OnlyUnconfigured(cfg, m, event, quantity, components[..|components| - 1]); }
  }

  lemma {:induction false} LinesProblem(cfg: Config, event: string, lines: seq<SaleLine>, k: int)
    requires FirstUnusable(cfg, event, lines, k)
    ensures MovementsOf(cfg, event, lines)
      == Err(if RecipeOf(cfg, event, lines[k].sku) == [] then UnconfiguredSku else UnconfiguredComponent)
    decreases |lines|
  {
    hide AddLine, Configured;
    var n := |lines| - 1;
    if k < n {
      LinesProblem(cfg, event, lines[..n], k);
    } else {
      MovementsAreSums(cfg, event, lines[..n]);
      LineProblem(cfg, MovementsOf(cfg, event, lines[..n]).value, event, lines[n]);
    }
  }

  /** The exception of an event says the first thing that is wrong: payload, mapping, or the first unusable line. */
  lemma {:induction false} ProblemTells(cfg: Config, e: Envelope, k: int)
    ensures PlanOf(cfg, e) == Err(InvalidPayload) <==> e.sale.None?
    ensures PlanOf(cfg, e) == Err(MissingMapping) <==>
      e.sale.Some? && (e.sale.value.event, e.sale.value.salesLocation) !in cfg.mapping
    ensures e.sale.Some? && (e.sale.value.event, e.sale.value.salesLocation) in cfg.mapping
            && FirstUnusable(cfg, e.sale.value.event, e.sale.value.lines, k) ==>
      PlanOf(cfg, e) == Err(if RecipeOf(cfg, e.sale.value.event, e.sale.value.lines[k].sku) == []
                            then UnconfiguredSku else UnconfiguredComponent)
  {
    hide MovementsOf;
    if e.sale.Some? {
      var sale := e.sale.value;
      LinesSayWhich(cfg, sale.event, sale.lines);
      if FirstUnusable(cfg, sale.event, sale.lines, k) { LinesProblem(cfg, sale.event, sale.lines, k); }
    }
  }

  lemma {:induction false} LinesSayWhich(cfg: Config, event: string, lines: seq<SaleLine>)
    ensures MovementsOf(cfg, event, lines).Err? ==>
      MovementsOf(cfg, event, lines).error in {UnconfiguredSku, UnconfiguredComponent}
    decreases |lines|
  {
    if lines != [] {
      var n := |lines| - 1;
      LinesSayWhich(cfg, event, lines[..n]);
      if MovementsOf(cfg, event, lines[..n]).Ok? {
        OnlyUnconfigured(cfg, MovementsOf(cfg, event, lines[..n]).value, event, lines[n].quantity,
                         RecipeOf(cfg, event, lines[n].sku));
      }
    }
  }

  // ---------- what a sale takes, and where ----------

  /** Units of a SKU that the sale needs, sold as they are or in what is made from them. */
  function Units(cfg: Config, sale: SaleOrder, sku: string): int {
    Needs(cfg, sale.event, sale.lines, MovementKey(Sale, sku))
      + Needs(cfg, sale.event, sale.lines, MovementKey(RecipeConsumption, sku))
  }

  predicate SaleKinds(keys: seq<MovementKey>) {
    forall i :: 0 <= i < |keys| ==> keys[i].kind == Sale || keys[i].kind == RecipeConsumption
  }

  lemma {:induction false} NoOtherKinds(cfg: Config, event: string, lines: seq<SaleLine>, key: MovementKey)
    requires key.kind != Sale && key.kind != RecipeConsumption
    ensures Needs(cfg, event, lines, key) == 0
    decreases |lines|
  {
    if lines != [] { NoOtherKinds(cfg, event, lines[..|lines| - 1], key); }
  }

  /** What the listed movements take of one SKU. */
  function Listed(m: Movements, keys: seq<MovementKey>, sku: string): int {
    (if MovementKey(Sale, sku) in keys then TakenOf(m, MovementKey(Sale, sku)) else 0)
      + if MovementKey(RecipeConsumption, sku) in keys then TakenOf(m, MovementKey(RecipeConsumption, sku)) else 0
  }

  lemma {:induction false} ListedMore(m: Movements, init: seq<MovementKey>, last: MovementKey, sku: string)
    requires last in m && last !in init && (last.kind == Sale || last.kind == RecipeConsumption)
    ensures Listed(m, init + [last], sku) == Listed(m, init, sku) + if last.sku == sku then m[last] else 0
  {
    assert forall k :: k in init + [last] <==> k in init || k == last;
  }

  lemma {:induction false} RowsMore(first: nat, inputs: seq<Input>, last: Input)
    requires last.id.None?
    ensures RowsOf(first, inputs + [last])
      == RowsOf(first, inputs) + [Row(Random(first + |inputs|), last.key, last.content)]
  {
  }

  lemma {:induction false} RowsTake(first: nat, e: Envelope, sale: SaleOrder, location: string, m: Movements,
                                    keys: seq<MovementKey>, place: Place)
    requires (forall k :: k in keys ==> k in m) && SaleKinds(keys)
    requires forall i, j :: 0 <= i < j < |keys| ==> keys[i] != keys[j]
    ensures Total(RowsOf(first, SaleInputs(e, sale, location, m, keys)), At(place)) ==
      if place.event == sale.event && place.location == location then -Listed(m, keys, place.sku) else 0
    decreases |keys|
  {
    hide Listed, RowsOf, SaleKey, Total;
    if keys == [] {
      NoRows(first, place);
      NoneListed(m, place.sku);
    } else {
      var n := |keys| - 1;
      var init, last := keys[..n], keys[n];
      RowsTake(first, e, sale, location, m, init, place);
      assert keys == init + [last] && last !in init;
      ListedMore(m, init, last, place.sku);
      var inputs, input := SaleInputs(e, sale, location, m, init), SaleInput(e, sale, location, m, last);
      assert SaleInputs(e, sale, location, m, keys) == inputs + [input];
      RowsMore(first, inputs, input);
      TotalOne(RowsOf(first, inputs), Row(Random(first + n), input.key, input.content), At(place));
    }
  }

  lemma {:induction false} NoRows(first: nat, place: Place)
    ensures Total(RowsOf(first, []), At(place)) == 0
  {
  }

  lemma {:induction false} NoneListed(m: Movements, sku: string)
    ensures Listed(m, [], sku) == 0
  {
  }

  /** The row is one of the event's: at the mapped location, against its order, and naming event and device. */
  predicate SaysSale(r: Row, e: Envelope, sale: SaleOrder, location: string) {
    && r.content.place.event == sale.event && r.content.place.location == location
    && (r.content.kind == Sale || r.content.kind == RecipeConsumption) && r.content.delta < 0
    && r.content.sourceType == "ORDER" && r.content.sourceId == sale.order
    && r.content.instance == Some(e.instance) && r.content.device == Some(e.device) && r.content.at == e.at
    && r.content.actor.None? && r.content.reverses.None?
  }

  lemma {:induction false} SaleBatch(e: Envelope, sale: SaleOrder, location: string, m: Movements,
                                     keys: seq<MovementKey>)
    requires (forall k :: k in keys ==> k in m) && SaleKinds(keys)
    requires forall i, j :: 0 <= i < j < |keys| ==> keys[i] != keys[j]
    ensures Batch(SaleInputs(e, sale, location, m, keys))
  {
    var inputs := SaleInputs(e, sale, location, m, keys);
    forall i, j | 0 <= i < j < |inputs| ensures inputs[i].content != inputs[j].content {
      assert MovementKey(inputs[i].content.kind, inputs[i].content.place.sku) == keys[i];
      assert MovementKey(inputs[j].content.kind, inputs[j].content.place.sku) == keys[j];
    }
  }

  lemma {:induction false} PlanIs(cfg: Config, e: Envelope, keys: seq<MovementKey>)
    requires PlanOf(cfg, e).Ok? && Ordered(keys, PlanOf(cfg, e).value.movements)
    ensures var plan, sale := PlanOf(cfg, e).value, e.sale.value;
      && e.sale.Some? && plan.sale == sale && (sale.event, sale.salesLocation) in cfg.mapping
      && plan.location == cfg.mapping[(sale.event, sale.salesLocation)]
      && SaleKinds(keys) && AllPositive(plan.movements)
      && forall sku :: Listed(plan.movements, keys, sku) == Units(cfg, sale, sku)
  {
    hide MovementsOf, Needs;
    var plan := PlanOf(cfg, e).value;
    MovementsAreSums(cfg, e.sale.value.event, e.sale.value.lines);
    forall i | 0 <= i < |keys| ensures keys[i].kind == Sale || keys[i].kind == RecipeConsumption {
      assert keys[i] in plan.movements;
      if keys[i].kind != Sale && keys[i].kind != RecipeConsumption {
        NoOtherKinds(cfg, e.sale.value.event, e.sale.value.lines, keys[i]);
      }
    }
  }

  /**
   The first time an event is applied it takes, at the location its sales location is mapped to, exactly
   the units its lines and their recipes need, and touches no other stock.  Every new row says so.
   */
  lemma {:induction false} SaleTakes(ledger: Ledger, cfg: Config, e: Envelope, keys: seq<MovementKey>, place: Place)
    requires LedgerOk(ledger) && (PlanOf(cfg, e).Ok? ==> Ordered(keys, PlanOf(cfg, e).value.movements))
    requires Consume(ledger, cfg, e, keys).Ok? && Consume(ledger, cfg, e, keys).value.outcome == Applied
    requires forall r :: r in ledger ==> r.content.instance != Some(e.instance)
    ensures var after := Consume(ledger, cfg, e, keys).value.ledger;
      && e.sale.Some?
      && var sale := e.sale.value;
      && (sale.event, sale.salesLocation) in cfg.mapping
      && var location := cfg.mapping[(sale.event, sale.salesLocation)];
      && OnHand(after, place) == OnHand(ledger, place)
           - (if place.event == sale.event && place.location == location then Units(cfg, sale, place.sku) else 0)
      && ledger <= after && forall i :: |ledger| <= i < |after| ==> SaysSale(after[i], e, sale, location)
  {
    hide PlanOf, InsertAll, LedgerOk, Units, Listed, Batch, AlreadyThere, SaleKey, RowsOf;
    var plan := PlanOf(cfg, e).value;
    PlanIs(cfg, e, keys);
    var inputs := SaleInputs(e, plan.sale, plan.location, plan.movements, keys);
    SaleBatch(e, plan.sale, plan.location, plan.movements, keys);
    forall k | 0 <= k < |inputs| ensures !AlreadyThere(ledger, inputs[k]) { NotThere(ledger, inputs[k], e.instance); }
    BatchAppends(ledger, inputs);
    TotalSplit(ledger, RowsOf(|ledger|, inputs), At(place));
    RowsTake(|ledger|, e, plan.sale, plan.location, plan.movements, keys, place);
    RowsSay(|ledger|, e, plan.sale, plan.location, plan.movements, keys);
  }

  lemma {:induction false} NotThere(ledger: Ledger, input: Input, instance: string)
    requires input.content.instance == Some(instance)
    requires forall r :: r in ledger ==> r.content.instance != Some(instance)
    ensures !AlreadyThere(ledger, input)
  {
  }

  lemma {:induction false} RowsSay(first: nat, e: Envelope, sale: SaleOrder, location: string, m: Movements,
                                   keys: seq<MovementKey>)
    requires (forall k :: k in keys ==> k in m) && SaleKinds(keys) && AllPositive(m)
    ensures var rows := RowsOf(first, SaleInputs(e, sale, location, m, keys));
      forall i :: 0 <= i < |rows| ==> SaysSale(rows[i], e, sale, location)
  {
    hide SaleKey;
    forall i | 0 <= i < |keys| ensures keys[i] in m && m[keys[i]] > 0 { assert keys[i] in keys; }
  }
}
