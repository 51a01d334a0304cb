/** Stock taken out of the ledger by cash sales, directly or through recipes. */
module SaleConsumption {
  import opened Common
  import opened InventoryDomain
  import opened InventoryLedger
  import Sums

  type Positive = x: int | x > 0 witness 1

  datatype SaleLine = SaleLine(sku: string, quantity: Positive)

  datatype SaleOrder = SaleOrder(event: string, salesLocation: string, order: string, lines: seq<SaleLine>)

  /** `sale` is None when the payload does not parse. */
  datatype Envelope = Envelope(instance: string, device: string, at: int, sale: Option<SaleOrder>)

  datatype Component = Component(sku: string, quantity: Positive)

  /** What the venue is configured with: keys are (event, sales location) and (event, sku). */
  datatype Config = Config(
    mapping: map<(string, string), string>, recipes: map<(string, string), seq<Component>>,
    skus: set<(string, string)>)

  datatype Problem = InvalidPayload | MissingMapping | UnconfiguredSku | UnconfiguredComponent

  datatype Outcome = Applied | Excepted(problem: Problem)

  datatype Consumed = Consumed(ledger: Ledger, outcome: Outcome)

  datatype MovementKey = MovementKey(kind: MovementType, sku: string)

  type Movements = map<MovementKey, int>

  /** A new configuration of one event: its mappings and recipes are replaced, SKUs are only ever added. */
  datatype Snapshot = Snapshot(
    event: string, shortWindow: int, mediumWindow: int, shortWeight: int,
    mappings: map<string, string>, recipes: map<string, seq<Component>>, skus: set<string>)

  /** The rows of one event are deleted, and its new ones inserted. */
  function Replaced<T>(rows: map<(string, string), T>, event: string, latest: map<string, T>): (after: map<(string, string), T>)
    ensures forall x, y :: (x, y) in after <==> if x == event then y in latest else (x, y) in rows
    ensures forall x, y :: (x, y) in after ==> after[(x, y)] == if x == event then latest[y] else rows[(x, y)]
  {
    map k | k in rows.Keys + (set y | y in latest :: (event, y)) && (k.0 == event ==> k.1 in latest) ::
      if k.0 == event then latest[k.1] else rows[k]
  }

  function Install(cfg: Config, s: Snapshot): Result<Config, Error> {
    if s.mediumWindow < s.shortWindow || s.shortWeight < 0 || s.shortWeight > 10000 then Err(InvalidConfiguration)
    else
      Ok(Config(Replaced(cfg.mapping, s.event, s.mappings), Replaced(cfg.recipes, s.event, s.recipes),
                cfg.skus + set sku | sku in s.skus :: (s.event, sku)))
  }

  // ---------- what a sale takes ----------

  function AddMovement(m: Movements, kind: MovementType, sku: string, quantity: int): Movements {
    var key := MovementKey(kind, sku);
    m[key := quantity + if key in m then m[key] else 0]
  }

  function RecipeOf(cfg: Config, event: string, sku: string): seq<Component> {
    if (event, sku) in cfg.recipes then cfg.recipes[(event, sku)] else []
  }

  function AddComponents(cfg: Config, m: Movements, event: string, quantity: int, components: seq<Component>)
    : Result<Movements, Problem>
  {
    if components == [] then Ok(m)
    else
      var n := |components| - 1;
      match AddComponents(cfg, m, event, quantity, components[..n])
      case Err(p) => Err(p)
      case Ok(before) =>
        if (event, components[n].sku) !in cfg.skus then Err(UnconfiguredComponent)
        else Ok(AddMovement(before, RecipeConsumption, components[n].sku, quantity * components[n].quantity))
  }

  function AddLine(cfg: Config, m: Movements, event: string, line: SaleLine): Result<Movements, Problem> {
    var components := RecipeOf(cfg, event, line.sku);
    if components == [] then
      if (event, line.sku) !in cfg.skus then Err(UnconfiguredSku) else Ok(AddMovement(m, Sale, line.sku, line.quantity))
    else AddComponents(cfg, m, event, line.quantity, components)
  }

  function MovementsOf(cfg: Config, event: string, lines: seq<SaleLine>): Result<Movements, Problem> {
    if lines == [] then Ok(map[])
    else
      var n := |lines| - 1;
      match MovementsOf(cfg, event, lines[..n])
      case Err(p) => Err(p)
      case Ok(before) => AddLine(cfg, before, event, lines[n])
  }

  function KindText(kind: MovementType): string { if kind == Sale then "SALE" else "RECIPE_CONSUMPTION" }

  function SaleKey(instance: string, key: MovementKey): string {
    "sale:" + instance + ":" + KindText(key.kind) + ":" + key.sku
  }

  function SaleInput(e: Envelope, sale: SaleOrder, location: string, m: Movements, key: MovementKey): Input
    requires key in m
  {
    Input(None, SaleKey(e.instance, key),
          Content(Place(sale.event, location, key.sku), key.kind, -m[key], "ORDER", sale.order,
                  Some(e.instance), None, Some(e.device), Some("sale-driven inventory consumption"), e.at, None))
  }

  function SaleInputs(e: Envelope, sale: SaleOrder, location: string, m: Movements, order: seq<MovementKey>): seq<Input>
    requires forall k :: k in order ==> k in m
  {
    seq(|order|, i requires 0 <= i < |order| => SaleInput(e, sale, location, m, order[i]))
  }

  /** What the event takes and where, or why it takes nothing. */
  datatype Plan = Plan(sale: SaleOrder, location: string, movements: Movements)

  function PlanOf(cfg: Config, e: Envelope): Result<Plan, Problem> {
    if e.sale.None? then Err(InvalidPayload)
    else
      var sale := e.sale.value;
      if (sale.event, sale.salesLocation) !in cfg.mapping then Err(MissingMapping)
      else
        match MovementsOf(cfg, sale.event, sale.lines)
        case Err(p) => Err(p)
        case Ok(m) => Ok(Plan(sale, cfg.mapping[(sale.event, sale.salesLocation)], m))
  }

  ghost predicate Ordered(order: seq<MovementKey>, m: Movements) {
    && (forall k :: k in order <==> k in m) && forall i, j :: 0 <= i < j < |order| ==> order[i] != order[j]
  }

  /** One event in one transaction; `order` is the order in which its rows are written. */
  function Consume(ledger: Ledger, cfg: Config, e: Envelope, order: seq<MovementKey>): Result<Consumed, Error>
    requires PlanOf(cfg, e).Ok? ==> Ordered(order, PlanOf(cfg, e).value.movements)
  {
    match PlanOf(cfg, e)
    case Err(problem) => Ok(Consumed(ledger, Excepted(problem)))
    case Ok(plan) =>
      match InsertAll(ledger, SaleInputs(e, plan.sale, plan.location, plan.movements, order))
      case Err(error) => Err(error)
      case Ok(after) => Ok(Consumed(after, Applied))
  }

  /** One event to consume: the configuration its transaction reads, and the order in which it writes its rows. */
  datatype Job = Job(config: Config, envelope: Envelope, keys: seq<MovementKey>) {
    ghost predicate Valid() {
      PlanOf(config, envelope).Ok? ==> Ordered(keys, PlanOf(config, envelope).value.movements)
    }
  }

  /**
   The events of one request, each in a transaction of its own, and how many were consumed.  The first
   that fails ends the request; what was committed before it stays.
   */
  function ConsumeEach(ledger: Ledger, jobs: seq<Job>): (res: (Ledger, nat))
    requires forall j :: j in jobs ==> j.Valid()
    ensures res.1 <= |jobs|
    decreases |jobs|
  {
    if jobs == [] then (ledger, 0)
    else
      var n := |jobs| - 1;
      var (before, done) := ConsumeEach(ledger, jobs[..n]);
      if done < n then (before, done)
      else
        assert jobs[n].Valid();
        match Consume(before, jobs[n].config, jobs[n].envelope, jobs[n].keys)
        case Err(_) => (before, n)
        case Ok(consumed) => (consumed.ledger, n + 1)
  }

  /** One round of the timer: each pending sale by itself, and how many were consumed.  A failure is passed over. */
  function ReconcileEach(ledger: Ledger, jobs: seq<Job>): (Ledger, nat)
    requires forall j :: j in jobs ==> j.Valid()
    decreases |jobs|
  {
    if jobs == [] then (ledger, 0)
    else
      var n := |jobs| - 1;
      var (before, reconciled) := ReconcileEach(ledger, jobs[..n]);
      assert jobs[n].Valid();
      match Consume(before, jobs[n].config, jobs[n].envelope, jobs[n].keys)
      case Err(_) => (before, reconciled)
      case Ok(consumed) => (consumed.ledger, reconciled + 1)
  }

  /** Once a request has ended, what follows the failed event does not matter. */
  lemma {:induction false} RequestEnds(ledger: Ledger, jobs: seq<Job>, n: nat)
    requires n <= |jobs| && (forall j :: j in jobs ==> j.Valid()) && ConsumeEach(ledger, jobs[..n]).1 < n
    ensures ConsumeEach(ledger, jobs) == ConsumeEach(ledger, jobs[..n])
    decreases |jobs| - n
  {
    hide Consume, PlanOf;
    if n < |jobs| {
      assert jobs[..n + 1][..n] == jobs[..n];
      RequestEnds(ledger, jobs, n + 1);
    } else {
      assert jobs[..n] == jobs;
    }
  }

  // ---------- what a sale takes, without the loop ----------

  function PerUnit(components: seq<Component>, sku: string): int {
    if components == [] then 0
    else
      var n := |components| - 1;
      PerUnit(components[..n], sku) + if components[n].sku == sku then components[n].quantity else 0
  }

  /** Quantity × recipe quantity for one line. */
  function Need(cfg: Config, event: string, line: SaleLine, key: MovementKey): int {
    var components := RecipeOf(cfg, event, line.sku);
    if components == [] then (if key == MovementKey(Sale, line.sku) then line.quantity else 0)
    else if key.kind == RecipeConsumption then line.quantity * PerUnit(components, key.sku)
    else 0
  }

  function Needs(cfg: Config, event: string, lines: seq<SaleLine>, key: MovementKey): int {
    if lines == [] then 0
    else
      var n := |lines| - 1;
      Needs(cfg, event, lines[..n], key) + Need(cfg, event, lines[n], key)
  }

  predicate Configured(cfg: Config, event: string, line: SaleLine) {
    var components := RecipeOf(cfg, event, line.sku);
    if components == [] then (event, line.sku) in cfg.skus
    else forall c :: c in components ==> (event, c.sku) in cfg.skus
  }

  function TakenOf(m: Movements, key: MovementKey): int { if key in m then m[key] else 0 }

  /** Every movement is positive, and a key that would be zero is absent. */
  ghost predicate AllPositive(m: Movements) { forall key :: key in m ==> m[key] > 0 }

  lemma {:induction false} MulDistributes(a: int, b: int, c: int)
    ensures a * (b + c) == a * b + a * c
  {
  }

  lemma {:induction false} MulPositive(a: int, b: int)
    requires a > 0 && b > 0
    ensures a * b > 0
  {
  }

  lemma {:induction false} OneMoreComponent(quantity: int, components: seq<Component>, sku: string)
    requires components != []
    ensures var n := |components| - 1;
      quantity * PerUnit(components, sku) == quantity * PerUnit(components[..n], sku)
        + if components[n].sku == sku then quantity * components[n].quantity else 0
  {
    var n := |components| - 1;
    MulDistributes(quantity, PerUnit(components[..n], sku), if components[n].sku == sku then components[n].quantity else 0);
  }

  lemma {:induction false} ComponentsAdd(cfg: Config, m: Movements, event: string, quantity: int,
                                         components: seq<Component>)
    requires quantity > 0 && AllPositive(m)
    ensures AddComponents(cfg, m, event, quantity, components).Ok?
      <==> forall c :: c in components ==> (event, c.sku) in cfg.skus
    ensures AddComponents(cfg, m, event, quantity, components).Ok? ==>
      var m' := AddComponents(cfg, m, event, quantity, components).value;
      && AllPositive(m')
      && forall key :: TakenOf(m', key) ==
           TakenOf(m, key) + if key.kind == RecipeConsumption then quantity * PerUnit(components, key.sku) else 0
    decreases |components|
  {
    if components != [] {
      var n := |components| - 1;
      ComponentsAdd(cfg, m, event, quantity, components[..n]);
      assert components == components[..n] + [components[n]];
      MulPositive(quantity, components[n].quantity);
      forall sku ensures quantity * PerUnit(components, sku) ==
        quantity * PerUnit(components[..n], sku) + if components[n].sku == sku then quantity * components[n].quantity else 0
      {
        OneMoreComponent(quantity, components, sku);
      }
    }
  }

  lemma {:induction false} LineAdds(cfg: Config, m: Movements, event: string, line: SaleLine)
    requires AllPositive(m)
    ensures AddLine(cfg, m, event, line).Ok? <==> Configured(cfg, event, line)
    ensures AddLine(cfg, m, event, line).Ok? ==>
      var m' := AddLine(cfg, m, event, line).value;
      && AllPositive(m') && forall key :: TakenOf(m', key) == TakenOf(m, key) + Need(cfg, event, line, key)
  {
    if RecipeOf(cfg, event, line.sku) != [] {
      ComponentsAdd(cfg, m, event, line.quantity, RecipeOf(cfg, event, line.sku));
    }
  }

  /**
   An event takes stock exactly when every line is configured, and then the total per movement is the
   sum of quantity × recipe quantity over the lines.
   */
  lemma {:induction false} MovementsAreSums(cfg: Config, event: string, lines: seq<SaleLine>)
    ensures MovementsOf(cfg, event, lines).Ok? <==> forall line :: line in lines ==> Configured(cfg, event, line)
    ensures MovementsOf(cfg, event, lines).Ok? ==>
      var m := MovementsOf(cfg, event, lines).value;
      && AllPositive(m) && forall key :: TakenOf(m, key) == Needs(cfg, event, lines, key)
    decreases |lines|
  {
    hide AddLine, Need, Configured;
    if lines != [] {
      var n := |lines| - 1;
      MovementsAreSums(cfg, event, lines[..n]);
      assert lines == lines[..n] + [lines[n]];
      if MovementsOf(cfg, event, lines[..n]).Ok? {
        LineAdds(cfg, MovementsOf(cfg, event, lines[..n]).value, event, lines[n]);
      }
    }
  }

  lemma {:induction false} NeedsWithout(cfg: Config, event: string, lines: seq<SaleLine>, k: nat, key: MovementKey)
    requires k < |lines|
    ensures Needs(cfg, event, lines, key) ==
      Needs(cfg, event, lines[..k] + lines[k + 1..], key) + Need(cfg, event, lines[k], key)
    decreases |lines|
  {
    hide Need;
    var n := |lines| - 1;
    if k == n {
      assert lines[..k] + lines[k + 1..] == lines[..n];
    } else {
      var rest := lines[..k] + lines[k + 1..];
      assert rest[..|rest| - 1] == lines[..n][..k] + lines[..n][k + 1..];
      NeedsWithout(cfg, event, lines[..n], k, key);
    }
  }

  lemma {:induction false} NeedsPermute(cfg: Config, event: string, a: seq<SaleLine>, b: seq<SaleLine>,
                                        key: MovementKey)
    requires multiset(a) == multiset(b)
    ensures Needs(cfg, event, a, key) == Needs(cfg, event, b, key)
    decreases |a|
  {
    hide Need;
    if a == [] {
      assert |multiset(b)| == |multiset(a)| == 0;
    } else {
      var k := WithoutLast(a, b);
      NeedsPermute(cfg, event, a[..|a| - 1], b[..k] + b[k + 1..], key);
      NeedsWithout(cfg, event, b, k, key);
    }
  }

  lemma {:induction false} WithoutLast<T>(a: seq<T>, b: seq<T>) returns (k: nat)
    requires a != [] && multiset(a) == multiset(b)
    ensures k < |b| && b[k] == a[|a| - 1] && multiset(a[..|a| - 1]) == multiset(b[..k] + b[k + 1..])
  {
    var n := |a| - 1;
    Sums.TakeOut(a, n);
    assert a[..n] + a[n + 1..] == a[..n];
    assert a[n] in multiset(b);
    k :| 0 <= k < |b| && b[k] == a[n];
    Sums.TakeOut(b, k);
    assert multiset(a) - multiset{a[n]} == multiset(b) - multiset{b[k]};
  }

  /** The order in which the lines are listed does not matter. */
  lemma {:induction false} OrderOfLines(cfg: Config, event: string, a: seq<SaleLine>, b: seq<SaleLine>)
    requires multiset(a) == multiset(b)
    ensures MovementsOf(cfg, event, a).Ok? == MovementsOf(cfg, event, b).Ok?
    ensures MovementsOf(cfg, event, a).Ok? ==> MovementsOf(cfg, event, a) == MovementsOf(cfg, event, b)
  {
    MovementsAreSums(cfg, event, a);
    MovementsAreSums(cfg, event, b);
    assert forall line :: line in a <==> line in multiset(a);
    assert forall line :: line in b <==> line in multiset(b);
    if MovementsOf(cfg, event, a).Ok? {
      var m, m' := MovementsOf(cfg, event, a).value, MovementsOf(cfg, event, b).value;
      forall key ensures TakenOf(m, key) == TakenOf(m', key) { NeedsPermute(cfg, event, a, b, key); }
      forall key ensures key in m <==> key in m' && (key in m ==> m[key] == m'[key]) {
        assert TakenOf(m, key) == TakenOf(m', key);
      }
      assert m == m';
    }
  }

  /** An event that names anything unconfigured, or that cannot be placed, posts nothing at all. */
  lemma {:induction false} UnconfiguredPostsNothing(ledger: Ledger, cfg: Config, e: Envelope, order: seq<MovementKey>)
    requires PlanOf(cfg, e).Ok? ==> Ordered(order, PlanOf(cfg, e).value.movements)
    ensures (|| e.sale.None?
             || (e.sale.value.event, e.sale.value.salesLocation) !in cfg.mapping
             || exists line :: line in e.sale.value.lines && !Configured(cfg, e.sale.value.event, line))
      <==> Consume(ledger, cfg, e, order).Ok? && Consume(ledger, cfg, e, order).value.outcome != Applied
    ensures Consume(ledger, cfg, e, order).Ok? && Consume(ledger, cfg, e, order).value.outcome != Applied ==>
      Consume(ledger, cfg, e, order).value.ledger == ledger
  {
    hide Configured, MovementsOf, InsertAll;
    if e.sale.Some? { MovementsAreSums(cfg, e.sale.value.event, e.sale.value.lines); }
  }

  // ---------- installing a configuration ----------

  /** Two configurations agree on everything about one event. */
  ghost predicate AgreeOn(a: Config, b: Config, event: string) {
    && (forall l :: (event, l) in a.mapping <==> (event, l) in b.mapping)
    && (forall l :: (event, l) in a.mapping ==> a.mapping[(event, l)] == b.mapping[(event, l)])
    && (forall sku :: RecipeOf(a, event, sku) == RecipeOf(b, event, sku))
    && (forall sku :: (event, sku) in a.skus <==> (event, sku) in b.skus)
  }

  lemma {:induction false} ComponentsAgree(a: Config, b: Config, m: Movements, event: string, quantity: int,
                                           components: seq<Component>)
    requires AgreeOn(a, b, event)
    ensures AddComponents(a, m, event, quantity, components) == AddComponents(b, m, event, quantity, components)
    decreases |components|
  {
    if components != [] { ComponentsAgree(a, b, m, event, quantity, components[..|components| - 1]); }
  }

  lemma {:induction false} MovementsAgree(a: Config, b: Config, event: string, lines: seq<SaleLine>)
    requires AgreeOn(a, b, event)
    ensures MovementsOf(a, event, lines) == MovementsOf(b, event, lines)
    decreases |lines|
  {
    hide AddComponents;
    if lines != [] {
      var n := |lines| - 1;
      MovementsAgree(a, b, event, lines[..n]);
      if MovementsOf(a, event, lines[..n]).Ok? {
        ComponentsAgree(a, b, MovementsOf(a, event, lines[..n]).value, event, lines[n].quantity,
                        RecipeOf(a, event, lines[n].sku));
      }
    }
  }

  lemma {:induction false} ReplacedTwice<T>(rows: map<(string, string), T>, event: string, latest: map<string, T>)
    ensures Replaced(Replaced(rows, event, latest), event, latest) == Replaced(rows, event, latest)
  {
    hide Replaced;
    var once := Replaced(rows, event, latest);
    var twice := Replaced(once, event, latest);
    forall k: (string, string) ensures (k in twice <==> k in once) && (k in once ==> twice[k] == once[k]) {
      var (x, y) := k;
      assert k == (x, y);
      assert (x, y) in twice <==> (x, y) in once;
    }
    assert twice.Keys == once.Keys;
  }

  lemma {:induction false} InstallAgrees(cfg: Config, s: Snapshot, event: string)
    requires Install(cfg, s).Ok? && event != s.event
    ensures AgreeOn(cfg, Install(cfg, s).value, event)
    ensures forall l :: (event, l) in cfg.mapping <==> (event, l) in Install(cfg, s).value.mapping
    ensures forall l :: (event, l) in cfg.mapping ==>
      Install(cfg, s).value.mapping[(event, l)] == cfg.mapping[(event, l)]
  {
    hide Replaced;
  }

  /**
   Installing an event changes what its own sales take and no others; the same installation again
   changes nothing.
   */
  lemma {:induction false} InstallIsLocal(cfg: Config, s: Snapshot, e: Envelope)
    requires Install(cfg, s).Ok?
    ensures e.sale.Some? && e.sale.value.event != s.event ==> PlanOf(Install(cfg, s).value, e) == PlanOf(cfg, e)
    ensures Install(Install(cfg, s).value, s) == Install(cfg, s)
  {
    hide MovementsOf, AgreeOn, Replaced;
    ReplacedTwice(cfg.mapping, s.event, s.mappings);
    ReplacedTwice(cfg.recipes, s.event, s.recipes);
    if e.sale.Some? && e.sale.value.event != s.event {
      var event := e.sale.value.event;
      InstallAgrees(cfg, s, event);
      MovementsAgree(cfg, Install(cfg, s).value, event, e.sale.value.lines);
    }
  }
}
