/** Transfers, receipts, sales, counts, manual movements and new configurations in any order on one Edge. */
module InventoryRuns {
  import opened Common
  import opened InventoryDomain
  import opened InventoryLedger
  import opened StockTransfers
  import opened StockTransferProofs
  import opened StockCounts
  import opened SaleConsumption
  import Sums

  /** `applied` is history: every event that was consumed and committed, with the configuration of that moment. */
  datatype Store = Store(
    stock: Stock, counts: Counts, config: Config, outcomes: map<string, Outcome>, problems: set<(string, Problem)>,
    applied: set<(Config, Envelope)>)

  datatype Op =
    | PostOp(manual: Manual)
    | CreateOp(creation: Creation)
    | AssignOp(id: string, order: Order)
    | PickOp(id: string, order: Order)
    | CancelOp(id: string, order: Order)
    | DispatchOp(id: string, quantities: seq<Quantity>, order: Order, skus: seq<string>)
    | ReceiveOp(id: string, quantities: seq<Quantity>, order: Order, key: string)
    | OpenCountOp(count: NewCount)
    | CloseCountOp(id: string, closing: Closing, skus: seq<string>)
    | InstallOp(snapshot: Snapshot)
    | ConsumeOp(envelope: Envelope, keys: seq<MovementKey>)

  const EmptyStore := Store(Stock([], map[], map[]), map[], Config(map[], map[], {}), map[], {}, {})

  /** The order in which rows are visited is an enumeration of them. */
  ghost predicate Sensible(st: Store, op: Op) {
    match op
    case DispatchOp(id, _, _, skus) =>
      id in st.stock.transfers ==> Enumerates(skus, st.stock.transfers[id].lines.Keys)
    case CloseCountOp(id, _, skus) => id in st.counts ==> Enumerates(skus, st.counts[id].lines.Keys)
    case ConsumeOp(e, keys) =>
      PlanOf(st.config, e).Ok? ==> Ordered(keys, PlanOf(st.config, e).value.movements)
    case _ => true
  }

  function OnStock(st: Store, result: Result<Stock, Error>): Result<Store, Error> {
    match result
    case Err(e) => Err(e)
    case Ok(stock) => Ok(st.(stock := stock))
  }

  function AfterSale(st: Store, e: Envelope, c: Consumed): Store {
    st.(stock := st.stock.(ledger := c.ledger), outcomes := st.outcomes[e.instance := c.outcome],
        problems := if c.outcome.Excepted? then st.problems + {(e.instance, c.outcome.problem)} else st.problems,
        applied := if c.outcome.Applied? then st.applied + {(st.config, e)} else st.applied)
  }

  function Try(st: Store, op: Op): Result<Store, Error>
    requires Sensible(st, op)
  {
    match op
    case PostOp(m) =>
      (match PostManual(st.stock.ledger, m)
       case Err(e) => Err(e)
       case Ok(posted) => Ok(st.(stock := st.stock.(ledger := posted.ledger))))
    case CreateOp(c) => OnStock(st, Create(st.stock, c))
    case AssignOp(id, order) => OnStock(st, Assign(st.stock, id, order))
    case PickOp(id, order) => OnStock(st, StartPicking(st.stock, id, order))
    case CancelOp(id, order) => OnStock(st, Cancel(st.stock, id, order))
    case DispatchOp(id, q, order, skus) => OnStock(st, Dispatch(st.stock, id, q, order, skus))
    case ReceiveOp(id, q, order, key) => OnStock(st, Receive(st.stock, id, q, order, key))
    case OpenCountOp(n) =>
      (match OpenCount(st.counts, n)
       case Err(e) => Err(e)
       case Ok(counts) => Ok(st.(counts := counts)))
    case CloseCountOp(id, closing, skus) =>
      (match CloseCount(st.stock.ledger, st.counts, id, closing, skus)
       case Err(e) => Err(e)
       case Ok(after) => Ok(st.(stock := st.stock.(ledger := after.0), counts := after.1)))
    case InstallOp(snapshot) =>
      (match Install(st.config, snapshot)
       case Err(e) => Err(e)
       case Ok(config) => Ok(st.(config := config)))
    case ConsumeOp(e, keys) =>
      match Consume(st.stock.ledger, st.config, e, keys)
      case Err(error) => Err(error)
      case Ok(consumed) => Ok(AfterSale(st, e, consumed))
  }

  /** A failed transaction is rolled back. */
  function Next(st: Store, op: Op): Store
    requires Sensible(st, op)
  {
    match Try(st, op)
    case Err(_) => st
    case Ok(after) => after
  }

  // ---------- the invariant ----------

  function OfSale(instance: string, key: MovementKey): Row -> bool {
    (r: Row) => r.content.instance == Some(instance) && r.content.kind == key.kind && r.content.place.sku == key.sku
  }

  predicate IsSaleKind(kind: MovementType) { kind == Sale || kind == RecipeConsumption }

  predicate WasApplied(outcomes: map<string, Outcome>, instance: string) {
    instance in outcomes && outcomes[instance] == Applied
  }

  /** The row that an event with this plan writes for one movement. */
  function MoveInput(e: Envelope, plan: Plan, key: MovementKey): Input
    requires key in plan.movements
  {
    SaleInput(e, plan.sale, plan.location, plan.movements, key)
  }

  /** Everything the event takes is in the ledger. */
  ghost predicate PostedFor(cfg: Config, ledger: Ledger, e: Envelope) {
    && PlanOf(cfg, e).Ok?
    && forall key :: key in PlanOf(cfg, e).value.movements ==>
         AlreadyThere(ledger, MoveInput(e, PlanOf(cfg, e).value, key))
  }

  /** The row is one of those the event takes. */
  predicate WrittenBy(r: Row, cfg: Config, e: Envelope) {
    var key := MovementKey(r.content.kind, r.content.place.sku);
    && PlanOf(cfg, e).Ok? && key in PlanOf(cfg, e).value.movements
    && var input := MoveInput(e, PlanOf(cfg, e).value, key);
       r.key == input.key && r.content == input.content
  }

  ghost predicate Happened(applied: set<(Config, Envelope)>, instance: string) {
    exists a :: a in applied && a.1.instance == instance
  }

  ghost predicate SalesOk(ledger: Ledger, outcomes: map<string, Outcome>, applied: set<(Config, Envelope)>) {
    && (forall r :: r in ledger && IsSaleKind(r.content.kind) ==> exists a :: a in applied && WrittenBy(r, a.0, a.1))
    && (forall a :: a in applied ==> PostedFor(a.0, ledger, a.1))
    && (forall i :: WasApplied(outcomes, i) ==> Happened(applied, i))
  }

  ghost predicate BooksOk(st: Store) {
    && StockOk(st.stock) && Conserved(st.stock.ledger, st.stock.transfers)
    && CountRowsOk(st.stock.ledger, st.counts)
  }

  ghost predicate StoreOk(st: Store) {
    BooksOk(st) && SalesOk(st.stock.ledger, st.outcomes, st.applied)
  }

  // ---------- rows that a part of the invariant does not care about ----------

  lemma {:induction false} PostedStays(cfg: Config, ledger: Ledger, rows: Ledger, e: Envelope)
    requires PostedFor(cfg, ledger, e)
    ensures PostedFor(cfg, ledger + rows, e)
  {
    hide PlanOf, SaleInput, AlreadyThere;
    var plan := PlanOf(cfg, e).value;
    forall key | key in plan.movements ensures AlreadyThere(ledger + rows, MoveInput(e, plan, key)) {
      StaysThere(ledger, ledger + rows, MoveInput(e, plan, key));
    }
  }

  lemma {:induction false} SalesStay(ledger: Ledger, rows: Ledger, outcomes: map<string, Outcome>,
                                     applied: set<(Config, Envelope)>)
    requires SalesOk(ledger, outcomes, applied) && forall r :: r in rows ==> !IsSaleKind(r.content.kind)
    ensures SalesOk(ledger + rows, outcomes, applied)
  {
    hide WrittenBy, PostedFor;
    forall a | a in applied ensures PostedFor(a.0, ledger + rows, a.1) { PostedStays(a.0, ledger, rows, a.1); }
  }

  /** Rows outside transfers, of counts that are already closed or not count rows at all. */
  lemma {:induction false} OtherRowsKeepBooks(st: Store, rows: Ledger, counts: Counts)
    requires BooksOk(st) && LedgerOk(st.stock.ledger + rows)
    requires forall r :: r in rows ==>
      && r.content.kind != TransferOut && r.content.kind != TransferIn
      && (r.content.kind == CountAdjustment ==> r.content.sourceId in counts && counts[r.content.sourceId].closed)
    requires forall id :: id in st.counts && st.counts[id].closed ==> id in counts && counts[id].closed
    ensures BooksOk(st.(stock := st.stock.(ledger := st.stock.ledger + rows), counts := counts))
  {
    hide StockOk, Conserved, LedgerOk;
    OtherRowsKeep(st.stock, rows);
  }

  /** Rows outside sales and transfers. */
  lemma {:induction false} PlainRowsKeep(st: Store, rows: Ledger, counts: Counts)
    requires StoreOk(st) && LedgerOk(st.stock.ledger + rows)
    requires forall r :: r in rows ==>
      && r.content.kind != TransferOut && r.content.kind != TransferIn && !IsSaleKind(r.content.kind)
      && (r.content.kind == CountAdjustment ==> r.content.sourceId in counts && counts[r.content.sourceId].closed)
    requires forall id :: id in st.counts && st.counts[id].closed ==> id in counts && counts[id].closed
    ensures StoreOk(st.(stock := st.stock.(ledger := st.stock.ledger + rows), counts := counts))
  {
    hide BooksOk, SalesOk, LedgerOk;
    OtherRowsKeepBooks(st, rows, counts);
    SalesStay(st.stock.ledger, rows, st.outcomes, st.applied);
  }

  // ---------- every operation ----------

  lemma {:induction false} PostKeeps(st: Store, m: Manual)
    requires StoreOk(st) && PostManual(st.stock.ledger, m).Ok?
    ensures StoreOk(st.(stock := st.stock.(ledger := PostManual(st.stock.ledger, m).value.ledger)))
  {
    hide SalesOk, Conserved, CountRowsOk, TransferRowsOk, SumsOk, TransfersOk, LedgerOk, PostManual;
    var ledger := st.stock.ledger;
    ManualKeeps(ledger, m);
    var posted := PostManual(ledger, m).value;
    if posted.ledger != ledger {
      PlainRowsKeep(st, [Row(Chosen(m.id), m.key, ManualInput(m).content)], st.counts);
    } else {
      assert st.(stock := st.stock.(ledger := ledger)) == st;
    }
  }

  lemma {:induction false} CloseKeeps(st: Store, id: string, closing: Closing, skus: seq<string>)
    requires StoreOk(st) && (id in st.counts ==> Enumerates(skus, st.counts[id].lines.Keys))
    requires CloseCount(st.stock.ledger, st.counts, id, closing, skus).Ok?
    ensures var after := CloseCount(st.stock.ledger, st.counts, id, closing, skus).value;
      StoreOk(st.(stock := st.stock.(ledger := after.0), counts := after.1))
  {
    hide SalesOk, Conserved, TransferRowsOk, SumsOk, TransfersOk, LedgerOk, CloseLines, OnHand;
    if st.counts[id].closed {
      assert st.(stock := st.stock.(ledger := st.stock.ledger), counts := st.counts) == st;
    } else {
      var rows := CloseAppends(st.stock.ledger, id, st.counts[id], closing, skus);
      PlainRowsKeep(st, rows, CloseCount(st.stock.ledger, st.counts, id, closing, skus).value.1);
    }
  }

  /** Transfer rows leave counts and sales alone. */
  lemma {:induction false} TransferRowsKeepRest(st: Store, stock: Stock, rows: Ledger)
    requires StoreOk(st) && stock.ledger == st.stock.ledger + rows
    requires StockOk(stock) && Conserved(stock.ledger, stock.transfers)
    requires forall r :: r in rows ==> r.content.kind == TransferOut || r.content.kind == TransferIn
    ensures StoreOk(st.(stock := stock))
  {
    hide StockOk, Conserved, SalesOk;
    SalesStay(st.stock.ledger, rows, st.outcomes, st.applied);
  }

  lemma {:induction false} TransferOpKeeps(st: Store, op: Op)
    requires StoreOk(st) && Sensible(st, op) && Try(st, op).Ok?
    requires op.CreateOp? || op.AssignOp? || op.PickOp? || op.CancelOp? || op.DispatchOp? || op.ReceiveOp?
    ensures StoreOk(Try(st, op).value)
  {
    hide StockOk, Conserved, SalesOk, CountRowsOk, Create, Move, Dispatch, Receive;
    var s := st.stock;
    match op
    case CreateOp(c) => CreateKeeps(s, c); CreateLedger(s, c); TransferRowsKeepRest(st, Create(s, c).value, []);
    case AssignOp(id, order) => MoveKeeps(s, id, Assigned, order);
      TransferRowsKeepRest(st, Move(s, id, Assigned, order).value, []);
    case PickOp(id, order) => MoveKeeps(s, id, Picking, order);
      TransferRowsKeepRest(st, Move(s, id, Picking, order).value, []);
    case CancelOp(id, order) => MoveKeeps(s, id, Cancelled, order);
      TransferRowsKeepRest(st, Move(s, id, Cancelled, order).value, []);
    case DispatchOp(id, q, order, skus) =>
      DispatchKeeps(s, id, q, order, skus); DispatchAppends(s, id, q, order, skus);
      TransferRowsKeepRest(st, Dispatch(s, id, q, order, skus).value,
                           RowsOf(|s.ledger|, OutInputs(id, s.transfers[id], order, skus)));
    case ReceiveOp(id, q, order, key) =>
      ReceiveKeeps(s, id, q, order, key); ReceiveAppends(s, id, q, order, key);
      TransferRowsKeepRest(st, Receive(s, id, q, order, key).value,
        if Replayed(s, key) then [] else RowsOf(|s.ledger|, InInputs(id, s.transfers[id], order, key, q)));
  }

  lemma {:induction false} CreateLedger(s: Stock, c: Creation)
    requires Create(s, c).Ok?
    ensures Create(s, c).value.ledger == s.ledger
  {
  }

  // ---------- sales ----------

  lemma {:induction false} OnlySaleKinds(cfg: Config, event: string, lines: seq<SaleLine>)
    requires MovementsOf(cfg, event, lines).Ok?
    ensures forall key :: key in MovementsOf(cfg, event, lines).value ==> IsSaleKind(key.kind)
  {
    if lines != [] {
      var n := |lines| - 1;
      OnlySaleKinds(cfg, event, lines[..n]);
      var m := MovementsOf(cfg, event, lines[..n]).value;
      if RecipeOf(cfg, event, lines[n].sku) != [] {
        OnlyRecipeKinds(cfg, m, event, lines[n].quantity, RecipeOf(cfg, event, lines[n].sku));
      }
    }
  }

  lemma {:induction false} OnlyRecipeKinds(cfg: Config, m: Movements, event: string, quantity: int,
                                           components: seq<Component>)
    requires AddComponents(cfg, m, event, quantity, components).Ok? && forall key :: key in m ==> IsSaleKind(key.kind)
    ensures forall key :: key in AddComponents(cfg, m, event, quantity, components).value ==> IsSaleKind(key.kind)
    decreases |components|
  {
    if components != [] { OnlyRecipeKinds(cfg, m, event, quantity, components[..|components| - 1]); }
  }

  /** What a plan moves are sales and recipe consumptions, all of them positive. */
  lemma {:induction false} PlanMoves(cfg: Config, e: Envelope)
    requires PlanOf(cfg, e).Ok?
    ensures var m := PlanOf(cfg, e).value.movements;
      && (forall key :: key in m ==> IsSaleKind(key.kind)) && AllPositive(m)
      && forall key :: TakenOf(m, key) == NeedsOf(cfg, e, key)
  {
    hide MovementsOf, Needs;
    OnlySaleKinds(cfg, e.sale.value.event, e.sale.value.lines);
    MovementsAreSums(cfg, e.sale.value.event, e.sale.value.lines);
  }

  function NeedsOf(cfg: Config, e: Envelope, key: MovementKey): int {
    if e.sale.Some? then Needs(cfg, e.sale.value.event, e.sale.value.lines, key) else 0
  }

  lemma {:induction false} SaleKeysDiffer(instance: string, a: MovementKey, b: MovementKey)
    requires IsSaleKind(a.kind) && IsSaleKind(b.kind) && SaleKey(instance, a) == SaleKey(instance, b)
    ensures a == b
  {
    var prefix := "sale:" + instance + ":";
    var x, y := KindText(a.kind) + ":" + a.sku, KindText(b.kind) + ":" + b.sku;
    assert SaleKey(instance, a) == prefix + x && SaleKey(instance, b) == prefix + y;
    CancelPrefix(prefix, x, y);
    assert x[0] == KindText(a.kind)[0] && y[0] == KindText(b.kind)[0];
    assert a.kind == b.kind;
    CancelPrefix(KindText(a.kind) + ":", a.sku, b.sku);
  }

  function PlanInputs(e: Envelope, plan: Plan, keys: seq<MovementKey>): seq<Input>
    requires forall k :: k in keys ==> k in plan.movements
  {
    SaleInputs(e, plan.sale, plan.location, plan.movements, keys)
  }

  lemma {:induction false} PlanInputsOk(cfg: Config, e: Envelope, keys: seq<MovementKey>)
    requires PlanOf(cfg, e).Ok? && Ordered(keys, PlanOf(cfg, e).value.movements)
    ensures var plan := PlanOf(cfg, e).value;
      var inputs := PlanInputs(e, plan, keys);
      && (forall k :: 0 <= k < |inputs| ==>
            && inputs[k] == MoveInput(e, plan, keys[k]) && Plain(inputs[k]) && IsSaleKind(inputs[k].content.kind)
            && ValidDelta(inputs[k].content.kind, inputs[k].content.delta))
      && (forall j, k :: 0 <= j < k < |inputs| ==> !Clashing(inputs[j], inputs[k]))
  {
    hide PlanOf, SaleKey;
    PlanMoves(cfg, e);
    var plan := PlanOf(cfg, e).value;
    forall k | 0 <= k < |keys|
      ensures IsSaleKind(keys[k].kind) && keys[k] in plan.movements && plan.movements[keys[k]] > 0
    {
      assert keys[k] in keys;
    }
    forall j, k | 0 <= j < k < |keys| ensures SaleKey(e.instance, keys[j]) != SaleKey(e.instance, keys[k]) {
      if SaleKey(e.instance, keys[j]) == SaleKey(e.instance, keys[k]) { SaleKeysDiffer(e.instance, keys[j], keys[k]); }
    }
  }

  /** The key of this movement is free, or holds this very movement. */
  predicate Fits(ledger: Ledger, e: Envelope, plan: Plan, key: MovementKey)
    requires key in plan.movements
  {
    KeyFree(ledger, MoveInput(e, plan, key).key) || AlreadyThere(ledger, MoveInput(e, plan, key))
  }

  /** `input` is what the event writes for one of its movements. */
  ghost predicate Moves(e: Envelope, plan: Plan, input: Input) {
    exists key :: key in plan.movements && input == MoveInput(e, plan, key)
  }

  lemma {:induction false} MovesAre(e: Envelope, plan: Plan, keys: seq<MovementKey>, a: Input)
    requires Ordered(keys, plan.movements)
    ensures Moves(e, plan, a) <==> a in PlanInputs(e, plan, keys)
  {
    hide SaleInput;
    var inputs := PlanInputs(e, plan, keys);
    if Moves(e, plan, a) {
      var key :| key in plan.movements && a == MoveInput(e, plan, key);
      var k :| 0 <= k < |keys| && keys[k] == key;
      assert inputs[k] == a;
    }
    if a in inputs {
      var k :| 0 <= k < |inputs| && inputs[k] == a;
      assert keys[k] in keys && keys[k] in plan.movements;
    }
  }

  lemma {:induction false} InputsAreMoves(e: Envelope, plan: Plan, keys: seq<MovementKey>)
    requires Ordered(keys, plan.movements)
    ensures forall a :: Moves(e, plan, a) <==> a in PlanInputs(e, plan, keys)
  {
    hide Moves, PlanInputs;
    forall a ensures Moves(e, plan, a) <==> a in PlanInputs(e, plan, keys) { MovesAre(e, plan, keys, a); }
  }

  lemma {:induction false} MovesFit(ledger: Ledger, e: Envelope, plan: Plan)
    ensures (forall key :: key in plan.movements ==> Fits(ledger, e, plan, key))
      <==> forall a :: Moves(e, plan, a) ==> KeyFree(ledger, a.key) || AlreadyThere(ledger, a)
  {
    hide KeyFree, AlreadyThere, MoveInput;
    forall key | key in plan.movements ensures Moves(e, plan, MoveInput(e, plan, key)) { }
  }

  lemma {:induction false} MovesPosted(ledger: Ledger, cfg: Config, e: Envelope)
    requires PlanOf(cfg, e).Ok?
    ensures PostedFor(cfg, ledger, e) <==> forall a :: Moves(e, PlanOf(cfg, e).value, a) ==> AlreadyThere(ledger, a)
  {
    hide PlanOf, AlreadyThere, MoveInput;
    var plan := PlanOf(cfg, e).value;
    forall key | key in plan.movements ensures Moves(e, plan, MoveInput(e, plan, key)) { }
  }

  lemma {:induction false} ConsumeIs(ledger: Ledger, cfg: Config, e: Envelope, keys: seq<MovementKey>)
    requires PlanOf(cfg, e).Ok? && Ordered(keys, PlanOf(cfg, e).value.movements)
    ensures var result, written := Consume(ledger, cfg, e, keys), InsertAll(ledger, PlanInputs(e, PlanOf(cfg, e).value, keys));
      && (result.Ok? <==> written.Ok?) && (result.Ok? ==> result.value.ledger == written.value)
  {
    hide PlanOf, SaleInputs, InsertAll;
  }

  lemma {:induction false} PlanInputsFit(cfg: Config, e: Envelope, keys: seq<MovementKey>)
    requires PlanOf(cfg, e).Ok? && Ordered(keys, PlanOf(cfg, e).value.movements)
    ensures var inputs := PlanInputs(e, PlanOf(cfg, e).value, keys);
      && (forall a :: a in inputs ==> Plain(a) && ValidDelta(a.content.kind, a.content.delta))
      && (forall k :: 0 <= k < |inputs| ==> Plain(inputs[k]))
      && (forall a, b :: a in inputs && b in inputs ==> !Clashing(a, b))
  {
    hide PlanOf, MoveInput, Plain, ValidDelta, SaleInputs;
    PlanInputsOk(cfg, e, keys);
    var inputs := PlanInputs(e, PlanOf(cfg, e).value, keys);
    forall a, b | a in inputs && b in inputs ensures !Clashing(a, b) {
      var j :| 0 <= j < |inputs| && inputs[j] == a;
      var k :| 0 <= k < |inputs| && inputs[k] == b;
      if j < k { assert !Clashing(inputs[j], inputs[k]); }
      if k < j { assert !Clashing(inputs[k], inputs[j]); }
    }
  }

  /**
   An event commits exactly when each of its movements has its key free or is already there; it then
   appends each missing movement once.
   */
  lemma {:induction false} ConsumeExactly(ledger: Ledger, cfg: Config, e: Envelope, keys: seq<MovementKey>)
    requires LedgerOk(ledger) && PlanOf(cfg, e).Ok? && Ordered(keys, PlanOf(cfg, e).value.movements)
    ensures var plan := PlanOf(cfg, e).value;
      && (Consume(ledger, cfg, e, keys).Ok? <==> forall key :: key in plan.movements ==> Fits(ledger, e, plan, key))
      && (Consume(ledger, cfg, e, keys).Ok? ==>
            var ledger' := Consume(ledger, cfg, e, keys).value.ledger;
            && ledger' == ledger + RowsOf(|ledger|, Missing(ledger, PlanInputs(e, plan, keys)))
            && LedgerOk(ledger') && PostedFor(cfg, ledger', e))
  {
    hide LedgerOk, PlanOf, InsertAll, KeyFree, AlreadyThere, SaleInputs, Clashing, RowsOf, Missing, Plain, ValidDelta, Consume,
         Fits, PostedFor, Moves;
    var plan := PlanOf(cfg, e).value;
    var inputs := PlanInputs(e, plan, keys);
    ConsumeIs(ledger, cfg, e, keys);
    PlanInputsFit(cfg, e, keys);
    InputsAreMoves(e, plan, keys);
    InsertAllWhen(ledger, inputs);
    InsertAllExactly(ledger, inputs);
    MovesFit(ledger, e, plan);
    if Consume(ledger, cfg, e, keys).Ok? { MovesPosted(Consume(ledger, cfg, e, keys).value.ledger, cfg, e); }
  }

  lemma {:induction false} ConsumedRows(ledger: Ledger, cfg: Config, e: Envelope, keys: seq<MovementKey>)
    requires PlanOf(cfg, e).Ok? && Ordered(keys, PlanOf(cfg, e).value.movements)
    ensures var rows := RowsOf(|ledger|, Missing(ledger, PlanInputs(e, PlanOf(cfg, e).value, keys)));
      forall r :: r in rows ==> IsSaleKind(r.content.kind) && WrittenBy(r, cfg, e)
  {
    hide PlanOf, KeyFree, Missing, SaleInput, Plain, ValidDelta, Clashing;
    var plan := PlanOf(cfg, e).value;
    var inputs := PlanInputs(e, plan, keys);
    var missing := Missing(ledger, inputs);
    MissingAreInputs(ledger, inputs);
    InputsAreMoves(e, plan, keys);
    PlanMoves(cfg, e);
    var rows := RowsOf(|ledger|, missing);
    forall r | r in rows ensures IsSaleKind(r.content.kind) && WrittenBy(r, cfg, e) {
      var m :| 0 <= m < |missing| && rows[m] == r;
      assert missing[m] in missing && Moves(e, plan, missing[m]);
      var key :| key in plan.movements && missing[m] == MoveInput(e, plan, key);
      RowOfMove(cfg, e, key, r);
    }
  }

  lemma {:induction false} RowOfMove(cfg: Config, e: Envelope, key: MovementKey, r: Row)
    requires PlanOf(cfg, e).Ok? && key in PlanOf(cfg, e).value.movements && IsSaleKind(key.kind)
    requires var input := MoveInput(e, PlanOf(cfg, e).value, key); r.key == input.key && r.content == input.content
    ensures IsSaleKind(r.content.kind) && WrittenBy(r, cfg, e)
  {
    hide PlanOf, SaleKey;
    assert MovementKey(r.content.kind, r.content.place.sku) == key;
  }

  lemma {:induction false} NewSaleOk(ledger: Ledger, outcomes: map<string, Outcome>, applied: set<(Config, Envelope)>,
                                     rows: Ledger,
                                     cfg: Config, e: Envelope)
    requires SalesOk(ledger, outcomes, applied) && PostedFor(cfg, ledger + rows, e)
    requires forall r :: r in rows ==> WrittenBy(r, cfg, e)
    ensures SalesOk(ledger + rows, outcomes[e.instance := Applied], applied + {(cfg, e)})
  {
    hide WrittenBy, PostedFor;
    var applied' := applied + {(cfg, e)};
    forall a | a in applied' ensures PostedFor(a.0, ledger + rows, a.1) {
      if a in applied { PostedStays(a.0, ledger, rows, a.1); }
    }
    forall r | r in ledger + rows && IsSaleKind(r.content.kind) ensures exists a :: a in applied' && WrittenBy(r, a.0, a.1) {
      if r in rows {
        assert (cfg, e) in applied' && WrittenBy(r, (cfg, e).0, (cfg, e).1);
      } else {
        var a :| a in applied && WrittenBy(r, a.0, a.1);
        assert a in applied';
      }
    }
    var outcomes' := outcomes[e.instance := Applied];
    forall i | WasApplied(outcomes', i) ensures Happened(applied', i) {
      if i == e.instance {
        assert (cfg, e) in applied' && (cfg, e).1.instance == i;
      } else {
        assert WasApplied(outcomes, i);
        var a :| a in applied && a.1.instance == i;
        assert a in applied';
      }
    }
  }

  lemma {:induction false} ConsumeKeeps(st: Store, e: Envelope, keys: seq<MovementKey>)
    requires StoreOk(st) && Sensible(st, ConsumeOp(e, keys)) && Try(st, ConsumeOp(e, keys)).Ok?
    ensures StoreOk(Try(st, ConsumeOp(e, keys)).value)
  {
    hide Conserved, CountRowsOk, TransferRowsOk, SumsOk, TransfersOk, SalesOk, LedgerOk, PlanOf, RowsOf, Missing,
         PostedFor, PlanInputs, WrittenBy, Fits, SaleInputs;
    var ledger := st.stock.ledger;
    if PlanOf(st.config, e).Err? {
      UnusableIsSkipped(ledger, st.config, e, keys);
      ProblemSaleOk(ledger, st.outcomes, st.applied, e.instance, PlanOf(st.config, e).error);
    } else {
      ConsumeExactly(ledger, st.config, e, keys);
      ConsumedRows(ledger, st.config, e, keys);
      var rows := RowsOf(|ledger|, Missing(ledger, PlanInputs(e, PlanOf(st.config, e).value, keys)));
      OtherRowsKeepBooks(st, rows, st.counts);
      NewSaleOk(ledger, st.outcomes, st.applied, rows, st.config, e);
    }
  }

  lemma {:induction false} ProblemSaleOk(ledger: Ledger, outcomes: map<string, Outcome>,
                                         applied: set<(Config, Envelope)>,
                                         instance: string, problem: Problem)
    requires SalesOk(ledger, outcomes, applied)
    ensures SalesOk(ledger, outcomes[instance := Excepted(problem)], applied)
  {
    hide WrittenBy, PostedFor;
    var outcomes' := outcomes[instance := Excepted(problem)];
    forall i | WasApplied(outcomes', i) ensures Happened(applied, i) { assert WasApplied(outcomes, i); }
  }

  // ---------- every run ----------

  lemma {:induction false} CountsKept(st: Store, n: NewCount)
    requires StoreOk(st) && OpenCount(st.counts, n).Ok?
    ensures StoreOk(st.(counts := OpenCount(st.counts, n).value))
  {
    hide StockOk, Conserved, SalesOk;
  }

  lemma {:induction false} ConfigKept(st: Store, config: Config)
    requires StoreOk(st)
    ensures StoreOk(st.(config := config))
  {
    hide StockOk, Conserved, SalesOk, CountRowsOk;
  }

  lemma {:induction false} OpKeeps(st: Store, op: Op)
    requires StoreOk(st) && Sensible(st, op)
    ensures StoreOk(Next(st, op))
  {
    hide StoreOk, PostManual, Create, Move, Dispatch, Receive, OpenCount, CloseCount, Consume, Install;
    if Try(st, op).Ok? {
      match op
      case PostOp(m) => PostKeeps(st, m);
      case OpenCountOp(n) => CountsKept(st, n);
      case CloseCountOp(id, closing, skus) => CloseKeeps(st, id, closing, skus);
      case InstallOp(snapshot) => ConfigKept(st, Install(st.config, snapshot).value);
      case ConsumeOp(e, keys) => ConsumeKeeps(st, e, keys);
      case _ => TransferOpKeeps(st, op);
    }
  }

  lemma {:induction false} OtherOpApplied(st: Store, op: Op)
    requires Sensible(st, op) && !op.ConsumeOp?
    ensures Next(st, op).applied == st.applied
  {
    hide Create, Assign, StartPicking, Cancel, Dispatch, Receive, OpenCount, CloseCount, Install, PostManual;
  }

  lemma {:induction false} EmptyStoreHolds()
    ensures StoreOk(EmptyStore)
  {
    forall event, sku ensures Transit(map[], event, sku) == 0 { }
  }

  ghost function RunOps(st: Store, ops: seq<Op>): (res: Option<Store>)
    requires StoreOk(st)
    ensures res.Some? ==> StoreOk(res.value)
    decreases |ops|
  {
    if ops == [] then Some(st)
    else if !Sensible(st, ops[0]) then None
    else
      OpKeeps(st, ops[0]);
      RunOps(Next(st, ops[0]), ops[1..])
  }

  ghost predicate Reachable(ops: seq<Op>, st: Store) {
    EmptyStoreHolds();
    RunOps(EmptyStore, ops) == Some(st)
  }

  /** Every theorem below is about reachable states, and needs only this of them. */
  lemma {:induction false} ReachableOk(ops: seq<Op>, st: Store)
    requires Reachable(ops, st)
    ensures StoreOk(st)
  {
    hide StoreOk, Sensible, Next;
    EmptyStoreHolds();
  }

  // ---------- theorems ----------

  function HandAt(ledger: Ledger, event: string, sku: string): string -> int {
    (location: string) => OnHand(ledger, Place(event, location, sku))
  }

  lemma {:induction false} OverLocations(ledger: Ledger, event: string, sku: string, locations: set<string>)
    requires forall r :: r in ledger && OfSku(event, sku, r) ==> r.content.place.location in locations
    ensures Sums.Over(locations, HandAt(ledger, event, sku)) == Total(ledger, Everywhere(event, sku))
    decreases |ledger|
  {
    if ledger == [] {
      Sums.Padded({}, locations, HandAt(ledger, event, sku));
    } else {
      var n := |ledger| - 1;
      var prefix, r := ledger[..n], ledger[n];
      assert ledger == prefix + [r];
      OverLocations(prefix, event, sku, locations);
      var f, g := HandAt(prefix, event, sku), HandAt(ledger, event, sku);
      OneMoreRow(prefix, r);
      if OfSku(event, sku, r) {
        var here := r.content.place.location;
        assert r in ledger && r.content.place == Place(event, here, sku);
        Sums.Split(locations, here, f);
        Sums.Split(locations, here, g);
        Sums.Same(locations - {here}, f, g);
      } else {
        Sums.Same(locations, f, g);
      }
    }
  }

  /** Nothing is lost on the way: on-hand at all locations plus what is in transit is what was brought in. */
  lemma {:induction false} StockIsConserved(ops: seq<Op>, st: Store, event: string, sku: string, locations: set<string>)
    requires Reachable(ops, st)
    requires forall r :: r in st.stock.ledger && OfSku(event, sku, r) ==> r.content.place.location in locations
    ensures Sums.Over(locations, HandAt(st.stock.ledger, event, sku)) + Transit(st.stock.transfers, event, sku)
         == Total(st.stock.ledger, Moved(event, sku))
  {
    hide StockOk, SalesOk, CountRowsOk, Reachable;
    ReachableOk(ops, st);
    OverLocations(st.stock.ledger, event, sku, locations);
  }

  /** Every transfer line is tied to the transfer's state and to the ledger. */
  lemma {:induction false} LinesMatchLedger(ops: seq<Op>, st: Store, id: string, sku: string)
    requires Reachable(ops, st) && id in st.stock.transfers && sku in st.stock.transfers[id].lines
    ensures var t := st.stock.transfers[id];
      var line := t.lines[sku];
      && 0 <= line.received <= line.dispatched && line.requested > 0
      && line.dispatched == (if HasLeft(t.state) then line.requested else 0)
      && (t.state == TransferState.Received ==> line.received == line.requested)
      && Total(st.stock.ledger, Of(TransferOut, id, sku)) == -line.dispatched
      && Total(st.stock.ledger, Of(TransferIn, id, sku)) == line.received
  {
    hide LedgerOk, TransferRowsOk, Conserved, SalesOk, CountRowsOk, Reachable;
    ReachableOk(ops, st);
    assert LineOk(st.stock.transfers[id].state, st.stock.transfers[id].lines[sku]);
    assert Total(st.stock.ledger, Of(TransferOut, id, sku)) == -DispatchedOf(st.stock.transfers, id, sku);
  }

  /** In every reachable ledger on-hand counts exactly the movements that are neither reversals nor reversed. */
  lemma {:induction false} ReversedMovementsVanish(ops: seq<Op>, st: Store, place: Place)
    requires Reachable(ops, st)
    ensures OnHand(st.stock.ledger, place) == Total(st.stock.ledger, Standing(ReversedIds(st.stock.ledger), place))
  {
    hide LedgerOk, TransferRowsOk, TransfersOk, SumsOk, Conserved, SalesOk, CountRowsOk, Reachable;
    ReachableOk(ops, st);
    OnHandIsStanding(st.stock.ledger, place);
  }

  // ---------- transfers, exactly ----------

  /**
   In a reachable state a dispatch commits exactly when the transfer may leave and no row, of whatever
   kind, holds one of its keys; it then appends each of its rows once.
   */
  lemma {:induction false} DispatchWritesOnce(ops: seq<Op>, st: Store, id: string, q: seq<Quantity>, order: Order,
                                              skus: seq<string>)
    requires Reachable(ops, st) && Sensible(st, DispatchOp(id, q, order, skus))
    ensures Dispatch(st.stock, id, q, order, skus).Ok?
      <==> && MayDispatch(st.stock, id, q)
           && forall sku :: sku in st.stock.transfers[id].lines ==> KeyFree(st.stock.ledger, DispatchKey(id, sku))
    ensures Dispatch(st.stock, id, q, order, skus).Ok? ==>
      id in st.stock.transfers
      && Dispatch(st.stock, id, q, order, skus).value.ledger
           == st.stock.ledger + RowsOf(|st.stock.ledger|, OutInputs(id, st.stock.transfers[id], order, skus))
  {
    hide SalesOk, CountRowsOk, Conserved, StockOk, Reachable, DispatchKey, Dispatch, MayDispatch, KeyFree;
    ReachableOk(ops, st);
    DispatchCommitsExactlyWhen(st.stock, id, q, order, skus);
    if Dispatch(st.stock, id, q, order, skus).Ok? { DispatchAppends(st.stock, id, q, order, skus); }
  }

  /**
   The same for receipts.  A receipt key that is already recorded commits exactly for the recorded
   receipt of a transfer still under way, and then changes nothing.
   */
  lemma {:induction false} ReceiveWritesOnce(ops: seq<Op>, st: Store, id: string, q: seq<Quantity>, order: Order,
                                             key: string)
    requires Reachable(ops, st)
    ensures Receive(st.stock, id, q, order, key).Ok?
      <==> if key in st.stock.receipts
           then
             && id in st.stock.transfers && st.stock.transfers[id].state == InTransit && DistinctSkus(q)
             && st.stock.receipts[key] == Receiving(id, order.actor, order.at, Amounts(q))
           else
             && MayReceive(st.stock, id, q)
             && forall k :: 0 <= k < |q| ==> KeyFree(st.stock.ledger, ReceiptKey(id, key, q[k].sku))
    ensures Receive(st.stock, id, q, order, key).Ok? ==>
      var after := Receive(st.stock, id, q, order, key).value;
      if key in st.stock.receipts then after == st.stock
      else
        && id in st.stock.transfers
        && after.ledger == st.stock.ledger
             + RowsOf(|st.stock.ledger|, InInputs(id, st.stock.transfers[id], order, key, q))
  {
    hide SalesOk, CountRowsOk, Conserved, StockOk, Reachable, ReceiptKey, MayReceive, KeyFree, Arrived, Amounts, CheckReceipt;
    ReachableOk(ops, st);
    if key !in st.stock.receipts { ReceiveCommitsExactlyWhen(st.stock, id, q, order, key); }
    if Receive(st.stock, id, q, order, key).Ok? { ReceiveAppends(st.stock, id, q, order, key); }
  }

  // ---------- counts, exactly ----------

  /**
   In a reachable state an open count closes exactly when no line whose counted figure differs from
   on-hand finds its key in the ledger, where any movement may have put it; a closed one stays closed.
   */
  lemma {:induction false} CountClosesExactlyWhen(ops: seq<Op>, st: Store, id: string, closing: Closing,
                                                  skus: seq<string>)
    requires Reachable(ops, st) && Sensible(st, CloseCountOp(id, closing, skus))
    ensures CloseCount(st.stock.ledger, st.counts, id, closing, skus).Ok?
      <==> id in st.counts
           && (st.counts[id].closed
               || forall sku :: sku in st.counts[id].lines && Differs(st.stock.ledger, st.counts[id], sku) ==>
                    KeyFree(st.stock.ledger, CountKey(id, sku)))
  {
    hide SalesOk, Conserved, TransferRowsOk, SumsOk, TransfersOk, LedgerOk, Reachable, CloseCount, KeyFree, Differs;
    ReachableOk(ops, st);
    CloseCommitsExactlyWhen(st.stock.ledger, st.counts, id, closing, skus);
  }

  // ---------- sales, exactly ----------

  /** Whether an event commits, and which rows it adds, in any reachable state. */
  lemma {:induction false} ConsumeCommitsExactlyWhen(ops: seq<Op>, st: Store, e: Envelope, keys: seq<MovementKey>)
    requires Reachable(ops, st) && Sensible(st, ConsumeOp(e, keys)) && PlanOf(st.config, e).Ok?
    ensures var ledger, plan := st.stock.ledger, PlanOf(st.config, e).value;
      && (Consume(ledger, st.config, e, keys).Ok?
          <==> forall key :: key in plan.movements ==> Fits(ledger, e, plan, key))
      && (Consume(ledger, st.config, e, keys).Ok? ==>
            Consume(ledger, st.config, e, keys).value.ledger
              == ledger + RowsOf(|ledger|, Missing(ledger, PlanInputs(e, plan, keys))))
  {
    hide SalesOk, CountRowsOk, Conserved, TransferRowsOk, SumsOk, TransfersOk, LedgerOk, Reachable, PlanOf, Consume, Fits,
         PostedFor;
    ReachableOk(ops, st);
    ConsumeExactly(st.stock.ledger, st.config, e, keys);
  }

  /** Rows of one event instance and one movement have the same key, so there is at most one. */
  lemma {:induction false} SaleRowIs(ledger: Ledger, outcomes: map<string, Outcome>, applied: set<(Config, Envelope)>,
                                     instance: string, key: MovementKey, r: Row)
    requires SalesOk(ledger, outcomes, applied) && IsSaleKind(key.kind) && r in ledger && OfSale(instance, key)(r)
    ensures r.key == SaleKey(instance, key)
    ensures exists a :: a in applied && a.1.instance == instance && WrittenBy(r, a.0, a.1)
  {
    hide PostedFor, PlanOf, SaleKey;
    var a :| a in applied && WrittenBy(r, a.0, a.1);
    assert a.1.instance == instance;
  }

  lemma {:induction false} SaleTotal(ledger: Ledger, outcomes: map<string, Outcome>, applied: set<(Config, Envelope)>,
                                     instance: string, key: MovementKey, r: Row)
    requires LedgerOk(ledger) && SalesOk(ledger, outcomes, applied) && IsSaleKind(key.kind)
    requires r in ledger && OfSale(instance, key)(r)
    ensures Total(ledger, OfSale(instance, key)) == r.content.delta
  {
    hide RowOk, SalesOk, SaleKey;
    var k :| 0 <= k < |ledger| && ledger[k] == r;
    SaleRowIs(ledger, outcomes, applied, instance, key, r);
    forall j | 0 <= j < |ledger| && j != k ensures !OfSale(instance, key)(ledger[j]) {
      if OfSale(instance, key)(ledger[j]) { SaleRowIs(ledger, outcomes, applied, instance, key, ledger[j]); }
    }
    TotalSingle(ledger, OfSale(instance, key), k);
  }

  /**
   However often an event is consumed, and whatever was installed in between: each movement that some
   commit of it needed is in the ledger exactly once, as minus the sum of quantity × recipe quantity
   under the configuration of that commit, and nothing else is.
   */
  lemma {:induction false} SalesPostedOnce(ops: seq<Op>, st: Store, instance: string, key: MovementKey)
    requires Reachable(ops, st) && IsSaleKind(key.kind)
    ensures var total := Total(st.stock.ledger, OfSale(instance, key));
      && (forall a :: a in st.applied && a.1.instance == instance && NeedsOf(a.0, a.1, key) != 0 ==>
            total == -NeedsOf(a.0, a.1, key))
      && ((forall a :: a in st.applied && a.1.instance == instance ==> NeedsOf(a.0, a.1, key) == 0) ==> total == 0)
    ensures WasApplied(st.outcomes, instance) ==> Happened(st.applied, instance)
  {
    hide CountRowsOk, Conserved, TransferRowsOk, SumsOk, TransfersOk, LedgerOk, Reachable, PlanOf, NeedsOf, Total, SaleKey,
         SalesOk;
    ReachableOk(ops, st);
    var ledger := st.stock.ledger;
    forall a | a in st.applied && a.1.instance == instance && NeedsOf(a.0, a.1, key) != 0
      ensures Total(ledger, OfSale(instance, key)) == -NeedsOf(a.0, a.1, key)
    {
      NeededIsPosted(ledger, st.outcomes, st.applied, a, key);
    }
    if forall a :: a in st.applied && a.1.instance == instance ==> NeedsOf(a.0, a.1, key) == 0 {
      forall r | r in ledger ensures !OfSale(instance, key)(r) {
        if OfSale(instance, key)(r) { PostedIsNeeded(ledger, st.outcomes, st.applied, instance, key, r); }
      }
      TotalNone(ledger, OfSale(instance, key));
    }
    if WasApplied(st.outcomes, instance) { AppliedHappened(ledger, st.outcomes, st.applied, instance); }
  }

  lemma {:induction false} AppliedHappened(ledger: Ledger, outcomes: map<string, Outcome>,
                                           applied: set<(Config, Envelope)>, i: string)
    requires SalesOk(ledger, outcomes, applied) && WasApplied(outcomes, i)
    ensures Happened(applied, i)
  {
    hide WrittenBy, PostedFor, Happened;
  }

  lemma {:induction false} NeededIsPosted(ledger: Ledger, outcomes: map<string, Outcome>,
                                          applied: set<(Config, Envelope)>,
                                          a: (Config, Envelope), key: MovementKey)
    requires LedgerOk(ledger) && SalesOk(ledger, outcomes, applied) && a in applied
    requires IsSaleKind(key.kind) && NeedsOf(a.0, a.1, key) != 0
    ensures Total(ledger, OfSale(a.1.instance, key)) == -NeedsOf(a.0, a.1, key)
  {
    hide LedgerOk, PlanOf, NeedsOf, Total, SaleKey, WrittenBy;
    assert PostedFor(a.0, ledger, a.1);
    PlanMoves(a.0, a.1);
    var plan := PlanOf(a.0, a.1).value;
    assert TakenOf(plan.movements, key) != 0;
    var input := MoveInput(a.1, plan, key);
    assert AlreadyThere(ledger, input);
    var r :| r in ledger && r.key == input.key && r.content == input.content;
    SaleTotal(ledger, outcomes, applied, a.1.instance, key, r);
  }

  lemma {:induction false} PostedIsNeeded(ledger: Ledger, outcomes: map<string, Outcome>,
                                          applied: set<(Config, Envelope)>,
                                          instance: string, key: MovementKey, r: Row)
    requires SalesOk(ledger, outcomes, applied) && IsSaleKind(key.kind) && r in ledger && OfSale(instance, key)(r)
    ensures exists a :: a in applied && a.1.instance == instance && NeedsOf(a.0, a.1, key) != 0
  {
    hide PlanOf, NeedsOf, SaleKey, SalesOk;
    SaleRowIs(ledger, outcomes, applied, instance, key, r);
    var a :| a in applied && a.1.instance == instance && WrittenBy(r, a.0, a.1);
    PlanMoves(a.0, a.1);
    assert TakenOf(PlanOf(a.0, a.1).value.movements, key) > 0;
  }

  // ---------- an event that comes again ----------

  /** Some earlier commit under this instance id wrote this very movement. */
  ghost predicate TookBefore(applied: set<(Config, Envelope)>, e: Envelope, plan: Plan, key: MovementKey)
    requires key in plan.movements
  {
    exists a :: a in applied && a.1.instance == e.instance && Wrote(a.0, a.1, key, MoveInput(e, plan, key))
  }

  predicate Wrote(cfg: Config, e: Envelope, key: MovementKey, input: Input) {
    && PlanOf(cfg, e).Ok? && key in PlanOf(cfg, e).value.movements
    && MoveInput(e, PlanOf(cfg, e).value, key) == input
  }

  /**
   A repeated delivery is not always harmless: the configuration may have been replaced in between.  An
   event changes nothing exactly when it is not usable, or every one of its movements under the present
   configuration is one that an earlier commit under its instance id wrote; otherwise it fails, or takes more.
   */
  lemma {:induction false} RepeatIsHarmlessExactlyWhen(ops: seq<Op>, st: Store, e: Envelope, keys: seq<MovementKey>)
    requires Reachable(ops, st) && Sensible(st, ConsumeOp(e, keys))
    ensures (Consume(st.stock.ledger, st.config, e, keys).Ok?
             && Consume(st.stock.ledger, st.config, e, keys).value.ledger == st.stock.ledger)
      <==> || PlanOf(st.config, e).Err?
           || forall key :: key in PlanOf(st.config, e).value.movements ==>
                TookBefore(st.applied, e, PlanOf(st.config, e).value, key)
  {
    hide CountRowsOk, Conserved, TransferRowsOk, SumsOk, TransfersOk, LedgerOk, Reachable, PlanOf, SaleInput, SaleInputs,
         Consume, TookBefore, SalesOk;
    ReachableOk(ops, st);
    if PlanOf(st.config, e).Ok? {
      ConsumedAgain(st.stock.ledger, st.config, e, keys);
      var plan := PlanOf(st.config, e).value;
      forall key | key in plan.movements
        ensures AlreadyThere(st.stock.ledger, MoveInput(e, plan, key)) <==> TookBefore(st.applied, e, plan, key)
      {
        ThereIsTaken(st.stock.ledger, st.outcomes, st.applied, st.config, e, key);
      }
    } else {
      UnusableIsSkipped(st.stock.ledger, st.config, e, keys);
    }
  }

  lemma {:induction false} UnusableIsSkipped(ledger: Ledger, cfg: Config, e: Envelope, keys: seq<MovementKey>)
    requires PlanOf(cfg, e).Err?
    ensures Consume(ledger, cfg, e, keys).Ok? && Consume(ledger, cfg, e, keys).value.ledger == ledger
  {
  }

  /** A consumption changes nothing exactly when everything it would post is there. */
  lemma {:induction false} ConsumedAgain(ledger: Ledger, cfg: Config, e: Envelope, keys: seq<MovementKey>)
    requires LedgerOk(ledger) && PlanOf(cfg, e).Ok? && Ordered(keys, PlanOf(cfg, e).value.movements)
    ensures (Consume(ledger, cfg, e, keys).Ok? && Consume(ledger, cfg, e, keys).value.ledger == ledger)
      <==> PostedFor(cfg, ledger, e)
  {
    hide LedgerOk, PlanOf, InsertAll, AlreadyThere, KeyFree, Missing, RowsOf, Consume, Fits, SaleInputs, PostedFor, Moves;
    ConsumeExactly(ledger, cfg, e, keys);
    if PostedFor(cfg, ledger, e) {
      var plan := PlanOf(cfg, e).value;
      var inputs := PlanInputs(e, plan, keys);
      MovesPosted(ledger, cfg, e);
      InputsAreMoves(e, plan, keys);
      ThereFits(ledger, e, plan);
      ConsumeIs(ledger, cfg, e, keys);
      forall k | 0 <= k < |inputs| ensures AlreadyThere(ledger, inputs[k]) { assert inputs[k] in inputs; }
      BatchReplays(ledger, inputs);
    }
  }

  lemma {:induction false} ThereFits(ledger: Ledger, e: Envelope, plan: Plan)
    requires forall a :: Moves(e, plan, a) ==> AlreadyThere(ledger, a)
    ensures forall key :: key in plan.movements ==> Fits(ledger, e, plan, key)
  {
    hide AlreadyThere, Moves, KeyFree;
    MovesFit(ledger, e, plan);
  }

  /** A movement is in the ledger exactly when some commit under this instance id wrote it. */
  lemma {:induction false} ThereIsTaken(ledger: Ledger, outcomes: map<string, Outcome>,
                                        applied: set<(Config, Envelope)>,
                                        cfg: Config, e: Envelope, key: MovementKey)
    requires SalesOk(ledger, outcomes, applied) && PlanOf(cfg, e).Ok? && key in PlanOf(cfg, e).value.movements
    ensures AlreadyThere(ledger, MoveInput(e, PlanOf(cfg, e).value, key))
      <==> TookBefore(applied, e, PlanOf(cfg, e).value, key)
  {
    hide PlanOf, SalesOk, SaleKey;
    PlanMoves(cfg, e);
    var input := MoveInput(e, PlanOf(cfg, e).value, key);
    if AlreadyThere(ledger, input) {
      var r :| r in ledger && r.key == input.key && r.content == input.content;
      SaleRowIs(ledger, outcomes, applied, e.instance, key, r);
      var a :| a in applied && a.1.instance == e.instance && WrittenBy(r, a.0, a.1);
      assert Wrote(a.0, a.1, key, input);
    }
    if TookBefore(applied, e, PlanOf(cfg, e).value, key) {
      var a :| a in applied && a.1.instance == e.instance && Wrote(a.0, a.1, key, input);
      AppliedIsPosted(ledger, outcomes, applied, a);
    }
  }

  lemma {:induction false} AppliedIsPosted(ledger: Ledger, outcomes: map<string, Outcome>,
                                           applied: set<(Config, Envelope)>,
                                           a: (Config, Envelope))
    requires SalesOk(ledger, outcomes, applied) && a in applied
    ensures PostedFor(a.0, ledger, a.1)
  {
    hide WrittenBy, PostedFor;
  }

  // ---------- one beer, taken twice ----------

  const ONE_BEER := Envelope("a", "till", 0, Some(SaleOrder("E", "bar", "o", [SaleLine("beer", 1)])))

  const BEER_KEY := MovementKey(Sale, "beer")

  const HOPS_KEY := MovementKey(RecipeConsumption, "hops")

  const BOTTLED := Snapshot("E", 10, 30, 6000, map["bar" := "cellar"], map[], {"beer"})

  const BREWED := Snapshot("E", 10, 30, 6000, map["bar" := "cellar"], map["beer" := [Component("hops", 2)]], {"hops"})

  function BeerPlan(key: MovementKey, quantity: int): Plan {
    Plan(ONE_BEER.sale.value, "cellar", map[key := quantity])
  }

  lemma {:induction false} OneBeerPlan(cfg: Config)
    requires ("E", "bar") in cfg.mapping && cfg.mapping[("E", "bar")] == "cellar"
    ensures RecipeOf(cfg, "E", "beer") == [] && ("E", "beer") in cfg.skus ==>
      PlanOf(cfg, ONE_BEER) == Ok(BeerPlan(BEER_KEY, 1))
    ensures RecipeOf(cfg, "E", "beer") == [Component("hops", 2)] && ("E", "hops") in cfg.skus ==>
      PlanOf(cfg, ONE_BEER) == Ok(BeerPlan(HOPS_KEY, 2))
  {
    var lines := ONE_BEER.sale.value.lines;
    assert lines[..0] == [] && MovementsOf(cfg, "E", lines[..0]) == Ok(map[]);
    assert MovementsOf(cfg, "E", lines) == AddLine(cfg, map[], "E", lines[0]);
    var hops := [Component("hops", 2)];
    assert hops[..0] == [] && AddComponents(cfg, map[], "E", 1, hops[..0]) == Ok(map[]);
  }

  function BeerRow(row: nat, key: MovementKey, quantity: int): Row {
    Row(Random(row), SaleKey("a", key),
        Content(Place("E", "cellar", key.sku), key.kind, -quantity, "ORDER", "o", Some("a"), None, Some("till"),
                Some("sale-driven inventory consumption"), 0, None))
  }

  lemma {:induction false} ConsumeOneBeer(st: Store, key: MovementKey, quantity: int)
    requires StoreOk(st) && PlanOf(st.config, ONE_BEER) == Ok(BeerPlan(key, quantity))
    requires KeyFree(st.stock.ledger, SaleKey("a", key))
    ensures Sensible(st, ConsumeOp(ONE_BEER, [key]))
    ensures Next(st, ConsumeOp(ONE_BEER, [key]))
      == AfterSale(st, ONE_BEER, Consumed(st.stock.ledger + [BeerRow(|st.stock.ledger|, key, quantity)], Applied))
  {
    hide CountRowsOk, Conserved, TransferRowsOk, SumsOk, TransfersOk, LedgerOk, PlanOf, SaleKey, SalesOk, InsertAll, KeyFree;
    var ledger, plan := st.stock.ledger, BeerPlan(key, quantity);
    ConsumeExactly(ledger, st.config, ONE_BEER, [key]);
    var inputs := PlanInputs(ONE_BEER, plan, [key]);
    assert inputs[..0] == [] && Missing(ledger, inputs[..0]) == [];
    assert Missing(ledger, inputs) == [inputs[0]];
    assert RowsOf(|ledger|, [inputs[0]]) == [BeerRow(|ledger|, key, quantity)];
  }

  lemma {:induction false} OneMoreOp(st: Store, op: Op, ops: seq<Op>)
    requires StoreOk(st) && Sensible(st, op)
    ensures StoreOk(Next(st, op)) && RunOps(st, [op] + ops) == RunOps(Next(st, op), ops)
  {
    hide StoreOk, Sensible, Next;
    OpKeeps(st, op);
    assert ([op] + ops)[1..] == ops;
  }

  lemma {:induction false} InstalledNext(st: Store, snapshot: Snapshot, rest: seq<Op>) returns (next: Store)
    requires StoreOk(st) && (snapshot == BOTTLED || snapshot == BREWED)
    ensures Install(st.config, snapshot).Ok? && next == st.(config := Install(st.config, snapshot).value)
    ensures StoreOk(next) && RunOps(st, [InstallOp(snapshot)] + rest) == RunOps(next, rest)
  {
    hide StoreOk, Replaced;
    OneMoreOp(st, InstallOp(snapshot), rest);
    next := Next(st, InstallOp(snapshot));
  }

  lemma {:induction false} BeerPlans(cfg: Config)
    ensures Install(cfg, BOTTLED).Ok? && PlanOf(Install(cfg, BOTTLED).value, ONE_BEER) == Ok(BeerPlan(BEER_KEY, 1))
    ensures Install(cfg, BREWED).Ok? && PlanOf(Install(cfg, BREWED).value, ONE_BEER) == Ok(BeerPlan(HOPS_KEY, 2))
  {
    hide Replaced, PlanOf;
    OneBeerPlan(Install(cfg, BOTTLED).value);
    OneBeerPlan(Install(cfg, BREWED).value);
  }

  /**
   One beer is sold and consumed; the event gets a recipe for beer; the same event is delivered again.
   The ledger has then given up the beer and also what its recipe needs.
   */
  lemma {:induction false} RepeatTakesTwice() returns (ops: seq<Op>, st: Store)
    ensures Reachable(ops, st) && forall a :: a in st.applied ==> a.1 == ONE_BEER
    ensures OnHand(st.stock.ledger, Place("E", "cellar", "beer")) == -1
    ensures OnHand(st.stock.ledger, Place("E", "cellar", "hops")) == -2
  {
    hide StoreOk, Sensible, Next, Try, RunOps, OnHand, PlanOf, SaleKey, Install;
    var sale, again := ConsumeOp(ONE_BEER, [BEER_KEY]), ConsumeOp(ONE_BEER, [HOPS_KEY]);
    EmptyStoreHolds();
    var s1 := InstalledNext(EmptyStore, BOTTLED, [sale, InstallOp(BREWED), again]);
    BeerPlans(EmptyStore.config);
    ConsumeOneBeer(s1, BEER_KEY, 1);
    OneMoreOp(s1, sale, [InstallOp(BREWED), again]);
    var s2 := Next(s1, sale);
    var s3 := InstalledNext(s2, BREWED, [again]);
    BeerPlans(s2.config);
    if SaleKey("a", BEER_KEY) == SaleKey("a", HOPS_KEY) { SaleKeysDiffer("a", BEER_KEY, HOPS_KEY); }
    ConsumeOneBeer(s3, HOPS_KEY, 2);
    OneMoreOp(s3, again, []);
    st := Next(s3, again);
    ops := [InstallOp(BOTTLED)] + [sale, InstallOp(BREWED), again];
    assert [sale] + [InstallOp(BREWED), again] == [sale, InstallOp(BREWED), again];
    assert [InstallOp(BREWED)] + [again] == [InstallOp(BREWED), again] && [again] + [] == [again];
    Finished(st);
    BothRows();
    assert st.stock.ledger == [BeerRow(0, BEER_KEY, 1), BeerRow(1, HOPS_KEY, 2)];
  }

  lemma {:induction false} Finished(st: Store)
    requires StoreOk(st)
    ensures RunOps(st, []) == Some(st)
  {
    hide StoreOk;
  }

  lemma {:induction false} BothRows()
    ensures var ledger := [BeerRow(0, BEER_KEY, 1), BeerRow(1, HOPS_KEY, 2)];
      OnHand(ledger, Place("E", "cellar", "beer")) == -1 && OnHand(ledger, Place("E", "cellar", "hops")) == -2
  {
    hide SaleKey;
    var first, second := BeerRow(0, BEER_KEY, 1), BeerRow(1, HOPS_KEY, 2);
    assert [] + [first] == [first] && [first] + [second] == [first, second];
    OneMoreRow([], first);
    OneMoreRow([first], second);
  }
}
