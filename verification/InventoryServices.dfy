/**
 The inventory services as the source writes them: rows inserted and updated in loops inside one
 transaction, everything put back when a step of it fails.
 */
module InventoryServices {
  import opened Common
  import opened InventoryDomain
  import opened InventoryLedger
  import opened StockTransfers
  import opened StockTransferProofs
  import StockCounts
  import Sale = SaleConsumption

  /** The result and the state agree with the specification of the transaction. */
  ghost predicate Follows<T, R>(spec: Result<T, Error>, before: T, after: T, result: Result<R, Error>) {
    match spec
    case Ok(value) => result.Ok? && after == value
    case Err(e) => result == Err(e) && after == before
  }

  class InventoryService {
    var ledger: Ledger
    var transfers: map<string, Transfer>
    var receipts: map<string, Receiving>
    var counts: StockCounts.Counts
    var outcomes: map<string, Sale.Outcome>
    var problems: set<(string, Sale.Problem)>

    function State(): Stock
      reads this
    {
      Stock(ledger, transfers, receipts)
    }

    constructor ()
      ensures State() == Stock([], map[], map[]) && counts == map[] && outcomes == map[] && problems == {}
    {
      ledger, transfers, receipts, counts, outcomes, problems := [], map[], map[], map[], map[], {};
    }

    // ---------- ledger ----------

    method InsertRow(input: Input) returns (result: Result<Row, Error>)
      modifies this`ledger
      ensures match Insert(old(ledger), input)
        case Ok(posted) => result == Ok(posted.row) && ledger == posted.ledger
        case Err(e) => result == Err(e) && ledger == old(ledger)
    {
      if !ValidDelta(input.content.kind, input.content.delta) { return Err(InvalidDelta); }
      var row := Row(NewId(ledger, input), input.key, input.content);
      if !Taken(ledger, row) {
        ledger := ledger + [row];
        return Ok(row);
      }
      var existing := FindRow(ledger, KeyIs(input.key));
      if existing.None? { existing := FindRow(ledger, IdIs(row.id)); }
      if existing.None? || !SameMovement(existing.value, input) { return Err(KeyReused); }
      return Ok(existing.value);
    }

    method PostManualMovement(m: Manual) returns (result: Result<Row, Error>)
      modifies this`ledger
      ensures match PostManual(old(ledger), m)
        case Ok(posted) => result == Ok(posted.row) && ledger == posted.ledger
        case Err(e) => result == Err(e) && ledger == old(ledger)
    {
      hide Insert;
      var input := Input(Some(m.id), m.key,
        Content(m.place, m.kind, m.delta, "MANUAL", m.id, None, Some(m.actor), None, Some(m.reason), m.at, m.reverses));
      if m.kind in DEDICATED { return Err(DedicatedWorkflow); }
      if m.kind == Reversal {
        if m.reverses.None? { return Err(NoReversalTarget); }
        var found := FindRow(ledger, IdIs(m.reverses.value));
        if found.None? { return Err(TargetMissing); }
        var target := found.value;
        if target.content.place != m.place { return Err(TargetElsewhere); }
        if target.content.kind == Reversal { return Err(TargetIsReversal); }
        if m.delta != -target.content.delta { return Err(NotExactNegation); }
        var previous := FindRow(ledger, ReversesIs(target.id));
        if previous.Some? {
          if SameMovement(previous.value, input) { return Ok(previous.value); }
          return Err(TargetReused);
        }
      } else if m.reverses.Some? {
        return Err(OnlyReversalReferences);
      }
      result := InsertRow(input);
    }

    /** The rows of one transaction, one after the other; the first refusal takes back the ones before it. */
    method InsertRows(inputs: seq<Input>) returns (result: Result<(), Error>)
      modifies this`ledger
      ensures Follows(InsertAll(old(ledger), inputs), old(ledger), ledger, result)
    {
      hide Insert;
      var saved := ledger;
      var i := 0;
      while i < |inputs|
        invariant i <= |inputs|
        invariant InsertAll(old(ledger), inputs[..i]) == Ok(ledger)
      {
        assert inputs[..i + 1][..i] == inputs[..i];
        var posted := InsertRow(inputs[i]);
        if posted.Err? {
          InsertAllFails(old(ledger), inputs, i + 1, posted.error);
          ledger := saved;
          return Err(posted.error);
        }
        i := i + 1;
      }
      assert inputs[..i] == inputs;
      return Ok(());
    }

    // ---------- transfers ----------

    method CreateTransfer(c: Creation) returns (result: Result<Transfer, Error>)
      modifies this`transfers
      ensures Follows(Create(old(State()), c), old(State()), State(), result)
      ensures result.Ok? ==> c.id in transfers && result.value == transfers[c.id]
    {
      if !DistinctSkus(c.lines) { return Err(RepeatedSku); }
      if exists id :: id in transfers && transfers[id].key == c.key {
        if c.id in transfers && transfers[c.id].key == c.key && SameCreate(transfers[c.id], c) {
          return Ok(transfers[c.id]);
        }
        return Err(ContentDiffers);
      }
      if c.id in transfers { return Err(ContentDiffers); }
      if c.source == c.destination { return Err(CheckViolated); }
      var lines: map<string, Line> := map[];
      var i := 0;
      while i < |c.lines|
        invariant i <= |c.lines|
        invariant lines == NewLines(c.lines[..i])
        invariant forall j :: 0 <= j < i ==> c.lines[j].amount > 0
        modifies {}
      {
        if c.lines[i].amount <= 0 { return Err(CheckViolated); }
        assert c.lines[..i + 1][..i] == c.lines[..i];
        lines := lines[c.lines[i].sku := Line(c.lines[i].amount, 0, 0)];
        i := i + 1;
      }
      assert c.lines[..i] == c.lines;
      var t := Transfer(c.event, c.source, c.destination, Requested, c.actor, None, c.reason, c.at, c.key, lines);
      transfers := transfers[c.id := t];
      return Ok(t);
    }

    method SimpleTransition(id: string, to: TransferState, order: Order) returns (result: Result<Transfer, Error>)
      modifies this`transfers
      ensures Follows(Move(old(State()), id, to, order), old(State()), State(), result)
    {
      if id !in transfers { return Err(NotFound); }
      if to !in TransferSuccessors(transfers[id].state) { return Err(InvalidTransition); }
      var t := transfers[id].(state := to);
      if to == Assigned { t := t.(assignee := order.assignee); }
      transfers := transfers[id := t];
      return Ok(t);
    }

    method AssignTransfer(id: string, order: Order) returns (result: Result<Transfer, Error>)
      modifies this`transfers
      ensures Follows(Assign(old(State()), id, order), old(State()), State(), result)
    {
      if order.assignee.None? { return Err(MissingField); }
      result := SimpleTransition(id, Assigned, order);
    }

    method StartPickingTransfer(id: string, order: Order) returns (result: Result<Transfer, Error>)
      modifies this`transfers
      ensures Follows(StartPicking(old(State()), id, order), old(State()), State(), result)
    {
      result := SimpleTransition(id, Picking, order);
    }

    method CancelTransfer(id: string, order: Order) returns (result: Result<Transfer, Error>)
      modifies this`transfers
      ensures Follows(Cancel(old(State()), id, order), old(State()), State(), result)
    {
      if order.reason.None? { return Err(MissingField); }
      result := SimpleTransition(id, Cancelled, order);
    }

    method RefuseDispatch(t: Transfer, supplied: map<string, int>, skus: seq<string>) returns (refused: Option<Error>)
      requires forall x :: x in skus ==> x in t.lines
      ensures refused == CheckDispatch(ledger, t, supplied, skus)
    {
      hide OnHand;
      var i := 0;
      while i < |skus|
        invariant i <= |skus|
        invariant CheckDispatch(ledger, t, supplied, skus) == CheckDispatch(ledger, t, supplied, skus[i..])
      {
        var sku := skus[i];
        if sku !in supplied || supplied[sku] != t.lines[sku].requested { return Some(QuantityMismatch); }
        if OnHand(ledger, Place(t.event, t.source, sku)) < t.lines[sku].requested { return Some(InsufficientStock); }
        i := i + 1;
      }
      return None;
    }

    method MarkDispatched(t: Transfer, skus: seq<string>) returns (after: Transfer)
      requires Enumerates(skus, t.lines.Keys)
      ensures after == Left(t)
    {
      var lines := t.lines;
      var i := 0;
      while i < |skus|
        invariant i <= |skus| && lines.Keys == t.lines.Keys
        invariant forall sku :: sku in skus[..i] ==> lines[sku] == t.lines[sku].(dispatched := t.lines[sku].requested)
        invariant forall sku :: sku in lines && sku !in skus[..i] ==> lines[sku] == t.lines[sku]
      {
        assert skus[..i + 1] == skus[..i] + [skus[i]];
        lines := lines[skus[i] := lines[skus[i]].(dispatched := lines[skus[i]].requested)];
        i := i + 1;
      }
      assert skus[..i] == skus;
      return t.(state := InTransit, lines := lines);
    }

    method DispatchTransfer(id: string, q: seq<Quantity>, order: Order, skus: seq<string>)
      returns (result: Result<Transfer, Error>)
      requires id in transfers ==> Enumerates(skus, transfers[id].lines.Keys)
      modifies this`transfers, this`ledger
      ensures Follows(Dispatch(old(State()), id, q, order, skus), old(State()), State(), result)
    {
      hide InsertAll, CheckDispatch, Left;
      if id !in transfers { return Err(NotFound); }
      var t := transfers[id];
      if InTransit !in TransferSuccessors(t.state) { return Err(InvalidTransition); }
      if !DistinctSkus(q) { return Err(RepeatedSku); }
      if |t.lines| != |q| { return Err(QuantityMismatch); }
      var refused := RefuseDispatch(t, Amounts(q), skus);
      if refused.Some? { return Err(refused.value); }
      var written := InsertRows(OutInputs(id, t, order, skus));
      if written.Err? { return Err(written.error); }
      t := MarkDispatched(t, skus);
      transfers := transfers[id := t];
      return Ok(t);
    }

    method RefuseReceipt(t: Transfer, q: seq<Quantity>) returns (refused: Option<Error>)
      ensures refused == CheckReceipt(t, q)
    {
      var i := 0;
      while i < |q|
        invariant i <= |q|
        invariant CheckReceipt(t, q) == CheckReceipt(t, q[i..])
      {
        if q[i].sku !in t.lines { return Some(NotOnTransfer); }
        if q[i].amount > t.lines[q[i].sku].dispatched - t.lines[q[i].sku].received { return Some(ExceedsOutstanding); }
        i := i + 1;
      }
      return None;
    }

    method MarkReceived(t: Transfer, q: seq<Quantity>) returns (after: Transfer)
      requires DistinctSkus(q) && forall k :: 0 <= k < |q| ==> q[k].sku in t.lines
      ensures after == Arrived(t, Amounts(q))
    {
      var lines := t.lines;
      var i := 0;
      while i < |q|
        invariant i <= |q| && lines.Keys == t.lines.Keys
        invariant forall sku :: sku in lines ==>
          lines[sku] == if sku in Amounts(q[..i]) then t.lines[sku].(received := t.lines[sku].received + Amounts(q[..i])[sku])
                        else t.lines[sku]
      {
        NotBefore(q, i);
        assert q[..i + 1][..i] == q[..i];
        var line := lines[q[i].sku];
        lines := lines[q[i].sku := line.(received := line.received + q[i].amount)];
        i := i + 1;
      }
      assert q[..i] == q;
      assert lines == Arrived(t, Amounts(q)).lines;
      var complete := forall sku :: sku in lines ==> lines[sku].received == lines[sku].dispatched;
      return t.(lines := lines, state := if complete then TransferState.Received else t.state);
    }

    method ReceiveTransfer(id: string, q: seq<Quantity>, order: Order, key: string)
      returns (result: Result<Transfer, Error>)
      modifies this`transfers, this`ledger, this`receipts
      ensures Follows(Receive(old(State()), id, q, order, key), old(State()), State(), result)
    {
      hide InsertAll, CheckReceipt, Arrived;
      if id !in transfers { return Err(NotFound); }
      var t := transfers[id];
      if t.state != InTransit { return Err(NotInTransit); }
      if !DistinctSkus(q) { return Err(RepeatedSku); }
      var receipt := Receiving(id, order.actor, order.at, Amounts(q));
      if key in receipts {
        if receipts[key] != receipt { return Err(ContentDiffers); }
        return Ok(t);
      }
      var refused := RefuseReceipt(t, q);
      if refused.Some? { return Err(refused.value); }
      CheckReceiptCovers(t, q);
      var written := InsertRows(InInputs(id, t, order, key, q));
      if written.Err? { return Err(written.error); }
      receipts := receipts[key := receipt];
      t := MarkReceived(t, q);
      transfers := transfers[id := t];
      return Ok(t);
    }

    // ---------- counts ----------

    method OpenStockCount(n: StockCounts.NewCount) returns (result: Result<StockCounts.Count, Error>)
      modifies this`counts
      ensures Follows(StockCounts.OpenCount(old(counts), n), old(counts), counts, result)
    {
      if !DistinctSkus(n.lines) { return Err(RepeatedSku); }
      if n.id in counts {
        if StockCounts.SameCount(counts[n.id], n) { return Ok(counts[n.id]); }
        return Err(ContentDiffers);
      }
      var lines: map<string, StockCounts.CountLine> := map[];
      var i := 0;
      while i < |n.lines|
        invariant i <= |n.lines| && lines == StockCounts.NewLines(n.lines[..i])
        invariant forall j :: 0 <= j < i ==> n.lines[j].amount >= 0
        modifies {}
      {
        if n.lines[i].amount < 0 { return Err(CheckViolated); }
        assert n.lines[..i + 1][..i] == n.lines[..i];
        lines := lines[n.lines[i].sku := StockCounts.CountLine(n.lines[i].amount, None, None)];
        i := i + 1;
      }
      assert n.lines[..i] == n.lines;
      var c := StockCounts.Count(n.event, n.location, false, n.actor, n.at, n.reason, None, None, lines);
      counts := counts[n.id := c];
      return Ok(c);
    }

    method CloseStockCount(id: string, closing: StockCounts.Closing, skus: seq<string>)
      returns (result: Result<StockCounts.Count, Error>)
      requires id in counts ==> Enumerates(skus, counts[id].lines.Keys)
      modifies this`ledger, this`counts
      ensures Follows(StockCounts.CloseCount(old(ledger), old(counts), id, closing, skus),
                      (old(ledger), old(counts)), (ledger, counts), result)
    {
      hide Insert, OnHand;
      if id !in counts { return Err(NotFound); }
      var c := counts[id];
      if c.closed { return Ok(c); }
      var saved := ledger;
      var lines := c.lines;
      var i := 0;
      while i < |skus|
        invariant i <= |skus|
        invariant StockCounts.CloseLines(old(ledger), id, c, closing, skus[..i]) == Ok(StockCounts.Closed(ledger, lines))
        modifies this`ledger
      {
        var sku := skus[i];
        assert skus[..i + 1][..i] == skus[..i];
        var expected := OnHand(ledger, Place(c.event, c.location, sku));
        var line := c.lines[sku].(expected := Some(expected));
        if c.lines[sku].counted != expected {
          var posted := InsertRow(StockCounts.CountInput(id, c, closing, sku, c.lines[sku].counted - expected));
          if posted.Err? {
            CloseFails(old(ledger), id, c, closing, skus, i + 1, posted.error);
            ledger := saved;
            return Err(posted.error);
          }
          line := line.(adjustment := Some(posted.value.id));
        } else {
          line := line.(adjustment := None);
        }
        lines := lines[sku := line];
        i := i + 1;
      }
      assert skus[..i] == skus;
      c := c.(closed := true, closer := Some(closing.actor), closedAt := Some(closing.at), reason := closing.reason,
              lines := lines);
      counts := counts[id := c];
      return Ok(c);
    }

    // ---------- sales ----------

    method CollectComponents(cfg: Sale.Config, m: Sale.Movements, event: string, quantity: int,
                             components: seq<Sale.Component>)
      returns (result: Result<Sale.Movements, Sale.Problem>)
      ensures result == Sale.AddComponents(cfg, m, event, quantity, components)
    {
      var sum := m;
      var k := 0;
      while k < |components|
        invariant k <= |components|
        invariant Sale.AddComponents(cfg, m, event, quantity, components[..k]) == Ok(sum)
      {
        assert components[..k + 1][..k] == components[..k];
        if (event, components[k].sku) !in cfg.skus {
          ComponentsFail(cfg, m, event, quantity, components, k + 1, Sale.UnconfiguredComponent);
          return Err(Sale.UnconfiguredComponent);
        }
        sum := Sale.AddMovement(sum, RecipeConsumption, components[k].sku, quantity * components[k].quantity);
        k := k + 1;
      }
      assert components[..k] == components;
      return Ok(sum);
    }

    /** Adds up what the lines take; stops at the first SKU that is not configured. */
    method CollectMovements(cfg: Sale.Config, event: string, lines: seq<Sale.SaleLine>)
      returns (result: Result<Sale.Movements, Sale.Problem>)
      ensures result == Sale.MovementsOf(cfg, event, lines)
    {
      hide Sale.AddComponents;
      var m: Sale.Movements := map[];
      var i := 0;
      while i < |lines|
        invariant i <= |lines|
        invariant Sale.MovementsOf(cfg, event, lines[..i]) == Ok(m)
      {
        var line := lines[i];
        assert lines[..i + 1][..i] == lines[..i];
        var components := Sale.RecipeOf(cfg, event, line.sku);
        if components == [] {
          if (event, line.sku) !in cfg.skus {
            MovementsFail(cfg, event, lines, i + 1, Sale.UnconfiguredSku);
            return Err(Sale.UnconfiguredSku);
          }
          m := Sale.AddMovement(m, InventoryDomain.Sale, line.sku, line.quantity);
        } else {
          var added := CollectComponents(cfg, m, event, line.quantity, components);
          if added.Err? {
            MovementsFail(cfg, event, lines, i + 1, added.error);
            return Err(added.error);
          }
          m := added.value;
        }
        i := i + 1;
      }
      assert lines[..i] == lines;
      return Ok(m);
    }

    method ConsumeSale(cfg: Sale.Config, e: Sale.Envelope, order: seq<Sale.MovementKey>)
      returns (result: Result<Sale.Outcome, Error>)
      requires Sale.PlanOf(cfg, e).Ok? ==> Sale.Ordered(order, Sale.PlanOf(cfg, e).value.movements)
      modifies this`ledger, this`outcomes, this`problems
      ensures match Sale.Consume(old(ledger), cfg, e, order)
        case Err(error) => result == Err(error) && ledger == old(ledger) && outcomes == old(outcomes) && problems == old(problems)
        case Ok(consumed) =>
          && result == Ok(consumed.outcome) && ledger == consumed.ledger
          && outcomes == old(outcomes)[e.instance := consumed.outcome]
          && problems == old(problems)
               + (if consumed.outcome.Excepted? then {(e.instance, consumed.outcome.problem)} else {})
    {
      hide Insert, InsertAll, Sale.MovementsOf;
      var problem: Option<Sale.Problem> := None;
      var m: Sale.Movements := map[];
      if e.sale.None? {
        problem := Some(Sale.InvalidPayload);
      } else if (e.sale.value.event, e.sale.value.salesLocation) !in cfg.mapping {
        problem := Some(Sale.MissingMapping);
      } else {
        var collected := CollectMovements(cfg, e.sale.value.event, e.sale.value.lines);
        if collected.Err? { problem := Some(collected.error); } else { m := collected.value; }
      }
      if problem.Some? {
        problems := problems + {(e.instance, problem.value)};
        outcomes := outcomes[e.instance := Sale.Excepted(problem.value)];
        return Ok(Sale.Excepted(problem.value));
      }
      var sale := e.sale.value;
      var location := cfg.mapping[(sale.event, sale.salesLocation)];
      var written := InsertRows(Sale.SaleInputs(e, sale, location, m, order));
      if written.Err? { return Err(written.error); }
      outcomes := outcomes[e.instance := Sale.Applied];
      return Ok(Sale.Applied);
    }

    /** The events of one request, one transaction each. */
    method ConsumeSales(jobs: seq<Sale.Job>) returns (done: nat)
      requires forall j :: j in jobs ==> j.Valid()
      modifies this`ledger, this`outcomes, this`problems
      ensures (ledger, done) == Sale.ConsumeEach(old(ledger), jobs)
    {
      hide Sale.Consume, Sale.PlanOf;
      done := 0;
      while done < |jobs|
        invariant done <= |jobs|
        invariant (ledger, done) == Sale.ConsumeEach(old(ledger), jobs[..done])
      {
        assert jobs[..done + 1][..done] == jobs[..done];
        assert jobs[done].Valid();
        var result := ConsumeSale(jobs[done].config, jobs[done].envelope, jobs[done].keys);
        if result.Err? {
          Sale.RequestEnds(old(ledger), jobs, done + 1);
          return done;
        }
        done := done + 1;
      }
      assert jobs[..done] == jobs;
    }

    /** The timer's pending sales, one transaction each; one that fails waits for a later round. */
    method ReconcilePendingSales(jobs: seq<Sale.Job>) returns (reconciled: nat)
      requires forall j :: j in jobs ==> j.Valid()
      modifies this`ledger, this`outcomes, this`problems
      ensures (ledger, reconciled) == Sale.ReconcileEach(old(ledger), jobs)
    {
      hide Sale.Consume, Sale.PlanOf;
      reconciled := 0;
      var i := 0;
      while i < |jobs|
        invariant i <= |jobs|
        invariant (ledger, reconciled) == Sale.ReconcileEach(old(ledger), jobs[..i])
      {
        assert jobs[..i + 1][..i] == jobs[..i];
        assert jobs[i].Valid();
        var result := ConsumeSale(jobs[i].config, jobs[i].envelope, jobs[i].keys);
        if result.Ok? { reconciled := reconciled + 1; }
        i := i + 1;
      }
      assert jobs[..i] == jobs;
    }
  }

  // ---------- a refused step refuses the whole transaction ----------

  lemma {:induction false} InsertAllFails(ledger: Ledger, inputs: seq<Input>, n: nat, e: Error)
    requires n <= |inputs| && InsertAll(ledger, inputs[..n]) == Err(e)
    ensures InsertAll(ledger, inputs) == Err(e)
    decreases |inputs| - n
  {
    if n < |inputs| {
      assert inputs[..n + 1][..n] == inputs[..n];
      InsertAllFails(ledger, inputs, n + 1, e);
    } else {
      assert inputs[..n] == inputs;
    }
  }

  lemma {:induction false} CloseFails(ledger: Ledger, id: string, c: StockCounts.Count, closing: StockCounts.Closing,
                                      skus: seq<string>, n: nat, e: Error)
    requires n <= |skus| && forall x :: x in skus ==> x in c.lines
    requires StockCounts.CloseLines(ledger, id, c, closing, skus[..n]) == Err(e)
    ensures StockCounts.CloseLines(ledger, id, c, closing, skus) == Err(e)
    decreases |skus| - n
  {
    if n < |skus| {
      assert skus[..n + 1][..n] == skus[..n];
      CloseFails(ledger, id, c, closing, skus, n + 1, e);
    } else {
      assert skus[..n] == skus;
    }
  }

  lemma {:induction false} MovementsFail(cfg: Sale.Config, event: string, lines: seq<Sale.SaleLine>, n: nat,
                                         p: Sale.Problem)
    requires n <= |lines| && Sale.MovementsOf(cfg, event, lines[..n]) == Err(p)
    ensures Sale.MovementsOf(cfg, event, lines) == Err(p)
    decreases |lines| - n
  {
    if n < |lines| {
      assert lines[..n + 1][..n] == lines[..n];
      MovementsFail(cfg, event, lines, n + 1, p);
    } else {
      assert lines[..n] == lines;
    }
  }

  lemma {:induction false} ComponentsFail(cfg: Sale.Config, m: Sale.Movements, event: string, quantity: int,
                                          components: seq<Sale.Component>, n: nat, p: Sale.Problem)
    requires n <= |components| && Sale.AddComponents(cfg, m, event, quantity, components[..n]) == Err(p)
    ensures Sale.AddComponents(cfg, m, event, quantity, components) == Err(p)
    decreases |components| - n
  {
    if n < |components| {
      assert components[..n + 1][..n] == components[..n];
      ComponentsFail(cfg, m, event, quantity, components, n + 1, p);
    } else {
      assert components[..n] == components;
    }
  }

  lemma {:induction false} NotBefore(q: seq<Quantity>, i: nat)
    requires DistinctSkus(q) && i < |q|
    ensures q[i].sku !in Amounts(q[..i])
  {
    AmountsAt(q[..i]);
    forall x | x in SkusOf(q[..i]) ensures x != q[i].sku {
      var k :| 0 <= k < i && SkusOf(q[..i])[k] == x;
      assert q[k].sku == x;
    }
  }
}
