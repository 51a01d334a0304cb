/**
 Stock transfers: what leaves one location is in transit until it is received at the other.  Each
 function is one transaction on the ledger, the transfers and the receipts; Err rolls all of it back.
 */
module StockTransfers {
  import opened Common
  import opened InventoryDomain
  import opened InventoryLedger

  datatype Line = Line(requested: int, dispatched: int, received: int)

  datatype Transfer = Transfer(
    event: string, source: string, destination: string, state: TransferState, requester: string,
    assignee: Option<string>, reason: string, requestedAt: int, key: string, lines: map<string, Line>)

  datatype Receiving = Receiving(transfer: string, actor: string, at: int, payload: map<string, int>)

  datatype Stock = Stock(ledger: Ledger, transfers: map<string, Transfer>, receipts: map<string, Receiving>)

  datatype Quantity = Quantity(sku: string, amount: int)

  datatype Creation = Creation(
    id: string, event: string, source: string, destination: string, actor: string, reason: string,
    at: int, key: string, lines: seq<Quantity>)

  /** Who asks for a transition, when, and why. */
  datatype Order = Order(actor: string, at: int, reason: Option<string>, assignee: Option<string>)

  // ---------- shared pieces ----------

  predicate DistinctSkus(q: seq<Quantity>) { forall i, j :: 0 <= i < j < |q| ==> q[i].sku != q[j].sku }

  function Amounts(q: seq<Quantity>): map<string, int> {
    if q == [] then map[] else Amounts(q[..|q| - 1])[q[|q| - 1].sku := q[|q| - 1].amount]
  }

  /** `order` lists every member of s once. */
  predicate Enumerates(order: seq<string>, s: set<string>) {
    && (forall x :: x in order ==> x in s) && (forall x :: x in s ==> x in order)
    && (forall i, j :: 0 <= i < j < |order| ==> order[i] != order[j])
  }

  // ---------- create and the simple transitions ----------

  function NewLines(q: seq<Quantity>): map<string, Line> {
    var amounts := Amounts(q);
    map sku | sku in amounts :: Line(amounts[sku], 0, 0)
  }

  function Created(c: Creation): Transfer {
    Transfer(c.event, c.source, c.destination, Requested, c.actor, None, c.reason, c.at, c.key, NewLines(c.lines))
  }

  predicate SameCreate(t: Transfer, c: Creation) {
    && t.event == c.event && t.source == c.source && t.destination == c.destination
    && t.requester == c.actor && t.reason == c.reason && t.requestedAt == c.at
    && t.lines.Keys == Amounts(c.lines).Keys
    && forall sku :: sku in t.lines ==> t.lines[sku].requested == Amounts(c.lines)[sku]
  }

  function Create(s: Stock, c: Creation): Result<Stock, Error> {
    if !DistinctSkus(c.lines) then Err(RepeatedSku)
    else if exists id :: id in s.transfers && s.transfers[id].key == c.key then
      if c.id in s.transfers && s.transfers[c.id].key == c.key && SameCreate(s.transfers[c.id], c) then Ok(s)
      else Err(ContentDiffers)
    else if c.id in s.transfers then Err(ContentDiffers)
    else if c.source == c.destination || exists i :: 0 <= i < |c.lines| && c.lines[i].amount <= 0 then Err(CheckViolated)
    else Ok(s.(transfers := s.transfers[c.id := Created(c)]))
  }

  function Move(s: Stock, id: string, to: TransferState, order: Order): Result<Stock, Error> {
    if id !in s.transfers then Err(NotFound)
    else if to !in TransferSuccessors(s.transfers[id].state) then Err(InvalidTransition)
    else
      var t := s.transfers[id].(state := to);
      Ok(s.(transfers := s.transfers[id := if to == Assigned then t.(assignee := order.assignee) else t]))
  }

  function Assign(s: Stock, id: string, order: Order): Result<Stock, Error> {
    if order.assignee.None? then Err(MissingField) else Move(s, id, Assigned, order)
  }

  function StartPicking(s: Stock, id: string, order: Order): Result<Stock, Error> { Move(s, id, Picking, order) }

  function Cancel(s: Stock, id: string, order: Order): Result<Stock, Error> {
    if order.reason.None? then Err(MissingField) else Move(s, id, Cancelled, order)
  }

  // ---------- dispatch ----------

  function DispatchKey(id: string, sku: string): string { "transfer:" + id + ":dispatch:" + sku }

  function OutInput(id: string, t: Transfer, order: Order, sku: string): Input
    requires sku in t.lines
  {
    Input(None, DispatchKey(id, sku),
          Content(Place(t.event, t.source, sku), TransferOut, -t.lines[sku].requested, "TRANSFER", id,
                  None, Some(order.actor), None, Coalesce(order.reason, Some("transfer dispatch")), order.at, None))
  }

  function OutInputs(id: string, t: Transfer, order: Order, skus: seq<string>): seq<Input>
    requires forall x :: x in skus ==> x in t.lines
  {
    seq(|skus|, k requires 0 <= k < |skus| => OutInput(id, t, order, skus[k]))
  }

  /** The first reason, in the order of the lines, why the transfer cannot leave. */
  function CheckDispatch(ledger: Ledger, t: Transfer, supplied: map<string, int>, skus: seq<string>): Option<Error>
    requires forall x :: x in skus ==> x in t.lines
    decreases |skus|
  {
    if skus == [] then None
    else
      var sku := skus[0];
      if sku !in supplied || supplied[sku] != t.lines[sku].requested then Some(QuantityMismatch)
      else if OnHand(ledger, Place(t.event, t.source, sku)) < t.lines[sku].requested then Some(InsufficientStock)
      else CheckDispatch(ledger, t, supplied, skus[1..])
  }

  function Left(t: Transfer): Transfer {
    t.(state := InTransit, lines := map sku | sku in t.lines :: t.lines[sku].(dispatched := t.lines[sku].requested))
  }

  function Dispatch(s: Stock, id: string, q: seq<Quantity>, order: Order, skus: seq<string>): Result<Stock, Error>
    requires id in s.transfers ==> Enumerates(skus, s.transfers[id].lines.Keys)
  {
    if id !in s.transfers then Err(NotFound)
    else
      var t := s.transfers[id];
      if InTransit !in TransferSuccessors(t.state) then Err(InvalidTransition)
      else if !DistinctSkus(q) then Err(RepeatedSku)
      else if |t.lines| != |q| then Err(QuantityMismatch)
      else
        var refused := CheckDispatch(s.ledger, t, Amounts(q), skus);
        if refused.Some? then Err(refused.value)
        else
          match InsertAll(s.ledger, OutInputs(id, t, order, skus))
          case Err(e) => Err(e)
          case Ok(ledger) => Ok(s.(ledger := ledger, transfers := s.transfers[id := Left(t)]))
  }

  // ---------- receive ----------

  function ReceiptKey(id: string, key: string, sku: string): string {
    "transfer:" + id + ":receipt:" + key + ":" + sku
  }

  function InInput(id: string, t: Transfer, order: Order, key: string, q: Quantity): Input {
    Input(None, ReceiptKey(id, key, q.sku),
          Content(Place(t.event, t.destination, q.sku), TransferIn, q.amount, "TRANSFER", id,
                  None, Some(order.actor), None, Coalesce(order.reason, Some("transfer receipt")), order.at, None))
  }

  function InInputs(id: string, t: Transfer, order: Order, key: string, q: seq<Quantity>): seq<Input> {
    seq(|q|, k requires 0 <= k < |q| => InInput(id, t, order, key, q[k]))
  }

  function CheckReceipt(t: Transfer, q: seq<Quantity>): Option<Error> {
    if q == [] then None
    else if q[0].sku !in t.lines then Some(NotOnTransfer)
    else if q[0].amount > t.lines[q[0].sku].dispatched - t.lines[q[0].sku].received then Some(ExceedsOutstanding)
    else CheckReceipt(t, q[1..])
  }

  function Arrived(t: Transfer, payload: map<string, int>): Transfer {
    var lines := map sku | sku in t.lines ::
      if sku in payload then t.lines[sku].(received := t.lines[sku].received + payload[sku]) else t.lines[sku];
    var complete := forall sku :: sku in lines ==> lines[sku].received == lines[sku].dispatched;
    t.(lines := lines, state := if complete then TransferState.Received else t.state)
  }

  /** `q` is already in the order in which its rows are written. */
  function Receive(s: Stock, id: string, q: seq<Quantity>, order: Order, key: string): Result<Stock, Error> {
    if id !in s.transfers then Err(NotFound)
    else
      var t := s.transfers[id];
      if t.state != InTransit then Err(NotInTransit)
      else if !DistinctSkus(q) then Err(RepeatedSku)
      else
        var receipt := Receiving(id, order.actor, order.at, Amounts(q));
        if key in s.receipts then
          if s.receipts[key] == receipt then Ok(s) else Err(ContentDiffers)
        else
          var refused := CheckReceipt(t, q);
          if refused.Some? then Err(refused.value)
          else
            match InsertAll(s.ledger, InInputs(id, t, order, key, q))
            case Err(e) => Err(e)
            case Ok(ledger) =>
              Ok(Stock(ledger, s.transfers[id := Arrived(t, Amounts(q))], s.receipts[key := receipt]))
  }

  // ---------- what every reachable stock satisfies ----------

  predicate LineOk(state: TransferState, l: Line) {
    && l.requested > 0
    && l.dispatched == (if HasLeft(state) then l.requested else 0)
    && 0 <= l.received <= l.dispatched
    && (state == TransferState.Received ==> l.received == l.dispatched)
  }

  ghost predicate TransfersOk(transfers: map<string, Transfer>) {
    forall id :: id in transfers ==>
      && transfers[id].source != transfers[id].destination
      && forall sku :: sku in transfers[id].lines ==> LineOk(transfers[id].state, transfers[id].lines[sku])
  }

  /** A TRANSFER_OUT row belongs to a transfer that left; a TRANSFER_IN row to a recorded receipt of its transfer. */
  ghost predicate TransferRowOk(transfers: map<string, Transfer>, receipts: map<string, Receiving>, r: Row) {
    && (r.content.kind == TransferOut ==> r.content.sourceId in transfers && HasLeft(transfers[r.content.sourceId].state))
    && (r.content.kind == TransferIn ==>
          exists key :: key in receipts && receipts[key].transfer == r.content.sourceId
                        && r.key == ReceiptKey(r.content.sourceId, key, r.content.place.sku))
  }

  ghost predicate TransferRowsOk(s: Stock) {
    forall r :: r in s.ledger ==> TransferRowOk(s.transfers, s.receipts, r)
  }

  function Of(kind: MovementType, id: string, sku: string): Row -> bool {
    (r: Row) => r.content.kind == kind && r.content.sourceId == id && r.content.place.sku == sku
  }

  function DispatchedOf(transfers: map<string, Transfer>, id: string, sku: string): int {
    if id in transfers && sku in transfers[id].lines then transfers[id].lines[sku].dispatched else 0
  }

  function ReceivedOf(transfers: map<string, Transfer>, id: string, sku: string): int {
    if id in transfers && sku in transfers[id].lines then transfers[id].lines[sku].received else 0
  }

  /** The ledger and the transfer lines tell the same story. */
  ghost predicate SumsOk(s: Stock) {
    forall id, sku ::
      && Total(s.ledger, Of(TransferOut, id, sku)) == -DispatchedOf(s.transfers, id, sku)
      && Total(s.ledger, Of(TransferIn, id, sku)) == ReceivedOf(s.transfers, id, sku)
  }

  ghost predicate StockOk(s: Stock) {
    LedgerOk(s.ledger) && TransfersOk(s.transfers) && TransferRowsOk(s) && SumsOk(s)
  }

  // ---------- composed keys ----------

  lemma {:induction false} CancelPrefix(prefix: string, a: string, b: string)
    requires prefix + a == prefix + b
    ensures a == b
  {
    assert (prefix + a)[|prefix|..] == a && (prefix + b)[|prefix|..] == b;
  }

  lemma {:induction false} CancelSuffix(a: string, b: string, suffix: string)
    requires a + suffix == b + suffix
    ensures a == b
  {
    assert |a| == |b|;
    assert (a + suffix)[..|a|] == a && (b + suffix)[..|b|] == b;
  }

  /** Within one transfer and SKU, the receipt key can be read back from the row's key. */
  lemma {:induction false} ReceiptKeyInjective(id: string, key: string, key': string, sku: string)
    requires ReceiptKey(id, key, sku) == ReceiptKey(id, key', sku)
    ensures key == key'
  {
    var prefix, suffix := "transfer:" + id + ":receipt:", ":" + sku;
    assert ReceiptKey(id, key, sku) == prefix + (key + suffix);
    assert ReceiptKey(id, key', sku) == prefix + (key' + suffix);
    CancelPrefix(prefix, key + suffix, key' + suffix);
    CancelSuffix(key, key', suffix);
  }

  /** Across transfers, composed keys do collide: ids and SKUs may contain ':'. */
  lemma {:induction false} KeysCollide()
    ensures exists id, sku, id', sku' :: id != id' && DispatchKey(id, sku) == DispatchKey(id', sku')
  {
    assert DispatchKey("x", "y:dispatch:z") == DispatchKey("x:dispatch:y", "z");
  }
}
