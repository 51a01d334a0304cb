/** A stock transfer from the request to the last receipt: when each operation goes through, and what it then says. */
module TransferWorkflow {
  import opened Common
  import opened InventoryDomain
  import opened InventoryLedger
  import opened StockTransfers
  import opened StockTransferProofs

  // ---------- create ----------

  /** A new transfer may be requested. */
  ghost predicate Creatable(s: Stock, c: Creation) {
    && c.id !in s.transfers && (forall id :: id in s.transfers ==> s.transfers[id].key != c.key)
    && (forall i, j :: 0 <= i < j < |c.lines| ==> c.lines[i].sku != c.lines[j].sku)
    && c.source != c.destination
    && forall k :: 0 <= k < |c.lines| ==> c.lines[k].amount > 0
  }

  /** The transfer was asked for with exactly these quantities, SKU by SKU. */
  ghost predicate Asks(t: Transfer, q: seq<Quantity>) {
    && (forall k :: 0 <= k < |q| ==> q[k].sku in t.lines && t.lines[q[k].sku].requested == q[k].amount)
    && (forall sku :: sku in t.lines ==> exists k :: 0 <= k < |q| && q[k].sku == sku)
  }

  ghost predicate SaysSame(t: Transfer, c: Creation) {
    && t.event == c.event && t.source == c.source && t.destination == c.destination
    && t.requester == c.actor && t.reason == c.reason && t.requestedAt == c.at && t.key == c.key
    && Asks(t, c.lines)
  }

  /** The new transfer says what was asked for, and nothing has happened to it yet. */
  ghost predicate SaysNew(t: Transfer, c: Creation) {
    && SaysSame(t, c) && t.state == Requested && t.assignee.None?
    && forall sku :: sku in t.lines ==> t.lines[sku].dispatched == 0 && t.lines[sku].received == 0
  }

  lemma {:induction false} AmountsSay(q: seq<Quantity>)
    requires DistinctSkus(q)
    ensures forall k :: 0 <= k < |q| ==> q[k].sku in Amounts(q) && Amounts(q)[q[k].sku] == q[k].amount
    ensures forall sku :: sku in Amounts(q) ==> exists k :: 0 <= k < |q| && q[k].sku == sku
  {
    AmountsAt(q);
    forall sku | sku in Amounts(q) ensures exists k :: 0 <= k < |q| && q[k].sku == sku {
      var k :| 0 <= k < |q| && SkusOf(q)[k] == sku;
      assert q[k].sku == sku;
    }
  }

  lemma {:induction false} CreatedSays(c: Creation)
    requires DistinctSkus(c.lines)
    ensures SaysNew(Created(c), c)
  {
    hide Amounts;
    AmountsSay(c.lines);
  }

  lemma {:induction false} SameCreateSays(t: Transfer, c: Creation)
    requires DistinctSkus(c.lines) && t.key == c.key
    ensures SameCreate(t, c) <==> SaysSame(t, c)
  {
    hide Amounts;
    AmountsSay(c.lines);
  }

  /**
   A transfer is created exactly when id and key are new, the two places differ, no SKU is named twice and
   every quantity is positive; what is stored then says what was asked for.  Asking for the same again
   under the same id and key changes nothing, and everything else is refused.
   */
  lemma {:induction false} CreateCommitsExactlyWhen(s: Stock, c: Creation)
    ensures var result := Create(s, c);
      && (Creatable(s, c) ==>
            && result.Ok? && c.id in result.value.transfers && SaysNew(result.value.transfers[c.id], c)
            && result.value == s.(transfers := s.transfers[c.id := result.value.transfers[c.id]]))
      && (!Creatable(s, c) ==>
            && (result.Ok? ==> result.value == s)
            && (result.Ok? <==> DistinctSkus(c.lines) && c.id in s.transfers && SaysSame(s.transfers[c.id], c)))
  {
    hide Created, SameCreate, SaysSame, SaysNew;
    if DistinctSkus(c.lines) {
      CreatedSays(c);
      if c.id in s.transfers {
        var t := s.transfers[c.id];
        if t.key == c.key { SameCreateSays(t, c); } else { OtherKey(t, c); }
      }
    }
  }

  lemma {:induction false} OtherKey(t: Transfer, c: Creation)
    requires t.key != c.key
    ensures !SaysSame(t, c)
  {
  }

  // ---------- the simple transitions ----------

  /** A requested transfer can be given to somebody, and then says to whom. */
  lemma {:induction false} AssignsExactlyWhen(s: Stock, id: string, order: Order)
    ensures var result := Assign(s, id, order);
      if id in s.transfers && s.transfers[id].state == Requested && order.assignee.Some? then
        result == Ok(s.(transfers := s.transfers[id :=
          s.transfers[id].(state := Assigned, assignee := order.assignee)]))
      else result.Err?
  {
  }

  lemma {:induction false} PicksExactlyWhen(s: Stock, id: string, order: Order)
    ensures var result := StartPicking(s, id, order);
      if id in s.transfers && s.transfers[id].state == Assigned then
        result == Ok(s.(transfers := s.transfers[id := s.transfers[id].(state := Picking)]))
      else result.Err?
  {
  }

  /** A transfer can be given up, for a reason, as long as nothing has left. */
  lemma {:induction false} CancelsExactlyWhen(s: Stock, id: string, order: Order)
    ensures var result := Cancel(s, id, order);
      if id in s.transfers && s.transfers[id].state in {Requested, Assigned, Picking} && order.reason.Some? then
        result == Ok(s.(transfers := s.transfers[id := s.transfers[id].(state := Cancelled)]))
      else result.Err?
  {
  }

  // ---------- what a dispatch and a receipt say ----------

  /** After a dispatch everything asked for is under way and nothing has arrived. */
  lemma {:induction false} LeftSays(t: Transfer)
    ensures Left(t).state == InTransit && Left(t).lines.Keys == t.lines.Keys
    ensures forall sku :: sku in t.lines ==> Left(t).lines[sku] == t.lines[sku].(dispatched := t.lines[sku].requested)
    ensures Left(t) == t.(state := InTransit, lines := Left(t).lines)
  {
  }

  /** A receipt adds what it names, and the transfer is received exactly when nothing is outstanding. */
  lemma {:induction false} ArrivedSays(t: Transfer, q: seq<Quantity>)
    requires DistinctSkus(q) && t.state == InTransit
    ensures var after := Arrived(t, Amounts(q));
      && after.lines.Keys == t.lines.Keys
      && (forall sku :: sku in t.lines ==>
            && after.lines[sku] == t.lines[sku].(received := after.lines[sku].received)
            && (forall k :: 0 <= k < |q| && q[k].sku == sku ==>
                  after.lines[sku].received == t.lines[sku].received + q[k].amount)
            && ((forall k :: 0 <= k < |q| ==> q[k].sku != sku) ==> after.lines[sku].received == t.lines[sku].received))
      && after == t.(lines := after.lines, state := after.state)
      && after.state == if forall sku :: sku in t.lines ==> after.lines[sku].received == t.lines[sku].dispatched
                        then TransferState.Received else InTransit
  {
    hide Amounts;
    AmountsSay(q);
  }

  // ---------- from request to receipt ----------

  /** A transfer that has been asked for, assigned and picked: the stock of every place is as it was. */
  function Picked(s: Stock, c: Creation, assign: Order, pick: Order): Result<Stock, Error> {
    match Create(s, c)
    case Err(e) => Err(e)
    case Ok(created) =>
      match Assign(created, c.id, assign)
      case Err(e) => Err(e)
      case Ok(given) => StartPicking(given, c.id, pick)
  }

  lemma {:induction false} PickedSays(s: Stock, c: Creation, assign: Order, pick: Order)
    requires Creatable(s, c) && assign.assignee.Some?
    ensures var result := Picked(s, c, assign, pick);
      && result.Ok? && result.value == s.(transfers := result.value.transfers)
      && c.id in result.value.transfers && c.id !in s.transfers
      && var t := result.value.transfers[c.id];
      && result.value.transfers == s.transfers[c.id := t]
      && SaysSame(t, c) && t.state == Picking && t.assignee == assign.assignee
      && forall sku :: sku in t.lines ==> t.lines[sku].dispatched == 0 && t.lines[sku].received == 0
  {
    hide Create, Assign, StartPicking;
    CreateCommitsExactlyWhen(s, c);
    var created := Create(s, c).value;
    AssignsExactlyWhen(created, c.id, assign);
    PicksExactlyWhen(Assign(created, c.id, assign).value, c.id, pick);
  }

  lemma {:induction false} PickedKeeps(s: Stock, c: Creation, assign: Order, pick: Order)
    requires StockOk(s) && Conserved(s.ledger, s.transfers) && Picked(s, c, assign, pick).Ok?
    ensures var picked := Picked(s, c, assign, pick).value;
      StockOk(picked) && Conserved(picked.ledger, picked.transfers)
  {
    hide StockOk, Conserved, Create, Move;
    CreateKeeps(s, c);
    var created := Create(s, c).value;
    MoveKeeps(created, c.id, Assigned, assign);
    MoveKeeps(Assign(created, c.id, assign).value, c.id, Picking, pick);
  }

  /** How much of a SKU was asked for. */
  function AskedFor(q: seq<Quantity>, sku: string): int {
    if q == [] then 0
    else if q[0].sku == sku then q[0].amount
    else AskedFor(q[1..], sku)
  }

  lemma {:induction false} AskedIs(q: seq<Quantity>, sku: string)
    requires DistinctSkus(q)
    ensures AskedFor(q, sku) == if sku in Amounts(q) then Amounts(q)[sku] else 0
  {
    AmountsSay(q);
    AskedFinds(q, sku);
  }

  lemma {:induction false} AskedFinds(q: seq<Quantity>, sku: string)
    requires DistinctSkus(q)
    ensures forall k :: 0 <= k < |q| && q[k].sku == sku ==> AskedFor(q, sku) == q[k].amount
    ensures (forall k :: 0 <= k < |q| ==> q[k].sku != sku) ==> AskedFor(q, sku) == 0
  {
    if q != [] && q[0].sku != sku {
      AskedFinds(q[1..], sku);
      assert forall k :: 0 < k < |q| ==> q[k] == q[1..][k - 1];
    }
  }

  /**
   A transfer asked for, assigned, picked, dispatched and received in full takes every quantity asked for
   from the place the request names as its source and brings it to the one it names as its destination.
   No other stock changes, and the transfer is received.
   */
  lemma {:induction false} TransferMovesRequested(s: Stock, c: Creation, assign: Order, pick: Order, leave: Order,
                                                  arrive: Order, skus: seq<string>, key: string, place: Place)
    requires StockOk(s) && Conserved(s.ledger, s.transfers) && key !in s.receipts
    requires Creatable(s, c) && assign.assignee.Some? && Picked(s, c, assign, pick).Ok?
    requires (PickedSays(s, c, assign, pick);
              Enumerates(skus, Picked(s, c, assign, pick).value.transfers[c.id].lines.Keys))
    requires Dispatch(Picked(s, c, assign, pick).value, c.id, c.lines, leave, skus).Ok?
    requires Receive(Dispatch(Picked(s, c, assign, pick).value, c.id, c.lines, leave, skus).value,
                     c.id, c.lines, arrive, key).Ok?
    ensures var after := Receive(Dispatch(Picked(s, c, assign, pick).value, c.id, c.lines, leave, skus).value,
                                 c.id, c.lines, arrive, key).value;
      && c.id in after.transfers && after.transfers[c.id].state == TransferState.Received
      && OnHand(after.ledger, place) == OnHand(s.ledger, place)
           - (if place.event == c.event && place.location == c.source then AskedFor(c.lines, place.sku) else 0)
           + (if place.event == c.event && place.location == c.destination then AskedFor(c.lines, place.sku) else 0)
  {
    hide StockOk, Conserved, Picked, Dispatch, Receive, OnHand, Amounts, AskedFor, Left, Arrived;
    PickedSays(s, c, assign, pick);
    PickedKeeps(s, c, assign, pick);
    var picked := Picked(s, c, assign, pick).value;
    DispatchKeeps(picked, c.id, c.lines, leave, skus);
    DispatchAppends(picked, c.id, c.lines, leave, skus);
    DispatchEffect(picked, c.id, c.lines, leave, skus, place);
    var left := Dispatch(picked, c.id, c.lines, leave, skus).value;
    LeftSays(picked.transfers[c.id]);
    ReceiveAppends(left, c.id, c.lines, arrive, key);
    ReceiveEffect(left, c.id, c.lines, arrive, key, place);
    ArrivedSays(left.transfers[c.id], c.lines);
    AskedIs(c.lines, place.sku);
    AmountsSay(c.lines);
  }
}
