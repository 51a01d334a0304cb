/** What dispatching and receiving do to the ledger, and what every transfer operation keeps. */
module StockTransferProofs {
  import opened InventoryDomain
  import opened InventoryLedger
  import opened StockTransfers
  import Sums

  // ---------- sums over a batch ----------

  predicate OfSku(event: string, sku: string, r: Row) { r.content.place.event == event && r.content.place.sku == sku }

  function Everywhere(event: string, sku: string): Row -> bool { (r: Row) => OfSku(event, sku, r) }

  function Moved(event: string, sku: string): Row -> bool {
    (r: Row) => OfSku(event, sku, r) && r.content.kind != TransferOut && r.content.kind != TransferIn
  }

  function TransitOf(t: Transfer, event: string, sku: string): int {
    if t.event == event && sku in t.lines then t.lines[sku].dispatched - t.lines[sku].received else 0
  }

  function TransitFor(transfers: map<string, Transfer>, event: string, sku: string): string -> int {
    (id: string) => if id in transfers then TransitOf(transfers[id], event, sku) else 0
  }

  ghost function Transit(transfers: map<string, Transfer>, event: string, sku: string): int {
    Sums.Over(transfers.Keys, TransitFor(transfers, event, sku))
  }

  /** Stock at all locations, plus stock between them, is what non-transfer movements brought in. */
  ghost predicate Conserved(ledger: Ledger, transfers: map<string, Transfer>) {
    forall event, sku ::
      Total(ledger, Everywhere(event, sku)) + Transit(transfers, event, sku) == Total(ledger, Moved(event, sku))
  }

  /** p looks only at the content of a row, and only accepts rows of this SKU. */
  ghost predicate AboutSku(p: Row -> bool, sku: string) {
    && (forall r: Row :: p(r) ==> r.content.place.sku == sku)
    && (forall r: Row, r': Row :: r.content == r'.content ==> p(r) == p(r'))
  }

  /** Batch rows are told apart by their SKU, so at most one of them contributes to a sum about one SKU. */
  lemma {:induction false} BatchTotal(first: nat, inputs: seq<Input>, skus: seq<string>, p: Row -> bool, sku: string)
    requires |inputs| == |skus| && forall k :: 0 <= k < |inputs| ==> inputs[k].content.place.sku == skus[k]
    requires forall i, j :: 0 <= i < j < |skus| ==> skus[i] != skus[j]
    requires AboutSku(p, sku)
    ensures sku !in skus ==> Total(RowsOf(first, inputs), p) == 0
    ensures forall k :: 0 <= k < |skus| && skus[k] == sku ==>
      Total(RowsOf(first, inputs), p) == if p(RowsOf(first, inputs)[k]) then inputs[k].content.delta else 0
  {
    var rows := RowsOf(first, inputs);
    forall j | 0 <= j < |rows| && skus[j] != sku ensures !p(rows[j]) { }
    if sku in skus {
      var k :| 0 <= k < |skus| && skus[k] == sku;
      if p(rows[k]) { TotalSingle(rows, p, k); } else { TotalNone(rows, p); }
    } else {
      TotalNone(rows, p);
    }
  }

  // ---------- dispatch ----------

  lemma {:induction false} OutBatch(id: string, t: Transfer, order: Order, skus: seq<string>)
    requires Enumerates(skus, t.lines.Keys)
    ensures Batch(OutInputs(id, t, order, skus))
  {
    var inputs := OutInputs(id, t, order, skus);
    forall j, k | 0 <= j < k < |inputs| ensures inputs[j].content != inputs[k].content {
      assert inputs[j].content.place.sku == skus[j] && inputs[k].content.place.sku == skus[k];
    }
  }

  /** A dispatch that commits has written each of its own rows exactly once, after everything that was there. */
  lemma {:induction false} DispatchAppends(s: Stock, id: string, q: seq<Quantity>, order: Order, skus: seq<string>)
    requires StockOk(s) && (id in s.transfers ==> Enumerates(skus, s.transfers[id].lines.Keys))
    requires Dispatch(s, id, q, order, skus).Ok?
    ensures id in s.transfers && !HasLeft(s.transfers[id].state)
    ensures var s' := Dispatch(s, id, q, order, skus).value;
      && s'.ledger == s.ledger + RowsOf(|s.ledger|, OutInputs(id, s.transfers[id], order, skus))
      && LedgerOk(s'.ledger)
      && s' == s.(ledger := s'.ledger, transfers := s.transfers[id := Left(s.transfers[id])])
  {
    hide SumsOk, LedgerOk, Batch, TransfersOk;
    var t := s.transfers[id];
    var inputs := OutInputs(id, t, order, skus);
    OutBatch(id, t, order, skus);
    assert InsertAll(s.ledger, inputs).Ok?;
    forall k | 0 <= k < |inputs| ensures !AlreadyThere(s.ledger, inputs[k]) {
      forall r | r in s.ledger ensures r.content != inputs[k].content { assert TransferRowOk(s.transfers, s.receipts, r); }
    }
    BatchAppends(s.ledger, inputs);
  }

  lemma {:induction false} OutTotal(first: nat, id: string, t: Transfer, order: Order, skus: seq<string>,
                                    p: Row -> bool, sku: string)
    requires Enumerates(skus, t.lines.Keys) && AboutSku(p, sku)
    ensures var rows := RowsOf(first, OutInputs(id, t, order, skus));
      && (sku !in t.lines ==> Total(rows, p) == 0)
      && (sku in t.lines ==>
            var r := Row(Random(first), "", OutInput(id, t, order, sku).content);
            Total(rows, p) == if p(r) then -t.lines[sku].requested else 0)
  {
    var inputs := OutInputs(id, t, order, skus);
    BatchTotal(first, inputs, skus, p, sku);
    if sku in t.lines {
      var k :| 0 <= k < |skus| && skus[k] == sku;
      assert RowsOf(first, inputs)[k].content == OutInput(id, t, order, sku).content;
    }
  }

  lemma {:induction false} CheckDispatchCovers(ledger: Ledger, t: Transfer, supplied: map<string, int>,
                                               skus: seq<string>)
    requires forall x :: x in skus ==> x in t.lines
    ensures CheckDispatch(ledger, t, supplied, skus).None? <==>
      forall x :: x in skus ==>
        && x in supplied && supplied[x] == t.lines[x].requested
        && OnHand(ledger, Place(t.event, t.source, x)) >= t.lines[x].requested
    decreases |skus|
  {
    if skus != [] { CheckDispatchCovers(ledger, t, supplied, skus[1..]); }
  }

  /** The source gives up exactly the requested quantities and stays at or above zero; no other stock changes. */
  lemma {:induction false} DispatchEffect(s: Stock, id: string, q: seq<Quantity>, order: Order, skus: seq<string>,
                                          place: Place)
    requires StockOk(s) && (id in s.transfers ==> Enumerates(skus, s.transfers[id].lines.Keys))
    requires Dispatch(s, id, q, order, skus).Ok?
    ensures var s' := Dispatch(s, id, q, order, skus).value;
      id in s.transfers
      && var t := s.transfers[id];
      if place.event == t.event && place.location == t.source && place.sku in t.lines
      then OnHand(s'.ledger, place) == OnHand(s.ledger, place) - t.lines[place.sku].requested >= 0
      else OnHand(s'.ledger, place) == OnHand(s.ledger, place)
  {
    hide StockOk, InsertAll;
    DispatchAppends(s, id, q, order, skus);
    var t := s.transfers[id];
    CheckDispatchCovers(s.ledger, t, Amounts(q), skus);
    TotalSplit(s.ledger, RowsOf(|s.ledger|, OutInputs(id, t, order, skus)), At(place));
    OutTotal(|s.ledger|, id, t, order, skus, At(place), place.sku);
  }

  // ---------- receive ----------

  function SkusOf(q: seq<Quantity>): seq<string> { seq(|q|, k requires 0 <= k < |q| => q[k].sku) }

  lemma {:induction false} AmountsAt(q: seq<Quantity>)
    requires DistinctSkus(q)
    ensures forall k :: 0 <= k < |q| ==> q[k].sku in Amounts(q) && Amounts(q)[q[k].sku] == q[k].amount
    ensures forall x :: x in Amounts(q) ==> x in SkusOf(q)
  {
    if q != [] {
      var n := |q| - 1;
      AmountsAt(q[..n]);
      forall x | x in Amounts(q) ensures x in SkusOf(q) {
        if x == q[n].sku {
          assert SkusOf(q)[n] == x;
        } else {
          var k :| 0 <= k < n && SkusOf(q[..n])[k] == x;
          assert SkusOf(q)[k] == x;
        }
      }
    }
  }

  lemma {:induction false} InBatch(id: string, t: Transfer, order: Order, key: string, q: seq<Quantity>)
    requires DistinctSkus(q)
    ensures Batch(InInputs(id, t, order, key, q))
  {
    var inputs := InInputs(id, t, order, key, q);
    forall j, k | 0 <= j < k < |inputs| ensures inputs[j].content != inputs[k].content {
      assert inputs[j].content.place.sku == q[j].sku && inputs[k].content.place.sku == q[k].sku;
    }
  }

  predicate Replayed(s: Stock, key: string) { key in s.receipts }

  /** A receipt that commits is a replay that changes nothing, or has written each of its own rows exactly once. */
  lemma {:induction false} ReceiveAppends(s: Stock, id: string, q: seq<Quantity>, order: Order, key: string)
    requires StockOk(s) && Receive(s, id, q, order, key).Ok?
    ensures id in s.transfers && s.transfers[id].state == InTransit && DistinctSkus(q)
    ensures var s' := Receive(s, id, q, order, key).value;
      if Replayed(s, key) then s' == s
      else
        && s' == Stock(s'.ledger, s.transfers[id := Arrived(s.transfers[id], Amounts(q))],
                       s.receipts[key := Receiving(id, order.actor, order.at, Amounts(q))])
        && s'.ledger == s.ledger + RowsOf(|s.ledger|, InInputs(id, s.transfers[id], order, key, q))
        && LedgerOk(s'.ledger) && CheckReceipt(s.transfers[id], q).None?
  {
    hide SumsOk, LedgerOk, Batch, TransfersOk, ReceiptKey, Arrived;
    var t := s.transfers[id];
    if !Replayed(s, key) {
      var inputs := InInputs(id, t, order, key, q);
      InBatch(id, t, order, key, q);
      assert InsertAll(s.ledger, inputs).Ok?;
      forall k | 0 <= k < |inputs| ensures !AlreadyThere(s.ledger, inputs[k]) {
        forall r | r in s.ledger && r.content == inputs[k].content ensures r.key != inputs[k].key {
          assert TransferRowOk(s.transfers, s.receipts, r);
          var key' :| key' in s.receipts && s.receipts[key'].transfer == id && r.key == ReceiptKey(id, key', q[k].sku);
          if r.key == inputs[k].key { ReceiptKeyInjective(id, key, key', q[k].sku); }
        }
      }
      BatchAppends(s.ledger, inputs);
    }
  }

  lemma {:induction false} InTotal(first: nat, id: string, t: Transfer, order: Order, key: string, q: seq<Quantity>,
                                   p: Row -> bool, sku: string)
    requires DistinctSkus(q) && AboutSku(p, sku)
    ensures var rows := RowsOf(first, InInputs(id, t, order, key, q));
      && (sku !in Amounts(q) ==> Total(rows, p) == 0)
      && (sku in Amounts(q) ==>
            var r := Row(Random(first), "", InInput(id, t, order, key, Quantity(sku, Amounts(q)[sku])).content);
            Total(rows, p) == if p(r) then Amounts(q)[sku] else 0)
  {
    var inputs := InInputs(id, t, order, key, q);
    AmountsAt(q);
    BatchTotal(first, inputs, SkusOf(q), p, sku);
    if sku in Amounts(q) {
      var k :| 0 <= k < |q| && SkusOf(q)[k] == sku;
      assert q[k] == Quantity(sku, Amounts(q)[sku]);
      assert RowsOf(first, inputs)[k].content == InInput(id, t, order, key, q[k]).content;
    } else {
      forall x | x in SkusOf(q) ensures x in Amounts(q) {
        var k :| 0 <= k < |q| && SkusOf(q)[k] == x;
        assert q[k].sku == x;
      }
    }
  }

  lemma {:induction false} CheckReceiptCovers(t: Transfer, q: seq<Quantity>)
    ensures CheckReceipt(t, q).None? <==>
      forall k :: 0 <= k < |q| ==>
        && q[k].sku in t.lines && q[k].amount <= t.lines[q[k].sku].dispatched - t.lines[q[k].sku].received
  {
    if q != [] {
      CheckReceiptCovers(t, q[1..]);
      assert forall k :: 0 <= k < |q| - 1 ==> q[1..][k] == q[k + 1];
      assert forall k :: 0 < k < |q| ==> q[k] == q[1..][k - 1];
    }
  }

  /** The destination gains exactly the received quantities; no other stock changes. */
  lemma {:induction false} ReceiveEffect(s: Stock, id: string, q: seq<Quantity>, order: Order, key: string,
                                         place: Place)
    requires StockOk(s) && Receive(s, id, q, order, key).Ok?
    ensures var s' := Receive(s, id, q, order, key).value;
      id in s.transfers
      && var t := s.transfers[id];
      OnHand(s'.ledger, place) == OnHand(s.ledger, place) +
        if !Replayed(s, key) && place.event == t.event && place.location == t.destination && place.sku in Amounts(q)
        then Amounts(q)[place.sku] else 0
  {
    hide StockOk, InsertAll, Arrived;
    ReceiveAppends(s, id, q, order, key);
    var t := s.transfers[id];
    if !Replayed(s, key) {
      TotalSplit(s.ledger, RowsOf(|s.ledger|, InInputs(id, t, order, key, q)), At(place));
      InTotal(|s.ledger|, id, t, order, key, q, At(place), place.sku);
    }
  }

  // ---------- every operation keeps the books ----------

  lemma {:induction false} TransitUpdate(transfers: map<string, Transfer>, id: string, t: Transfer, event: string,
                                         sku: string)
    ensures Transit(transfers[id := t], event, sku) ==
      Transit(transfers, event, sku) + TransitOf(t, event, sku)
        - (if id in transfers then TransitOf(transfers[id], event, sku) else 0)
  {
    var after := transfers[id := t];
    var f, g := TransitFor(transfers, event, sku), TransitFor(after, event, sku);
    Sums.Split(after.Keys, id, g);
    assert after.Keys - {id} == transfers.Keys - {id};
    Sums.Same(transfers.Keys - {id}, f, g);
    if id in transfers {
      Sums.Split(transfers.Keys, id, f);
    } else {
      assert transfers.Keys - {id} == transfers.Keys;
    }
  }

  /** Rows of other kinds leave the transfer books balanced. */
  lemma {:induction false} OtherRowsKeep(s: Stock, rows: Ledger)
    requires StockOk(s) && Conserved(s.ledger, s.transfers) && LedgerOk(s.ledger + rows)
    requires forall r :: r in rows ==> r.content.kind != TransferOut && r.content.kind != TransferIn
    ensures StockOk(s.(ledger := s.ledger + rows)) && Conserved(s.ledger + rows, s.transfers)
  {
    hide LedgerOk, Transit, TransfersOk;
    forall id, sku
      ensures Total(s.ledger + rows, Of(TransferOut, id, sku)) == Total(s.ledger, Of(TransferOut, id, sku))
      ensures Total(s.ledger + rows, Of(TransferIn, id, sku)) == Total(s.ledger, Of(TransferIn, id, sku))
    {
      TotalSplit(s.ledger, rows, Of(TransferOut, id, sku));
      TotalSplit(s.ledger, rows, Of(TransferIn, id, sku));
      TotalNone(rows, Of(TransferOut, id, sku));
      TotalNone(rows, Of(TransferIn, id, sku));
    }
    forall event, sku
      ensures Total(s.ledger + rows, Everywhere(event, sku)) + Transit(s.transfers, event, sku)
           == Total(s.ledger + rows, Moved(event, sku))
    {
      TotalSplit(s.ledger, rows, Everywhere(event, sku));
      TotalSplit(s.ledger, rows, Moved(event, sku));
      TotalAgree(rows, Everywhere(event, sku), Moved(event, sku));
    }
  }

  /** Changing one transfer without moving stock. */
  lemma {:induction false} ReplaceKeeps(s: Stock, id: string, t: Transfer)
    requires StockOk(s) && Conserved(s.ledger, s.transfers)
    requires t.source != t.destination && forall sku :: sku in t.lines ==> LineOk(t.state, t.lines[sku])
    requires if id in s.transfers
      then t.lines == s.transfers[id].lines && t.event == s.transfers[id].event
           && (HasLeft(s.transfers[id].state) ==> HasLeft(t.state))
      else forall sku :: sku in t.lines ==> t.lines[sku].dispatched == t.lines[sku].received == 0
    ensures StockOk(s.(transfers := s.transfers[id := t])) && Conserved(s.ledger, s.transfers[id := t])
  {
    hide LedgerOk, Transit;
    var s' := s.(transfers := s.transfers[id := t]);
    forall r | r in s'.ledger ensures TransferRowOk(s'.transfers, s'.receipts, r) {
      assert TransferRowOk(s.transfers, s.receipts, r);
    }
    forall event, sku
      ensures Total(s.ledger, Everywhere(event, sku)) + Transit(s'.transfers, event, sku)
           == Total(s.ledger, Moved(event, sku))
    {
      TransitUpdate(s.transfers, id, t, event, sku);
    }
  }

  lemma {:induction false} CreateKeeps(s: Stock, c: Creation)
    requires StockOk(s) && Conserved(s.ledger, s.transfers) && Create(s, c).Ok?
    ensures StockOk(Create(s, c).value) && Conserved(Create(s, c).value.ledger, Create(s, c).value.transfers)
  {
    hide StockOk, Conserved;
    if c.id !in s.transfers {
      AmountsAt(c.lines);
      forall sku | sku in Created(c).lines ensures Created(c).lines[sku].requested > 0 {
        var k :| 0 <= k < |c.lines| && SkusOf(c.lines)[k] == sku;
        assert c.lines[k].amount > 0;
      }
      ReplaceKeeps(s, c.id, Created(c));
    }
  }

  lemma {:induction false} MoveKeeps(s: Stock, id: string, to: TransferState, order: Order)
    requires StockOk(s) && Conserved(s.ledger, s.transfers) && Move(s, id, to, order).Ok?
    requires !HasLeft(to)
    ensures StockOk(Move(s, id, to, order).value)
    ensures Move(s, id, to, order).value.ledger == s.ledger
    ensures Conserved(s.ledger, Move(s, id, to, order).value.transfers)
  {
    hide LedgerOk, TransferRowsOk, SumsOk, Conserved;
    LeavingIsFinal(s.transfers[id].state, to);
    ReplaceKeeps(s, id, Move(s, id, to, order).value.transfers[id]);
  }

  lemma {:induction false} DispatchSums(s: Stock, id: string, q: seq<Quantity>, order: Order, skus: seq<string>)
    requires StockOk(s) && (id in s.transfers ==> Enumerates(skus, s.transfers[id].lines.Keys))
    requires Dispatch(s, id, q, order, skus).Ok?
    ensures SumsOk(Dispatch(s, id, q, order, skus).value)
  {
    hide LedgerOk, TransferRowsOk, Dispatch, RowsOf, OutInputs, Total;
    DispatchAppends(s, id, q, order, skus);
    var t, s' := s.transfers[id], Dispatch(s, id, q, order, skus).value;
    var rows := RowsOf(|s.ledger|, OutInputs(id, t, order, skus));
    forall id', sku
      ensures Total(s'.ledger, Of(TransferOut, id', sku)) == -DispatchedOf(s'.transfers, id', sku)
      ensures Total(s'.ledger, Of(TransferIn, id', sku)) == ReceivedOf(s'.transfers, id', sku)
    {
      TotalSplit(s.ledger, rows, Of(TransferOut, id', sku));
      TotalSplit(s.ledger, rows, Of(TransferIn, id', sku));
      OutTotal(|s.ledger|, id, t, order, skus, Of(TransferOut, id', sku), sku);
      OutTotal(|s.ledger|, id, t, order, skus, Of(TransferIn, id', sku), sku);
    }
  }

  lemma {:induction false} DispatchConserves(s: Stock, id: string, q: seq<Quantity>, order: Order, skus: seq<string>)
    requires StockOk(s) && Conserved(s.ledger, s.transfers)
    requires id in s.transfers ==> Enumerates(skus, s.transfers[id].lines.Keys)
    requires Dispatch(s, id, q, order, skus).Ok?
    ensures var s' := Dispatch(s, id, q, order, skus).value; Conserved(s'.ledger, s'.transfers)
  {
    hide LedgerOk, TransferRowsOk, SumsOk, Dispatch, Transit, RowsOf, OutInputs, Total;
    DispatchAppends(s, id, q, order, skus);
    var t, s' := s.transfers[id], Dispatch(s, id, q, order, skus).value;
    var rows := RowsOf(|s.ledger|, OutInputs(id, t, order, skus));
    forall event, sku
      ensures Total(s'.ledger, Everywhere(event, sku)) + Transit(s'.transfers, event, sku)
           == Total(s'.ledger, Moved(event, sku))
    {
      TotalSplit(s.ledger, rows, Everywhere(event, sku));
      TotalSplit(s.ledger, rows, Moved(event, sku));
      OutTotal(|s.ledger|, id, t, order, skus, Everywhere(event, sku), sku);
      OutTotal(|s.ledger|, id, t, order, skus, Moved(event, sku), sku);
      TransitUpdate(s.transfers, id, Left(t), event, sku);
    }
  }

  lemma {:induction false} DispatchKeeps(s: Stock, id: string, q: seq<Quantity>, order: Order, skus: seq<string>)
    requires StockOk(s) && Conserved(s.ledger, s.transfers)
    requires id in s.transfers ==> Enumerates(skus, s.transfers[id].lines.Keys)
    requires Dispatch(s, id, q, order, skus).Ok?
    ensures var s' := Dispatch(s, id, q, order, skus).value; StockOk(s') && Conserved(s'.ledger, s'.transfers)
  {
    hide LedgerOk, SumsOk, Dispatch, Conserved;
    DispatchAppends(s, id, q, order, skus);
    DispatchSums(s, id, q, order, skus);
    DispatchConserves(s, id, q, order, skus);
    var t, s' := s.transfers[id], Dispatch(s, id, q, order, skus).value;
    forall r | r in s'.ledger ensures TransferRowOk(s'.transfers, s'.receipts, r) {
      if r in s.ledger { assert TransferRowOk(s.transfers, s.receipts, r); }
    }
  }

  lemma {:induction false} ReceiveSums(s: Stock, id: string, q: seq<Quantity>, order: Order, key: string)
    requires StockOk(s) && Receive(s, id, q, order, key).Ok? && !Replayed(s, key)
    ensures SumsOk(Receive(s, id, q, order, key).value)
  {
    hide LedgerOk, TransferRowsOk, Receive, ReceiptKey, TransfersOk, RowsOf, InInputs, Total;
    ReceiveAppends(s, id, q, order, key);
    var t, s' := s.transfers[id], Receive(s, id, q, order, key).value;
    var rows := RowsOf(|s.ledger|, InInputs(id, t, order, key, q));
    ReceivedLines(t, q);
    forall id', sku
      ensures Total(s'.ledger, Of(TransferOut, id', sku)) == -DispatchedOf(s'.transfers, id', sku)
      ensures Total(s'.ledger, Of(TransferIn, id', sku)) == ReceivedOf(s'.transfers, id', sku)
    {
      TotalSplit(s.ledger, rows, Of(TransferOut, id', sku));
      TotalSplit(s.ledger, rows, Of(TransferIn, id', sku));
      InTotal(|s.ledger|, id, t, order, key, q, Of(TransferOut, id', sku), sku);
      InTotal(|s.ledger|, id, t, order, key, q, Of(TransferIn, id', sku), sku);
    }
  }

  /** Every received SKU is on the transfer and fits into what is outstanding. */
  lemma {:induction false} ReceivedLines(t: Transfer, q: seq<Quantity>)
    requires DistinctSkus(q) && CheckReceipt(t, q).None?
    ensures forall sku :: sku in Amounts(q) ==>
      sku in t.lines && Amounts(q)[sku] <= t.lines[sku].dispatched - t.lines[sku].received
  {
    AmountsAt(q);
    CheckReceiptCovers(t, q);
    forall sku | sku in Amounts(q)
      ensures sku in t.lines && Amounts(q)[sku] <= t.lines[sku].dispatched - t.lines[sku].received
    {
      var k :| 0 <= k < |q| && SkusOf(q)[k] == sku;
      assert q[k].sku == sku;
    }
  }

  lemma {:induction false} ReceiveConserves(s: Stock, id: string, q: seq<Quantity>, order: Order, key: string)
    requires StockOk(s) && Conserved(s.ledger, s.transfers)
    requires Receive(s, id, q, order, key).Ok? && !Replayed(s, key)
    ensures var s' := Receive(s, id, q, order, key).value; Conserved(s'.ledger, s'.transfers)
  {
    hide LedgerOk, TransferRowsOk, SumsOk, Receive, Transit, ReceiptKey, TransfersOk, RowsOf, InInputs, Total;
    ReceiveAppends(s, id, q, order, key);
    var t, s' := s.transfers[id], Receive(s, id, q, order, key).value;
    var rows := RowsOf(|s.ledger|, InInputs(id, t, order, key, q));
    ReceivedLines(t, q);
    forall event, sku
      ensures Total(s'.ledger, Everywhere(event, sku)) + Transit(s'.transfers, event, sku)
           == Total(s'.ledger, Moved(event, sku))
    {
      TotalSplit(s.ledger, rows, Everywhere(event, sku));
      TotalSplit(s.ledger, rows, Moved(event, sku));
      InTotal(|s.ledger|, id, t, order, key, q, Everywhere(event, sku), sku);
      InTotal(|s.ledger|, id, t, order, key, q, Moved(event, sku), sku);
      TransitUpdate(s.transfers, id, Arrived(t, Amounts(q)), event, sku);
    }
  }

  /** What arrives is positive, so the received quantities stay between zero and what was dispatched. */
  lemma {:induction false} ArrivedOk(s: Stock, id: string, q: seq<Quantity>, order: Order, key: string)
    requires id in s.transfers && DistinctSkus(q) && CheckReceipt(s.transfers[id], q).None?
    requires s.transfers[id].state == InTransit
    requires forall sku :: sku in s.transfers[id].lines ==> LineOk(InTransit, s.transfers[id].lines[sku])
    requires LedgerOk(s.ledger + RowsOf(|s.ledger|, InInputs(id, s.transfers[id], order, key, q)))
    ensures var t := Arrived(s.transfers[id], Amounts(q));
      HasLeft(t.state) && forall sku :: sku in t.lines ==> LineOk(t.state, t.lines[sku])
  {
    var t := s.transfers[id];
    var rows := RowsOf(|s.ledger|, InInputs(id, t, order, key, q));
    ReceivedLines(t, q);
    AmountsAt(q);
    forall sku | sku in Amounts(q) ensures Amounts(q)[sku] > 0 {
      var k :| 0 <= k < |q| && SkusOf(q)[k] == sku;
      assert q[k].sku == sku;
      assert (s.ledger + rows)[|s.ledger| + k] == rows[k];
      assert RowOk(s.ledger + rows, |s.ledger| + k);
    }
  }

  lemma {:induction false} ReceiveKeeps(s: Stock, id: string, q: seq<Quantity>, order: Order, key: string)
    requires StockOk(s) && Conserved(s.ledger, s.transfers) && Receive(s, id, q, order, key).Ok?
    ensures var s' := Receive(s, id, q, order, key).value; StockOk(s') && Conserved(s'.ledger, s'.transfers)
  {
    hide LedgerOk, SumsOk, Receive, Conserved, ReceiptKey, Arrived;
    ReceiveAppends(s, id, q, order, key);
    if !Replayed(s, key) {
      ReceiveSums(s, id, q, order, key);
      ReceiveConserves(s, id, q, order, key);
      ArrivedOk(s, id, q, order, key);
      ArrivedKeepsPlaces(s.transfers[id], Amounts(q));
      var s' := Receive(s, id, q, order, key).value;
      var rows := RowsOf(|s.ledger|, InInputs(id, s.transfers[id], order, key, q));
      forall r | r in s'.ledger ensures TransferRowOk(s'.transfers, s'.receipts, r) {
        if r in s.ledger {
          assert TransferRowOk(s.transfers, s.receipts, r);
        } else {
          var k :| 0 <= k < |rows| && rows[k] == r;
          assert s'.receipts[key].transfer == id && r.key == ReceiptKey(id, key, r.content.place.sku);
        }
      }
    }
  }

  lemma {:induction false} ArrivedKeepsPlaces(t: Transfer, payload: map<string, int>)
    ensures Arrived(t, payload).source == t.source && Arrived(t, payload).destination == t.destination
  {
  }

  // ---------- exactly when stock leaves and arrives ----------

  /** The transfer is picked, and the request names each of its lines with a quantity that is on hand. */
  ghost predicate MayDispatch(s: Stock, id: string, q: seq<Quantity>) {
    && id in s.transfers && s.transfers[id].state == Picking
    && DistinctSkus(q) && |q| == |s.transfers[id].lines|
    && var t := s.transfers[id];
       forall sku :: sku in t.lines ==>
         && Quantity(sku, t.lines[sku].requested) in q
         && OnHand(s.ledger, Place(t.event, t.source, sku)) >= t.lines[sku].requested
  }

  /** The transfer is under way, and what arrives is positive and fits into what is outstanding. */
  ghost predicate MayReceive(s: Stock, id: string, q: seq<Quantity>) {
    && id in s.transfers && s.transfers[id].state == InTransit && DistinctSkus(q)
    && var t := s.transfers[id];
       forall k :: 0 <= k < |q| ==>
         q[k].sku in t.lines && 0 < q[k].amount <= t.lines[q[k].sku].dispatched - t.lines[q[k].sku].received
  }

  lemma {:induction false} AmountIs(q: seq<Quantity>, sku: string, amount: int)
    requires DistinctSkus(q)
    ensures Quantity(sku, amount) in q <==> sku in Amounts(q) && Amounts(q)[sku] == amount
  {
    AmountsAt(q);
    if sku in Amounts(q) {
      var k :| 0 <= k < |q| && SkusOf(q)[k] == sku;
      assert q[k] == Quantity(sku, Amounts(q)[sku]);
    }
  }

  lemma {:induction false} DispatchKeysDiffer(id: string, a: string, b: string)
    requires DispatchKey(id, a) == DispatchKey(id, b)
    ensures a == b
  {
    CancelPrefix("transfer:" + id + ":dispatch:", a, b);
  }

  lemma {:induction false} ReceiptSkusDiffer(id: string, key: string, a: string, b: string)
    requires ReceiptKey(id, key, a) == ReceiptKey(id, key, b)
    ensures a == b
  {
    CancelPrefix("transfer:" + id + ":receipt:" + key + ":", a, b);
  }

  /** A row of this transfer's dispatch is in the ledger only after it has left. */
  lemma {:induction false} OutInputOk(s: Stock, id: string, order: Order, sku: string)
    requires StockOk(s) && id in s.transfers && !HasLeft(s.transfers[id].state) && sku in s.transfers[id].lines
    ensures var input := OutInput(id, s.transfers[id], order, sku);
      && Plain(input) && ValidDelta(input.content.kind, input.content.delta) && !AlreadyThere(s.ledger, input)
  {
    hide SumsOk, LedgerOk;
    assert LineOk(s.transfers[id].state, s.transfers[id].lines[sku]);
    forall r | r in s.ledger ensures r.content != OutInput(id, s.transfers[id], order, sku).content {
      assert TransferRowOk(s.transfers, s.receipts, r);
    }
  }

  lemma {:induction false} OutInputsCommit(s: Stock, id: string, order: Order, skus: seq<string>)
    requires StockOk(s) && id in s.transfers && !HasLeft(s.transfers[id].state)
    requires Enumerates(skus, s.transfers[id].lines.Keys)
    ensures InsertAll(s.ledger, OutInputs(id, s.transfers[id], order, skus)).Ok?
      <==> forall sku :: sku in s.transfers[id].lines ==> KeyFree(s.ledger, DispatchKey(id, sku))
  {
    hide StockOk, KeyFree, AlreadyThere, DispatchKey, InsertAll;
    var t := s.transfers[id];
    var inputs := OutInputs(id, t, order, skus);
    forall k | 0 <= k < |inputs|
      ensures inputs[k].key == DispatchKey(id, skus[k]) && skus[k] in t.lines && Plain(inputs[k])
      ensures ValidDelta(inputs[k].content.kind, inputs[k].content.delta) && !AlreadyThere(s.ledger, inputs[k])
    {
      OutInputOk(s, id, order, skus[k]);
    }
    forall j, k | 0 <= j < k < |inputs| ensures inputs[j].key != inputs[k].key {
      if inputs[j].key == inputs[k].key { DispatchKeysDiffer(id, skus[j], skus[k]); }
    }
    StockLedgerOk(s);
    NewBatch(s.ledger, inputs);
    forall sku | sku in t.lines ensures exists k :: 0 <= k < |inputs| && inputs[k].key == DispatchKey(id, sku) {
      var k :| 0 <= k < |skus| && skus[k] == sku;
      assert inputs[k].key == DispatchKey(id, sku);
    }
  }

  lemma {:induction false} StockLedgerOk(s: Stock)
    requires StockOk(s)
    ensures LedgerOk(s.ledger)
  {
  }

  /** A dispatch commits exactly when the transfer may leave and nobody holds one of its keys. */
  lemma {:induction false} DispatchCommitsExactlyWhen(s: Stock, id: string, q: seq<Quantity>, order: Order,
                                                      skus: seq<string>)
    requires StockOk(s) && (id in s.transfers ==> Enumerates(skus, s.transfers[id].lines.Keys))
    ensures Dispatch(s, id, q, order, skus).Ok?
      <==> MayDispatch(s, id, q) && forall sku :: sku in s.transfers[id].lines ==> KeyFree(s.ledger, DispatchKey(id, sku))
  {
    hide StockOk, InsertAll, KeyFree, OnHand, Amounts, OutInputs;
    if id in s.transfers && s.transfers[id].state == Picking && DistinctSkus(q) {
      var t := s.transfers[id];
      OutInputsCommit(s, id, order, skus);
      CheckDispatchCovers(s.ledger, t, Amounts(q), skus);
      forall sku | sku in t.lines
        ensures Quantity(sku, t.lines[sku].requested) in q
          <==> sku in Amounts(q) && Amounts(q)[sku] == t.lines[sku].requested
      {
        AmountIs(q, sku, t.lines[sku].requested);
      }
    }
  }

  /** A row of this receipt is in the ledger only if the receipt is recorded. */
  lemma {:induction false} NotReceivedYet(s: Stock, id: string, order: Order, key: string, q: Quantity)
    requires StockOk(s) && id in s.transfers && key !in s.receipts
    ensures !AlreadyThere(s.ledger, InInput(id, s.transfers[id], order, key, q))
  {
    hide SumsOk, LedgerOk, TransfersOk, ReceiptKey;
    var input := InInput(id, s.transfers[id], order, key, q);
    forall r | r in s.ledger && r.content == input.content ensures r.key != input.key {
      assert TransferRowOk(s.transfers, s.receipts, r);
      var key' :| key' in s.receipts && s.receipts[key'].transfer == id && r.key == ReceiptKey(id, key', q.sku);
      if r.key == input.key { ReceiptKeyInjective(id, key, key', q.sku); }
    }
  }

  lemma {:induction false} InInputsCommit(s: Stock, id: string, q: seq<Quantity>, order: Order, key: string)
    requires StockOk(s) && id in s.transfers && key !in s.receipts && DistinctSkus(q)
    ensures InsertAll(s.ledger, InInputs(id, s.transfers[id], order, key, q)).Ok?
      <==> forall k :: 0 <= k < |q| ==> q[k].amount > 0 && KeyFree(s.ledger, ReceiptKey(id, key, q[k].sku))
  {
    hide StockOk, KeyFree, AlreadyThere, ReceiptKey, InsertAll;
    var inputs := InInputs(id, s.transfers[id], order, key, q);
    forall k | 0 <= k < |inputs|
      ensures inputs[k].key == ReceiptKey(id, key, q[k].sku) && !AlreadyThere(s.ledger, inputs[k])
    {
      NotReceivedYet(s, id, order, key, q[k]);
    }
    forall j, k | 0 <= j < k < |inputs| ensures inputs[j].key != inputs[k].key {
      if inputs[j].key == inputs[k].key { ReceiptSkusDiffer(id, key, q[j].sku, q[k].sku); }
    }
    StockLedgerOk(s);
    NewBatch(s.ledger, inputs);
  }

  /** A new receipt commits exactly when the goods may arrive and nobody holds one of its keys. */
  lemma {:induction false} ReceiveCommitsExactlyWhen(s: Stock, id: string, q: seq<Quantity>, order: Order, key: string)
    requires StockOk(s) && key !in s.receipts
    ensures Receive(s, id, q, order, key).Ok?
      <==> MayReceive(s, id, q) && forall k :: 0 <= k < |q| ==> KeyFree(s.ledger, ReceiptKey(id, key, q[k].sku))
  {
    hide StockOk, InsertAll, KeyFree, InInputs, Amounts, Arrived;
    if id in s.transfers && DistinctSkus(q) {
      InInputsCommit(s, id, q, order, key);
      CheckReceiptCovers(s.transfers[id], q);
    }
  }
}
