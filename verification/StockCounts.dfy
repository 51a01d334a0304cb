/** Stock counts: closing one writes the difference between what was counted and what the ledger says. */
module StockCounts {
  import opened Common
  import opened InventoryDomain
  import opened InventoryLedger
  import opened StockTransfers

  datatype CountLine = CountLine(counted: int, expected: Option<int>, adjustment: Option<RowId>)

  datatype Count = Count(
    event: string, location: string, closed: bool, opener: string, openedAt: int, reason: string,
    closer: Option<string>, closedAt: Option<int>, lines: map<string, CountLine>)

  type Counts = map<string, Count>

  datatype NewCount = NewCount(
    id: string, event: string, location: string, actor: string, reason: string, at: int, lines: seq<Quantity>)

  datatype Closing = Closing(actor: string, reason: string, at: int)

  datatype Closed = Closed(ledger: Ledger, lines: map<string, CountLine>)

  function NewLines(q: seq<Quantity>): map<string, CountLine> {
    var amounts := Amounts(q);
    map sku | sku in amounts :: CountLine(amounts[sku], None, None)
  }

  predicate SameCount(c: Count, n: NewCount) {
    && c.event == n.event && c.location == n.location && c.opener == n.actor && c.openedAt == n.at
    && c.reason == n.reason && c.lines.Keys == Amounts(n.lines).Keys
    && forall sku :: sku in c.lines ==> c.lines[sku].counted == Amounts(n.lines)[sku]
  }

  function OpenCount(counts: Counts, n: NewCount): Result<Counts, Error> {
    if !DistinctSkus(n.lines) then Err(RepeatedSku)
    else if n.id in counts then if SameCount(counts[n.id], n) then Ok(counts) else Err(ContentDiffers)
    else if exists i :: 0 <= i < |n.lines| && n.lines[i].amount < 0 then Err(CheckViolated)
    else
      Ok(counts[n.id := Count(n.event, n.location, false, n.actor, n.at, n.reason, None, None, NewLines(n.lines))])
  }

  function CountKey(id: string, sku: string): string { "stock-count:" + id + ":" + sku }

  function CountInput(id: string, c: Count, closing: Closing, sku: string, variance: int): Input {
    Input(None, CountKey(id, sku),
          Content(Place(c.event, c.location, sku), CountAdjustment, variance, "STOCK_COUNT", id,
                  None, Some(closing.actor), None, Some(closing.reason), closing.at, None))
  }

  function CloseLine(before: Closed, id: string, c: Count, closing: Closing, sku: string): Result<Closed, Error>
    requires sku in c.lines
  {
    var expected := OnHand(before.ledger, Place(c.event, c.location, sku));
    var line := c.lines[sku].(expected := Some(expected));
    if c.lines[sku].counted == expected then Ok(before.(lines := before.lines[sku := line.(adjustment := None)]))
    else
      match Insert(before.ledger, CountInput(id, c, closing, sku, c.lines[sku].counted - expected))
      case Err(e) => Err(e)
      case Ok(posted) => Ok(Closed(posted.ledger, before.lines[sku := line.(adjustment := Some(posted.row.id))]))
  }

  function CloseLines(ledger: Ledger, id: string, c: Count, closing: Closing, skus: seq<string>): Result<Closed, Error>
    requires forall x :: x in skus ==> x in c.lines
    decreases |skus|
  {
    if skus == [] then Ok(Closed(ledger, c.lines))
    else
      match CloseLines(ledger, id, c, closing, skus[..|skus| - 1])
      case Err(e) => Err(e)
      case Ok(before) => CloseLine(before, id, c, closing, skus[|skus| - 1])
  }

  function CloseCount(ledger: Ledger, counts: Counts, id: string, closing: Closing, skus: seq<string>)
    : Result<(Ledger, Counts), Error>
    requires id in counts ==> Enumerates(skus, counts[id].lines.Keys)
  {
    if id !in counts then Err(NotFound)
    else if counts[id].closed then Ok((ledger, counts))
    else
      match CloseLines(ledger, id, counts[id], closing, skus)
      case Err(e) => Err(e)
      case Ok(after) =>
        var c := counts[id].(closed := true, closer := Some(closing.actor), closedAt := Some(closing.at),
                             reason := closing.reason, lines := after.lines);
        Ok((after.ledger, counts[id := c]))
  }

  /** An adjustment row belongs to a count that has been closed. */
  ghost predicate CountRowsOk(ledger: Ledger, counts: Counts) {
    forall r :: r in ledger && r.content.kind == CountAdjustment ==>
      r.content.sourceId in counts && counts[r.content.sourceId].closed
  }

  predicate IsAdjustment(r: Row, id: string, c: Count, skus: seq<string>) {
    && r.content.kind == CountAdjustment && r.content.sourceId == id && r.content.place.sku in skus
    && r.key == CountKey(id, r.content.place.sku)
    && r.content.place.event == c.event && r.content.place.location == c.location
  }

  predicate Covers(c: Count, skus: seq<string>, place: Place) {
    place.event == c.event && place.location == c.location && place.sku in skus
  }

  ghost predicate NoneYet(ledger: Ledger, id: string) {
    forall r :: r in ledger ==> !(r.content.kind == CountAdjustment && r.content.sourceId == id)
  }

  lemma {:induction false} CloseLineAppends(before: Closed, id: string, c: Count, closing: Closing, sku: string)
    requires LedgerOk(before.ledger) && sku in c.lines && CloseLine(before, id, c, closing, sku).Ok?
    requires forall r :: r in before.ledger && r.content.kind == CountAdjustment && r.content.sourceId == id ==>
      r.content.place.sku != sku
    ensures var after := CloseLine(before, id, c, closing, sku).value;
      && LedgerOk(after.ledger)
      && (after.ledger == before.ledger
          || exists r :: IsAdjustment(r, id, c, [sku]) && after.ledger == before.ledger + [r])
      && OnHand(after.ledger, Place(c.event, c.location, sku)) == c.lines[sku].counted
      && (forall place :: place != Place(c.event, c.location, sku) ==>
            OnHand(after.ledger, place) == OnHand(before.ledger, place))
      && after.lines.Keys == before.lines.Keys + {sku}
  {
    hide LedgerOk, Insert, OnHand;
    var here := Place(c.event, c.location, sku);
    var expected := OnHand(before.ledger, here);
    if c.lines[sku].counted != expected {
      var input := CountInput(id, c, closing, sku, c.lines[sku].counted - expected);
      InsertFresh(before.ledger, input);
      InsertKeeps(before.ledger, input);
      var r := Row(Random(|before.ledger|), input.key, input.content);
      assert IsAdjustment(r, id, c, [sku]);
      OneMoreRow(before.ledger, r);
    }
  }

  /** Closing writes at most one adjustment per line, and leaves exactly what was counted at every counted place. */
  lemma {:induction false} CloseAppends(ledger: Ledger, id: string, c: Count, closing: Closing, skus: seq<string>)
    returns (rows: Ledger)
    requires LedgerOk(ledger) && NoneYet(ledger, id)
    requires (forall x :: x in skus ==> x in c.lines) && forall i, j :: 0 <= i < j < |skus| ==> skus[i] != skus[j]
    requires CloseLines(ledger, id, c, closing, skus).Ok?
    ensures var after := CloseLines(ledger, id, c, closing, skus).value;
      && after.ledger == ledger + rows && LedgerOk(after.ledger) && after.lines.Keys == c.lines.Keys
      && (forall r :: r in rows ==> IsAdjustment(r, id, c, skus))
      && (forall place :: OnHand(after.ledger, place) ==
            if Covers(c, skus, place) then c.lines[place.sku].counted else OnHand(ledger, place))
    decreases |skus|
  {
    hide LedgerOk, CloseLine, OnHand;
    if skus == [] {
      return [];
    }
    var n := |skus| - 1;
    var init, sku := skus[..n], skus[n];
    rows := CloseAppends(ledger, id, c, closing, init);
    var before := CloseLines(ledger, id, c, closing, init).value;
    var after := CloseLines(ledger, id, c, closing, skus).value;
    assert sku !in init;
    CloseLineAppends(before, id, c, closing, sku);
    if after.ledger != before.ledger {
      var r :| IsAdjustment(r, id, c, [sku]) && after.ledger == before.ledger + [r];
      assert ledger + rows + [r] == ledger + (rows + [r]);
      rows := rows + [r];
    }
    assert forall x :: x in skus <==> x in init || x == sku;
  }

  /**
   Closing an open count makes on-hand equal the counted figure for every one of its lines and leaves
   all other stock alone; closing it again changes nothing.
   */
  lemma {:induction false} CloseEffect(ledger: Ledger, counts: Counts, id: string, closing: Closing,
                                       skus: seq<string>, place: Place)
    requires LedgerOk(ledger) && CountRowsOk(ledger, counts)
    requires id in counts ==> Enumerates(skus, counts[id].lines.Keys)
    requires CloseCount(ledger, counts, id, closing, skus).Ok?
    ensures var (ledger', counts') := CloseCount(ledger, counts, id, closing, skus).value;
      && id in counts && id in counts' && counts'[id].closed
      && OnHand(ledger', place) ==
           (if !counts[id].closed && place.event == counts[id].event && place.location == counts[id].location
               && place.sku in counts[id].lines
            then counts[id].lines[place.sku].counted else OnHand(ledger, place))
      && (counts[id].closed ==> ledger' == ledger && counts' == counts)
  {
    hide LedgerOk, CloseLines, OnHand;
    if !counts[id].closed {
      var _ := CloseAppends(ledger, id, counts[id], closing, skus);
    }
  }

  // ---------- exactly when a count closes ----------

  lemma {:induction false} CountKeysDiffer(id: string, a: string, b: string)
    requires CountKey(id, a) == CountKey(id, b)
    ensures a == b
  {
    CancelPrefix("stock-count:" + id + ":", a, b);
  }

  /** The counted figure differs from what the ledger says. */
  predicate Differs(ledger: Ledger, c: Count, sku: string)
    requires sku in c.lines
  {
    c.lines[sku].counted != OnHand(ledger, Place(c.event, c.location, sku))
  }

  /** Adjustments of other SKUs leave a line's figure and its key alone. */
  lemma {:induction false} OthersLeaveLine(ledger: Ledger, rows: Ledger, id: string, c: Count, init: seq<string>,
                                           sku: string)
    requires sku !in init && forall r :: r in rows ==> IsAdjustment(r, id, c, init)
    ensures OnHand(ledger + rows, Place(c.event, c.location, sku)) == OnHand(ledger, Place(c.event, c.location, sku))
    ensures KeyFree(ledger + rows, CountKey(id, sku)) <==> KeyFree(ledger, CountKey(id, sku))
  {
    hide CountKey;
    var here := Place(c.event, c.location, sku);
    TotalSplit(ledger, rows, At(here));
    TotalNone(rows, At(here));
    forall r | r in rows ensures r.key != CountKey(id, sku) {
      if r.key == CountKey(id, sku) { CountKeysDiffer(id, r.content.place.sku, sku); }
    }
  }

  lemma {:induction false} CloseLineCommits(before: Closed, id: string, c: Count, closing: Closing, sku: string)
    requires LedgerOk(before.ledger) && sku in c.lines
    requires forall r :: r in before.ledger && r.content.kind == CountAdjustment && r.content.sourceId == id ==>
      r.content.place.sku != sku
    ensures CloseLine(before, id, c, closing, sku).Ok?
      <==> (Differs(before.ledger, c, sku) ==> KeyFree(before.ledger, CountKey(id, sku)))
  {
    hide LedgerOk, Insert, OnHand, KeyFree;
    if Differs(before.ledger, c, sku) {
      PlainInsert(before.ledger, CountInput(id, c, closing, sku,
                                            c.lines[sku].counted - OnHand(before.ledger, Place(c.event, c.location, sku))));
    }
  }

  lemma {:induction false} LinesCommit(ledger: Ledger, id: string, c: Count, closing: Closing, skus: seq<string>)
    requires LedgerOk(ledger) && NoneYet(ledger, id)
    requires (forall x :: x in skus ==> x in c.lines) && forall i, j :: 0 <= i < j < |skus| ==> skus[i] != skus[j]
    ensures CloseLines(ledger, id, c, closing, skus).Ok?
      <==> forall x :: x in skus && Differs(ledger, c, x) ==> KeyFree(ledger, CountKey(id, x))
    decreases |skus|
  {
    hide LedgerOk, CloseLine, OnHand, KeyFree, CountKey;
    if skus != [] {
      var n := |skus| - 1;
      var init, sku := skus[..n], skus[n];
      assert skus == init + [sku] && sku !in init;
      LinesCommit(ledger, id, c, closing, init);
      if CloseLines(ledger, id, c, closing, init).Ok? {
        var rows := CloseAppends(ledger, id, c, closing, init);
        var before := CloseLines(ledger, id, c, closing, init).value;
        OthersLeaveLine(ledger, rows, id, c, init, sku);
        CloseLineCommits(before, id, c, closing, sku);
      }
    }
  }

  /** Closing a count commits exactly when no line that has to be adjusted finds its key taken. */
  lemma {:induction false} CloseCommitsExactlyWhen(ledger: Ledger, counts: Counts, id: string, closing: Closing,
                                                   skus: seq<string>)
    requires LedgerOk(ledger) && CountRowsOk(ledger, counts)
    requires id in counts ==> Enumerates(skus, counts[id].lines.Keys)
    ensures CloseCount(ledger, counts, id, closing, skus).Ok?
      <==> id in counts
           && (counts[id].closed
               || forall sku :: sku in counts[id].lines && Differs(ledger, counts[id], sku) ==>
                    KeyFree(ledger, CountKey(id, sku)))
  {
    hide LedgerOk, CloseLines, OnHand, KeyFree, CountKey;
    if id in counts && !counts[id].closed { LinesCommit(ledger, id, counts[id], closing, skus); }
  }
}
