/** A stock count from its opening to its closing: what it says at either time. */
module CountWorkflow {
  import opened Common
  import opened InventoryDomain
  import opened InventoryLedger
  import opened StockTransfers
  import opened StockCounts
  import TransferWorkflow

  // ---------- opening ----------

  predicate Openable(counts: Counts, n: NewCount) {
    && n.id !in counts
    && (forall i, j :: 0 <= i < j < |n.lines| ==> n.lines[i].sku != n.lines[j].sku)
    && forall k :: 0 <= k < |n.lines| ==> n.lines[k].amount >= 0
  }

  /** The count is the one asked for, with exactly these counted figures. */
  ghost predicate CountSays(c: Count, n: NewCount) {
    && c.event == n.event && c.location == n.location && c.opener == n.actor && c.openedAt == n.at
    && c.reason == n.reason
    && (forall k :: 0 <= k < |n.lines| ==>
          n.lines[k].sku in c.lines && c.lines[n.lines[k].sku].counted == n.lines[k].amount)
    && (forall sku :: sku in c.lines ==> exists k :: 0 <= k < |n.lines| && n.lines[k].sku == sku)
  }

  ghost predicate StillOpen(c: Count) {
    && !c.closed && c.closer.None? && c.closedAt.None?
    && forall sku :: sku in c.lines ==> c.lines[sku].expected.None? && c.lines[sku].adjustment.None?
  }

  lemma {:induction false} SameCountSays(c: Count, n: NewCount)
    requires DistinctSkus(n.lines)
    ensures SameCount(c, n) <==> CountSays(c, n)
  {
    hide Amounts;
    TransferWorkflow.AmountsSay(n.lines);
  }

  /**
   A count is opened exactly when its id is new, no SKU is named twice and no figure is negative; it then
   says what was counted.  Opening the same count again changes nothing, and everything else is refused.
   */
  lemma {:induction false} OpensExactlyWhen(counts: Counts, n: NewCount)
    ensures var result := OpenCount(counts, n);
      && (Openable(counts, n) ==>
            && result.Ok? && n.id in result.value && CountSays(result.value[n.id], n) && StillOpen(result.value[n.id])
            && result.value == counts[n.id := result.value[n.id]])
      && (!Openable(counts, n) ==>
            && (result.Ok? ==> result.value == counts)
            && (result.Ok? <==> DistinctSkus(n.lines) && n.id in counts && CountSays(counts[n.id], n)))
  {
    hide Amounts, SameCount, CountSays;
    if DistinctSkus(n.lines) {
      if n.id in counts { SameCountSays(counts[n.id], n); }
      if Openable(counts, n) {
        OpenedSays(counts, n);
      }
    }
  }

  lemma {:induction false} OpenedSays(counts: Counts, n: NewCount)
    requires Openable(counts, n)
    ensures OpenCount(counts, n).Ok? && n.id in OpenCount(counts, n).value
    ensures CountSays(OpenCount(counts, n).value[n.id], n) && StillOpen(OpenCount(counts, n).value[n.id])
  {
    hide Amounts;
    TransferWorkflow.AmountsSay(n.lines);
  }

  // ---------- closing ----------

  /** The row adjusts the stock of one line of the count by what was missing or too much. */
  ghost predicate Adjusts(r: Row, ledger: Ledger, id: string, c: Count, closing: Closing, sku: string)
    requires sku in c.lines
  {
    var here := Place(c.event, c.location, sku);
    && r.content.place == here && r.content.kind == CountAdjustment && r.content.sourceId == id
    && r.content.delta == c.lines[sku].counted - OnHand(ledger, here)
    && r.content.actor == Some(closing.actor) && r.content.reason == Some(closing.reason) && r.content.at == closing.at
    && r.content.reverses.None? && r.key == CountKey(id, sku)
  }

  /** A closed line records what the ledger said, and names its adjustment exactly if there was a difference. */
  ghost predicate LineRecords(line: CountLine, ledger: Ledger, after: Ledger, id: string, c: Count, closing: Closing,
                              sku: string)
    requires sku in c.lines
  {
    && line.counted == c.lines[sku].counted
    && line.expected == Some(OnHand(ledger, Place(c.event, c.location, sku)))
    && (line.adjustment.None? <==> line.counted == OnHand(ledger, Place(c.event, c.location, sku)))
    && (line.adjustment.Some? ==>
          exists r :: r in after && line.adjustment == Some(r.id) && Adjusts(r, ledger, id, c, closing, sku))
  }

  lemma {:induction false} CloseLineRecords(before: Closed, id: string, c: Count, closing: Closing, sku: string)
    requires LedgerOk(before.ledger) && sku in c.lines && CloseLine(before, id, c, closing, sku).Ok?
    requires forall r :: r in before.ledger && r.content.kind == CountAdjustment && r.content.sourceId == id ==>
      r.content.place.sku != sku
    ensures var after := CloseLine(before, id, c, closing, sku).value;
      && sku in after.lines && after.lines == before.lines[sku := after.lines[sku]]
      && LineRecords(after.lines[sku], before.ledger, after.ledger, id, c, closing, sku)
  {
    hide LedgerOk, Insert, OnHand, CountKey;
    var here := Place(c.event, c.location, sku);
    var variance := c.lines[sku].counted - OnHand(before.ledger, here);
    var after := CloseLine(before, id, c, closing, sku).value;
    if variance != 0 {
      var input := CountInput(id, c, closing, sku, variance);
      InsertFresh(before.ledger, input);
      InsertKeeps(before.ledger, input);
      var r := Row(Random(|before.ledger|), input.key, input.content);
      assert Insert(before.ledger, input) == Ok(Posted(after.ledger, r));
      assert after.lines[sku].adjustment == Some(r.id);
      assert r in after.ledger && Adjusts(r, before.ledger, id, c, closing, sku);
    }
  }

  lemma {:induction false} RecordsStay(line: CountLine, ledger: Ledger, seen: Ledger, before: Ledger, after: Ledger,
                                       id: string, c: Count, closing: Closing, sku: string)
    requires sku in c.lines && LineRecords(line, seen, before, id, c, closing, sku)
    requires OnHand(ledger, Place(c.event, c.location, sku)) == OnHand(seen, Place(c.event, c.location, sku))
    requires forall r :: r in before ==> r in after
    ensures LineRecords(line, ledger, after, id, c, closing, sku)
  {
    hide OnHand, CountKey;
    if line.adjustment.Some? {
      var r :| r in before && line.adjustment == Some(r.id) && Adjusts(r, seen, id, c, closing, sku);
      assert r in after && Adjusts(r, ledger, id, c, closing, sku);
    }
  }

  lemma {:induction false} CloseLinesRecord(ledger: Ledger, id: string, c: Count, closing: Closing, skus: seq<string>)
    requires LedgerOk(ledger) && NoneYet(ledger, id)
    requires (forall x :: x in skus ==> x in c.lines) && forall i, j :: 0 <= i < j < |skus| ==> skus[i] != skus[j]
    requires CloseLines(ledger, id, c, closing, skus).Ok?
    ensures var after := CloseLines(ledger, id, c, closing, skus).value;
      && after.lines.Keys == c.lines.Keys
      && forall x :: x in c.lines ==>
           if x in skus then LineRecords(after.lines[x], ledger, after.ledger, id, c, closing, x)
           else after.lines[x] == c.lines[x]
    decreases |skus|
  {
    hide LedgerOk, CloseLine, OnHand, CountKey, LineRecords;
    if skus != [] {
      var n := |skus| - 1;
      var init, sku := skus[..n], skus[n];
      assert skus == init + [sku] && sku !in init;
      CloseLinesRecord(ledger, id, c, closing, init);
      var rows := CloseAppends(ledger, id, c, closing, init);
      var before := CloseLines(ledger, id, c, closing, init).value;
      var after := CloseLines(ledger, id, c, closing, skus).value;
      CloseLineRecords(before, id, c, closing, sku);
      CloseLineAppends(before, id, c, closing, sku);
      assert forall r :: r in before.ledger ==> r in after.ledger;
      forall x | x in skus ensures LineRecords(after.lines[x], ledger, after.ledger, id, c, closing, x) {
        if x == sku {
          OthersLeaveLine(ledger, rows, id, c, init, sku);
          RecordsStay(after.lines[x], ledger, before.ledger, after.ledger, after.ledger, id, c, closing, x);
        } else {
          RecordsStay(after.lines[x], ledger, ledger, before.ledger, after.ledger, id, c, closing, x);
        }
      }
    }
  }

  /**
   A closed count says who closed it, when and why.  Every line keeps its counted figure, records what the
   ledger said before, and names the row that adjusted it exactly if the two differed.
   */
  lemma {:induction false} ClosingRecords(ledger: Ledger, counts: Counts, id: string, closing: Closing,
                                          skus: seq<string>)
    requires LedgerOk(ledger) && CountRowsOk(ledger, counts)
    requires id in counts && !counts[id].closed && Enumerates(skus, counts[id].lines.Keys)
    requires CloseCount(ledger, counts, id, closing, skus).Ok?
    ensures var (ledger', counts'), c := CloseCount(ledger, counts, id, closing, skus).value, counts[id];
      && id in counts' && counts' == counts[id := counts'[id]]
      && counts'[id] == c.(closed := true, closer := Some(closing.actor), closedAt := Some(closing.at),
                           reason := closing.reason, lines := counts'[id].lines)
      && counts'[id].lines.Keys == c.lines.Keys
      && forall sku :: sku in c.lines ==>
           LineRecords(counts'[id].lines[sku], ledger, ledger', id, c, closing, sku)
  {
    hide LedgerOk, CloseLines, LineRecords;
    CloseLinesRecord(ledger, id, counts[id], closing, skus);
  }
}
