/** The Cloud taking in synced events: deduplication and the order projection. */
module CloudSync {
  import opened Common
  import opened SyncEvents

  datatype OrderRow = OrderRow(
    device: string, lastSequence: nat, state: OrderState, total: nat, currency: string, event: string,
    location: Option<string>, closeMethod: Option<CloseMethod>, cashier: Option<string>,
    lines: seq<OrderLine>, at: int)

  datatype Refusal =
    | EventInstanceReuse | DeviceSequenceReuse | InvalidOrderEvent | DeviceConflict | EventConflict
    | LocationConflict | CloseMethodConflict | CashierConflict | StateRegression

  datatype CloudException = CloudException(kind: Refusal, instance: string)

  datatype Cloud = Cloud(
    processed: map<string, Envelope>, orders: map<string, OrderRow>, exceptions: seq<CloudException>)

  datatype Outcome = Accepted | Duplicate | Conflict

  // ---------- one order ----------

  predicate SafeOrderAdvance(current: OrderState, incoming: OrderState) { current == Open || incoming == Closed }

  function Inserted(e: Envelope, p: OrderPayload): OrderRow {
    OrderRow(e.device, e.sequence, p.state, p.total, p.currency, p.event, p.location, p.closeMethod, p.cashier,
             if p.lines.Some? then p.lines.value else [], p.at)
  }

  function Advanced(row: OrderRow, e: Envelope, p: OrderPayload): OrderRow {
    OrderRow(row.device, e.sequence, p.state, p.total, p.currency, p.event, Coalesce(p.location, row.location),
             Coalesce(p.closeMethod, row.closeMethod), Coalesce(p.cashier, row.cashier),
             if p.lines.Some? then p.lines.value else row.lines, p.at)
  }

  /** Why a newer event may not advance the order. */
  function Objection(row: OrderRow, p: OrderPayload): Option<Refusal> {
    if row.event != p.event then Some(EventConflict)
    else if Clash(row.location, p.location) then Some(LocationConflict)
    else if Clash(row.closeMethod, p.closeMethod) then Some(CloseMethodConflict)
    else if Clash(row.cashier, p.cashier) then Some(CashierConflict)
    else if !SafeOrderAdvance(row.state, p.state) then Some(StateRegression)
    else None
  }

  function Project(row: Option<OrderRow>, e: Envelope, p: OrderPayload): (OrderRow, Option<Refusal>) {
    if row.None? then (Inserted(e, p), None)
    else if row.value.device != e.device then (row.value, Some(DeviceConflict))
    else if e.sequence <= row.value.lastSequence then (row.value, None)
    else
      var objection := Objection(row.value, p);
      (if objection.Some? then row.value else Advanced(row.value, e, p), objection)
  }

  // ---------- one event ----------

  function RowFor(cloud: Cloud, order: string): Option<OrderRow> {
    if order in cloud.orders then Some(cloud.orders[order]) else None
  }

  function Refuse(cloud: Cloud, e: Envelope, kind: Refusal): Cloud {
    cloud.(exceptions := cloud.exceptions + [CloudException(kind, e.instance)])
  }

  function ApplyOrder(cloud: Cloud, e: Envelope): (Cloud, Outcome) {
    match e.body
    case NotAnOrder => (cloud, Accepted)
    case InvalidOrder => (Refuse(cloud, e, InvalidOrderEvent), Conflict)
    case Order(p) =>
      var (row, refusal) := Project(RowFor(cloud, e.aggregate), e, p);
      if refusal.Some? then (Refuse(cloud, e, refusal.value), Conflict)
      else (cloud.(orders := cloud.orders[e.aggregate := row]), Accepted)
  }

  predicate SequenceUsed(cloud: Cloud, e: Envelope) {
    exists i :: i in cloud.processed && cloud.processed[i].device == e.device && cloud.processed[i].sequence == e.sequence
  }

  function ProcessEvent(cloud: Cloud, e: Envelope): (Cloud, Outcome) {
    if e.instance in cloud.processed then
      if cloud.processed[e.instance] == e then (cloud, Duplicate)
      else (Refuse(cloud, e, EventInstanceReuse), Conflict)
    else if SequenceUsed(cloud, e) then (Refuse(cloud, e, DeviceSequenceReuse), Conflict)
    else ApplyOrder(cloud.(processed := cloud.processed[e.instance := e]), e)
  }

  function ProcessAll(cloud: Cloud, events: seq<Envelope>): (res: (Cloud, seq<Outcome>))
    ensures |res.1| == |events|
    decreases |events|
  {
    if events == [] then (cloud, [])
    else
      var n := |events| - 1;
      var (before, outcomes) := ProcessAll(cloud, events[..n]);
      var (after, outcome) := ProcessEvent(before, events[n]);
      (after, outcomes + [outcome])
  }

  datatype Ack = Ack(accepted: seq<string>, duplicates: seq<string>, conflicts: seq<string>)

  function IdsWith(events: seq<Envelope>, outcomes: seq<Outcome>, wanted: Outcome): seq<string>
    requires |events| == |outcomes|
  {
    if events == [] then []
    else
      var n := |events| - 1;
      IdsWith(events[..n], outcomes[..n], wanted) + if outcomes[n] == wanted then [events[n].instance] else []
  }

  function AckOf(events: seq<Envelope>, outcomes: seq<Outcome>): Ack
    requires |events| == |outcomes|
  {
    Ack(IdsWith(events, outcomes, Accepted), IdsWith(events, outcomes, Duplicate), IdsWith(events, outcomes, Conflict))
  }

  class CloudSyncService {
    var processed: map<string, Envelope>
    var orders: map<string, OrderRow>
    var exceptions: seq<CloudException>

    function State(): Cloud
      reads this
    {
      Cloud(processed, orders, exceptions)
    }

    constructor ()
      ensures State() == Cloud(map[], map[], [])
    {
      processed, orders, exceptions := map[], map[], [];
    }

    method RaiseException(kind: Refusal, e: Envelope) returns (outcome: Outcome)
      modifies this`exceptions
      ensures State() == Refuse(old(State()), e, kind) && outcome == Conflict
    {
      exceptions := exceptions + [CloudException(kind, e.instance)];
      return Conflict;
    }

    method ApplyOrderEvent(e: Envelope) returns (outcome: Outcome)
      requires e.body != NotAnOrder
      modifies this`orders, this`exceptions
      ensures (State(), outcome) == ApplyOrder(old(State()), e)
    {
      if e.body == InvalidOrder {
        outcome := RaiseException(InvalidOrderEvent, e);
        return;
      }
      var p := e.body.payload;
      if e.aggregate !in orders {
        orders := orders[e.aggregate := Inserted(e, p)];
        return Accepted;
      }
      var existing := orders[e.aggregate];
      if existing.device != e.device {
        outcome := RaiseException(DeviceConflict, e);
        return;
      }
      if e.sequence <= existing.lastSequence {
        assert orders == orders[e.aggregate := existing];
        return Accepted;
      }
      if existing.event != p.event {
        outcome := RaiseException(EventConflict, e);
        return;
      }
      if Clash(existing.location, p.location) {
        outcome := RaiseException(LocationConflict, e);
        return;
      }
      if Clash(existing.closeMethod, p.closeMethod) {
        outcome := RaiseException(CloseMethodConflict, e);
        return;
      }
      if Clash(existing.cashier, p.cashier) {
        outcome := RaiseException(CashierConflict, e);
        return;
      }
      if !SafeOrderAdvance(existing.state, p.state) {
        outcome := RaiseException(StateRegression, e);
        return;
      }
      var row := existing.(lastSequence := e.sequence, state := p.state, total := p.total, currency := p.currency,
                           event := p.event, location := Coalesce(p.location, existing.location), at := p.at,
                           closeMethod := Coalesce(p.closeMethod, existing.closeMethod),
                           cashier := Coalesce(p.cashier, existing.cashier));
      if p.lines.Some? { row := row.(lines := p.lines.value); }
      orders := orders[e.aggregate := row];
      return Accepted;
    }

    method ProcessOne(e: Envelope) returns (outcome: Outcome)
      modifies this
      ensures (State(), outcome) == ProcessEvent(old(State()), e)
    {
      hide ApplyOrder;
      if e.instance in processed {
        if processed[e.instance] == e { return Duplicate; }
        outcome := RaiseException(EventInstanceReuse, e);
        return;
      }
      if exists i :: i in processed && processed[i].device == e.device && processed[i].sequence == e.sequence {
        outcome := RaiseException(DeviceSequenceReuse, e);
        return;
      }
      processed := processed[e.instance := e];
      if e.body == NotAnOrder {
        PlainEvent(State(), e);
        return Accepted;
      }
      outcome := ApplyOrderEvent(e);
    }

    method Ingest(events: seq<Envelope>) returns (ack: Ack)
      modifies this
      ensures var (after, outcomes) := ProcessAll(old(State()), events);
        State() == after && ack == AckOf(events, outcomes)
    {
      hide ProcessEvent;
      var accepted: seq<string>, duplicates: seq<string>, conflicts: seq<string> := [], [], [];
      ghost var outcomes: seq<Outcome> := [];
      var i := 0;
      while i < |events|
        invariant i <= |events| && |outcomes| == i
        invariant (State(), outcomes) == ProcessAll(old(State()), events[..i])
        invariant Ack(accepted, duplicates, conflicts) == AckOf(events[..i], outcomes)
      {
        assert events[..i + 1][..i] == events[..i];
        var outcome := ProcessOne(events[i]);
        match outcome {
          case Accepted => accepted := accepted + [events[i].instance];
          case Duplicate => duplicates := duplicates + [events[i].instance];
          case Conflict => conflicts := conflicts + [events[i].instance];
        }
        assert (outcomes + [outcome])[..i] == outcomes;
        outcomes := outcomes + [outcome];
        i := i + 1;
      }
      assert events[..i] == events;
      return Ack(accepted, duplicates, conflicts);
    }
  }

  lemma {:induction false} PlainEvent(cloud: Cloud, e: Envelope)
    requires e.body == NotAnOrder
    ensures ApplyOrder(cloud, e) == (cloud, Accepted)
  {
  }
}
