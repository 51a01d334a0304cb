/**
 The Edge's cache of payment attempts, next to the Cloud it asks.  Answers from the Cloud are snapshots
 that may be lost, repeated, delayed and reordered without limit.
 */
module EdgePayments {
  import opened Common
  import opened PaymentDomain
  import opened CloudPayments
  import opened CloudPaymentRuns
  import opened CloudPaymentTheorems

  datatype View = View(
    attemptId: Id, paymentId: Id, eventId: string, orderId: string, provider: string, amount: nat, currency: string,
    status: Status, reference: Option<string>, failure: Option<string>)

  datatype Row = Row(view: View, key: string, device: Option<string>)

  type Rows = map<Id, Row>

  datatype CacheError = IdentityConflict | KeyTaken | NotCached

  // ---------- writing to the cache ----------

  predicate SameIdentity(row: Row, v: View, key: string, device: Option<string>) {
    && row.view == v.(status := row.view.status, reference := row.view.reference, failure := row.view.failure)
    && row.key == key && !Clash(device, row.device)
  }

  /** What an accepted view makes of a cached row. */
  function Merge(row: Row, v: View, device: Option<string>): Row {
    var owned := row.(device := Coalesce(row.device, device));
    var old_ := row.view;
    if Clash(old_.reference, v.reference) then
      if IsTerminal(old_.status) then owned
      else owned.(view := old_.(status := Unknown, failure := Some("EDGE_PROVIDER_REFERENCE_CONFLICT")))
    else if !CanTransition(old_.status, v.status) then owned
    else owned.(view := old_.(reference := Coalesce(v.reference, old_.reference), status := v.status, failure := v.failure))
  }

  function Cache(rows: Rows, v: View, key: string, device: Option<string>): (Rows, Result<View, CacheError>) {
    if v.attemptId !in rows then
      if exists id :: id in rows && rows[id].key == key then (rows, Err(KeyTaken))
      else (rows[v.attemptId := Row(v, key, device)], Ok(v))
    else if !SameIdentity(rows[v.attemptId], v, key, device) then (rows, Err(IdentityConflict))
    else
      var row := Merge(rows[v.attemptId], v, device);
      (rows[v.attemptId := row], Ok(row.view))
  }

  function Requested(r: Request, status: Status, failure: Option<string>): View {
    View(r.details.attemptId, r.details.paymentId, r.details.eventId, r.details.orderId, r.details.provider,
         r.details.amount, r.details.currency, status, None, failure)
  }

  function Begun(r: Request): View { Requested(r, Created, None) }

  function Uncertain(r: Request): View { Requested(r, Unknown, Some("EDGE_CLOUD_TRANSPORT_UNCERTAIN")) }

  function Initiate(rows: Rows, r: Request, device: Option<string>, answer: Option<View>)
    : (Rows, Result<View, CacheError>)
  {
    var (begun, first) := Cache(rows, Begun(r), r.key, device);
    if first.Err? then (begun, first)
    else Cache(begun, if answer.Some? then answer.value else Uncertain(r), r.key, device)
  }

  function Reconcile(rows: Rows, id: Id, answer: Option<View>): (Rows, Result<View, CacheError>) {
    if id !in rows then (rows, Err(NotCached))
    else if answer.None? then (rows, Ok(rows[id].view))
    else Cache(rows, answer.value, rows[id].key, None)
  }

  class EdgePaymentsService {
    var rows: Rows

    constructor ()
      ensures rows == map[]
    {
      rows := map[];
    }

    method WriteCache(v: View, key: string, device: Option<string>) returns (result: Result<View, CacheError>)
      modifies this
      ensures (rows, result) == Cache(old(rows), v, key, device)
    {
      var id := v.attemptId;
      if id !in rows {
        if exists other :: other in rows && rows[other].key == key { return Err(KeyTaken); }
        rows := rows[id := Row(v, key, device)];
        return Ok(v);
      }
      var row := rows[id];
      if !SameIdentity(row, v, key, device) { return Err(IdentityConflict); }
      if row.device.None? && device.Some? {
        row := row.(device := device);
        rows := rows[id := row];
      }
      assert row == rows[id] && rows == old(rows)[id := row];
      if Clash(row.view.reference, v.reference) {
        if IsTerminal(row.view.status) { return Ok(row.view); }
        row := row.(view := row.view.(status := Unknown, failure := Some("EDGE_PROVIDER_REFERENCE_CONFLICT")));
        rows := rows[id := row];
        assert rows == old(rows)[id := row];
        return Ok(row.view);
      }
      if !CanTransition(row.view.status, v.status) { return Ok(row.view); }
      row := row.(view := row.view.(reference := Coalesce(v.reference, row.view.reference), status := v.status,
                                    failure := v.failure));
      rows := rows[id := row];
      assert rows == old(rows)[id := row] && row == Merge(old(rows)[id], v, device);
      return Ok(row.view);
    }

    method InitiatePayment(r: Request, device: Option<string>, answer: Option<View>)
      returns (result: Result<View, CacheError>)
      modifies this
      ensures (rows, result) == Initiate(old(rows), r, device, answer)
    {
      hide Cache;
      var d := r.details;
      result := WriteCache(View(d.attemptId, d.paymentId, d.eventId, d.orderId, d.provider, d.amount, d.currency,
                                Created, None, None), r.key, device);
      if result.Err? { return; }
      if answer.Some? {
        result := WriteCache(answer.value, r.key, device);
      } else {
        result := WriteCache(View(d.attemptId, d.paymentId, d.eventId, d.orderId, d.provider, d.amount, d.currency,
                                  Unknown, None, Some("EDGE_CLOUD_TRANSPORT_UNCERTAIN")), r.key, device);
      }
    }

    method ReconcilePayment(id: Id, answer: Option<View>) returns (result: Result<View, CacheError>)
      modifies this
      ensures (rows, result) == Reconcile(old(rows), id, answer)
    {
      hide Cache;
      if id !in rows { return Err(NotCached); }
      if answer.None? { return Ok(rows[id].view); }
      result := WriteCache(answer.value, rows[id].key, None);
    }
  }

  // ---------- what the cache says after a view ----------

  /** A view is about the cached attempt: the same payment, order, provider, amount and key, and no other device. */
  predicate AboutSame(row: Row, v: View, key: string, device: Option<string>) {
    && v.attemptId == row.view.attemptId && v.paymentId == row.view.paymentId && v.eventId == row.view.eventId
    && v.orderId == row.view.orderId && v.provider == row.view.provider && v.amount == row.view.amount
    && v.currency == row.view.currency && key == row.key
    && (device.Some? && row.device.Some? ==> device == row.device)
  }

  /** What a cached view becomes: the news, if its status may follow; a reference once known stays. */
  function News(old_: View, v: View): View {
    if old_.reference.Some? && v.reference.Some? && old_.reference != v.reference then
      if old_.status == Succeeded || old_.status == Failed then old_
      else old_.(status := Unknown, failure := Some("EDGE_PROVIDER_REFERENCE_CONFLICT"))
    else if CanTransition(old_.status, v.status) then
      old_.(status := v.status, failure := v.failure,
            reference := if v.reference.Some? then v.reference else old_.reference)
    else old_
  }

  /**
   The first view of an attempt is cached as it is, unless another attempt has its key.  A later one about
   the same attempt makes the row say its news, and the first device named stays; one about anything else
   is refused.  A refused view changes nothing.
   */
  lemma {:induction false} ViewTells(rows: Rows, v: View, key: string, device: Option<string>)
    ensures var (after, result), id := Cache(rows, v, key, device), v.attemptId;
      && (result.Err? ==> after == rows)
      && (id !in rows ==>
            && (result.Ok? <==> forall other :: other in rows ==> rows[other].key != key)
            && (result.Ok? ==> result.value == v && after == rows[id := Row(v, key, device)]))
      && (id in rows ==>
            && (result.Ok? <==> AboutSame(rows[id], v, key, device))
            && (result.Ok? ==>
                  && result.value == News(rows[id].view, v)
                  && after == rows[id := Row(News(rows[id].view, v), key,
                                             if rows[id].device.Some? then rows[id].device else device)]))
  {
  }

  /** A payment begun for the first time shows the Cloud's answer, or that it is unknown if none came. */
  lemma {:induction false} BeginningTells(rows: Rows, r: Request, device: Option<string>, answer: Option<View>)
    requires r.details.attemptId !in rows && forall other :: other in rows ==> rows[other].key != r.key
    requires answer.Some? ==> AboutSame(Row(Begun(r), r.key, device), answer.value, r.key, device)
    ensures var (after, result) := Initiate(rows, r, device, answer);
      var shown := if answer.Some? then answer.value
                   else Begun(r).(status := Unknown, failure := Some("EDGE_CLOUD_TRANSPORT_UNCERTAIN"));
      result == Ok(shown) && after == rows[r.details.attemptId := Row(shown, r.key, device)]
  {
    hide Cache;
    ViewTells(rows, Begun(r), r.key, device);
    var begun := Cache(rows, Begun(r), r.key, device).0;
    ViewTells(begun, if answer.Some? then answer.value else Uncertain(r), r.key, device);
  }

  // ---------- Edge and Cloud together ----------

  datatype Venue = Venue(cloud: World, sent: set<View>, rows: Rows)

  datatype Move =
    | CloudMove(step: Step)
    | AnswerMove(id: Id)                                             // the Cloud answers with its row as it is now
    | BeginMove(request: Request, device: Option<string>)
    | LoseMove(request: Request, device: Option<string>)             // no usable answer arrived
    | ReceiveMove(view: View, key: string, device: Option<string>)   // some answer ever sent arrives

  const EmptyVenue := Venue(EmptyWorld, {}, map[])

  function ViewOf(db: Tables, id: Id): View
    requires id in db.attempts && db.attempts[id].paymentId in db.payments
  {
    var a, p := db.attempts[id], db.payments[db.attempts[id].paymentId];
    View(id, a.paymentId, p.eventId, p.orderId, a.provider, p.amount, p.currency, a.status, a.reference, a.failure)
  }

  predicate CanMove(v: Venue, m: Move)
    requires VenueInv(v)
  {
    match m
    case CloudMove(step) => Enabled(v.cloud, step)
    case AnswerMove(id) => id in v.cloud.db.attempts
    case BeginMove(_, _) => true
    case LoseMove(_, _) => true
    case ReceiveMove(view, _, _) => view in v.sent
  }

  function Moved(v: Venue, m: Move): Venue
    requires VenueInv(v) && CanMove(v, m)
  {
    match m
    case CloudMove(step) => v.(cloud := Next(v.cloud, step))
    case AnswerMove(id) => RowsHold(v.cloud, id); v.(sent := v.sent + {ViewOf(v.cloud.db, id)})
    case BeginMove(r, device) => v.(rows := Cache(v.rows, Begun(r), r.key, device).0)
    case LoseMove(r, device) => v.(rows := Cache(v.rows, Uncertain(r), r.key, device).0)
    case ReceiveMove(view, key, device) => v.(rows := Cache(v.rows, view, key, device).0)
  }

  /** A final status or a reference shown in v is the Cloud's own. */
  predicate Backed(db: Tables, v: View) {
    IsTerminal(v.status) || v.reference.Some? ==>
      && v.attemptId in db.attempts
      && (IsTerminal(v.status) ==> db.attempts[v.attemptId].status == v.status)
      && (v.reference.Some? ==> db.attempts[v.attemptId].reference == v.reference)
  }

  ghost predicate VenueInv(v: Venue) {
    && Inv(v.cloud)
    && (forall view :: view in v.sent ==> Backed(v.cloud.db, view))
    && (forall id :: id in v.rows ==> v.rows[id].view.attemptId == id && Backed(v.cloud.db, v.rows[id].view))
  }

  lemma {:induction false} BackedStays(db: Tables, db': Tables, v: View)
    requires Backed(db, v) && Extends(db, db')
    ensures Backed(db', v)
  {
  }

  /** Views backed by one Cloud never disagree on the reference, and merging them is backed again. */
  lemma {:induction false} MergeBacked(db: Tables, row: Row, v: View, device: Option<string>)
    requires Backed(db, row.view) && Backed(db, v) && row.view.attemptId == v.attemptId
    ensures !Clash(row.view.reference, v.reference)
    ensures Backed(db, Merge(row, v, device).view) && Merge(row, v, device).view.attemptId == v.attemptId
  {
  }

  /** A cached row keeps its identity, its final status and its reference, and never returns to CREATED. */
  predicate RowAdvances(old_: Row, now: Row) {
    && now.key == old_.key && (old_.device.Some? ==> now.device == old_.device)
    && now.view == old_.view.(status := now.view.status, reference := now.view.reference, failure := now.view.failure)
    && (IsTerminal(old_.view.status) ==> now.view.status == old_.view.status)
    && (old_.view.reference.Some? ==> now.view.reference == old_.view.reference)
    && (now.view.status == Created ==> old_.view.status == Created)
  }

  ghost predicate RowsAdvance(rows: Rows, rows': Rows) {
    forall id :: id in rows ==> id in rows' && RowAdvances(rows[id], rows'[id])
  }

  lemma {:induction false} CacheBacked(v: Venue, view: View, key: string, device: Option<string>)
    requires VenueInv(v) && Backed(v.cloud.db, view)
    ensures VenueInv(v.(rows := Cache(v.rows, view, key, device).0))
    ensures RowsAdvance(v.rows, Cache(v.rows, view, key, device).0)
  {
    hide Inv, Backed;
    if view.attemptId in v.rows { MergeBacked(v.cloud.db, v.rows[view.attemptId], view, device); }
  }

  lemma {:induction false} BeginningIsBacked(db: Tables, r: Request)
    ensures Backed(db, Begun(r)) && Backed(db, Uncertain(r))
  {
  }

  lemma {:induction false} CloudMovesAlone(v: Venue, step: Step)
    requires VenueInv(v) && Enabled(v.cloud, step)
    ensures VenueInv(v.(cloud := Next(v.cloud, step)))
  {
    hide Inv, Backed, Extends, Next, Enabled;
    StepKeeps(v.cloud, step);
    var db' := Next(v.cloud, step).db;
    forall view | view in v.sent ensures Backed(db', view) { BackedStays(v.cloud.db, db', view); }
    forall id | id in v.rows ensures Backed(db', v.rows[id].view) { BackedStays(v.cloud.db, db', v.rows[id].view); }
  }

  lemma {:induction false} MoveKeeps(v: Venue, m: Move)
    requires VenueInv(v) && CanMove(v, m)
    ensures VenueInv(Moved(v, m)) && RowsAdvance(v.rows, Moved(v, m).rows)
  {
    hide Inv, Next, Enabled, Cache;
    match m
    case CloudMove(step) => CloudMovesAlone(v, step);
    case AnswerMove(id) => RowsHold(v.cloud, id);
    case BeginMove(r, device) => BeginningIsBacked(v.cloud.db, r); CacheBacked(v, Begun(r), r.key, device);
    case LoseMove(r, device) => BeginningIsBacked(v.cloud.db, r); CacheBacked(v, Uncertain(r), r.key, device);
    case ReceiveMove(view, key, device) => CacheBacked(v, view, key, device);
  }

  // ---------- every run ----------

  ghost function MoveAll(v: Venue, moves: seq<Move>): (res: Option<Venue>)
    requires VenueInv(v)
    ensures res.Some? ==> VenueInv(res.value) && RowsAdvance(v.rows, res.value.rows)
    decreases |moves|
  {
    if moves == [] then Some(v)
    else if !CanMove(v, moves[0]) then None
    else
      MoveKeeps(v, moves[0]);
      var next := Moved(v, moves[0]);
      var res := MoveAll(next, moves[1..]);
      assert res.Some? ==> RowsAdvance(v.rows, res.value.rows) by {
        if res.Some? { AdvanceTransitive(v.rows, next.rows, res.value.rows); }
      }
      res
  }

  lemma {:induction false} AdvanceTransitive(a: Rows, b: Rows, c: Rows)
    requires RowsAdvance(a, b) && RowsAdvance(b, c)
    ensures RowsAdvance(a, c)
  {
  }

  lemma {:induction false} EmptyVenueHolds()
    ensures VenueInv(EmptyVenue)
  {
    EmptyHolds();
  }

  /** The Edge is never ahead of the Cloud: what it shows as final, or as the reference, the Cloud has. */
  lemma {:induction false} EdgeNeverAhead(moves: seq<Move>, id: Id)
    requires (EmptyVenueHolds(); MoveAll(EmptyVenue, moves).Some? && id in MoveAll(EmptyVenue, moves).value.rows)
    ensures (EmptyVenueHolds();
      var v := MoveAll(EmptyVenue, moves).value;
      var shown := v.rows[id].view;
      && (IsTerminal(shown.status) ==> id in v.cloud.db.attempts && v.cloud.db.attempts[id].status == shown.status)
      && (shown.reference.Some? ==> id in v.cloud.db.attempts && v.cloud.db.attempts[id].reference == shown.reference))
  {
    hide Inv, Moved, CanMove;
    EmptyVenueHolds();
  }

  /** Whatever arrives, and however late, EDGE_PROVIDER_REFERENCE_CONFLICT is never raised. */
  lemma {:induction false} NoReferenceConflict(moves: seq<Move>, next: Move)
    requires (EmptyVenueHolds(); MoveAll(EmptyVenue, moves).Some? && CanMove(MoveAll(EmptyVenue, moves).value, next))
    ensures (EmptyVenueHolds();
      var v := MoveAll(EmptyVenue, moves).value;
      var incoming := match next
        case BeginMove(r, _) => Some(Begun(r))
        case LoseMove(r, _) => Some(Uncertain(r))
        case ReceiveMove(view, _, _) => Some(view)
        case _ => None;
      incoming.Some? && incoming.value.attemptId in v.rows ==>
        !Clash(v.rows[incoming.value.attemptId].view.reference, incoming.value.reference))
  {
    hide Inv, Moved, Enabled;
    EmptyVenueHolds();
    var v := MoveAll(EmptyVenue, moves).value;
    if next.ReceiveMove? && next.view.attemptId in v.rows {
      MergeBacked(v.cloud.db, v.rows[next.view.attemptId], next.view, None);
    }
  }

  lemma {:induction false} MovesCompose(v: Venue, before: seq<Move>, after: seq<Move>)
    requires VenueInv(v)
    ensures MoveAll(v, before + after) ==
      match MoveAll(v, before)
      case None => None
      case Some(mid) => MoveAll(mid, after)
    decreases |before|
  {
    hide VenueInv, RowsAdvance, CanMove, Moved;
    if before == [] {
      assert before + after == after;
    } else {
      assert (before + after)[0] == before[0] && (before + after)[1..] == before[1..] + after;
      if CanMove(v, before[0]) {
        MoveKeeps(v, before[0]);
        MovesCompose(Moved(v, before[0]), before[1..], after);
      }
    }
  }

  /** Between any two moments of a run a cached row's final status and reference never change again. */
  lemma {:induction false} EdgeHistory(before: seq<Move>, after: seq<Move>, id: Id)
    requires (EmptyVenueHolds(); MoveAll(EmptyVenue, before).Some? && MoveAll(EmptyVenue, before + after).Some?)
    requires (EmptyVenueHolds(); id in MoveAll(EmptyVenue, before).value.rows)
    ensures (EmptyVenueHolds();
      var now := MoveAll(EmptyVenue, before + after).value.rows;
      id in now && RowAdvances(MoveAll(EmptyVenue, before).value.rows[id], now[id]))
  {
    hide VenueInv, CanMove, Moved;
    EmptyVenueHolds();
    MovesCompose(EmptyVenue, before, after);
  }

  /**
   Once the Cloud's attempt is final, its present answer brings the Edge to the Cloud's status, reference
   and failure code, whatever the Edge held before.
   */
  lemma {:induction false} FinalAnswerSettles(moves: seq<Move>, id: Id, device: Option<string>)
    requires (EmptyVenueHolds(); MoveAll(EmptyVenue, moves).Some?)
    requires (EmptyVenueHolds();
      var v := MoveAll(EmptyVenue, moves).value;
      && id in v.cloud.db.attempts && IsTerminal(v.cloud.db.attempts[id].status) && id in v.rows
      && (RowsHold(v.cloud, id); SameIdentity(v.rows[id], ViewOf(v.cloud.db, id), v.rows[id].key, device)))
    ensures (EmptyVenueHolds();
      var v := MoveAll(EmptyVenue, moves).value;
      RowsHold(v.cloud, id);
      var answer := ViewOf(v.cloud.db, id);
      var (rows', result) := Cache(v.rows, answer, v.rows[id].key, device);
      result == Ok(answer) && rows'[id].view == answer)
  {
    hide Inv, Moved, CanMove;
    EmptyVenueHolds();
    var v := MoveAll(EmptyVenue, moves).value;
    RowsHold(v.cloud, id);
    TerminalIsStuck(v.rows[id].view.status);
    assert Backed(v.cloud.db, v.rows[id].view);
  }
}
