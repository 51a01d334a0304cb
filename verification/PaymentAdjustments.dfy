/**
 Refunds and reversals next to the Cloud's payments: an amount is reserved before the provider is
 called, the call is made by whoever reserved it, and a late result only fills in a row still waiting.
 */
module PaymentAdjustments {
  import opened Common
  import opened PaymentDomain
  import opened CloudPayments
  import opened CloudPaymentRuns
  import opened CloudPaymentTheorems
  import Sums

  datatype Kind = Refund | Reversal

  datatype AdjustmentStatus = Requested | InProgress | Done | Rejected | Uncertain

  datatype Input = Input(
    id: Id, paymentId: Id, amount: nat, currency: string, reason: string,
    requester: string, approver: Option<string>, key: string)

  datatype Adjustment = Adjustment(
    input: Input, provider: string, source: string,
    status: AdjustmentStatus, reference: Option<string>, failure: Option<string>)

  /** One table per kind, each with a unique idempotency key. */
  datatype Slot = Slot(kind: Kind, key: string)

  type Book = map<Slot, Adjustment>

  datatype Answer = Answer(status: AdjustmentStatus, reference: Option<string>, failure: Option<string>)

  datatype AdjustmentError =
    | PaymentNotFound
    | KeyReusedForOther
    | CurrencyDiffers
    | ExceedsPayment
    | NothingToAdjust
    | Unsupported
    | ExceedsBalance
    | IdTaken

  datatype Claimed = Claimed(owner: bool, row: Adjustment)

  // ---------- the reservation ----------

  function Holding(book: Book, payment: Id): set<Slot> {
    set s | s in book && book[s].input.paymentId == payment && book[s].status != Rejected
  }

  function AmountIn(book: Book): Slot -> int { (s: Slot) => if s in book then book[s].input.amount else 0 }

  ghost function Reserved(book: Book, payment: Id): int { Sums.Over(Holding(book, payment), AmountIn(book)) }

  /** The successful attempt the adjustment will be made against; None if there is none. */
  predicate RailFinds(db: Tables, payment: Id, rail: Option<Id>) {
    match rail
    case Some(id) =>
      && id in db.attempts && db.attempts[id].paymentId == payment
      && db.attempts[id].status == Succeeded && db.attempts[id].reference.Some?
    case None =>
      forall id :: id in db.attempts && db.attempts[id].paymentId == payment && db.attempts[id].status == Succeeded ==>
        db.attempts[id].reference.None?
  }

  function Stored(kind: Kind, input: Input): Input { if kind == Reversal then input.(approver := None) else input }

  ghost function Reserve(db: Tables, book: Book, kind: Kind, input: Input, stale: bool, rail: Option<Id>, supported: bool)
    : (Book, Result<Claimed, AdjustmentError>)
    requires RailFinds(db, input.paymentId, rail)
  {
    var slot := Slot(kind, input.key);
    if input.paymentId !in db.payments then (book, Err(PaymentNotFound))
    else if slot in book then
      if book[slot].input != input then (book, Err(KeyReusedForOther))
      else if book[slot].status == Requested && stale then
        var row := book[slot].(status := Uncertain, failure := Some("AMBIGUOUS_ADJUSTMENT_CRASH"));
        (book[slot := row], Ok(Claimed(false, row)))
      else (book, Ok(Claimed(false, book[slot])))
    else if db.payments[input.paymentId].currency != input.currency then (book, Err(CurrencyDiffers))
    else if input.amount > db.payments[input.paymentId].amount then (book, Err(ExceedsPayment))
    else if rail.None? then (book, Err(NothingToAdjust))
    else if !supported then (book, Err(Unsupported))
    else if Reserved(book, input.paymentId) + input.amount > db.payments[input.paymentId].amount then
      (book, Err(ExceedsBalance))
    else if exists s :: s in book && s.kind == kind && book[s].input.id == input.id then (book, Err(IdTaken))
    else
      var a := db.attempts[rail.value];
      var row := Adjustment(Stored(kind, input), a.provider, a.reference.value, Requested, None, None);
      (book[slot := row], Ok(Claimed(true, row)))
  }

  /** The update after the provider call, which only a row still REQUESTED accepts. */
  function WriteAnswer(book: Book, slot: Slot, answer: Answer): Book
    requires slot in book
  {
    if book[slot].status != Requested then book
    else book[slot := book[slot].(status := answer.status, reference := Coalesce(answer.reference, book[slot].reference),
                                  failure := answer.failure)]
  }

  class PaymentAdjustmentsService {
    var book: Book

    constructor ()
      ensures book == map[]
    {
      book := map[];
    }

    method SumReserved(payment: Id) returns (total: int)
      ensures total == Reserved(book, payment)
    {
      total := 0;
      var left := Holding(book, payment);
      while left != {}
        invariant left <= Holding(book, payment)
        invariant total + Sums.Over(left, AmountIn(book)) == Reserved(book, payment)
        decreases |left|
      {
        var s :| s in left;
        Sums.Split(left, s, AmountIn(book));
        total := total + book[s].input.amount;
        left := left - {s};
      }
    }

    method RequestAdjustment(db: Tables, kind: Kind, input: Input, stale: bool, rail: Option<Id>, supported: bool)
      returns (result: Result<Claimed, AdjustmentError>)
      requires RailFinds(db, input.paymentId, rail)
      modifies this
      ensures (book, result) == Reserve(db, old(book), kind, input, stale, rail, supported)
    {
      hide Reserved;
      var slot := Slot(kind, input.key);
      if input.paymentId !in db.payments { return Err(PaymentNotFound); }
      var payment := db.payments[input.paymentId];
      if slot in book {
        if book[slot].input != input { return Err(KeyReusedForOther); }
        if book[slot].status == Requested && stale {
          book := book[slot := book[slot].(status := Uncertain, failure := Some("AMBIGUOUS_ADJUSTMENT_CRASH"))];
        }
        return Ok(Claimed(false, book[slot]));
      }
      if payment.currency != input.currency { return Err(CurrencyDiffers); }
      if input.amount > payment.amount { return Err(ExceedsPayment); }
      if rail.None? { return Err(NothingToAdjust); }
      if !supported { return Err(Unsupported); }
      var reserved := SumReserved(input.paymentId);
      if reserved + input.amount > payment.amount { return Err(ExceedsBalance); }
      if exists s :: s in book && s.kind == kind && book[s].input.id == input.id { return Err(IdTaken); }
      var a := db.attempts[rail.value];
      var row := Adjustment(Stored(kind, input), a.provider, a.reference.value, Requested, None, None);
      book := book[slot := row];
      return Ok(Claimed(true, row));
    }

    method SaveAnswer(slot: Slot, answer: Answer)
      requires slot in book
      modifies this
      ensures book == WriteAnswer(old(book), slot, answer)
    {
      if book[slot].status == Requested {
        var row := book[slot];
        book := book[slot := row.(status := answer.status, reference := Coalesce(answer.reference, row.reference),
                                  failure := answer.failure)];
      }
    }
  }

  // ---------- what is granted ----------

  lemma {:induction false} AmountsAddUp(book: Book, slots: set<Slot>)
    ensures Sums.Over(slots, AmountIn(book)) >= 0
    decreases slots
  {
    if slots != {} {
      var s :| s in slots;
      Sums.Split(slots, s, AmountIn(book));
      AmountsAddUp(book, slots - {s});
    }
  }

  /** An adjustment of this payment can be made: a successful attempt of it has a provider's reference. */
  predicate Adjustable(db: Tables, payment: Id) {
    exists id :: id in db.attempts && db.attempts[id].paymentId == payment && db.attempts[id].status == Succeeded
                 && db.attempts[id].reference.Some?
  }

  /** What a request with a new key needs. */
  ghost predicate Grantable(db: Tables, book: Book, kind: Kind, input: Input, supported: bool) {
    && input.paymentId in db.payments && db.payments[input.paymentId].currency == input.currency
    && Adjustable(db, input.paymentId) && supported
    && Reserved(book, input.paymentId) + input.amount <= db.payments[input.paymentId].amount
    && forall s :: s in book && s.kind == kind ==> book[s].input.id != input.id
  }

  /**
   A request with a new key is granted exactly when its payment exists in its currency, has a successful
   attempt the provider can adjust, and what is reserved and the new amount together do not exceed it.
   The caller then owns the provider call, and the row says what was asked for, against that attempt; a
   reversal records no approver.  A request that is not granted changes nothing.
   */
  lemma {:induction false} GrantedExactlyWhen(db: Tables, book: Book, kind: Kind, input: Input, stale: bool,
                                              rail: Option<Id>, supported: bool)
    requires RailFinds(db, input.paymentId, rail) && Slot(kind, input.key) !in book
    ensures var (after, result) := Reserve(db, book, kind, input, stale, rail, supported);
      if Grantable(db, book, kind, input, supported) then
        && rail.Some? && result.Ok? && result.value.owner
        && after == book[Slot(kind, input.key) := result.value.row]
        && var row, a := result.value.row, db.attempts[rail.value];
        && row.input == (if kind == Reversal then input.(approver := None) else input)
        && row.provider == a.provider && Some(row.source) == a.reference
        && row.status == Requested && row.reference.None? && row.failure.None?
      else result.Err? && after == book
  {
    AmountsAddUp(book, Holding(book, input.paymentId));
    assert Reserved(book, input.paymentId) >= 0;
    hide Reserved;
    assert rail.Some? <==> Adjustable(db, input.paymentId);
  }

  /** A payment without adjustments, or with failed ones only, can be refunded in full, and then no further. */
  lemma {:induction false} FullRefundGranted(db: Tables, book: Book, input: Input, stale: bool, rail: Option<Id>)
    requires RailFinds(db, input.paymentId, rail) && Slot(Refund, input.key) !in book
    requires forall s :: s in book && book[s].input.paymentId == input.paymentId ==> book[s].status == Rejected
    requires forall s :: s in book && s.kind == Refund ==> book[s].input.id != input.id
    requires input.paymentId in db.payments && Adjustable(db, input.paymentId)
    requires input.amount == db.payments[input.paymentId].amount && input.currency == db.payments[input.paymentId].currency
    ensures var (after, result) := Reserve(db, book, Refund, input, stale, rail, true);
      && result.Ok? && result.value.owner && Reserved(after, input.paymentId) == input.amount
      && forall kind, more: Input :: more.paymentId == input.paymentId && more.amount > 0 ==>
           !Grantable(db, after, kind, more, true)
  {
    assert Holding(book, input.paymentId) == {};
    GrantedExactlyWhen(db, book, Refund, input, stale, rail, true);
    var row := Reserve(db, book, Refund, input, stale, rail, true).1.value.row;
    InsertReserved(book, Slot(Refund, input.key), row, input.paymentId);
  }

  /**
   A request under a used key gives back the row of that key, for no one to own, if it is the same
   request, and is refused otherwise.  Only a row that has waited too long changes: its outcome is uncertain.
   */
  lemma {:induction false} ReplayTells(db: Tables, book: Book, kind: Kind, input: Input, stale: bool,
                                       rail: Option<Id>, supported: bool)
    requires RailFinds(db, input.paymentId, rail) && Slot(kind, input.key) in book
    requires input.paymentId in db.payments
    ensures var (after, result), slot := Reserve(db, book, kind, input, stale, rail, supported), Slot(kind, input.key);
      if book[slot].input != input then result == Err(KeyReusedForOther) && after == book
      else
        && slot in after && result == Ok(Claimed(false, after[slot]))
        && after == book[slot := after[slot]]
        && after[slot] == if stale && book[slot].status == Requested
                          then book[slot].(status := Uncertain, failure := Some("AMBIGUOUS_ADJUSTMENT_CRASH"))
                          else book[slot]
  {
    hide Reserved;
  }

  /** A row still waiting takes exactly the provider's answer; every other row stays as it is. */
  lemma {:induction false} AnswerTaken(book: Book, slot: Slot, answer: Answer)
    requires slot in book
    ensures var after := WriteAnswer(book, slot, answer);
      && slot in after && after == book[slot := after[slot]]
      && (book[slot].status != Requested ==> after[slot] == book[slot])
      && (book[slot].status == Requested ==>
            && after[slot].status == answer.status && after[slot].failure == answer.failure
            && after[slot].reference == (if answer.reference.Some? then answer.reference else book[slot].reference)
            && after[slot].input == book[slot].input && after[slot].provider == book[slot].provider
            && after[slot].source == book[slot].source)
  {
  }

  // ---------- adjustments and payments together ----------

  datatype Till = Till(cloud: World, book: Book, owned: set<Slot>, inFlight: set<Slot>, calls: seq<Slot>)

  datatype Act =
    | CloudAct(step: Step)
    | RequestAct(kind: Kind, input: Input, stale: bool, rail: Option<Id>, supported: bool)
    | CallAct(slot: Slot)                       // the owner calls the provider
    | AnswerAct(slot: Slot, answer: Answer)     // its answer arrives, perhaps late

  const EmptyTill := Till(EmptyWorld, map[], {}, {}, [])

  predicate CanAct(t: Till, act: Act) {
    match act
    case CloudAct(step) => Enabled(t.cloud, step)
    case RequestAct(_, input, _, rail, _) => RailFinds(t.cloud.db, input.paymentId, rail)
    case CallAct(slot) => slot in t.owned
    case AnswerAct(slot, answer) => slot in t.inFlight && answer.status != Requested
  }

  ghost function Acted(t: Till, act: Act): Till
    requires TillInv(t) && CanAct(t, act)
  {
    match act
    case CloudAct(step) => t.(cloud := Next(t.cloud, step))
    case RequestAct(kind, input, stale, rail, supported) =>
      var (book, result) := Reserve(t.cloud.db, t.book, kind, input, stale, rail, supported);
      t.(book := book,
         owned := if result.Ok? && result.value.owner then t.owned + {Slot(kind, input.key)} else t.owned)
    case CallAct(slot) => t.(owned := t.owned - {slot}, inFlight := t.inFlight + {slot}, calls := t.calls + [slot])
    case AnswerAct(slot, answer) => t.(book := WriteAnswer(t.book, slot, answer))
  }

  /** The row is against a payment of its currency, through a successful attempt of that payment. */
  predicate Grounded(db: Tables, row: Adjustment) {
    && row.input.paymentId in db.payments
    && db.payments[row.input.paymentId].currency == row.input.currency
    && exists id :: id in db.attempts && Against(db.attempts[id], row)
  }

  predicate Against(a: Attempt, row: Adjustment) {
    && a.paymentId == row.input.paymentId && a.status == Succeeded
    && a.provider == row.provider && a.reference == Some(row.source)
  }

  ghost predicate BookOk(db: Tables, book: Book) {
    && (forall s :: s in book ==> Grounded(db, book[s]) && book[s].input.key == s.key)
    && (forall p :: p in db.payments ==> Reserved(book, p) <= db.payments[p].amount)
    && (forall s, t :: s in book && t in book && s.kind == t.kind && book[s].input.id == book[t].input.id ==> s == t)
  }

  ghost predicate CallsOk(t: Till) {
    && (forall s :: s in t.owned ==> s in t.book && s !in t.calls)
    && (forall s :: s in t.inFlight ==> s in t.book)
    && (forall s :: s in t.calls ==> s in t.book)
    && (forall i, j :: 0 <= i < j < |t.calls| ==> t.calls[i] != t.calls[j])
  }

  ghost predicate TillInv(t: Till) { Inv(t.cloud) && BookOk(t.cloud.db, t.book) && CallsOk(t) }

  /** A row never changes what it is about, and once out of REQUESTED it never changes at all. */
  ghost predicate BookAdvances(book: Book, book': Book) {
    forall s :: s in book ==>
      && s in book' && book'[s].input == book[s].input
      && book'[s].provider == book[s].provider && book'[s].source == book[s].source
      && (book[s].status != Requested ==> book'[s] == book[s])
  }

  // ---------- the reserved sum ----------

  /** Rewriting a row that keeps its amount changes the reserved sum only if it becomes FAILED. */
  lemma {:induction false} RewriteReserved(book: Book, slot: Slot, row: Adjustment, p: Id)
    requires slot in book && book[slot].status == Requested && row.input == book[slot].input
    ensures Reserved(book[slot := row], p) ==
      Reserved(book, p) - if row.status == Rejected && row.input.paymentId == p then row.input.amount else 0
  {
    var book' := book[slot := row];
    Sums.Same(Holding(book, p), AmountIn(book), AmountIn(book'));
    if row.status == Rejected && row.input.paymentId == p {
      Sums.Split(Holding(book, p), slot, AmountIn(book'));
      assert Holding(book', p) == Holding(book, p) - {slot};
    } else {
      assert Holding(book', p) == Holding(book, p);
    }
  }

  lemma {:induction false} InsertReserved(book: Book, slot: Slot, row: Adjustment, p: Id)
    requires slot !in book && row.status != Rejected
    ensures Reserved(book[slot := row], p) ==
      Reserved(book, p) + if row.input.paymentId == p then row.input.amount else 0
  {
    var book' := book[slot := row];
    Sums.Same(Holding(book, p), AmountIn(book), AmountIn(book'));
    if row.input.paymentId == p {
      Sums.Insert(Holding(book, p), slot, AmountIn(book'));
      assert Holding(book', p) == Holding(book, p) + {slot};
    } else {
      assert Holding(book', p) == Holding(book, p);
    }
  }

  // ---------- every act ----------

  lemma {:induction false} GroundedStays(db: Tables, db': Tables, row: Adjustment)
    requires Grounded(db, row) && Extends(db, db')
    ensures Grounded(db', row)
  {
    var id :| id in db.attempts && Against(db.attempts[id], row);
    assert Against(db'.attempts[id], row);
  }

  /** New payments have nothing reserved, because every row's payment existed before. */
  lemma {:induction false} NothingReserved(book: Book, p: Id)
    requires forall s :: s in book ==> book[s].input.paymentId != p
    ensures Reserved(book, p) == 0
  {
    assert Holding(book, p) == {};
  }

  lemma {:induction false} CloudActKeeps(t: Till, step: Step)
    requires TillInv(t) && Enabled(t.cloud, step)
    ensures TillInv(Acted(t, CloudAct(step)))
  {
    hide Inv, Next, Enabled, Reserved, Grounded;
    StepKeeps(t.cloud, step);
    var db, db' := t.cloud.db, Next(t.cloud, step).db;
    forall s | s in t.book ensures Grounded(db', t.book[s]) { GroundedStays(db, db', t.book[s]); }
    forall p | p in db'.payments ensures Reserved(t.book, p) <= db'.payments[p].amount {
      if p !in db.payments {
        forall s | s in t.book ensures t.book[s].input.paymentId != p { GroundedPayment(db, t.book[s]); }
        NothingReserved(t.book, p);
      }
    }
  }

  lemma {:induction false} GroundedPayment(db: Tables, row: Adjustment)
    requires Grounded(db, row)
    ensures row.input.paymentId in db.payments
  {
  }

  lemma {:induction false} RewriteKeepsBook(db: Tables, book: Book, slot: Slot, row: Adjustment)
    requires BookOk(db, book) && slot in book && book[slot].status == Requested
    requires row == book[slot].(status := row.status, reference := row.reference, failure := row.failure)
    ensures BookOk(db, book[slot := row]) && BookAdvances(book, book[slot := row])
  {
    hide Reserved;
    forall p ensures Reserved(book[slot := row], p) <= Reserved(book, p) { RewriteReserved(book, slot, row, p); }
    assert Grounded(db, row) by {
      assert Grounded(db, book[slot]);
      var id :| id in db.attempts && Against(db.attempts[id], book[slot]);
      assert Against(db.attempts[id], row);
    }
  }

  lemma {:induction false} InsertKeepsBook(db: Tables, book: Book, slot: Slot, row: Adjustment, rail: Id)
    requires BookOk(db, book) && slot !in book && row.status == Requested && row.input.key == slot.key
    requires row.input.paymentId in db.payments && db.payments[row.input.paymentId].currency == row.input.currency
    requires rail in db.attempts && Against(db.attempts[rail], row)
    requires Reserved(book, row.input.paymentId) + row.input.amount <= db.payments[row.input.paymentId].amount
    requires forall s :: s in book && s.kind == slot.kind ==> book[s].input.id != row.input.id
    ensures BookOk(db, book[slot := row]) && BookAdvances(book, book[slot := row])
  {
    hide Reserved;
    forall p | p in db.payments ensures Reserved(book[slot := row], p) <= db.payments[p].amount {
      InsertReserved(book, slot, row, p);
    }
    assert Grounded(db, row);
  }

  lemma {:induction false} ReserveKeeps(db: Tables, book: Book, kind: Kind, input: Input, stale: bool,
                                        rail: Option<Id>, supported: bool)
    requires BookOk(db, book) && RailFinds(db, input.paymentId, rail)
    ensures var (book', result) := Reserve(db, book, kind, input, stale, rail, supported);
      && BookOk(db, book') && BookAdvances(book, book')
      && (result.Ok? && result.value.owner ==> Slot(kind, input.key) !in book && Slot(kind, input.key) in book')
  {
    hide BookOk, Reserved;
    var slot := Slot(kind, input.key);
    var (book', result) := Reserve(db, book, kind, input, stale, rail, supported);
    if slot in book && book' != book {
      RewriteKeepsBook(db, book, slot, book'[slot]);
    } else if result.Ok? && result.value.owner {
      InsertKeepsBook(db, book, slot, book'[slot], rail.value);
    }
  }

  lemma {:induction false} ActKeeps(t: Till, act: Act)
    requires TillInv(t) && CanAct(t, act)
    ensures TillInv(Acted(t, act)) && BookAdvances(t.book, Acted(t, act).book)
  {
    hide Inv, BookOk, Reserve, Next, Enabled, RailFinds;
    match act
    case CloudAct(step) => CloudActKeeps(t, step);
    case RequestAct(kind, input, stale, rail, supported) =>
      ReserveKeeps(t.cloud.db, t.book, kind, input, stale, rail, supported);
    case CallAct(slot) =>
    case AnswerAct(slot, answer) =>
      if t.book[slot].status == Requested {
        RewriteKeepsBook(t.cloud.db, t.book, slot, WriteAnswer(t.book, slot, answer)[slot]);
      }
  }

  // ---------- every run ----------

  ghost function ActAll(t: Till, acts: seq<Act>): (res: Option<Till>)
    requires TillInv(t)
    ensures res.Some? ==> TillInv(res.value) && BookAdvances(t.book, res.value.book)
    decreases |acts|
  {
    if acts == [] then Some(t)
    else if !CanAct(t, acts[0]) then None
    else
      ActKeeps(t, acts[0]);
      ActAll(Acted(t, acts[0]), acts[1..])
  }

  lemma {:induction false} EmptyTillHolds()
    ensures TillInv(EmptyTill)
  {
    EmptyHolds();
  }

  lemma {:induction false} ActsCompose(t: Till, before: seq<Act>, after: seq<Act>)
    requires TillInv(t)
    ensures ActAll(t, before + after) ==
      match ActAll(t, before)
      case None => None
      case Some(mid) => ActAll(mid, after)
    decreases |before|
  {
    hide TillInv, BookAdvances, CanAct, Acted;
    if before == [] {
      assert before + after == after;
    } else {
      assert (before + after)[0] == before[0] && (before + after)[1..] == before[1..] + after;
      if CanAct(t, before[0]) {
        ActKeeps(t, before[0]);
        ActsCompose(Acted(t, before[0]), before[1..], after);
      }
    }
  }

  /** Refunds and reversals that have not failed never total more than the payment. */
  lemma {:induction false} NeverOverAdjusted(acts: seq<Act>, p: Id)
    requires (EmptyTillHolds(); ActAll(EmptyTill, acts).Some?)
    ensures (EmptyTillHolds();
      var t := ActAll(EmptyTill, acts).value;
      if p in t.cloud.db.payments then Reserved(t.book, p) <= t.cloud.db.payments[p].amount else Reserved(t.book, p) == 0)
  {
    hide Inv, CanAct, Acted;
    EmptyTillHolds();
    var t := ActAll(EmptyTill, acts).value;
    if p !in t.cloud.db.payments {
      forall s | s in t.book ensures t.book[s].input.paymentId != p { assert Grounded(t.cloud.db, t.book[s]); }
      NothingReserved(t.book, p);
    }
  }

  /** No idempotency key reaches the provider twice, and none without its row. */
  lemma {:induction false} AdjustedOnce(acts: seq<Act>, i: nat, j: nat)
    requires (EmptyTillHolds(); ActAll(EmptyTill, acts).Some? && i < j < |ActAll(EmptyTill, acts).value.calls|)
    ensures (EmptyTillHolds();
      var t := ActAll(EmptyTill, acts).value;
      t.calls[i] != t.calls[j] && t.calls[i] in t.book && t.calls[j] in t.book)
  {
    hide Inv, BookOk, CanAct, Acted;
    EmptyTillHolds();
    var t := ActAll(EmptyTill, acts).value;
    assert t.calls[i] in t.calls && t.calls[j] in t.calls;
  }

  /** Every adjustment is, at all times, against a successful attempt of its own payment, by that attempt's reference. */
  lemma {:induction false} AgainstSuccess(acts: seq<Act>, slot: Slot)
    requires (EmptyTillHolds(); ActAll(EmptyTill, acts).Some? && slot in ActAll(EmptyTill, acts).value.book)
    ensures (EmptyTillHolds();
      var t := ActAll(EmptyTill, acts).value;
      exists id :: id in t.cloud.db.attempts && Against(t.cloud.db.attempts[id], t.book[slot]))
  {
    hide Inv, CanAct, Acted, Against;
    EmptyTillHolds();
    var t := ActAll(EmptyTill, acts).value;
    assert Grounded(t.cloud.db, t.book[slot]);
  }

  /** An outcome, once recorded, is final: replays, crashes after a minute and late answers change nothing. */
  lemma {:induction false} OutcomeIsFinal(before: seq<Act>, after: seq<Act>, slot: Slot)
    requires (EmptyTillHolds(); ActAll(EmptyTill, before).Some? && ActAll(EmptyTill, before + after).Some?)
    requires (EmptyTillHolds(); slot in ActAll(EmptyTill, before).value.book)
    ensures (EmptyTillHolds();
      var book, now := ActAll(EmptyTill, before).value.book, ActAll(EmptyTill, before + after).value.book;
      && slot in now && now[slot].input == book[slot].input && now[slot].source == book[slot].source
      && (book[slot].status != Requested ==> now[slot] == book[slot]))
  {
    hide TillInv, CanAct, Acted;
    EmptyTillHolds();
    ActsCompose(EmptyTill, before, after);
  }

  /** Asking again gives back the same row, reserves nothing more and never makes a second owner. */
  lemma {:induction false} ReplayIsIdle(db: Tables, book: Book, kind: Kind, input: Input, rail: Option<Id>,
                                        supported: bool,
                                        again: Option<Id>, stillSupported: bool)
    requires RailFinds(db, input.paymentId, rail) && RailFinds(db, input.paymentId, again)
    requires Reserve(db, book, kind, input, false, rail, supported).1.Ok?
    requires kind == Reversal ==> input.approver == None
    ensures var (first, result) := Reserve(db, book, kind, input, false, rail, supported);
      Reserve(db, first, kind, input, false, again, stillSupported) == (first, Ok(Claimed(false, result.value.row)))
  {
    hide Reserved;
  }
}
