/** What the order projection guarantees however the events of an order arrive. */
module OrderProjection {
  import opened Common
  import opened SyncEvents
  import opened CloudSync
  import Sums

  // ---------- with no assumption at all ----------

  /** An order row may only go forward. */
  predicate Follows(row: OrderRow, row': OrderRow) {
    && row'.device == row.device && row'.event == row.event
    && row'.lastSequence >= row.lastSequence
    && (row.state == Closed ==> row'.state == Closed)
    && (row.location.Some? ==> row'.location == row.location)
    && (row.closeMethod.Some? ==> row'.closeMethod == row.closeMethod)
    && (row.cashier.Some? ==> row'.cashier == row.cashier)
    && (row'.lastSequence == row.lastSequence ==> row' == row)
  }

  lemma {:induction false} ProjectFollows(row: OrderRow, e: Envelope, p: OrderPayload)
    ensures Follows(row, Project(Some(row), e, p).0)
    ensures Project(Some(row), e, p).1.Some? ==> Project(Some(row), e, p).0 == row
  {
  }

  ghost predicate OrdersFollow(before: map<string, OrderRow>, after: map<string, OrderRow>) {
    forall id :: id in before ==> id in after && Follows(before[id], after[id])
  }

  lemma {:induction false} EventFollows(cloud: Cloud, e: Envelope)
    ensures OrdersFollow(cloud.orders, ProcessEvent(cloud, e).0.orders)
  {
    hide Project;
    if e.body.Order? && e.aggregate in cloud.orders {
      ProjectFollows(cloud.orders[e.aggregate], e, e.body.payload);
    }
  }

  /**
   Whatever events arrive, in whatever order: CLOSED never reopens, the last sequence never drops, device
   and event are fixed, and location, close method and cashier are written at most once.
   */
  lemma {:induction false} OrdersOnlyGoForward(cloud: Cloud, events: seq<Envelope>)
    ensures OrdersFollow(cloud.orders, ProcessAll(cloud, events).0.orders)
    decreases |events|
  {
    hide ProcessEvent;
    if events != [] {
      var n := |events| - 1;
      OrdersOnlyGoForward(cloud, events[..n]);
      EventFollows(ProcessAll(cloud, events[..n]).0, events[n]);
    }
  }

  // ---------- a consistent family of events of one order ----------

  predicate IsOrder(e: Envelope) { e.body.Order? }

  function P(e: Envelope): OrderPayload
    requires IsOrder(e)
  {
    e.body.payload
  }

  /** Two events of one device that do not contradict each other. */
  predicate Agree(e: Envelope, f: Envelope)
    requires IsOrder(e) && IsOrder(f)
  {
    && e.device == f.device && (e.sequence == f.sequence ==> e == f)
    && P(e).event == P(f).event && !Clash(P(e).location, P(f).location)
    && !Clash(P(e).closeMethod, P(f).closeMethod) && !Clash(P(e).cashier, P(f).cashier)
    && (e.sequence < f.sequence ==> SafeOrderAdvance(P(e).state, P(f).state))
  }

  ghost predicate Consistent(events: seq<Envelope>) {
    && (forall e :: e in events ==> IsOrder(e) && P(e).Valid())
    && (forall e, f :: e in events && f in events ==> Agree(e, f))
  }

  /** The order after the events, and whether any of them was refused. */
  function ProjectAll(events: seq<Envelope>): (res: (Option<OrderRow>, bool))
    requires forall e :: e in events ==> IsOrder(e)
    ensures events != [] ==> res.0.Some?
    decreases |events|
  {
    if events == [] then (None, false)
    else
      var n := |events| - 1;
      var (before, refused) := ProjectAll(events[..n]);
      var (row, refusal) := Project(before, events[n], P(events[n]));
      (Some(row), refused || refusal.Some?)
  }

  predicate Highest(hi: Envelope, events: seq<Envelope>) {
    hi in events && forall e :: e in events ==> e.sequence <= hi.sequence
  }

  /** The row shows hi, and its fill-in columns come from events that were delivered. */
  ghost predicate Shows(row: OrderRow, hi: Envelope, events: seq<Envelope>)
    requires (forall e :: e in events ==> IsOrder(e)) && hi in events
  {
    var p := P(hi);
    && row.device == hi.device && row.lastSequence == hi.sequence
    && row.state == p.state && row.total == p.total && row.currency == p.currency && row.event == p.event && row.at == p.at
    && (p.location.Some? ==> row.location == p.location)
    && (p.cashier.Some? ==> row.cashier == p.cashier)
    && (p.lines.Some? ==> row.lines == p.lines.value)
    && (row.location.Some? ==> exists e :: e in events && P(e).location == row.location)
    && (row.cashier.Some? ==> exists e :: e in events && P(e).cashier == row.cashier)
    && (row.lines != [] ==> exists e :: e in events && P(e).lines == Some(row.lines))
    && row.closeMethod == p.closeMethod
  }

  lemma {:induction false} ShowsMore(row: OrderRow, hi: Envelope, events: seq<Envelope>, more: seq<Envelope>)
    requires (forall e :: e in more ==> IsOrder(e)) && (forall e :: e in events ==> e in more)
    requires hi in events && Shows(row, hi, events)
    ensures Shows(row, hi, more)
  {
  }

  lemma {:induction false} InsertShows(e: Envelope, events: seq<Envelope>)
    requires (forall x :: x in events ==> IsOrder(x)) && e in events
    ensures Shows(Inserted(e, P(e)), e, events)
  {
  }

  /** A newer event of a consistent family meets no objection and takes over. */
  lemma {:induction false} AdvanceShows(row: OrderRow, hi: Envelope, e: Envelope, events: seq<Envelope>)
    requires Consistent(events) && hi in events && e in events && Shows(row, hi, events) && hi.sequence < e.sequence
    ensures Objection(row, P(e)).None?
    ensures Shows(Advanced(row, e, P(e)), e, events)
  {
    assert Agree(hi, e);
    if row.location.Some? {
      var x :| x in events && P(x).location == row.location;
      assert Agree(x, e);
    }
    if row.cashier.Some? {
      var x :| x in events && P(x).cashier == row.cashier;
      assert Agree(x, e);
    }
  }

  lemma {:induction false} OneMore(row: OrderRow, hi: Envelope, e: Envelope, init: seq<Envelope>, events: seq<Envelope>)
    returns (hi': Envelope)
    requires events == init + [e] && Consistent(events) && Highest(hi, init) && Shows(row, hi, init)
    ensures Highest(hi', events) && Shows(Project(Some(row), e, P(e)).0, hi', events)
    ensures Project(Some(row), e, P(e)).1.None?
  {
    hide Shows;
    ShowsMore(row, hi, init, events);
    assert Agree(hi, e);
    ShownDevice(row, hi, events);
    if e.sequence <= hi.sequence {
      hi' := hi;
    } else {
      AdvanceShows(row, hi, e, events);
      hi' := e;
    }
  }

  lemma {:induction false} ShownDevice(row: OrderRow, hi: Envelope, events: seq<Envelope>)
    requires (forall e :: e in events ==> IsOrder(e)) && hi in events && Shows(row, hi, events)
    ensures row.device == hi.device && row.lastSequence == hi.sequence
  {
  }

  /**
   Events of one order, consistent with each other, in any order and with any repeats: none is refused,
   and the order ends with the highest sequence delivered and that event's state, totals and time.
   */
  lemma {:induction false} EndsWithHighest(events: seq<Envelope>) returns (hi: Envelope)
    requires Consistent(events) && events != []
    ensures Highest(hi, events) && Shows(ProjectAll(events).0.value, hi, events) && !ProjectAll(events).1
    decreases |events|
  {
    hide Shows, Project;
    var n := |events| - 1;
    var init, e := events[..n], events[n];
    assert events == init + [e];
    if init == [] {
      hi := e;
      InsertedFirst(e);
      InsertShows(e, events);
      assert ProjectAll(init) == (None, false);
    } else {
      assert Consistent(init);
      var top := EndsWithHighest(init);
      hi := OneMore(ProjectAll(init).0.value, top, e, init, events);
    }
  }

  lemma {:induction false} InsertedFirst(e: Envelope)
    requires IsOrder(e)
    ensures Project(None, e, P(e)) == (Inserted(e, P(e)), None)
  {
  }

  // ---------- exactly when the newest event is shown ----------

  ghost predicate OrderEvents(events: seq<Envelope>) { forall e :: e in events ==> IsOrder(e) && P(e).Valid() }

  /** The columns that always come from one event: everything but location, cashier and lines. */
  predicate ShowsNewest(row: OrderRow, hi: Envelope)
    requires IsOrder(hi)
  {
    var p := P(hi);
    && row.device == hi.device && row.lastSequence == hi.sequence && row.state == p.state && row.total == p.total
    && row.currency == p.currency && row.event == p.event && row.at == p.at && row.closeMethod == p.closeMethod
  }

  /** A row built from events that all agree with hi, before hi itself has arrived. */
  ghost predicate Ready(row: OrderRow, hi: Envelope)
    requires IsOrder(hi)
  {
    var p := P(hi);
    && row.device == hi.device && row.lastSequence < hi.sequence && row.event == p.event
    && !Clash(row.location, p.location) && !Clash(row.closeMethod, p.closeMethod) && !Clash(row.cashier, p.cashier)
    && SafeOrderAdvance(row.state, p.state) && (row.closeMethod.Some? <==> row.state == Closed)
  }

  lemma {:induction false} NextIsReady(row: Option<OrderRow>, e: Envelope, hi: Envelope)
    requires IsOrder(e) && IsOrder(hi) && P(e).Valid() && P(hi).Valid() && Agree(e, hi) && e.sequence <= hi.sequence
    requires row.Some? ==> Ready(row.value, hi) || ShowsNewest(row.value, hi)
    ensures var after := Project(row, e, P(e)).0;
      if e == hi || (row.Some? && ShowsNewest(row.value, hi)) then ShowsNewest(after, hi) else Ready(after, hi)
  {
  }

  lemma {:induction false} NewestOnTop(events: seq<Envelope>, hi: Envelope)
    requires OrderEvents(events) && IsOrder(hi) && P(hi).Valid() && events != []
    requires forall e :: e in events ==> Agree(e, hi) && e.sequence <= hi.sequence
    ensures var row := ProjectAll(events).0.value;
      if hi in events then ShowsNewest(row, hi) else Ready(row, hi)
    decreases |events|
  {
    hide Project, ShowsNewest, Ready, Agree;
    var n := |events| - 1;
    var init := events[..n];
    assert events == init + [events[n]];
    if init != [] { NewestOnTop(init, hi); }
    NextIsReady(ProjectAll(init).0, events[n], hi);
    if init != [] { NotBoth(ProjectAll(init).0.value, hi); }
  }

  lemma {:induction false} NotBoth(row: OrderRow, hi: Envelope)
    requires IsOrder(hi)
    ensures !(Ready(row, hi) && ShowsNewest(row, hi))
  {
  }

  /** The row keeps hi out for good: it belongs to another device, or contradicts what hi says. */
  ghost predicate Shut(row: OrderRow, hi: Envelope)
    requires IsOrder(hi)
  {
    row.device != hi.device || (row.lastSequence != hi.sequence && Objection(row, P(hi)).Some?)
  }

  lemma {:induction false} StaysShut(row: OrderRow, e: Envelope, hi: Envelope)
    requires IsOrder(e) && IsOrder(hi) && Shut(row, hi)
    requires e.device == hi.device && e.sequence == hi.sequence ==> e == hi
    ensures Shut(Project(Some(row), e, P(e)).0, hi)
  {
    ProjectFollows(row, e, P(e));
  }

  lemma {:induction false} ShutForGood(first: seq<Envelope>, rest: seq<Envelope>, hi: Envelope)
    requires OrderEvents(first + rest) && first != [] && IsOrder(hi) && OrderEvents(first)
    requires forall e :: e in first + rest && e.device == hi.device && e.sequence == hi.sequence ==> e == hi
    requires Shut(ProjectAll(first).0.value, hi)
    ensures Shut(ProjectAll(first + rest).0.value, hi)
    decreases |rest|
  {
    hide Project, Shut;
    if rest == [] {
      assert first + rest == first;
    } else {
      var n := |rest| - 1;
      var all, init := first + rest, first + rest[..n];
      assert all[..|all| - 1] == init && all[|all| - 1] == rest[n] && all == init + [rest[n]];
      ShutForGood(first, rest[..n], hi);
      StaysShut(ProjectAll(init).0.value, rest[n], hi);
    }
  }

  /** An event that contradicts hi, delivered just before it. */
  lemma {:induction false} ShutsOut(x: Envelope, hi: Envelope)
    requires IsOrder(x) && IsOrder(hi) && P(x).Valid() && P(hi).Valid() && !Agree(x, hi) && x.sequence <= hi.sequence
    requires x.device == hi.device && x.sequence == hi.sequence ==> x == hi
    ensures x != hi && Shut(ProjectAll([x, hi]).0.value, hi)
  {
    assert [x, hi][..1] == [x];
    ProjectOne(x);
  }

  ghost predicate AlwaysShows(events: seq<Envelope>, hi: Envelope)
    requires OrderEvents(events) && events != [] && IsOrder(hi)
  {
    forall a {:trigger multiset(a)} :: multiset(a) == multiset(events) && Usable(a) ==> ShowsNewest(ProjectAll(a).0.value, hi)
  }

  /**
   However the events of an order arrive, it ends with the newest one's device, sequence, state, totals,
   time and close method, exactly when no event contradicts the newest one.  Whether the others
   contradict each other does not matter.  Sequences are unique per device.
   */
  lemma {:induction false} NewestShownExactlyWhen(events: seq<Envelope>, hi: Envelope)
    requires OrderEvents(events) && Highest(hi, events)
    requires forall e :: e in events && e.device == hi.device && e.sequence == hi.sequence ==> e == hi
    ensures AlwaysShows(events, hi) <==> forall e :: e in events ==> Agree(e, hi)
  {
    hide ProjectAll, ShowsNewest, Agree, Shut;
    if forall e :: e in events ==> Agree(e, hi) {
      forall a | multiset(a) == multiset(events) && Usable(a) ensures ShowsNewest(ProjectAll(a).0.value, hi) {
        SameMembers(a, events);
        NewestOnTop(a, hi);
      }
    }
    forall x | x in events && !Agree(x, hi) ensures !AlwaysShows(events, hi) {
      ShutsOut(x, hi);
      var rest := TwoFirst(events, x, hi);
      SameMembers([x, hi] + rest, events);
      assert [x, hi] + rest != [] && Usable([x, hi] + rest);
      assert OrderEvents([x, hi]) by { assert x in events && hi in events; }
      ShutForGood([x, hi], rest, hi);
      ShutIsNotShown(ProjectAll([x, hi] + rest).0.value, hi);
    }
  }

  lemma {:induction false} ShutIsNotShown(row: OrderRow, hi: Envelope)
    requires IsOrder(hi) && Shut(row, hi)
    ensures !ShowsNewest(row, hi)
  {
  }

  /** Two deliveries of the same events agree on everything but the columns that fill in for missing values. */
  lemma {:induction false} DeliveryOrderIrrelevant(a: seq<Envelope>, b: seq<Envelope>)
    requires Consistent(a) && a != [] && forall e :: e in a <==> e in b
    ensures b != [] && Consistent(b)
    ensures var r, r' := ProjectAll(a).0.value, ProjectAll(b).0.value;
      r' == r.(location := r'.location, cashier := r'.cashier, lines := r'.lines)
  {
    assert a[0] in b;
    var hi := EndsWithHighest(a);
    var hi' := EndsWithHighest(b);
    assert Agree(hi, hi');
  }

  // ---------- the columns that fill in ----------

  /** Once the highest event is in, nothing else changes the row. */
  lemma {:induction false} RestIsStale(first: seq<Envelope>, rest: seq<Envelope>)
    requires Consistent(first + rest) && first != []
    requires exists hi :: hi in first && Highest(hi, first + rest)
    ensures ProjectAll(first + rest).0 == ProjectAll(first).0
    decreases |rest|
  {
    hide Shows;
    if rest == [] {
      assert first + rest == first;
    } else {
      var n := |rest| - 1;
      var all, init := first + rest, first + rest[..n];
      assert all[..|all| - 1] == init && all[|all| - 1] == rest[n] && all == init + [rest[n]];
      var hi :| hi in first && Highest(hi, all);
      assert Consistent(init) && Highest(hi, init);
      RestIsStale(first, rest[..n]);
      var top := EndsWithHighest(init);
      assert Agree(top, hi) && Agree(top, rest[n]);
      ShownDevice(ProjectAll(init).0.value, top, init);
    }
  }

  lemma {:induction false} Prepend<T>(x: T, y: T, rest: seq<T>)
    ensures multiset([x, y] + rest) == multiset(rest) + multiset{x} + multiset{y}
  {
    assert [x, y] + rest == [x] + ([y] + rest);
    assert multiset([y] + rest) == multiset{y} + multiset(rest);
  }

  /** Any sequence can be rearranged to start with two of its members. */
  lemma {:induction false} TwoFirst<T>(events: seq<T>, x: T, y: T) returns (rest: seq<T>)
    requires x in events && y in events && x != y
    ensures multiset([x, y] + rest) == multiset(events) && multiset([y, x] + rest) == multiset(events)
  {
    var i :| 0 <= i < |events| && events[i] == x;
    Sums.TakeOut(events, i);
    var fewer := events[..i] + events[i + 1..];
    assert y in multiset(fewer) by { assert y in multiset(events); }
    var j :| 0 <= j < |fewer| && fewer[j] == y;
    Sums.TakeOut(fewer, j);
    rest := fewer[..j] + fewer[j + 1..];
    Prepend(x, y, rest);
    Prepend(y, x, rest);
    Rejoin(multiset(events), multiset(rest), x, y);
  }

  lemma {:induction false} Rejoin<T>(all: multiset<T>, rest: multiset<T>, x: T, y: T)
    requires x in all && y in all && x != y && rest == all - multiset{x} - multiset{y}
    ensures rest + multiset{x} + multiset{y} == all && rest + multiset{y} + multiset{x} == all
  {
  }

  lemma {:induction false} SameMembers(a: seq<Envelope>, b: seq<Envelope>)
    requires multiset(a) == multiset(b)
    ensures forall e :: e in a <==> e in b
  {
    assert forall e :: e in a <==> e in multiset(a);
    assert forall e :: e in b <==> e in multiset(b);
  }

  /** Delivering x just before the highest event leaves x's values where the highest event has none. */
  lemma {:induction false} Overtaken(events: seq<Envelope>, x: Envelope, hi: Envelope)
    returns (a: seq<Envelope>, b: seq<Envelope>)
    requires Consistent(events) && Highest(hi, events) && x in events && x != hi
    ensures multiset(a) == multiset(events) && multiset(b) == multiset(events)
    ensures Consistent(a) && Consistent(b) && a != [] && b != []
    ensures ProjectAll(a).0 == Some(Advanced(Inserted(x, P(x)), hi, P(hi)))
    ensures ProjectAll(b).0 == Some(Inserted(hi, P(hi)))
  {
    hide Shows, ProjectAll, Inserted, Advanced;
    var rest := TwoFirst(events, x, hi);
    a, b := [x, hi] + rest, [hi, x] + rest;
    SameMembers(a, events);
    SameMembers(b, events);
    assert Agree(x, hi);
    assert x.sequence < hi.sequence;
    assert hi in [x, hi] && Highest(hi, a) && hi in [hi, x] && Highest(hi, b);
    RestIsStale([x, hi], rest);
    RestIsStale([hi, x], rest);
    ProjectOne(hi);
    TwoEvents(x, hi);
    ProjectTwo(x, hi);
    FirstStays(hi, x);
  }

  lemma {:induction false} TwoEvents(x: Envelope, hi: Envelope)
    requires IsOrder(x) && IsOrder(hi) && P(x).Valid() && P(hi).Valid() && Agree(x, hi) && Agree(hi, x)
    ensures Consistent([x, hi])
  {
  }

  lemma {:induction false} ProjectOne(x: Envelope)
    requires IsOrder(x)
    ensures ProjectAll([x]).0 == Some(Inserted(x, P(x)))
  {
    assert [x][..0] == [];
  }

  lemma {:induction false} ProjectTwo(x: Envelope, hi: Envelope)
    requires Consistent([x, hi]) && x.sequence < hi.sequence
    ensures ProjectAll([x, hi]).0 == Some(Advanced(Inserted(x, P(x)), hi, P(hi)))
  {
    hide Objection, Shows;
    assert x in [x, hi] && hi in [x, hi] && Agree(x, hi);
    assert [x, hi][..1] == [x];
    ProjectOne(x);
    InsertShows(x, [x, hi]);
    AdvanceShows(Inserted(x, P(x)), x, hi, [x, hi]);
  }

  lemma {:induction false} FirstStays(hi: Envelope, x: Envelope)
    requires IsOrder(x) && IsOrder(hi) && x.sequence < hi.sequence && x.device == hi.device
    ensures ProjectAll([hi, x]).0 == Some(Inserted(hi, P(hi)))
  {
    assert [hi, x][..1] == [hi];
    ProjectOne(hi);
  }

  ghost predicate SameLocation(events: seq<Envelope>)
    requires Consistent(events) && events != []
  {
    forall a, b {:trigger multiset(a), multiset(b)} ::
      multiset(a) == multiset(events) && multiset(b) == multiset(events) && Usable(a) && Usable(b) ==>
        ProjectAll(a).0.value.location == ProjectAll(b).0.value.location
  }

  ghost predicate SameCashier(events: seq<Envelope>)
    requires Consistent(events) && events != []
  {
    forall a, b {:trigger multiset(a), multiset(b)} ::
      multiset(a) == multiset(events) && multiset(b) == multiset(events) && Usable(a) && Usable(b) ==>
        ProjectAll(a).0.value.cashier == ProjectAll(b).0.value.cashier
  }

  ghost predicate SameLines(events: seq<Envelope>)
    requires Consistent(events) && events != []
  {
    forall a, b {:trigger multiset(a), multiset(b)} ::
      multiset(a) == multiset(events) && multiset(b) == multiset(events) && Usable(a) && Usable(b) ==>
        ProjectAll(a).0.value.lines == ProjectAll(b).0.value.lines
  }

  predicate Usable(events: seq<Envelope>) { events != [] && forall e :: e in events ==> IsOrder(e) }

  /**
   The fill-in columns do depend on the order of delivery: each is the same for every order exactly
   when the highest event carries it, or no event does.
   */
  lemma {:induction false} FillInsAgreeExactlyWhen(events: seq<Envelope>, hi: Envelope)
    requires Consistent(events) && Highest(hi, events)
    ensures SameLocation(events) <==> P(hi).location.Some? || forall e :: e in events ==> P(e).location.None?
    ensures SameCashier(events) <==> P(hi).cashier.Some? || forall e :: e in events ==> P(e).cashier.None?
    ensures SameLines(events) <==>
      P(hi).lines.Some? || forall e :: e in events ==> P(e).lines.None? || P(e).lines.value == []
  {
    hide ProjectAll, Shows;
    forall a | multiset(a) == multiset(events)
      ensures Usable(a) && FillsIn(a, events, hi)
    {
      FillIns(a, events, hi);
    }
    forall x | x in events && x != hi
      ensures P(hi).location.None? && P(x).location.Some? ==> !SameLocation(events)
      ensures P(hi).cashier.None? && P(x).cashier.Some? ==> !SameCashier(events)
      ensures P(hi).lines.None? && P(x).lines.Some? && P(x).lines.value != [] ==> !SameLines(events)
    {
      var a, b := Overtaken(events, x, hi);
      assert Usable(a) && Usable(b);
    }
  }

  ghost predicate FillsIn(a: seq<Envelope>, events: seq<Envelope>, hi: Envelope)
    requires Usable(a) && Usable(events) && hi in events
  {
    var row := ProjectAll(a).0.value;
    && (P(hi).location.Some? ==> row.location == P(hi).location)
    && (P(hi).cashier.Some? ==> row.cashier == P(hi).cashier)
    && (P(hi).lines.Some? ==> row.lines == P(hi).lines.value)
    && ((forall e :: e in events ==> P(e).location.None?) ==> row.location.None?)
    && ((forall e :: e in events ==> P(e).cashier.None?) ==> row.cashier.None?)
    && ((forall e :: e in events ==> P(e).lines.None? || P(e).lines.value == []) ==> row.lines == [])
  }

  lemma {:induction false} FillIns(a: seq<Envelope>, events: seq<Envelope>, hi: Envelope)
    requires Consistent(events) && Highest(hi, events) && multiset(a) == multiset(events)
    ensures Usable(a) && FillsIn(a, events, hi)
  {
    hide ProjectAll;
    SameMembers(a, events);
    assert hi in a;
    assert Consistent(a);
    var top := EndsWithHighest(a);
    assert Agree(top, hi);
  }
}
