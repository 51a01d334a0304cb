/** The append-only stock ledger of one Edge. */
module InventoryLedger {
  import opened Common
  import opened InventoryDomain

  /** A row id is chosen by the caller, or is a fresh UUID: the n-th row to be given one. */
  datatype RowId = Chosen(text: string) | Random(row: nat)

  datatype Place = Place(event: string, location: string, sku: string)

  datatype Content = Content(
    place: Place, kind: MovementType, delta: int, sourceType: string, sourceId: string,
    instance: Option<string>, actor: Option<string>, device: Option<string>, reason: Option<string>,
    at: int, reverses: Option<RowId>)

  datatype Row = Row(id: RowId, key: string, content: Content)

  type Ledger = seq<Row>

  datatype Input = Input(id: Option<string>, key: string, content: Content)

  datatype Posted = Posted(ledger: Ledger, row: Row)

  datatype Manual = Manual(
    id: string, place: Place, kind: MovementType, delta: int, actor: string, reason: string,
    at: int, key: string, reverses: Option<RowId>)

  datatype Error =
    | InvalidDelta
    | KeyReused
    | DedicatedWorkflow
    | NoReversalTarget
    | TargetMissing
    | TargetElsewhere
    | TargetIsReversal
    | NotExactNegation
    | TargetReused
    | OnlyReversalReferences
    | NotFound
    | InvalidTransition
    | RepeatedSku
    | ContentDiffers
    | QuantityMismatch
    | InsufficientStock
    | NotInTransit
    | NotOnTransfer
    | ExceedsOutstanding
    | MissingField
    | CheckViolated
    | InvalidConfiguration

  // ---------- sums ----------

  function Total(rows: Ledger, p: Row -> bool): int {
    if rows == [] then 0
    else Total(rows[..|rows| - 1], p) + if p(rows[|rows| - 1]) then rows[|rows| - 1].content.delta else 0
  }

  function At(place: Place): Row -> bool { (r: Row) => r.content.place == place }

  function OnHand(ledger: Ledger, place: Place): int { Total(ledger, At(place)) }

  lemma {:induction false} TotalOne(rows: Ledger, r: Row, p: Row -> bool)
    ensures Total(rows + [r], p) == Total(rows, p) + if p(r) then r.content.delta else 0
  {
    assert (rows + [r])[..|rows|] == rows;
  }

  lemma {:induction false} OneMoreRow(ledger: Ledger, r: Row)
    ensures OnHand(ledger + [r], r.content.place) == OnHand(ledger, r.content.place) + r.content.delta
    ensures forall place :: place != r.content.place ==> OnHand(ledger + [r], place) == OnHand(ledger, place)
  {
    TotalOne(ledger, r, At(r.content.place));
    forall place | place != r.content.place ensures OnHand(ledger + [r], place) == OnHand(ledger, place) {
      TotalOne(ledger, r, At(place));
    }
  }

  lemma {:induction false} TotalSplit(a: Ledger, b: Ledger, p: Row -> bool)
    ensures Total(a + b, p) == Total(a, p) + Total(b, p)
    decreases |b|
  {
    if b == [] {
      assert a + b == a;
    } else {
      var init := b[..|b| - 1];
      assert a + b == (a + init) + [b[|b| - 1]];
      TotalOne(a + init, b[|b| - 1], p);
      TotalSplit(a, init, p);
    }
  }

  lemma {:induction false} TotalNone(rows: Ledger, p: Row -> bool)
    requires forall r :: r in rows ==> !p(r)
    ensures Total(rows, p) == 0
  {
    if rows != [] { TotalNone(rows[..|rows| - 1], p); }
  }

  /** A sum that only one row can contribute to. */
  lemma {:induction false} TotalSingle(rows: Ledger, p: Row -> bool, k: nat)
    requires k < |rows| && p(rows[k])
    requires forall j :: 0 <= j < |rows| && j != k ==> !p(rows[j])
    ensures Total(rows, p) == rows[k].content.delta
  {
    TotalAround(rows, k, p);
    TotalNone(rows[..k], p);
    TotalNone(rows[k + 1..], p);
  }

  lemma {:induction false} TotalAgree(rows: Ledger, p: Row -> bool, q: Row -> bool)
    requires forall r :: r in rows ==> p(r) == q(r)
    ensures Total(rows, p) == Total(rows, q)
  {
    if rows != [] {
      TotalAgree(rows[..|rows| - 1], p, q);
      assert rows[|rows| - 1] in rows;
    }
  }

  // ---------- posting ----------

  function FindRow(rows: Ledger, p: Row -> bool): (found: Option<Row>)
    ensures found.Some? ==> found.value in rows && p(found.value)
    ensures found.None? ==> forall r :: r in rows ==> !p(r)
  {
    if rows == [] then None
    else if p(rows[0]) then Some(rows[0])
    else FindRow(rows[1..], p)
  }

  function KeyIs(key: string): Row -> bool { (r: Row) => r.key == key }

  function IdIs(id: RowId): Row -> bool { (r: Row) => r.id == id }

  function ReversesIs(id: RowId): Row -> bool { (r: Row) => r.content.reverses == Some(id) }

  function NewId(ledger: Ledger, input: Input): RowId {
    if input.id.Some? then Chosen(input.id.value) else Random(|ledger|)
  }

  /** A unique column of the ledger already holds one of the new row's values. */
  predicate Taken(ledger: Ledger, row: Row) {
    exists r :: r in ledger &&
      (r.id == row.id || r.key == row.key || (row.content.reverses.Some? && r.content.reverses == row.content.reverses))
  }

  predicate SameMovement(row: Row, input: Input) {
    (input.id.Some? ==> row.id == Chosen(input.id.value)) && row.content == input.content
  }

  function Insert(ledger: Ledger, input: Input): Result<Posted, Error> {
    var row := Row(NewId(ledger, input), input.key, input.content);
    if !ValidDelta(input.content.kind, input.content.delta) then Err(InvalidDelta)
    else if !Taken(ledger, row) then Ok(Posted(ledger + [row], row))
    else
      var byKey := FindRow(ledger, KeyIs(input.key));
      var existing := if byKey.Some? then byKey else FindRow(ledger, IdIs(row.id));
      if existing.Some? && SameMovement(existing.value, input) then Ok(Posted(ledger, existing.value))
      else Err(KeyReused)
  }

  const DEDICATED := {Sale, RecipeConsumption, TransferOut, TransferIn, CountAdjustment}

  function ManualInput(m: Manual): Input {
    Input(Some(m.id), m.key,
          Content(m.place, m.kind, m.delta, "MANUAL", m.id, None, Some(m.actor), None, Some(m.reason), m.at, m.reverses))
  }

  /** Ok(None): go on and insert.  Ok(Some(row)): this reversal is already there. */
  function CheckReversal(ledger: Ledger, m: Manual): Result<Option<Row>, Error> {
    if m.reverses.None? then Err(NoReversalTarget)
    else
      var found := FindRow(ledger, IdIs(m.reverses.value));
      if found.None? then Err(TargetMissing)
      else
        var target := found.value;
        if target.content.place != m.place then Err(TargetElsewhere)
        else if target.content.kind == Reversal then Err(TargetIsReversal)
        else if m.delta != -target.content.delta then Err(NotExactNegation)
        else
          var previous := FindRow(ledger, ReversesIs(target.id));
          if previous.None? then Ok(None)
          else if SameMovement(previous.value, ManualInput(m)) then Ok(previous)
          else Err(TargetReused)
  }

  function PostManual(ledger: Ledger, m: Manual): Result<Posted, Error> {
    if m.kind in DEDICATED then Err(DedicatedWorkflow)
    else if m.kind == Reversal then
      match CheckReversal(ledger, m)
      case Err(e) => Err(e)
      case Ok(Some(row)) => Ok(Posted(ledger, row))
      case Ok(None) => Insert(ledger, ManualInput(m))
    else if m.reverses.Some? then Err(OnlyReversalReferences)
    else Insert(ledger, ManualInput(m))
  }

  /** Several rows in one transaction: all of them, or none. */
  function InsertAll(ledger: Ledger, inputs: seq<Input>): Result<Ledger, Error>
    decreases |inputs|
  {
    if inputs == [] then Ok(ledger)
    else
      match InsertAll(ledger, inputs[..|inputs| - 1])
      case Err(e) => Err(e)
      case Ok(before) =>
        match Insert(before, inputs[|inputs| - 1])
        case Err(e) => Err(e)
        case Ok(posted) => Ok(posted.ledger)
  }

  // ---------- what every ledger satisfies ----------

  predicate IsTarget(target: Row, content: Content) {
    && content.reverses == Some(target.id) && target.content.place == content.place
    && target.content.kind != Reversal && content.delta == -target.content.delta
  }

  ghost predicate RowOk(ledger: Ledger, i: int)
    requires 0 <= i < |ledger|
  {
    var r := ledger[i];
    && ValidDelta(r.content.kind, r.content.delta)
    && (r.id.Random? ==> r.id.row == i)
    && (if r.content.kind == Reversal then exists j :: 0 <= j < i && IsTarget(ledger[j], r.content)
        else r.content.reverses.None?)
  }

  ghost predicate Unique(ledger: Ledger) {
    forall i, j :: 0 <= i < j < |ledger| ==>
      && ledger[i].id != ledger[j].id && ledger[i].key != ledger[j].key
      && (ledger[i].content.reverses.Some? ==> ledger[i].content.reverses != ledger[j].content.reverses)
  }

  ghost predicate LedgerOk(ledger: Ledger) {
    Unique(ledger) && forall i :: 0 <= i < |ledger| ==> RowOk(ledger, i)
  }

  /** The row that an insert will append if it appends one. */
  ghost predicate Admissible(ledger: Ledger, input: Input) {
    if input.content.kind == Reversal then exists t :: t in ledger && IsTarget(t, input.content)
    else input.content.reverses.None?
  }

  lemma {:induction false} RowStays(ledger: Ledger, after: Ledger, i: int)
    requires 0 <= i < |ledger| <= |after| && after[..|ledger|] == ledger && RowOk(ledger, i)
    ensures RowOk(after, i)
  {
    assert forall j :: 0 <= j <= i ==> after[j] == ledger[j];
    if ledger[i].content.kind == Reversal {
      var j :| 0 <= j < i && IsTarget(ledger[j], ledger[i].content);
      assert IsTarget(after[j], after[i].content);
    }
  }

  /** An insert appends exactly the new row, or finds it already there. */
  lemma {:induction false} InsertKeeps(ledger: Ledger, input: Input)
    requires LedgerOk(ledger) && Admissible(ledger, input) && Insert(ledger, input).Ok?
    ensures var posted := Insert(ledger, input).value;
      && LedgerOk(posted.ledger) && posted.row in posted.ledger && posted.row.content == input.content
      && (|| posted.ledger == ledger
          || (&& posted.ledger == ledger + [posted.row]
              && posted.row == Row(NewId(ledger, input), input.key, input.content)))
  {
    var posted := Insert(ledger, input).value;
    if posted.ledger != ledger {
      var after := posted.ledger;
      forall i | 0 <= i < |after| ensures RowOk(after, i) {
        if i < |ledger| {
          RowStays(ledger, after, i);
        } else if input.content.kind == Reversal {
          var t :| t in ledger && IsTarget(t, input.content);
          var j :| 0 <= j < |ledger| && ledger[j] == t;
          assert IsTarget(after[j], after[i].content);
        }
      }
      assert Unique(after);
    }
  }

  lemma {:induction false} ManualKeeps(ledger: Ledger, m: Manual)
    requires LedgerOk(ledger) && PostManual(ledger, m).Ok?
    ensures var posted := PostManual(ledger, m).value;
      && LedgerOk(posted.ledger) && m.kind !in DEDICATED
      && (posted.ledger == ledger
          || posted.ledger == ledger + [Row(Chosen(m.id), m.key, ManualInput(m).content)])
  {
    hide LedgerOk, Insert;
    if m.kind == Reversal {
      if CheckReversal(ledger, m).value.None? {
        assert IsTarget(FindRow(ledger, IdIs(m.reverses.value)).value, ManualInput(m).content);
        InsertKeeps(ledger, ManualInput(m));
      }
    } else {
      InsertKeeps(ledger, ManualInput(m));
    }
  }

  // ---------- when a row goes in ----------

  /** No row has the id, the key or the reversal target of the new one. */
  ghost predicate Free(ledger: Ledger, input: Input) {
    forall r :: r in ledger ==>
      && r.id != NewId(ledger, input) && r.key != input.key
      && (input.content.reverses.Some? ==> r.content.reverses != input.content.reverses)
  }

  /** The row that has the key, or the id if none has the key, is this very movement. */
  ghost predicate Present(ledger: Ledger, input: Input, r: Row) {
    && r in ledger && r.content == input.content && (input.id.Some? ==> r.id == Chosen(input.id.value))
    && (r.key == input.key
        || (r.id == NewId(ledger, input) && forall other :: other in ledger ==> other.key != input.key))
  }

  lemma {:induction false} SameRow(ledger: Ledger, a: Row, b: Row)
    requires LedgerOk(ledger) && a in ledger && b in ledger && (a.key == b.key || a.id == b.id)
    ensures a == b
  {
    var i :| 0 <= i < |ledger| && ledger[i] == a;
    var j :| 0 <= j < |ledger| && ledger[j] == b;
    assert i == j;
  }

  /**
   A row goes in exactly when its amount fits its kind and its id, key and reversal target are free; it is
   then appended.  If it is there already, nothing changes.  Everything else is refused.
   */
  lemma {:induction false} InsertsExactlyWhen(ledger: Ledger, input: Input)
    requires LedgerOk(ledger)
    ensures var result := Insert(ledger, input);
      if !ValidDelta(input.content.kind, input.content.delta) then result == Err(InvalidDelta)
      else if Free(ledger, input) then
        var row := Row(NewId(ledger, input), input.key, input.content);
        result == Ok(Posted(ledger + [row], row))
      else
        && (result.Ok? <==> exists r :: Present(ledger, input, r))
        && (result.Ok? ==> result.value.ledger == ledger && Present(ledger, input, result.value.row))
  {
    hide LedgerOk;
    var byKey := FindRow(ledger, KeyIs(input.key));
    forall r | Present(ledger, input, r) && ValidDelta(input.content.kind, input.content.delta)
      ensures Insert(ledger, input).Ok?
    {
      var byId := FindRow(ledger, IdIs(NewId(ledger, input)));
      if byKey.Some? { SameRow(ledger, r, byKey.value); } else { SameRow(ledger, r, byId.value); }
    }
    var result := Insert(ledger, input);
    if result.Ok? && !Free(ledger, input) { assert Present(ledger, input, result.value.row); }
  }

  /** A movement can be taken back: it is at the same place, is no reversal itself, and the amounts cancel. */
  ghost predicate Reversible(ledger: Ledger, m: Manual, target: Row) {
    && target in ledger && m.reverses == Some(target.id) && target.content.place == m.place
    && target.content.kind != Reversal && m.delta + target.content.delta == 0
  }

  /** This very reversal is in the ledger. */
  ghost predicate ReversedBy(ledger: Ledger, m: Manual, r: Row) {
    r in ledger && r.id == Chosen(m.id) && r.content == ManualInput(m).content
  }

  lemma {:induction false} AmountNotZero(ledger: Ledger, r: Row)
    requires LedgerOk(ledger) && r in ledger
    ensures r.content.delta != 0
  {
    var i :| 0 <= i < |ledger| && ledger[i] == r;
    assert RowOk(ledger, i);
  }

  lemma {:induction false} OneReversal(ledger: Ledger, a: Row, b: Row)
    requires LedgerOk(ledger) && a in ledger && b in ledger
    requires a.content.reverses.Some? && a.content.reverses == b.content.reverses
    ensures a == b
  {
    var i :| 0 <= i < |ledger| && ledger[i] == a;
    var j :| 0 <= j < |ledger| && ledger[j] == b;
    assert i == j;
  }

  /** Nobody has taken the movement back. */
  ghost predicate Unreversed(ledger: Ledger, m: Manual) {
    forall r :: r in ledger ==> r.content.reverses.None? || r.content.reverses != m.reverses
  }

  lemma {:induction false} CheckTells(ledger: Ledger, m: Manual)
    requires LedgerOk(ledger)
    ensures var found := CheckReversal(ledger, m);
      && (found == Ok(None) <==> (exists target :: Reversible(ledger, m, target)) && Unreversed(ledger, m))
      && (found.Ok? && found.value.Some? <==>
            (exists target :: Reversible(ledger, m, target)) && exists r :: ReversedBy(ledger, m, r))
      && (found.Ok? && found.value.Some? ==> ReversedBy(ledger, m, found.value.value))
  {
    hide LedgerOk, Unreversed, FindRow;
    if m.reverses.Some? {
      var found := FindRow(ledger, IdIs(m.reverses.value));
      forall target | Reversible(ledger, m, target) ensures found == Some(target) { SameRow(ledger, target, found.value); }
      if found.Some? && Reversible(ledger, m, found.value) {
        var previous := FindRow(ledger, ReversesIs(found.value.id));
        NoneReverses(ledger, m, found.value);
        forall r | ReversedBy(ledger, m, r) ensures previous == Some(r) { OneReversal(ledger, r, previous.value); }
        if previous.Some? {
          assert SameMovement(previous.value, ManualInput(m)) <==> ReversedBy(ledger, m, previous.value);
        }
      }
    }
  }

  lemma {:induction false} NoneReverses(ledger: Ledger, m: Manual, target: Row)
    requires m.reverses == Some(target.id)
    ensures FindRow(ledger, ReversesIs(target.id)).None? <==> Unreversed(ledger, m)
  {
  }

  lemma {:induction false} DeltaFits(ledger: Ledger, m: Manual, target: Row)
    requires LedgerOk(ledger) && m.kind == Reversal && Reversible(ledger, m, target)
    ensures ValidDelta(m.kind, m.delta)
  {
    AmountNotZero(ledger, target);
  }

  /**
   A reversal goes through exactly when it names a movement that can be taken back, and either nobody has
   taken it back and id and key are free, or this reversal is there already.  It is then there once.
   */
  lemma {:induction false} ReversesExactlyWhen(ledger: Ledger, m: Manual)
    requires LedgerOk(ledger) && m.kind == Reversal
    ensures var result := PostManual(ledger, m);
      && (result.Ok? <==>
            && (exists target :: Reversible(ledger, m, target))
            && (Free(ledger, ManualInput(m)) || exists r :: ReversedBy(ledger, m, r)))
      && (result.Ok? ==>
            if Free(ledger, ManualInput(m)) then
              result.value.ledger == ledger + [Row(Chosen(m.id), m.key, ManualInput(m).content)]
            else result.value.ledger == ledger && ReversedBy(ledger, m, result.value.row))
  {
    hide Insert, CheckReversal, LedgerOk;
    InsertsExactlyWhen(ledger, ManualInput(m));
    CheckTells(ledger, m);
    if CheckReversal(ledger, m) == Ok(None) {
      var target :| Reversible(ledger, m, target);
      DeltaFits(ledger, m, target);
    }
  }

  /** Any other movement by hand is for its own kinds only, takes nothing back, and goes in as any row does. */
  lemma {:induction false} PostsExactlyWhen(ledger: Ledger, m: Manual)
    requires LedgerOk(ledger) && m.kind != Reversal
    ensures var result := PostManual(ledger, m);
      && (result.Ok? <==>
            && m.kind in {Receipt, Wastage, Breakage, Comp, ReturnToWarehouse, SupplierReturn} && m.reverses.None?
            && m.delta != 0 && (m.kind == Receipt <==> m.delta > 0)
            && (Free(ledger, ManualInput(m)) || exists r :: Present(ledger, ManualInput(m), r)))
      && (result.Ok? ==>
            if Free(ledger, ManualInput(m)) then
              result.value.ledger == ledger + [Row(Chosen(m.id), m.key, ManualInput(m).content)]
            else result.value.ledger == ledger && Present(ledger, ManualInput(m), result.value.row))
  {
    hide Insert, LedgerOk;
    InsertsExactlyWhen(ledger, ManualInput(m));
  }

  /** A movement by hand says who, when and why, and changes the stock of its own place only, by its own amount. */
  lemma {:induction false} ManualMoves(ledger: Ledger, m: Manual, place: Place)
    requires LedgerOk(ledger) && PostManual(ledger, m).Ok?
    ensures var posted := PostManual(ledger, m).value;
      && posted.row in posted.ledger && ledger <= posted.ledger
      && var said := posted.row.content;
      && said.place == m.place && said.kind == m.kind && said.delta == m.delta && said.reverses == m.reverses
      && said.actor == Some(m.actor) && said.reason == Some(m.reason) && said.at == m.at && said.sourceId == m.id
      && OnHand(posted.ledger, place) == OnHand(ledger, place)
           + if Free(ledger, ManualInput(m)) && place == m.place then m.delta else 0
  {
    hide Insert, LedgerOk, OnHand, Free;
    if m.kind == Reversal { ReversesExactlyWhen(ledger, m); } else { PostsExactlyWhen(ledger, m); }
    InsertsExactlyWhen(ledger, ManualInput(m));
    OneMoreRow(ledger, Row(Chosen(m.id), m.key, ManualInput(m).content));
    ReversalFound(ledger, m);
  }

  lemma {:induction false} ReversalFound(ledger: Ledger, m: Manual)
    ensures var found := CheckReversal(ledger, m);
      found.Ok? && found.value.Some? ==> found.value.value in ledger && found.value.value.content == ManualInput(m).content
  {
  }

  // ---------- reversals and on-hand ----------

  function ReversedIds(ledger: Ledger): set<RowId> {
    set r | r in ledger && r.content.reverses.Some? :: r.content.reverses.value
  }

  /** Movements that still stand: neither a reversal nor reversed by one. */
  function Standing(reversed: set<RowId>, place: Place): Row -> bool {
    (r: Row) => r.content.place == place && r.content.kind != Reversal && r.id !in reversed
  }

  lemma {:induction false} PrefixOk(ledger: Ledger)
    requires LedgerOk(ledger) && ledger != []
    ensures LedgerOk(ledger[..|ledger| - 1])
  {
    var prefix := ledger[..|ledger| - 1];
    forall i | 0 <= i < |prefix| ensures RowOk(prefix, i) {
      assert RowOk(ledger, i) && prefix[i] == ledger[i];
      if prefix[i].content.kind == Reversal {
        var j :| 0 <= j < i && IsTarget(ledger[j], ledger[i].content);
        assert IsTarget(prefix[j], prefix[i].content);
      }
    }
  }

  /** A reversal names an earlier row of the same place that no earlier reversal names. */
  lemma {:induction false} LastReversal(ledger: Ledger) returns (k: nat)
    requires LedgerOk(ledger) && ledger != [] && ledger[|ledger| - 1].content.kind == Reversal
    ensures k < |ledger| - 1 && IsTarget(ledger[k], ledger[|ledger| - 1].content)
    ensures ledger[k].id !in ReversedIds(ledger[..|ledger| - 1])
  {
    var n := |ledger| - 1;
    assert RowOk(ledger, n);
    k :| 0 <= k < n && IsTarget(ledger[k], ledger[n].content);
    forall r | r in ledger[..n] ensures r.content.reverses != Some(ledger[k].id) {
      var i :| 0 <= i < n && ledger[i] == r;
      assert ledger[i].content.reverses.Some? ==> ledger[i].content.reverses != ledger[n].content.reverses;
    }
  }

  lemma {:induction false} TotalAround(rows: Ledger, k: nat, p: Row -> bool)
    requires k < |rows|
    ensures Total(rows, p) ==
      Total(rows[..k], p) + Total(rows[k + 1..], p) + if p(rows[k]) then rows[k].content.delta else 0
  {
    assert rows == rows[..k] + [rows[k]] + rows[k + 1..];
    TotalSplit(rows[..k] + [rows[k]], rows[k + 1..], p);
    TotalOne(rows[..k], rows[k], p);
  }

  /** Taking one id out of the standing rows takes its delta out of the sum. */
  lemma {:induction false} StandingWithout(ledger: Ledger, reversed: set<RowId>, place: Place, k: nat)
    requires Unique(ledger) && k < |ledger| && ledger[k].id !in reversed && ledger[k].content.kind != Reversal
    ensures Total(ledger, Standing(reversed + {ledger[k].id}, place)) ==
      Total(ledger, Standing(reversed, place)) - if ledger[k].content.place == place then ledger[k].content.delta else 0
  {
    var p, q := Standing(reversed, place), Standing(reversed + {ledger[k].id}, place);
    var before, after := ledger[..k], ledger[k + 1..];
    TotalAround(ledger, k, p);
    TotalAround(ledger, k, q);
    TotalAgree(before, p, q);
    TotalAgree(after, p, q);
  }

  lemma {:induction false} ReversedOneMore(prefix: Ledger, r: Row)
    ensures ReversedIds(prefix + [r])
      == ReversedIds(prefix) + if r.content.reverses.Some? then {r.content.reverses.value} else {}
  {
    assert forall x :: x in prefix + [r] <==> x in prefix || x == r;
  }

  /** Only the row that the newest one reverses stops standing. */
  lemma {:induction false} StandingOneMore(ledger: Ledger, place: Place)
    requires LedgerOk(ledger) && ledger != []
    ensures var prefix, r := ledger[..|ledger| - 1], ledger[|ledger| - 1];
      Total(prefix, Standing(ReversedIds(ledger), place)) ==
        Total(prefix, Standing(ReversedIds(prefix), place))
          + if r.content.kind == Reversal && r.content.place == place then r.content.delta else 0
  {
    hide ReversedIds;
    var n := |ledger| - 1;
    var prefix, r := ledger[..n], ledger[n];
    assert ledger == prefix + [r];
    ReversedOneMore(prefix, r);
    assert RowOk(ledger, n);
    if r.content.kind == Reversal {
      var k := LastReversal(ledger);
      StandingWithout(prefix, ReversedIds(prefix), place, k);
    } else {
      assert ReversedIds(ledger) == ReversedIds(prefix);
    }
  }

  /** On-hand is the sum of the movements that still stand. */
  lemma {:induction false} OnHandIsStanding(ledger: Ledger, place: Place)
    requires LedgerOk(ledger)
    ensures OnHand(ledger, place) == Total(ledger, Standing(ReversedIds(ledger), place))
    decreases |ledger|
  {
    if ledger != [] {
      hide LedgerOk, ReversedIds;
      var n := |ledger| - 1;
      var prefix, r := ledger[..n], ledger[n];
      assert ledger == prefix + [r];
      PrefixOk(ledger);
      OnHandIsStanding(prefix, place);
      StandingOneMore(ledger, place);
      NotReversed(ledger);
      TotalOne(prefix, r, Standing(ReversedIds(ledger), place));
      TotalOne(prefix, r, At(place));
    }
  }

  /** The newest row is not reversed yet. */
  lemma {:induction false} NotReversed(ledger: Ledger)
    requires LedgerOk(ledger) && ledger != []
    ensures ledger[|ledger| - 1].id !in ReversedIds(ledger)
  {
    var n := |ledger| - 1;
    forall r | r in ledger ensures r.content.reverses != Some(ledger[n].id) {
      var i :| 0 <= i <= n && ledger[i] == r;
      assert RowOk(ledger, i);
      if r.content.reverses.Some? {
        var j :| 0 <= j < i && IsTarget(ledger[j], r.content);
        assert ledger[j].id != ledger[n].id;
      }
    }
  }

  // ---------- several rows at once ----------

  function RowsOf(first: nat, inputs: seq<Input>): (rows: Ledger)
    ensures |rows| == |inputs|
  {
    seq(|inputs|, k requires 0 <= k < |inputs| =>
      Row(if inputs[k].id.Some? then Chosen(inputs[k].id.value) else Random(first + k), inputs[k].key, inputs[k].content))
  }

  predicate AlreadyThere(ledger: Ledger, input: Input) {
    exists r :: r in ledger && r.key == input.key && r.content == input.content
  }

  /** Inputs of one transaction: no chosen ids, no reversals, and no two of them alike. */
  ghost predicate Batch(inputs: seq<Input>) {
    && (forall k :: 0 <= k < |inputs| ==> inputs[k].id.None? && inputs[k].content.reverses.None?
                                           && inputs[k].content.kind != Reversal)
    && (forall j, k :: 0 <= j < k < |inputs| ==> inputs[j].content != inputs[k].content)
  }

  lemma {:induction false} InsertFresh(ledger: Ledger, input: Input)
    requires LedgerOk(ledger) && input.id.None? && input.content.reverses.None? && input.content.kind != Reversal
    requires !AlreadyThere(ledger, input) && Insert(ledger, input).Ok?
    ensures Insert(ledger, input).value.ledger == ledger + [Row(Random(|ledger|), input.key, input.content)]
  {
    FreshId(ledger);
  }

  lemma {:induction false} FreshId(ledger: Ledger)
    requires LedgerOk(ledger)
    ensures FindRow(ledger, IdIs(Random(|ledger|))).None?
  {
    forall r | r in ledger ensures r.id != Random(|ledger|) {
      var i :| 0 <= i < |ledger| && ledger[i] == r;
      assert RowOk(ledger, i);
    }
  }

  lemma {:induction false} InsertReplays(ledger: Ledger, input: Input)
    requires AlreadyThere(ledger, input) && Insert(ledger, input).Ok?
    ensures Insert(ledger, input).value.ledger == ledger
  {
    var r :| r in ledger && r.key == input.key && r.content == input.content;
    assert r.key == Row(NewId(ledger, input), input.key, input.content).key;
  }

  /**
   If none of the rows is there yet, a batch that goes through appends each of them once, in order;
   a key that is taken by anything else makes the whole batch fail.
   */
  lemma {:induction false} BatchAppends(ledger: Ledger, inputs: seq<Input>)
    requires LedgerOk(ledger) && Batch(inputs) && InsertAll(ledger, inputs).Ok?
    requires forall k :: 0 <= k < |inputs| ==> !AlreadyThere(ledger, inputs[k])
    ensures InsertAll(ledger, inputs).value == ledger + RowsOf(|ledger|, inputs)
    ensures LedgerOk(InsertAll(ledger, inputs).value)
    decreases |inputs|
  {
    hide LedgerOk, Insert, AlreadyThere;
    if inputs != [] {
      var n := |inputs| - 1;
      var init, last := inputs[..n], inputs[n];
      BatchAppends(ledger, init);
      var before := InsertAll(ledger, init).value;
      NotThereYet(ledger, init, last);
      InsertFresh(before, last);
      InsertKeeps(before, last);
      assert RowsOf(|ledger|, inputs) == RowsOf(|ledger|, init) + [Row(Random(|ledger| + n), last.key, last.content)];
    } else {
      assert RowsOf(|ledger|, inputs) == [];
    }
  }

  lemma {:induction false} NotThereYet(ledger: Ledger, init: seq<Input>, last: Input)
    requires !AlreadyThere(ledger, last) && forall j :: 0 <= j < |init| ==> init[j].content != last.content
    ensures !AlreadyThere(ledger + RowsOf(|ledger|, init), last)
  {
  }

  /** A batch whose rows are all there already changes nothing, or fails. */
  lemma {:induction false} BatchReplays(ledger: Ledger, inputs: seq<Input>)
    requires InsertAll(ledger, inputs).Ok?
    requires forall k :: 0 <= k < |inputs| ==> AlreadyThere(ledger, inputs[k])
    ensures InsertAll(ledger, inputs).value == ledger
    decreases |inputs|
  {
    hide Insert, AlreadyThere;
    if inputs != [] {
      var n := |inputs| - 1;
      BatchReplays(ledger, inputs[..n]);
      InsertReplays(ledger, inputs[n]);
    }
  }

  // ---------- when several rows go through ----------

  predicate KeyFree(ledger: Ledger, key: string) { forall r :: r in ledger ==> r.key != key }

  /** A row that no caller names and that reverses nothing. */
  predicate Plain(input: Input) {
    input.id.None? && input.content.reverses.None? && input.content.kind != Reversal
  }

  /** Two inputs that want one key for different movements. */
  predicate Clashing(a: Input, b: Input) { a.key == b.key && a.content != b.content }

  /** The inputs whose key nobody holds yet, each key once. */
  function Missing(ledger: Ledger, inputs: seq<Input>): seq<Input> {
    if inputs == [] then []
    else
      var n := |inputs| - 1;
      var wanted := KeyFree(ledger, inputs[n].key) && forall k :: 0 <= k < n ==> inputs[k].key != inputs[n].key;
      Missing(ledger, inputs[..n]) + if wanted then [inputs[n]] else []
  }

  lemma {:induction false} OneRowPerKey(ledger: Ledger, r: Row, r': Row)
    requires LedgerOk(ledger) && r in ledger && r' in ledger && r.key == r'.key
    ensures r == r'
  {
    hide RowOk;
    var i :| 0 <= i < |ledger| && ledger[i] == r;
    var j :| 0 <= j < |ledger| && ledger[j] == r';
    assert ledger[i].key == ledger[j].key;
  }

  lemma {:induction false} PlainInsert(ledger: Ledger, input: Input)
    requires LedgerOk(ledger) && Plain(input)
    ensures Insert(ledger, input).Ok?
      <==> ValidDelta(input.content.kind, input.content.delta)
           && (KeyFree(ledger, input.key) || AlreadyThere(ledger, input))
    ensures Insert(ledger, input).Ok? ==>
      Insert(ledger, input).value.ledger ==
        if KeyFree(ledger, input.key) then ledger + [Row(Random(|ledger|), input.key, input.content)] else ledger
  {
    hide RowOk;
    FreshId(ledger);
    var row := Row(Random(|ledger|), input.key, input.content);
    assert Taken(ledger, row) <==> !KeyFree(ledger, input.key);
    if AlreadyThere(ledger, input) {
      var r :| r in ledger && r.key == input.key && r.content == input.content;
      OneRowPerKey(ledger, r, FindRow(ledger, KeyIs(input.key)).value);
    }
  }

  lemma {:induction false} NothingToInsert(ledger: Ledger)
    ensures Missing(ledger, []) == [] && RowsOf(|ledger|, []) == []
  {
  }

  /**
   A transaction goes through exactly when every delta is valid, every key is free or holds this very
   movement, and no two of its rows clash; it then appends each missing row once, in order.
   */
  lemma {:induction false} InsertAllExactly(ledger: Ledger, inputs: seq<Input>)
    requires LedgerOk(ledger) && forall k :: 0 <= k < |inputs| ==> Plain(inputs[k])
    ensures InsertAll(ledger, inputs).Ok?
      <==> && (forall k :: 0 <= k < |inputs| ==>
                 && ValidDelta(inputs[k].content.kind, inputs[k].content.delta)
                 && (KeyFree(ledger, inputs[k].key) || AlreadyThere(ledger, inputs[k])))
           && forall j, k :: 0 <= j < k < |inputs| ==> !Clashing(inputs[j], inputs[k])
    ensures InsertAll(ledger, inputs).Ok? ==>
      var after := InsertAll(ledger, inputs).value;
      && after == ledger + RowsOf(|ledger|, Missing(ledger, inputs)) && LedgerOk(after)
      && (forall k :: 0 <= k < |inputs| ==> AlreadyThere(after, inputs[k]))
    decreases |inputs|
  {
    hide LedgerOk, Insert, KeyFree, AlreadyThere, Clashing, ValidDelta, RowsOf, Missing;
    if inputs == [] {
      NothingToInsert(ledger);
      assert ledger + RowsOf(|ledger|, []) == ledger;
    } else {
      var n := |inputs| - 1;
      var init, last := inputs[..n], inputs[n];
      assert inputs == init + [last];
      InsertAllExactly(ledger, init);
      if InsertAll(ledger, init).Ok? {
        var before := InsertAll(ledger, init).value;
        PlainInsert(before, last);
        OneMoreInput(ledger, init, last);
        if Insert(before, last).Ok? {
          InsertKeeps(before, last);
          MissingOneMore(ledger, init, last, KeyFree(before, last.key));
          EachStays(before, Insert(before, last).value.ledger, init);
          LastIsThere(before, last);
        }
      }
    }
  }

  lemma {:induction false} MissingAreInputs(ledger: Ledger, inputs: seq<Input>)
    ensures forall m :: m in Missing(ledger, inputs) ==> m in inputs && KeyFree(ledger, m.key)
  {
    hide KeyFree;
    if inputs != [] {
      var n := |inputs| - 1;
      MissingAreInputs(ledger, inputs[..n]);
      assert forall m :: m in inputs[..n] ==> m in inputs;
      assert inputs[n] in inputs;
    }
  }

  /** Every row that is new comes from an input whose key was free. */
  lemma {:induction false} NewRows(ledger: Ledger, inputs: seq<Input>, r: Row) returns (k: nat)
    requires r in ledger + RowsOf(|ledger|, Missing(ledger, inputs)) && r !in ledger
    ensures k < |inputs| && r.key == inputs[k].key && r.content == inputs[k].content && KeyFree(ledger, r.key)
  {
    hide KeyFree;
    var missing := Missing(ledger, inputs);
    MissingAreInputs(ledger, inputs);
    var m :| 0 <= m < |missing| && RowsOf(|ledger|, missing)[m] == r;
    assert missing[m] in inputs;
    k :| 0 <= k < |inputs| && inputs[k] == missing[m];
  }

  /** Whether the last key is free, or holds the last movement, after the other inputs have gone through. */
  lemma {:induction false} OneMoreInput(ledger: Ledger, init: seq<Input>, last: Input)
    requires var before := ledger + RowsOf(|ledger|, Missing(ledger, init));
      LedgerOk(before) && forall k :: 0 <= k < |init| ==> AlreadyThere(before, init[k])
    ensures var before := ledger + RowsOf(|ledger|, Missing(ledger, init));
      && (KeyFree(before, last.key)
          <==> KeyFree(ledger, last.key) && forall k :: 0 <= k < |init| ==> init[k].key != last.key)
      && (KeyFree(before, last.key) || AlreadyThere(before, last)
          <==> (KeyFree(ledger, last.key) || AlreadyThere(ledger, last))
               && forall k :: 0 <= k < |init| ==> !Clashing(init[k], last))
  {
    hide LedgerOk, Missing, RowsOf;
    var before := ledger + RowsOf(|ledger|, Missing(ledger, init));
    forall r | r in before && r !in ledger && r.key == last.key
      ensures exists k :: 0 <= k < |init| && init[k].key == r.key && init[k].content == r.content
    {
      var k := NewRows(ledger, init, r);
      assert init[k].key == r.key;
    }
    forall r, r' | r in before && r' in before && r.key == last.key && r'.key == last.key ensures r == r' {
      OneRowPerKey(before, r, r');
    }
    forall k | 0 <= k < |init| && init[k].key == last.key
      ensures exists r :: r in before && r.key == last.key && r.content == init[k].content
    {
      assert AlreadyThere(before, init[k]);
    }
  }

  lemma {:induction false} StaysThere(before: Ledger, after: Ledger, input: Input)
    requires AlreadyThere(before, input) && before <= after
    ensures AlreadyThere(after, input)
  {
    var r :| r in before && r.key == input.key && r.content == input.content;
    assert r in after;
  }

  lemma {:induction false} EachStays(before: Ledger, after: Ledger, inputs: seq<Input>)
    requires before <= after && forall k :: 0 <= k < |inputs| ==> AlreadyThere(before, inputs[k])
    ensures forall k :: 0 <= k < |inputs| ==> AlreadyThere(after, inputs[k])
  {
    hide AlreadyThere;
    forall k | 0 <= k < |inputs| ensures AlreadyThere(after, inputs[k]) { StaysThere(before, after, inputs[k]); }
  }

  lemma {:induction false} LastIsThere(ledger: Ledger, input: Input)
    requires LedgerOk(ledger) && Plain(input) && Insert(ledger, input).Ok?
    ensures AlreadyThere(Insert(ledger, input).value.ledger, input)
  {
    hide LedgerOk, Insert;
    PlainInsert(ledger, input);
    if KeyFree(ledger, input.key) {
      var row := Row(Random(|ledger|), input.key, input.content);
      assert row in ledger + [row];
    }
  }

  lemma {:induction false} MissingOneMore(ledger: Ledger, init: seq<Input>, last: Input, wanted: bool)
    requires wanted <==> KeyFree(ledger, last.key) && forall k :: 0 <= k < |init| ==> init[k].key != last.key
    ensures var first := |ledger| + |Missing(ledger, init)|;
      && Missing(ledger, init + [last]) == Missing(ledger, init) + (if wanted then [last] else [])
      && (last.id.None? ==>
            ledger + RowsOf(|ledger|, Missing(ledger, init + [last])) ==
              (ledger + RowsOf(|ledger|, Missing(ledger, init)))
                + if wanted then [Row(Random(first), last.key, last.content)] else [])
  {
    hide KeyFree, RowsOf;
    assert (init + [last])[..|init|] == init;
    var missing := Missing(ledger, init);
    assert Missing(ledger, init + [last]) == missing + (if wanted then [last] else []);
    if wanted {
      if last.id.None? { RowsOfOneMore(|ledger|, missing, last); }
    } else {
      assert missing + [] == missing;
    }
  }

  lemma {:induction false} RowsOfOneMore(first: nat, inputs: seq<Input>, last: Input)
    requires last.id.None?
    ensures RowsOf(first, inputs + [last]) == RowsOf(first, inputs) + [Row(Random(first + |inputs|), last.key, last.content)]
  {
  }

  /** Rows with keys of their own, none of which is there yet, need nothing but valid deltas and free keys. */
  lemma {:induction false} NewBatch(ledger: Ledger, inputs: seq<Input>)
    requires LedgerOk(ledger) && forall k :: 0 <= k < |inputs| ==> Plain(inputs[k]) && !AlreadyThere(ledger, inputs[k])
    requires forall j, k :: 0 <= j < k < |inputs| ==> inputs[j].key != inputs[k].key
    ensures InsertAll(ledger, inputs).Ok?
      <==> forall k :: 0 <= k < |inputs| ==>
             ValidDelta(inputs[k].content.kind, inputs[k].content.delta) && KeyFree(ledger, inputs[k].key)
  {
    hide LedgerOk, InsertAll, AlreadyThere, KeyFree;
    InsertAllExactly(ledger, inputs);
  }

  /** The same for all inputs of a transaction, whatever their order. */
  lemma {:induction false} InsertAllWhen(ledger: Ledger, inputs: seq<Input>)
    requires LedgerOk(ledger) && forall a :: a in inputs ==> Plain(a) && ValidDelta(a.content.kind, a.content.delta)
    ensures InsertAll(ledger, inputs).Ok?
      <==> && (forall a :: a in inputs ==> KeyFree(ledger, a.key) || AlreadyThere(ledger, a))
           && forall a, b :: a in inputs && b in inputs ==> !Clashing(a, b)
    ensures InsertAll(ledger, inputs).Ok? ==>
      var after := InsertAll(ledger, inputs).value;
      LedgerOk(after) && forall a :: a in inputs ==> AlreadyThere(after, a)
  {
    hide LedgerOk, InsertAll, KeyFree, AlreadyThere;
    InsertAllExactly(ledger, inputs);
    forall a, b | InsertAll(ledger, inputs).Ok? && a in inputs && b in inputs ensures !Clashing(a, b) {
      var j :| 0 <= j < |inputs| && inputs[j] == a;
      var k :| 0 <= k < |inputs| && inputs[k] == b;
      if j < k { assert !Clashing(inputs[j], inputs[k]); }
      if k < j { assert !Clashing(inputs[k], inputs[j]); }
    }
  }

  /** Two transactions one after the other, and both at once. */
  lemma {:induction false} InsertAllSplit(ledger: Ledger, a: seq<Input>, b: seq<Input>)
    ensures InsertAll(ledger, a + b)
      == match InsertAll(ledger, a)
         case Err(e) => Result<Ledger, Error>.Err(e)
         case Ok(between) => InsertAll(between, b)
    decreases |b|
  {
    hide Insert;
    if b == [] {
      assert a + b == a;
    } else {
      var n := |b| - 1;
      assert (a + b)[..|a + b| - 1] == a + b[..n];
      InsertAllSplit(ledger, a, b[..n]);
    }
  }
}
