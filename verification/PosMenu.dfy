/** The POS menu a Cloud publishes and an Edge installs, and the checksum both compute over it. */
module PosMenu {
  import opened Common
  import opened MenuText
  import Crc32

  datatype Item = Item(
    itemId: Text, skuId: Text, name: Text, category: Text, price: int, favourite: bool, sortOrder: int)

  /** Everything the checksum covers. */
  datatype Menu = Menu(
    eventId: Text, menuId: Text, version: int, activatedAt: int, sourceActor: Text, currency: Text, items: seq<Item>)

  datatype Snapshot = Snapshot(menu: Menu, salesLocation: Text, checksum: Text)

  /** JavaScript's own conversions, of which only what is stated in Ordinary is used. */
  datatype Js = Js(utf8: Text -> seq<Crc32.Byte>, upper: Text -> Text, lower: Text -> Text)

  predicate IsCapital(u: Unit) { 65 <= u <= 90 }

  ghost predicate Ordinary(js: Js) {
    && (forall t: Text :: (forall u :: u in t ==> IsCapital(u)) ==> js.upper(t) == t)
    && (forall t: Text :: (forall u :: u in t ==> IsHex(u)) ==> js.lower(t) == t)
  }

  // ---------- the canonical text ----------

  /** A stable sort by item id: an item goes before the first one that is not smaller. */
  function Place(x: Item, sorted: seq<Item>): seq<Item> {
    if sorted == [] || !Less(sorted[0].itemId, x.itemId) then [x] + sorted
    else [sorted[0]] + Place(x, sorted[1..])
  }

  function Sorted(items: seq<Item>): seq<Item> { if items == [] then [] else Place(items[0], Sorted(items[1..])) }

  const ONE: Text := [49]
  const ZERO: Text := [48]

  function ItemFields(x: Item): seq<Text> {
    [x.itemId, x.skuId, x.name, x.category, Number(x.price), if x.favourite then ONE else ZERO, Number(x.sortOrder)]
  }

  function AllItemFields(items: seq<Item>): seq<Text> {
    if items == [] then [] else AllItemFields(items[..|items| - 1]) + ItemFields(items[|items| - 1])
  }

  function Header(m: Menu): seq<Text> {
    [m.eventId, m.menuId, Number(m.version), Number(m.activatedAt), m.sourceActor, m.currency]
  }

  function Canonical(m: Menu): Text { Fields(Header(m) + AllItemFields(Sorted(m.items))) }

  function CrcNumber(bytes: seq<Crc32.Byte>): nat { Crc32.Crc(bytes) as int }

  function Checksum(js: Js, m: Menu): Text { Hex(CrcNumber(js.utf8(Canonical(m))), 8) }

  // ---------- what the Edge accepts ----------

  datatype MenuError =
    | EmptyText | BadInteger | BadCurrency | NoItems | DuplicateItem | DuplicateSku | BadChecksum | ChecksumMismatch

  const MAX_SAFE: int := 9007199254740991

  predicate SafeInteger(v: int, minimum: int) { -MAX_SAFE <= v <= MAX_SAFE && v >= minimum }

  function CleanItem(x: Item): Item {
    x.(itemId := Trim(x.itemId), skuId := Trim(x.skuId), name := Trim(x.name), category := Trim(x.category))
  }

  function CleanItems(items: seq<Item>): seq<Item> {
    if items == [] then [] else CleanItems(items[..|items| - 1]) + [CleanItem(items[|items| - 1])]
  }

  function Clean(js: Js, m: Menu): Menu {
    m.(eventId := Trim(m.eventId), menuId := Trim(m.menuId), sourceActor := Trim(m.sourceActor),
       currency := js.upper(Trim(m.currency)), items := CleanItems(m.items))
  }

  function ItemProblem(x: Item): Option<MenuError> {
    if Trim(x.itemId) == [] || Trim(x.skuId) == [] || Trim(x.name) == [] || Trim(x.category) == [] then Some(EmptyText)
    else if !SafeInteger(x.price, 0) || !SafeInteger(x.sortOrder, 0) then Some(BadInteger)
    else None
  }

  function ItemsProblem(items: seq<Item>): Option<MenuError> {
    if items == [] then None
    else
      var before := ItemsProblem(items[..|items| - 1]);
      if before.Some? then before else ItemProblem(items[|items| - 1])
  }

  function ItemIds(items: seq<Item>): set<Text> { set x | x in items :: x.itemId }

  function SkuIds(items: seq<Item>): set<Text> { set x | x in items :: x.skuId }

  function DuplicateProblem(items: seq<Item>): Option<MenuError> {
    if items == [] then None
    else
      var init, x := items[..|items| - 1], items[|items| - 1];
      var before := DuplicateProblem(init);
      if before.Some? then before
      else if x.itemId in ItemIds(init) then Some(DuplicateItem)
      else if x.skuId in SkuIds(init) then Some(DuplicateSku)
      else None
  }

  predicate ThreeCapitals(t: Text) { |t| == 3 && forall u :: u in t ==> IsCapital(u) }

  predicate EightHex(t: Text) { |t| == 8 && forall u :: u in t ==> IsHex(u) }

  function Parse(js: Js, raw: Snapshot): Result<Snapshot, MenuError> {
    var m := Clean(js, raw.menu);
    var checksum := js.lower(Trim(raw.checksum));
    if Trim(raw.menu.currency) == [] then Err(EmptyText)
    else if !ThreeCapitals(m.currency) then Err(BadCurrency)
    else if m.items == [] then Err(NoItems)
    else if ItemsProblem(raw.menu.items).Some? then Err(ItemsProblem(raw.menu.items).value)
    else if DuplicateProblem(m.items).Some? then Err(DuplicateProblem(m.items).value)
    else if m.eventId == [] || Trim(raw.salesLocation) == [] || m.menuId == [] then Err(EmptyText)
    else if !SafeInteger(m.version, 1) || !SafeInteger(m.activatedAt, 1) then Err(BadInteger)
    else if m.sourceActor == [] || Trim(raw.checksum) == [] then Err(EmptyText)
    else if !EightHex(checksum) then Err(BadChecksum)
    else if checksum != Checksum(js, m) then Err(ChecksumMismatch)
    else Ok(Snapshot(m, Trim(raw.salesLocation), checksum))
  }

  /** The snapshot the Cloud stores and sends. */
  function Published(js: Js, m: Menu, salesLocation: Text): Snapshot { Snapshot(m, salesLocation, Checksum(js, m)) }

  // ---------- the loops ----------

  method SortItems(items: seq<Item>) returns (sorted: seq<Item>)
    ensures sorted == Sorted(items)
  {
    sorted := [];
    var i := |items|;
    while i > 0
      invariant 0 <= i <= |items| && sorted == Sorted(items[i..])
    {
      i := i - 1;
      assert items[i..][1..] == items[i + 1..];
      sorted := Place(items[i], sorted);
    }
    assert items[0..] == items;
  }

  method AppendField(parts: Text, value: Text) returns (more: Text)
    ensures more == parts + Field(value)
  {
    more := parts + (Digits(|value|) + [COLON] + value + [BAR]);
  }

  method AppendHeader(m: Menu) returns (parts: Text)
    ensures parts == Fields(Header(m))
  {
    hide Field;
    parts := AppendField([], m.eventId);
    parts := AppendField(parts, m.menuId);
    parts := AppendField(parts, Number(m.version));
    parts := AppendField(parts, Number(m.activatedAt));
    parts := AppendField(parts, m.sourceActor);
    parts := AppendField(parts, m.currency);
    FieldsOfSix(m.eventId, m.menuId, Number(m.version), Number(m.activatedAt), m.sourceActor, m.currency);
  }

  method AppendItem(parts: Text, x: Item) returns (more: Text)
    ensures more == parts + Fields(ItemFields(x))
  {
    hide Field;
    more := AppendField([], x.itemId);
    more := AppendField(more, x.skuId);
    more := AppendField(more, x.name);
    more := AppendField(more, x.category);
    more := AppendField(more, Number(x.price));
    more := AppendField(more, if x.favourite then ONE else ZERO);
    FieldsOfSix(x.itemId, x.skuId, x.name, x.category, Number(x.price), if x.favourite then ONE else ZERO);
    ghost var six := [x.itemId, x.skuId, x.name, x.category, Number(x.price), if x.favourite then ONE else ZERO];
    assert more == Fields(six);
    assert ItemFields(x) == six + [Number(x.sortOrder)];
    FieldsAppend(six, [Number(x.sortOrder)]);
    FieldsOfOne(Number(x.sortOrder));
    more := AppendField(more, Number(x.sortOrder));
    assert more == Fields(ItemFields(x));
    more := parts + more;
  }

  lemma {:induction false} FieldsAppend(a: seq<Text>, b: seq<Text>)
    ensures Fields(a + b) == Fields(a) + Fields(b)
    decreases |a|
  {
    hide Field;
    if a == [] {
      assert a + b == b;
    } else {
      assert (a + b)[1..] == a[1..] + b;
      FieldsAppend(a[1..], b);
    }
  }

  lemma {:induction false} FieldsOfSix(a: Text, b: Text, c: Text, d: Text, e: Text, f: Text)
    ensures Fields([a, b, c, d, e, f]) == Field(a) + Field(b) + Field(c) + Field(d) + Field(e) + Field(f)
  {
    hide Field;
    FieldsOfTwo(a, b);
    FieldsOfTwo(c, d);
    FieldsOfTwo(e, f);
    FieldsAppend([a, b], [c, d]);
    FieldsAppend([a, b] + [c, d], [e, f]);
    assert [a, b] + [c, d] + [e, f] == [a, b, c, d, e, f];
  }

  lemma {:induction false} FieldsOfTwo(a: Text, b: Text)
    ensures Fields([a, b]) == Field(a) + Field(b)
  {
    hide Field;
    FieldsOfOne(a);
    FieldsOfOne(b);
    FieldsAppend([a], [b]);
    assert [a] + [b] == [a, b];
  }

  lemma {:induction false} FieldsOfOne(a: Text)
    ensures Fields([a]) == Field(a)
  {
    hide Field;
    assert [a][1..] == [] && Field(a) + [] == Field(a);
  }

  lemma {:induction false} NoItemFields()
    ensures forall header: seq<Text> :: header + AllItemFields([]) == header
  {
  }

  lemma {:induction false} OneMoreItem(header: seq<Text>, items: seq<Item>, x: Item)
    ensures Fields(header + AllItemFields(items + [x])) == Fields(header + AllItemFields(items)) + Fields(ItemFields(x))
  {
    hide ItemFields, Fields;
    assert (items + [x])[..|items|] == items;
    assert header + AllItemFields(items + [x]) == (header + AllItemFields(items)) + ItemFields(x);
    FieldsAppend(header + AllItemFields(items), ItemFields(x));
  }

  method ComputeChecksum(js: Js, m: Menu) returns (checksum: Text)
    ensures checksum == Checksum(js, m)
  {
    hide Fields, AllItemFields, Header, ItemFields, Sorted;
    var parts := AppendHeader(m);
    var sorted := SortItems(m.items);
    NoItemFields();
    var i := 0;
    while i < |sorted|
      invariant i <= |sorted| && parts == Fields(Header(m) + AllItemFields(sorted[..i]))
    {
      assert sorted[..i + 1][..i] == sorted[..i];
      OneMoreItem(Header(m), sorted[..i], sorted[i]);
      assert sorted[..i] + [sorted[i]] == sorted[..i + 1];
      parts := AppendItem(parts, sorted[i]);
      i := i + 1;
    }
    assert sorted[..i] == sorted;
    var crc := Crc32.Compute(js.utf8(parts));
    var number: nat := crc as int;
    return Hex(number, 8);
  }

  lemma {:induction false} NoIds()
    ensures ItemIds([]) == {} && SkuIds([]) == {}
  {
  }

  lemma {:induction false} IdsGrow(items: seq<Item>, i: nat)
    requires i < |items|
    ensures ItemIds(items[..i + 1]) == ItemIds(items[..i]) + {items[i].itemId}
    ensures SkuIds(items[..i + 1]) == SkuIds(items[..i]) + {items[i].skuId}
  {
    assert items[..i + 1] == items[..i] + [items[i]];
  }

  method FindDuplicate(items: seq<Item>) returns (problem: Option<MenuError>)
    ensures problem == DuplicateProblem(items)
  {
    hide ItemIds, SkuIds;
    problem := None;
    NoIds();
    var itemIds: set<Text>, skuIds: set<Text> := {}, {};
    var i := 0;
    while i < |items|
      invariant i <= |items| && problem.None? && DuplicateProblem(items[..i]).None?
      invariant itemIds == ItemIds(items[..i]) && skuIds == SkuIds(items[..i])
    {
      assert items[..i + 1][..i] == items[..i];
      IdsGrow(items, i);
      var found: Option<MenuError> :=
        if items[i].itemId in itemIds then Some(DuplicateItem)
        else if items[i].skuId in skuIds then Some(DuplicateSku) else None;
      if found.Some? {
        DuplicatePersists(items, i + 1, found.value);
        return found;
      }
      itemIds, skuIds := itemIds + {items[i].itemId}, skuIds + {items[i].skuId};
      i := i + 1;
    }
    assert items[..i] == items;
  }

  method ParseItems(items: seq<Item>) returns (result: Result<seq<Item>, MenuError>)
    ensures result == if ItemsProblem(items).Some? then Err(ItemsProblem(items).value) else Ok(CleanItems(items))
  {
    hide ItemProblem, CleanItem;
    var cleaned: seq<Item> := [];
    var i := 0;
    while i < |items|
      invariant i <= |items| && ItemsProblem(items[..i]).None? && cleaned == CleanItems(items[..i])
    {
      assert items[..i + 1][..i] == items[..i];
      var problem := ItemProblem(items[i]);
      if problem.Some? {
        ProblemPersists(items, i + 1, problem.value);
        return Err(problem.value);
      }
      cleaned := cleaned + [CleanItem(items[i])];
      i := i + 1;
    }
    assert items[..i] == items;
    return Ok(cleaned);
  }

  lemma {:induction false} ProblemPersists(items: seq<Item>, n: nat, problem: MenuError)
    requires n <= |items| && ItemsProblem(items[..n]) == Some(problem)
    ensures ItemsProblem(items) == Some(problem)
    decreases |items| - n
  {
    if n < |items| {
      assert items[..n + 1][..n] == items[..n];
      ProblemPersists(items, n + 1, problem);
    } else {
      assert items[..n] == items;
    }
  }

  lemma {:induction false} CleanCount(items: seq<Item>)
    ensures |CleanItems(items)| == |items|
  {
    if items != [] { CleanCount(items[..|items| - 1]); }
  }

  method ParsePosMenuSnapshot(js: Js, raw: Snapshot) returns (result: Result<Snapshot, MenuError>)
    ensures result == Parse(js, raw)
  {
    hide Checksum, ItemsProblem, DuplicateProblem, CleanItems, Trim;
    CleanCount(raw.menu.items);
    var currency := Trim(raw.menu.currency);
    if currency == [] { return Err(EmptyText); }
    currency := js.upper(currency);
    if !ThreeCapitals(currency) { return Err(BadCurrency); }
    if raw.menu.items == [] { return Err(NoItems); }
    var items := ParseItems(raw.menu.items);
    if items.Err? { return Err(items.error); }
    var duplicate := FindDuplicate(items.value);
    if duplicate.Some? { return Err(duplicate.value); }
    var eventId, menuId, location := Trim(raw.menu.eventId), Trim(raw.menu.menuId), Trim(raw.salesLocation);
    if eventId == [] || location == [] || menuId == [] { return Err(EmptyText); }
    if !SafeInteger(raw.menu.version, 1) || !SafeInteger(raw.menu.activatedAt, 1) { return Err(BadInteger); }
    var actor, checksum := Trim(raw.menu.sourceActor), Trim(raw.checksum);
    if actor == [] || checksum == [] { return Err(EmptyText); }
    checksum := js.lower(checksum);
    if !EightHex(checksum) { return Err(BadChecksum); }
    var menu := Menu(eventId, menuId, raw.menu.version, raw.menu.activatedAt, actor, currency, items.value);
    var expected := ComputeChecksum(js, menu);
    if checksum != expected { return Err(ChecksumMismatch); }
    return Ok(Snapshot(menu, location, checksum));
  }

  lemma {:induction false} DuplicatePersists(items: seq<Item>, n: nat, problem: MenuError)
    requires n <= |items| && DuplicateProblem(items[..n]) == Some(problem)
    ensures DuplicateProblem(items) == Some(problem)
    decreases |items| - n
  {
    if n < |items| {
      assert items[..n + 1][..n] == items[..n];
      DuplicatePersists(items, n + 1, problem);
    } else {
      assert items[..n] == items;
    }
  }

  // ---------- sorting ----------

  predicate Ascending(items: seq<Item>) {
    forall i, j :: 0 <= i < j < |items| ==> Less(items[i].itemId, items[j].itemId)
  }

  predicate DistinctIds(items: seq<Item>) {
    forall i, j :: 0 <= i < j < |items| ==> items[i].itemId != items[j].itemId
  }

  lemma {:induction false} PlacePermutes(x: Item, sorted: seq<Item>)
    ensures multiset(Place(x, sorted)) == multiset(sorted) + multiset{x}
    decreases |sorted|
  {
    hide Less;
    if sorted != [] && Less(sorted[0].itemId, x.itemId) {
      PlacePermutes(x, sorted[1..]);
      Front(sorted[0], sorted[1..]);
      Front(sorted[0], Place(x, sorted[1..]));
      assert sorted == [sorted[0]] + sorted[1..];
    } else {
      Front(x, sorted);
    }
  }

  lemma {:induction false} Front<T>(x: T, rest: seq<T>)
    ensures multiset([x] + rest) == multiset(rest) + multiset{x}
  {
  }

  lemma {:induction false} PlaceAscends(x: Item, sorted: seq<Item>)
    requires Ascending(sorted) && forall y :: y in sorted ==> y.itemId != x.itemId
    ensures Ascending(Place(x, sorted))
    decreases |sorted|
  {
    hide Less;
    if sorted == [] || !Less(sorted[0].itemId, x.itemId) {
      forall y | y in sorted ensures Less(x.itemId, y.itemId) {
        LessTotal(x.itemId, sorted[0].itemId);
        if y != sorted[0] { LessTransitive(x.itemId, sorted[0].itemId, y.itemId); }
      }
    } else {
      PlaceAscends(x, sorted[1..]);
      PlacePermutes(x, sorted[1..]);
      var rest := Place(x, sorted[1..]);
      forall y | y in rest ensures Less(sorted[0].itemId, y.itemId) { assert y in multiset(rest); }
    }
  }

  lemma {:induction false} SortedPermutes(items: seq<Item>)
    ensures multiset(Sorted(items)) == multiset(items)
    decreases |items|
  {
    hide Place;
    if items != [] {
      SortedPermutes(items[1..]);
      PlacePermutes(items[0], Sorted(items[1..]));
      Front(items[0], items[1..]);
      assert items == [items[0]] + items[1..];
    }
  }

  lemma {:induction false} SortedAscends(items: seq<Item>)
    requires DistinctIds(items)
    ensures Ascending(Sorted(items))
    decreases |items|
  {
    hide Place;
    if items != [] {
      var x, rest := items[0], items[1..];
      forall i, j | 0 <= i < j < |rest| ensures rest[i].itemId != rest[j].itemId {
        assert rest[i] == items[i + 1] && rest[j] == items[j + 1];
      }
      SortedAscends(rest);
      SortedPermutes(rest);
      forall y | y in Sorted(rest) ensures y.itemId != x.itemId {
        assert y in multiset(rest);
        var k :| 0 <= k < |rest| && rest[k] == y;
        assert items[k + 1] == y;
      }
      PlaceAscends(x, Sorted(rest));
    }
  }

  /** There is only one ascending arrangement of the same items. */
  lemma {:induction false} AscendingUnique(a: seq<Item>, b: seq<Item>)
    requires Ascending(a) && Ascending(b) && multiset(a) == multiset(b)
    ensures a == b
    decreases |a|
  {
    hide Less;
    SameSize(a, b);
    if a != [] {
      SameMember(a, b, b[0]);
      SameMember(b, a, a[0]);
      FirstIsLeast(a, b[0]);
      FirstIsLeast(b, a[0]);
      LessTotal(a[0].itemId, b[0].itemId);
      SameTails(a, b);
      AscendingUnique(a[1..], b[1..]);
      assert a == [a[0]] + a[1..] && b == [b[0]] + b[1..];
    }
  }

  lemma {:induction false} SameSize<T>(a: seq<T>, b: seq<T>)
    requires multiset(a) == multiset(b)
    ensures |a| == |b|
  {
    assert |multiset(a)| == |multiset(b)|;
  }

  lemma {:induction false} SameMember<T>(a: seq<T>, b: seq<T>, x: T)
    requires multiset(a) == multiset(b) && x in b
    ensures x in a
  {
    assert x in multiset(b);
  }

  lemma {:induction false} SameTails<T>(a: seq<T>, b: seq<T>)
    requires a != [] && b != [] && a[0] == b[0] && multiset(a) == multiset(b)
    ensures multiset(a[1..]) == multiset(b[1..])
  {
    Front(a[0], a[1..]);
    Front(b[0], b[1..]);
    assert a == [a[0]] + a[1..] && b == [b[0]] + b[1..];
    assert multiset(a[1..]) == multiset(a) - multiset{a[0]};
    assert multiset(b[1..]) == multiset(b) - multiset{b[0]};
  }

  lemma {:induction false} FirstIsLeast(items: seq<Item>, x: Item)
    requires Ascending(items) && x in items
    ensures x == items[0] || Less(items[0].itemId, x.itemId)
  {
  }

  // ---------- the canonical text says exactly what the menu is ----------

  lemma {:induction false} ItemFieldsInjective(x: Item, y: Item)
    requires ItemFields(x) == ItemFields(y)
    ensures x == y
  {
    hide Number;
    var a, b := ItemFields(x), ItemFields(y);
    assert a[0] == b[0] && a[1] == b[1] && a[2] == b[2] && a[3] == b[3] && a[4] == b[4] && a[5] == b[5] && a[6] == b[6];
    NumberInjective(x.price, y.price);
    NumberInjective(x.sortOrder, y.sortOrder);
    assert ONE[0] != ZERO[0];
  }

  lemma {:induction false} AllItemFieldsInjective(a: seq<Item>, b: seq<Item>)
    requires AllItemFields(a) == AllItemFields(b)
    ensures a == b
    decreases |a|
  {
    hide ItemFields;
    if a == [] || b == [] {
      SevenEach(a);
      SevenEach(b);
    } else {
      var m, n := |a| - 1, |b| - 1;
      SevenEach(a[..m]);
      SevenEach(b[..n]);
      Seven(a[m]);
      Seven(b[n]);
      var fa, fb := AllItemFields(a), AllItemFields(b);
      assert fa[|fa| - 7..] == ItemFields(a[m]) && fb[|fb| - 7..] == ItemFields(b[n]);
      assert fa[..|fa| - 7] == AllItemFields(a[..m]) && fb[..|fb| - 7] == AllItemFields(b[..n]);
      ItemFieldsInjective(a[m], b[n]);
      AllItemFieldsInjective(a[..m], b[..n]);
      assert a == a[..m] + [a[m]] && b == b[..n] + [b[n]];
    }
  }

  lemma {:induction false} Seven(x: Item)
    ensures |ItemFields(x)| == 7
  {
  }

  lemma {:induction false} SevenEach(items: seq<Item>)
    ensures |AllItemFields(items)| == 7 * |items|
  {
    if items != [] { SevenEach(items[..|items| - 1]); }
  }

  lemma {:induction false} SameCanonical(a: Menu, b: Menu)
    requires Canonical(a) == Canonical(b)
    ensures a.(items := []) == b.(items := []) && Sorted(a.items) == Sorted(b.items)
  {
    hide Fields, Number, Sorted, AllItemFields;
    var fa, fb := Header(a) + AllItemFields(Sorted(a.items)), Header(b) + AllItemFields(Sorted(b.items));
    FieldsInjective(fa, fb);
    assert fa[..6] == Header(a) && fb[..6] == Header(b);
    assert fa[6..] == AllItemFields(Sorted(a.items)) && fb[6..] == AllItemFields(Sorted(b.items));
    var ha, hb := Header(a), Header(b);
    assert ha[0] == hb[0] && ha[1] == hb[1] && ha[2] == hb[2] && ha[3] == hb[3] && ha[4] == hb[4] && ha[5] == hb[5];
    NumberInjective(a.version, b.version);
    NumberInjective(a.activatedAt, b.activatedAt);
    AllItemFieldsInjective(Sorted(a.items), Sorted(b.items));
  }

  /**
   Menus whose items have distinct ids serialise alike exactly when they are the same menu with its
   items listed in some order.
   */
  lemma {:induction false} CanonicalUpToOrder(a: Menu, b: Menu)
    requires DistinctIds(a.items) && DistinctIds(b.items)
    ensures Canonical(a) == Canonical(b) <==> a.(items := []) == b.(items := []) && multiset(a.items) == multiset(b.items)
  {
    hide Sorted, DistinctIds, Fields;
    SortedPermutes(a.items);
    SortedPermutes(b.items);
    SortedAscends(a.items);
    SortedAscends(b.items);
    if Canonical(a) == Canonical(b) { SameCanonical(a, b); }
    if multiset(a.items) == multiset(b.items) { AscendingUnique(Sorted(a.items), Sorted(b.items)); }
  }

  // ---------- Cloud and Edge ----------

  predicate ItemFine(x: Item) {
    && Trimmed(x.itemId) && Trimmed(x.skuId) && Trimmed(x.name) && Trimmed(x.category)
  }

  function Weight(x: Item): nat { |x.itemId| + |x.skuId| + |x.name| + |x.category| }

  function Weights(items: seq<Item>): nat {
    if items == [] then 0 else Weights(items[..|items| - 1]) + Weight(items[|items| - 1])
  }

  lemma {:induction false} WeightsSplit(a: seq<Item>, b: seq<Item>)
    ensures Weights(a + b) == Weights(a) + Weights(b)
    decreases |b|
  {
    if b == [] {
      assert a + b == a;
    } else {
      assert (a + b)[..|a + b| - 1] == a + b[..|b| - 1];
      WeightsSplit(a, b[..|b| - 1]);
    }
  }

  lemma {:induction false} PlaceWeighs(x: Item, sorted: seq<Item>)
    ensures Weights(Place(x, sorted)) == Weights(sorted) + Weight(x)
    decreases |sorted|
  {
    hide Less, Weight;
    if sorted == [] || !Less(sorted[0].itemId, x.itemId) {
      WeightsSplit([x], sorted);
      assert Weights([x]) == Weight(x) by { assert [x][..0] == []; }
    } else {
      PlaceWeighs(x, sorted[1..]);
      WeightsSplit([sorted[0]], Place(x, sorted[1..]));
      WeightsSplit([sorted[0]], sorted[1..]);
      assert sorted == [sorted[0]] + sorted[1..];
    }
  }

  lemma {:induction false} SortedWeighs(items: seq<Item>)
    ensures Weights(Sorted(items)) == Weights(items)
    decreases |items|
  {
    hide Weight;
    if items != [] {
      SortedWeighs(items[1..]);
      PlaceWeighs(items[0], Sorted(items[1..]));
      WeightsSplit([items[0]], items[1..]);
      assert Weights([items[0]]) == Weight(items[0]) by { assert [items[0]][..0] == []; }
      assert items == [items[0]] + items[1..];
    }
  }

  lemma {:induction false} CleanItemWeighs(x: Item)
    ensures Weight(CleanItem(x)) <= Weight(x)
    ensures Weight(CleanItem(x)) == Weight(x) ==> CleanItem(x) == x
  {
    hide Trim, Trimmed;
    TrimShrinks(x.itemId);
    TrimShrinks(x.skuId);
    TrimShrinks(x.name);
    TrimShrinks(x.category);
  }

  lemma {:induction false} TrimShrinks(t: Text)
    ensures |Trim(t)| <= |t| && (|Trim(t)| == |t| ==> Trim(t) == t)
    decreases |t|
  {
    if t != [] {
      if IsSpace(t[0]) { TrimShrinks(t[1..]); } else if IsSpace(t[|t| - 1]) { TrimShrinks(t[..|t| - 1]); }
    }
  }

  lemma {:induction false} CleanItemsWeigh(items: seq<Item>)
    ensures |CleanItems(items)| == |items| && Weights(CleanItems(items)) <= Weights(items)
    ensures Weights(CleanItems(items)) == Weights(items) ==> CleanItems(items) == items
    decreases |items|
  {
    hide Weight, Weights, CleanItem, CleanItems;
    if items == [] {
      NothingToClean();
    } else {
      var init, x := items[..|items| - 1], items[|items| - 1];
      assert items == init + [x];
      CleanItemsWeigh(init);
      CleanItemWeighs(x);
      CleanOneMore(init, x);
      WeightsOneMore(init, x);
      WeightsOneMore(CleanItems(init), CleanItem(x));
    }
  }

  lemma {:induction false} NothingToClean()
    ensures CleanItems([]) == []
  {
  }

  lemma {:induction false} CleanOneMore(items: seq<Item>, x: Item)
    ensures CleanItems(items + [x]) == CleanItems(items) + [CleanItem(x)]
  {
    hide CleanItem;
    assert (items + [x])[..|items|] == items;
  }

  lemma {:induction false} WeightsOneMore(items: seq<Item>, x: Item)
    ensures Weights(items + [x]) == Weights(items) + Weight(x)
  {
    hide Weight;
    assert (items + [x])[..|items|] == items;
  }

  /** Normalising a menu either changes nothing or changes its canonical text. */
  lemma {:induction false} CleaningShows(js: Js, m: Menu)
    ensures Canonical(Clean(js, m)) == Canonical(m) <==> Clean(js, m) == m
  {
    hide Canonical, Sorted, CleanItems, Weights, Trim;
    if Canonical(Clean(js, m)) == Canonical(m) {
      SameCanonical(Clean(js, m), m);
      SortedWeighs(m.items);
      SortedWeighs(CleanItems(m.items));
      CleanItemsWeigh(m.items);
    }
  }

  lemma {:induction false} ChecksumsCompareCrcs(js: Js, a: Menu, b: Menu)
    ensures Checksum(js, a) == Checksum(js, b) <==>
      Crc32.Crc(js.utf8(Canonical(a))) == Crc32.Crc(js.utf8(Canonical(b)))
    ensures EightHex(Checksum(js, a))
  {
    hide Canonical, Crc32.Crc, CrcNumber, Hex, Power16;
    var x, y := js.utf8(Canonical(a)), js.utf8(Canonical(b));
    HexIs(CrcNumber(x), 8);
    CrcFits(x);
    CrcFits(y);
    if Hex(CrcNumber(x), 8) == Hex(CrcNumber(y), 8) {
      HexInjective(CrcNumber(x), CrcNumber(y), 8);
      SameCrc(x, y);
    }
    if Crc32.Crc(x) == Crc32.Crc(y) { SameNumber(x, y); }
  }

  lemma {:induction false} CrcFits(x: seq<Crc32.Byte>)
    ensures CrcNumber(x) < Power16(8)
  {
    hide Crc32.Crc;
    assert Power16(4) == 0x1_0000;
    assert Power16(8) == 0x1_0000_0000;
  }

  lemma {:induction false} SameCrc(x: seq<Crc32.Byte>, y: seq<Crc32.Byte>)
    requires CrcNumber(x) == CrcNumber(y)
    ensures Crc32.Crc(x) == Crc32.Crc(y)
  {
    hide Crc32.Crc;
    BitsFromNumber(Crc32.Crc(x), Crc32.Crc(y));
  }

  lemma {:induction false} SameNumber(x: seq<Crc32.Byte>, y: seq<Crc32.Byte>)
    requires Crc32.Crc(x) == Crc32.Crc(y)
    ensures CrcNumber(x) == CrcNumber(y)
  {
    hide Crc32.Crc;
  }

  lemma {:induction false} BitsFromNumber(x: bv32, y: bv32)
    requires x as int == y as int
    ensures x == y
  {
    assert (x as int) as bv32 == x && (y as int) as bv32 == y;
  }

  /** After trimming, everything the Edge asks of a menu besides its checksum holds. */
  predicate Acceptable(js: Js, m: Menu, salesLocation: Text) {
    var c := Clean(js, m);
    && ThreeCapitals(c.currency) && Trim(m.currency) != []
    && c.items != [] && ItemsProblem(m.items).None? && DuplicateProblem(c.items).None?
    && c.eventId != [] && Trim(salesLocation) != [] && c.menuId != [] && c.sourceActor != []
    && SafeInteger(c.version, 1) && SafeInteger(c.activatedAt, 1)
  }

  /**
   The Edge accepts the snapshot a Cloud publishes exactly when the menu is acceptable and either needs
   no trimming, or its trimmed text happens to collide with its published text under CRC-32.
   */
  lemma {:induction false} EdgeAcceptsExactlyWhen(js: Js, m: Menu, salesLocation: Text)
    requires Ordinary(js)
    ensures Parse(js, Published(js, m, salesLocation)).Ok? <==>
      Acceptable(js, m, salesLocation) &&
        (Clean(js, m) == m ||
         (Canonical(Clean(js, m)) != Canonical(m) &&
          Crc32.Crc(js.utf8(Canonical(Clean(js, m)))) == Crc32.Crc(js.utf8(Canonical(m)))))
    ensures Parse(js, Published(js, m, salesLocation)).Ok? ==>
      Parse(js, Published(js, m, salesLocation)).value ==
        Snapshot(Clean(js, m), Trim(salesLocation), Checksum(js, m))
  {
    hide Canonical, Clean, Crc32.Crc, Checksum, ItemsProblem, DuplicateProblem, Hex, Trim;
    CleaningShows(js, m);
    ChecksumsCompareCrcs(js, Clean(js, m), m);
    ChecksumsCompareCrcs(js, m, m);
    HexTrimmed(Checksum(js, m));
  }

  lemma {:induction false} HexTrimmed(t: Text)
    requires EightHex(t)
    ensures Trim(t) == t
  {
    assert t[0] in t && t[|t| - 1] in t;
  }

  /** A menu of trimmed texts is installed at the Edge exactly as it was published. */
  lemma {:induction false} TrimmedMenuInstalls(js: Js, m: Menu, salesLocation: Text)
    requires Ordinary(js) && Acceptable(js, m, salesLocation)
    requires Trimmed(m.eventId) && Trimmed(m.menuId) && Trimmed(m.sourceActor) && Trimmed(salesLocation)
    requires ThreeCapitals(m.currency) && forall x :: x in m.items ==> ItemFine(x)
    ensures Parse(js, Published(js, m, salesLocation)) == Ok(Published(js, m, salesLocation))
  {
    hide Canonical, Crc32.Crc, Checksum, Acceptable, Parse, Trim;
    TrimFixes(m.eventId);
    TrimFixes(m.menuId);
    TrimFixes(m.sourceActor);
    TrimFixes(salesLocation);
    CapitalsTrimmed(m.currency);
    FineItems(m.items);
    EdgeAcceptsExactlyWhen(js, m, salesLocation);
  }

  lemma {:induction false} CapitalsTrimmed(t: Text)
    requires ThreeCapitals(t)
    ensures Trim(t) == t
  {
    assert t[0] in t && t[2] in t;
  }

  lemma {:induction false} FineItems(items: seq<Item>)
    requires forall x :: x in items ==> ItemFine(x)
    ensures CleanItems(items) == items
  {
    hide Trim, Trimmed;
    if items != [] {
      var x := items[|items| - 1];
      assert ItemFine(x);
      TrimFixes(x.itemId);
      TrimFixes(x.skuId);
      TrimFixes(x.name);
      TrimFixes(x.category);
      FineItems(items[..|items| - 1]);
    }
  }

  /** Corrupting up to four neighbouring bytes of the canonical text always changes the checksum. */
  lemma {:induction false} CorruptionShows(js: Js, a: Menu, b: Menu, from: nat)
    requires var s, t := js.utf8(Canonical(a)), js.utf8(Canonical(b));
      && |s| == |t| && from + 4 <= |s| && s != t
      && forall k :: 0 <= k < |s| && !(from <= k < from + 4) ==> s[k] == t[k]
    ensures Checksum(js, a) != Checksum(js, b)
  {
    hide Canonical, Crc32.Crc, Checksum;
    Crc32.BurstDetected(js.utf8(Canonical(a)), js.utf8(Canonical(b)), from);
    ChecksumsCompareCrcs(js, a, b);
  }
}
