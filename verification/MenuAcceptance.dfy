/** Which menus can be installed, read off the menu itself, and how its texts are cleaned and its checksum written. */
module MenuAcceptance {
  import opened Common
  import opened MenuText
  import opened PosMenu
  import Crc32

  // ---------- trimming and writing numbers ----------

  predicate Blank(t: Text) { forall i :: 0 <= i < |t| ==> IsSpace(t[i]) }

  predicate Around(t: Text, lead: Text, core: Text, tail: Text) {
    t == lead + core + tail && Blank(lead) && Blank(tail)
  }

  lemma {:induction false} SpaceInFront(u: Unit, t: Text, lead: Text, core: Text, tail: Text)
    requires Around(t, lead, core, tail) && IsSpace(u)
    ensures Around([u] + t, [u] + lead, core, tail)
  {
    assert [u] + (lead + core + tail) == [u] + lead + core + tail;
  }

  lemma {:induction false} SpaceBehind(u: Unit, t: Text, lead: Text, core: Text, tail: Text)
    requires Around(t, lead, core, tail) && IsSpace(u)
    ensures Around(t + [u], lead, core, tail + [u])
  {
    assert lead + core + tail + [u] == lead + core + (tail + [u]);
  }

  /** Trimming takes away spaces at the two ends, all of them, and nothing else. */
  lemma {:induction false} TrimTakesSpaces(t: Text) returns (lead: Text, tail: Text)
    ensures t == lead + Trim(t) + tail && Blank(lead) && Blank(tail) && Trimmed(Trim(t))
    decreases |t|
  {
    TrimFixes(t);
    if t != [] && IsSpace(t[0]) {
      lead, tail := TrimTakesSpaces(t[1..]);
      assert t == [t[0]] + t[1..];
      SpaceInFront(t[0], t[1..], lead, Trim(t), tail);
      lead := [t[0]] + lead;
    } else if t != [] && IsSpace(t[|t| - 1]) {
      var last := t[|t| - 1];
      lead, tail := TrimTakesSpaces(t[..|t| - 1]);
      assert t == t[..|t| - 1] + [last];
      SpaceBehind(last, t[..|t| - 1], lead, Trim(t), tail);
      tail := tail + [last];
    } else {
      lead, tail := [], [];
    }
  }

  /** The number that hexadecimal digits stand for. */
  function HexValue(t: Text): int {
    if t == [] then 0
    else 16 * HexValue(t[..|t| - 1]) + (var u: int := t[|t| - 1]; if u <= 57 then u - 48 else u - 87)
  }

  /** Hexadecimal notation of the full width can be read back, digits first and then lower-case letters. */
  lemma {:induction false} HexRoundTrip(v: nat, width: nat)
    requires v < Power16(width)
    ensures HexValue(Hex(v, width)) == v && |Hex(v, width)| == width
    ensures forall u :: u in Hex(v, width) ==> IsHex(u)
    decreases width
  {
    HexIs(v, width);
    if width > 0 {
      HexRoundTrip(v / 16, width - 1);
      var t := Hex(v, width);
      assert t[..|t| - 1] == Hex(v / 16, width - 1) && t[|t| - 1] == HexDigit(v % 16);
    }
  }

  // ---------- acceptable menus ----------

  /** Some character that is not a space. */
  predicate Says(t: Text) { exists i :: 0 <= i < |t| && !IsSpace(t[i]) }

  lemma {:induction false} SaysSomething(t: Text)
    ensures Says(t) <==> Trim(t) != []
  {
    var lead, tail := TrimTakesSpaces(t);
    hide Trim;
    if Trim(t) != [] { assert t[|lead|] == Trim(t)[0]; }
  }

  /** An item names itself, its SKU, its category and what it is, and its two numbers are exact and not negative. */
  predicate Sellable(x: Item) {
    && Says(x.itemId) && Says(x.skuId) && Says(x.name) && Says(x.category)
    && 0 <= x.price <= 9007199254740991 && 0 <= x.sortOrder <= 9007199254740991
  }

  /** No two items have the same id or the same SKU, spaces at the ends aside. */
  predicate NoneTwice(items: seq<Item>) {
    forall i, j :: 0 <= i < j < |items| ==>
      Trim(items[i].itemId) != Trim(items[j].itemId) && Trim(items[i].skuId) != Trim(items[j].skuId)
  }

  lemma {:induction false} ItemsSellable(items: seq<Item>)
    ensures ItemsProblem(items).None? <==> forall i :: 0 <= i < |items| ==> Sellable(items[i])
    decreases |items|
  {
    hide Says;
    if items != [] {
      var n := |items| - 1;
      ItemsSellable(items[..n]);
      SaysSomething(items[n].itemId);
      SaysSomething(items[n].skuId);
      SaysSomething(items[n].name);
      SaysSomething(items[n].category);
    }
  }

  lemma {:induction false} CleanedItems(items: seq<Item>)
    ensures |CleanItems(items)| == |items|
    ensures forall i :: 0 <= i < |items| ==> CleanItems(items)[i] == CleanItem(items[i])
    decreases |items|
  {
    if items != [] { CleanedItems(items[..|items| - 1]); }
  }

  lemma {:induction false} NoDuplicates(items: seq<Item>)
    ensures DuplicateProblem(items).None? <==>
      forall i, j :: 0 <= i < j < |items| ==> items[i].itemId != items[j].itemId && items[i].skuId != items[j].skuId
    decreases |items|
  {
    if items != [] {
      var n := |items| - 1;
      var init := items[..n];
      NoDuplicates(init);
      forall i | 0 <= i < n
        ensures items[n].itemId !in ItemIds(init) ==> items[i].itemId != items[n].itemId
        ensures items[n].skuId !in SkuIds(init) ==> items[i].skuId != items[n].skuId
      {
        assert init[i] == items[i] && init[i] in init;
      }
      Listed(init, items[n]);
    }
  }

  lemma {:induction false} Listed(init: seq<Item>, x: Item)
    ensures x.itemId in ItemIds(init) ==> exists i :: 0 <= i < |init| && init[i].itemId == x.itemId
    ensures x.skuId in SkuIds(init) ==> exists i :: 0 <= i < |init| && init[i].skuId == x.skuId
  {
    if x.itemId in ItemIds(init) {
      var y :| y in init && y.itemId == x.itemId;
      var i :| 0 <= i < |init| && init[i] == y;
    }
    if x.skuId in SkuIds(init) {
      var y :| y in init && y.skuId == x.skuId;
      var i :| 0 <= i < |init| && init[i] == y;
    }
  }

  lemma {:induction false} NoneTwiceExactly(items: seq<Item>)
    ensures DuplicateProblem(CleanItems(items)).None? <==> NoneTwice(items)
  {
    hide DuplicateProblem, CleanItems, Trim;
    var cleaned := CleanItems(items);
    CleanedItems(items);
    NoDuplicates(cleaned);
    forall i | 0 <= i < |items|
      ensures cleaned[i].itemId == Trim(items[i].itemId) && cleaned[i].skuId == Trim(items[i].skuId)
    {
    }
  }

  /** What a menu has to say so that it can be installed. */
  predicate Installable(js: Js, m: Menu, salesLocation: Text) {
    var currency := js.upper(Trim(m.currency));
    && Says(m.currency) && |currency| == 3 && (forall u :: u in currency ==> 65 <= u <= 90)
    && m.items != [] && (forall i :: 0 <= i < |m.items| ==> Sellable(m.items[i])) && NoneTwice(m.items)
    && Says(m.eventId) && Says(salesLocation) && Says(m.menuId) && Says(m.sourceActor)
    && 1 <= m.version <= 9007199254740991 && 1 <= m.activatedAt <= 9007199254740991
  }

  lemma {:induction false} AcceptableIsInstallable(js: Js, m: Menu, salesLocation: Text)
    ensures Acceptable(js, m, salesLocation) <==> Installable(js, m, salesLocation)
  {
    hide Says, Trim, ItemsProblem, DuplicateProblem, NoneTwice, CleanItems, Sellable;
    SaysSomething(m.currency);
    SaysSomething(m.eventId);
    SaysSomething(salesLocation);
    SaysSomething(m.menuId);
    SaysSomething(m.sourceActor);
    ItemsSellable(m.items);
    NoneTwiceExactly(m.items);
    CleanedItems(m.items);
  }

  /** A menu without spaces at the ends of its texts is installed exactly when it says what it has to. */
  lemma {:induction false} CleanMenuInstallsExactlyWhen(js: Js, m: Menu, salesLocation: Text)
    requires Ordinary(js) && Clean(js, m) == m
    ensures Parse(js, Published(js, m, salesLocation)).Ok? <==> Installable(js, m, salesLocation)
    ensures Parse(js, Published(js, m, salesLocation)).Ok? ==>
      var installed := Parse(js, Published(js, m, salesLocation)).value;
      && installed.menu == m && installed.salesLocation == Trim(salesLocation)
      && installed.checksum == Checksum(js, m)
  {
    hide Parse, Acceptable, Installable, Canonical, Crc32.Crc, Checksum, Clean, Published;
    EdgeAcceptsExactlyWhen(js, m, salesLocation);
    AcceptableIsInstallable(js, m, salesLocation);
  }

  /** The checksum is the CRC of the canonical text, in eight hexadecimal digits that can be read back. */
  lemma {:induction false} ChecksumReads(js: Js, m: Menu)
    ensures |Checksum(js, m)| == 8 && (forall u :: u in Checksum(js, m) ==> IsHex(u))
    ensures HexValue(Checksum(js, m)) == Crc32.Crc(js.utf8(Canonical(m))) as int
  {
    hide Canonical, Crc32.Crc, Hex, HexValue;
    CrcFits(js.utf8(Canonical(m)));
    HexRoundTrip(CrcNumber(js.utf8(Canonical(m))), 8);
  }
}
