/** Text as JavaScript sees it: sequences of UTF-16 code units, compared unit by unit. */
module MenuText {
  type Unit = u: int | 0 <= u < 0x1_0000

  type Text = seq<Unit>

  const COLON: Unit := 58
  const BAR: Unit := 124
  const MINUS: Unit := 45

  // ---------- numbers ----------

  function Digits(n: nat): Text { (if n < 10 then [] else Digits(n / 10)) + [48 + n % 10] }

  function Value(t: Text): int { if t == [] then 0 else 10 * Value(t[..|t| - 1]) + (t[|t| - 1] as int - 48) }

  predicate IsDigit(u: Unit) { 48 <= u <= 57 }

  /** Decimal notation can be read back. */
  lemma {:induction false} DigitsRoundTrip(n: nat)
    ensures Value(Digits(n)) == n && Digits(n) != [] && forall u :: u in Digits(n) ==> IsDigit(u)
    decreases n
  {
    var d := Digits(n);
    assert d[|d| - 1] == 48 + n % 10;
    if n >= 10 {
      DigitsRoundTrip(n / 10);
      assert d[..|d| - 1] == Digits(n / 10);
    } else {
      assert d[..|d| - 1] == [];
    }
  }

  function Number(n: int): Text { if n < 0 then [MINUS] + Digits(-n) else Digits(n) }

  lemma {:induction false} NumberInjective(m: int, n: int)
    requires Number(m) == Number(n)
    ensures m == n
  {
    var a, b := if m < 0 then -m else m, if n < 0 then -n else n;
    DigitsRoundTrip(a);
    DigitsRoundTrip(b);
    assert Number(m)[0] == Number(n)[0];
    assert Digits(a)[0] in Digits(a) && Digits(b)[0] in Digits(b);
    assert (m < 0) == (n < 0);
    if m < 0 {
      assert Number(m)[1..] == Digits(a) && Number(n)[1..] == Digits(b);
    }
  }

  // ---------- length-prefixed fields ----------

  /** `${value.length}:${value}|` */
  function Field(value: Text): Text { Digits(|value|) + [COLON] + value + [BAR] }

  function Fields(values: seq<Text>): Text { if values == [] then [] else Field(values[0]) + Fields(values[1..]) }

  /** The text before the first colon. */
  function BeforeColon(t: Text): Text {
    if t == [] || t[0] == COLON then [] else [t[0]] + BeforeColon(t[1..])
  }

  lemma {:induction false} ColonFree(prefix: Text, rest: Text)
    requires COLON !in prefix
    ensures BeforeColon(prefix + [COLON] + rest) == prefix
  {
    if prefix == [] {
      assert prefix + [COLON] + rest == [COLON] + rest;
    } else {
      assert (prefix + [COLON] + rest)[1..] == prefix[1..] + [COLON] + rest;
      ColonFree(prefix[1..], rest);
    }
  }

  /** The first field can be read off: its length from the digits before the colon, then its units. */
  lemma {:induction false} FirstField(v: Text, rest: Text)
    ensures var t := Field(v) + rest;
      var d := BeforeColon(t);
      var n := Value(d);
      && n == |v| && |d| + 1 + n + 1 <= |t|
      && t[|d| + 1..|d| + 1 + n] == v && t[|d| + 1 + n + 1..] == rest
  {
    DigitsRoundTrip(|v|);
    var d, t := Digits(|v|), Field(v) + rest;
    assert t == d + [COLON] + (v + [BAR] + rest);
    ColonFree(d, v + [BAR] + rest);
  }

  /** No two lists of fields have the same serialisation. */
  lemma {:induction false} FieldsInjective(a: seq<Text>, b: seq<Text>)
    requires Fields(a) == Fields(b)
    ensures a == b
    decreases |a|
  {
    hide Field, BeforeColon;
    if a == [] || b == [] {
      FieldsNonEmpty(a);
      FieldsNonEmpty(b);
    } else {
      FirstField(a[0], Fields(a[1..]));
      FirstField(b[0], Fields(b[1..]));
      FieldsInjective(a[1..], b[1..]);
      assert a == [a[0]] + a[1..] && b == [b[0]] + b[1..];
    }
  }

  lemma {:induction false} FieldsNonEmpty(a: seq<Text>)
    ensures a != [] ==> Fields(a) != []
  {
  }

  // ---------- comparing ----------

  /** JavaScript's `<` on strings. */
  predicate Less(a: Text, b: Text) {
    b != [] && (a == [] || a[0] < b[0] || (a[0] == b[0] && Less(a[1..], b[1..])))
  }

  lemma {:induction false} LessTotal(a: Text, b: Text)
    ensures a == b || Less(a, b) || Less(b, a)
    ensures !(Less(a, b) && Less(b, a)) && !Less(a, a)
    decreases |a|
  {
    if a != [] && b != [] {
      LessTotal(a[1..], b[1..]);
      LessTotal(a[1..], a[1..]);
      if a[0] == b[0] && a[1..] == b[1..] { assert a == [a[0]] + a[1..] && b == [b[0]] + b[1..]; }
    } else if a != [] {
      LessTotal(a[1..], a[1..]);
    }
  }

  lemma {:induction false} LessTransitive(a: Text, b: Text, c: Text)
    requires Less(a, b) && Less(b, c)
    ensures Less(a, c)
    decreases |a|
  {
    if a != [] && a[0] == b[0] == c[0] { LessTransitive(a[1..], b[1..], c[1..]); }
  }

  // ---------- trimming ----------

  predicate IsSpace(u: Unit) {
    || 9 <= u <= 13 || u == 32 || u == 0xA0 || u == 0x1680 || 0x2000 <= u <= 0x200A
    || u == 0x2028 || u == 0x2029 || u == 0x202F || u == 0x205F || u == 0x3000 || u == 0xFEFF
  }

  function Trim(t: Text): Text {
    if t == [] then []
    else if IsSpace(t[0]) then Trim(t[1..])
    else if IsSpace(t[|t| - 1]) then Trim(t[..|t| - 1])
    else t
  }

  predicate Trimmed(t: Text) { t != [] ==> !IsSpace(t[0]) && !IsSpace(t[|t| - 1]) }

  /** Trimming changes nothing exactly when there is no space at either end. */
  lemma {:induction false} TrimFixes(t: Text)
    ensures Trim(t) == t <==> Trimmed(t)
    ensures Trimmed(Trim(t)) && |Trim(t)| <= |t|
    decreases |t|
  {
    if t != [] {
      if IsSpace(t[0]) { TrimFixes(t[1..]); } else if IsSpace(t[|t| - 1]) { TrimFixes(t[..|t| - 1]); }
    }
  }

  // ---------- hexadecimal ----------

  function HexDigit(d: nat): Unit
    requires d < 16
  {
    if d < 10 then 48 + d else 87 + d
  }

  /** toString(16).padStart(width, '0') of a number that fits. */
  function Hex(v: nat, width: nat): Text { if width == 0 then [] else Hex(v / 16, width - 1) + [HexDigit(v % 16)] }

  predicate IsHex(u: Unit) { 48 <= u <= 57 || 97 <= u <= 102 }

  function Power16(width: nat): nat { if width == 0 then 1 else 16 * Power16(width - 1) }

  lemma {:induction false} HexIs(v: nat, width: nat)
    ensures |Hex(v, width)| == width && forall u :: u in Hex(v, width) ==> IsHex(u)
    decreases width
  {
    if width > 0 { HexIs(v / 16, width - 1); }
  }

  lemma {:induction false} HexInjective(v: nat, w: nat, width: nat)
    requires v < Power16(width) && w < Power16(width) && Hex(v, width) == Hex(w, width)
    ensures v == w
    decreases width
  {
    if width > 0 {
      var a, b := Hex(v, width), Hex(w, width);
      HexIs(v / 16, width - 1);
      HexIs(w / 16, width - 1);
      assert a[width - 1] == HexDigit(v % 16) && b[width - 1] == HexDigit(w % 16);
      assert a[..width - 1] == Hex(v / 16, width - 1) && b[..width - 1] == Hex(w / 16, width - 1);
      HexInjective(v / 16, w / 16, width - 1);
    }
  }
}
