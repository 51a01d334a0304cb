/** The reflected CRC-32 of section 8 of RFC 1952, bit by bit as both services compute it. */
module Crc32 {
  type Byte = b: bv32 | b < 0x100

  function Half(crc: bv32): bv32 { crc >> 1 }

  function Poly(crc: bv32): bv32 { if crc & 1 == 1 then 0xEDB88320 else 0 }

  /** One of the eight inner rounds. */
  function Round(crc: bv32): bv32 { Half(crc) ^ Poly(crc) }

  function Rounds(crc: bv32, n: nat): bv32 { if n == 0 then crc else Round(Rounds(crc, n - 1)) }

  function Mix(crc: bv32, b: bv32): bv32 { crc ^ b }

  function Absorb(crc: bv32, b: bv32): bv32 { Rounds(Mix(crc, b), 8) }

  function State(crc: bv32, bytes: seq<Byte>): bv32 {
    if bytes == [] then crc else Absorb(State(crc, bytes[..|bytes| - 1]), bytes[|bytes| - 1])
  }

  const INITIAL: bv32 := 0xFFFFFFFF

  function Crc(bytes: seq<Byte>): bv32 { Mix(State(INITIAL, bytes), INITIAL) }

  method AbsorbByte(crc: bv32, b: bv32) returns (next: bv32)
    ensures next == Absorb(crc, b)
  {
    hide Round, Mix;
    next := Mix(crc, b);
    var bit := 0;
    while bit < 8
      invariant bit <= 8 && next == Rounds(Mix(crc, b), bit)
    {
      RoundWritten(next);
      next := (next >> 1) ^ (if next & 1 == 1 then 0xEDB88320 else 0);
      bit := bit + 1;
    }
  }

  lemma {:induction false} RoundWritten(crc: bv32)
    ensures Round(crc) == (crc >> 1) ^ (if crc & 1 == 1 then 0xEDB88320 else 0)
  {
    var half, poly := crc >> 1, if crc & 1 == 1 then 0xEDB88320 else 0;
    assert Half(crc) == half && Poly(crc) == poly;
  }

  method Compute(bytes: seq<Byte>) returns (result: bv32)
    ensures result == Crc(bytes)
  {
    hide Absorb, Mix;
    result := INITIAL;
    var i := 0;
    while i < |bytes|
      invariant i <= |bytes| && result == State(INITIAL, bytes[..i])
    {
      assert bytes[..i + 1][..i] == bytes[..i];
      result := AbsorbByte(result, bytes[i]);
      i := i + 1;
    }
    assert bytes[..i] == bytes;
    result := Mix(result, INITIAL);
  }

  // ---------- no information is lost ----------

  lemma {:induction false} RoundInjective(a: bv32, b: bv32)
    requires a != b
    ensures Round(a) != Round(b)
  {
    assert Round(a) == Round(b) ==> a & 1 == b & 1;
  }

  lemma {:induction false} RoundsInjective(a: bv32, b: bv32, n: nat)
    requires a != b
    ensures Rounds(a, n) != Rounds(b, n)
  {
    hide Round;
    if n > 0 {
      RoundsInjective(a, b, n - 1);
      RoundInjective(Rounds(a, n - 1), Rounds(b, n - 1));
    }
  }

  lemma {:induction false} MixInjective(a: bv32, b: bv32, x: bv32)
    requires a != b
    ensures Mix(a, x) != Mix(b, x) && Mix(x, a) != Mix(x, b)
  {
  }

  /** Neither two states nor two bytes become one by absorbing. */
  lemma {:induction false} AbsorbInjective(a: bv32, b: bv32, x: bv32)
    requires a != b
    ensures Absorb(a, x) != Absorb(b, x) && Absorb(x, a) != Absorb(x, b)
  {
    hide Rounds, Mix;
    MixInjective(a, b, x);
    RoundsInjective(Mix(a, x), Mix(b, x), 8);
    RoundsInjective(Mix(x, a), Mix(x, b), 8);
  }

  /** States that differ stay different over a common tail. */
  lemma {:induction false} TailKeepsDifference(a: bv32, b: bv32, tail: seq<Byte>)
    requires a != b
    ensures State(a, tail) != State(b, tail)
    decreases |tail|
  {
    hide Absorb;
    if tail != [] {
      var n := |tail| - 1;
      TailKeepsDifference(a, b, tail[..n]);
      AbsorbInjective(State(a, tail[..n]), State(b, tail[..n]), tail[n]);
    }
  }

  lemma {:induction false} StateSplit(crc: bv32, first: seq<Byte>, rest: seq<Byte>)
    ensures State(crc, first + rest) == State(State(crc, first), rest)
    decreases |rest|
  {
    hide Absorb;
    if rest == [] {
      assert first + rest == first;
    } else {
      var n := |rest| - 1;
      assert (first + rest)[..|first| + n] == first + rest[..n];
      StateSplit(crc, first, rest[..n]);
    }
  }

  // ---------- four bytes at a time ----------

  function Twice(x: bv32): bv32 { x << 1 }

  function Shifted(x: bv32, n: nat): bv32 { if n == 0 then x else Twice(Shifted(x, n - 1)) }

  predicate Roomy(x: bv32) { x < 0x80000000 }

  predicate Fits(x: bv32, n: nat) { n > 0 ==> Fits(x, n - 1) && Roomy(Shifted(x, n - 1)) }

  lemma {:induction false} RoundCarries(crc: bv32, x: bv32)
    requires Roomy(x)
    ensures Round(Mix(crc, Twice(x))) == Mix(Round(crc), x)
  {
    hide Half, Poly, Mix, Twice, Round;
    PolyStays(crc, x);
    HalfDistributes(crc, x);
    RoundIsMix(Mix(crc, Twice(x)));
    RoundIsMix(crc);
    MixSwap(Half(crc), x, Poly(crc));
  }

  lemma {:induction false} RoundIsMix(crc: bv32)
    ensures Round(crc) == Mix(Half(crc), Poly(crc))
  {
    hide Half, Poly;
  }

  lemma {:induction false} PolyStays(crc: bv32, x: bv32)
    ensures Poly(Mix(crc, Twice(x))) == Poly(crc)
  {
    assert (crc ^ (x << 1)) & 1 == crc & 1;
  }

  lemma {:induction false} HalfDistributes(crc: bv32, x: bv32)
    requires Roomy(x)
    ensures Half(Mix(crc, Twice(x))) == Mix(Half(crc), x)
  {
  }

  lemma {:induction false} MixSwap(a: bv32, b: bv32, c: bv32)
    ensures Mix(Mix(a, b), c) == Mix(Mix(a, c), b)
  {
    hide Mix;
    MixAssociates(a, b, c);
    MixAssociates(a, c, b);
    MixCommutes(b, c);
  }

  lemma {:induction false} MixCommutes(a: bv32, b: bv32)
    ensures Mix(a, b) == Mix(b, a)
  {
  }

  lemma {:induction false} RoundsFirst(crc: bv32, n: nat)
    requires n > 0
    ensures Rounds(crc, n) == Rounds(Round(crc), n - 1)
    decreases n
  {
    hide Round;
    if n > 1 { RoundsFirst(crc, n - 1); }
  }

  lemma {:induction false} RoundsAdd(crc: bv32, m: nat, n: nat)
    ensures Rounds(Rounds(crc, m), n) == Rounds(crc, m + n)
    decreases n
  {
    hide Round;
    if n > 0 { RoundsAdd(crc, m, n - 1); }
  }

  /** What lies above the n lowest bits passes through n rounds untouched, only moved down. */
  lemma {:induction false} RoundsCarry(crc: bv32, x: bv32, n: nat)
    requires Fits(x, n)
    ensures Rounds(Mix(crc, Shifted(x, n)), n) == Mix(Rounds(crc, n), x)
    decreases n
  {
    hide Round, Mix, Twice, Roomy;
    if n > 0 {
      RoundsFirst(Mix(crc, Shifted(x, n)), n);
      RoundsFirst(crc, n);
      RoundCarries(crc, Shifted(x, n - 1));
      RoundsCarry(Round(crc), x, n - 1);
    }
  }

  predicate TwentyFourBits(x: bv32) { x < 0x1000000 }

  lemma {:induction false} OneUp(x: bv32, n: nat)
    requires Fits(x, n) && Roomy(Shifted(x, n))
    ensures Fits(x, n + 1) && Shifted(x, n + 1) == Twice(Shifted(x, n))
  {
    hide Roomy, Twice;
  }

  /** Twenty-four bits can be moved up eight times without losing any. */
  lemma {:induction false} RoomForEight(x: bv32)
    requires TwentyFourBits(x)
    ensures Roomy(x) && Roomy(Twice(x)) && Roomy(Twice(Twice(x))) && Roomy(Twice(Twice(Twice(x))))
    ensures Roomy(Twice(Twice(Twice(Twice(x))))) && Roomy(Twice(Twice(Twice(Twice(Twice(x))))))
    ensures Roomy(Twice(Twice(Twice(Twice(Twice(Twice(x)))))))
    ensures Roomy(Twice(Twice(Twice(Twice(Twice(Twice(Twice(x))))))))
    ensures Twice(Twice(Twice(Twice(Twice(Twice(Twice(Twice(x)))))))) == Up(x)
  {
  }

  lemma {:induction false} ByteFits(x: bv32)
    requires TwentyFourBits(x)
    ensures Fits(x, 8) && Shifted(x, 8) == Up(x)
  {
    hide Roomy, Twice, Up, TwentyFourBits;
    RoomForEight(x);
    assert Fits(x, 0) && Shifted(x, 0) == x;
    OneUp(x, 0);
    OneUp(x, 1);
    OneUp(x, 2);
    OneUp(x, 3);
    OneUp(x, 4);
    OneUp(x, 5);
    OneUp(x, 6);
    OneUp(x, 7);
  }

  function Up(x: bv32): bv32 { x << 8 }

  /** A higher byte may be mixed in eight rounds early. */
  lemma {:induction false} Early(crc: bv32, low: bv32, high: bv32, n: nat)
    requires TwentyFourBits(high)
    ensures Rounds(Mix(Absorb(crc, low), high), n) == Rounds(Mix(crc, Mix(low, Up(high))), 8 + n)
  {
    hide Rounds, Mix, Shifted, Fits, Up, TwentyFourBits;
    ByteFits(high);
    RoundsCarry(Mix(crc, low), high, 8);
    MixAssociates(crc, low, Up(high));
    RoundsAdd(Mix(crc, Mix(low, Up(high))), 8, n);
  }

  lemma {:induction false} MixAssociates(a: bv32, b: bv32, c: bv32)
    ensures Mix(Mix(a, b), c) == Mix(a, Mix(b, c))
  {
  }

  function Word(b0: bv32, b1: bv32, b2: bv32, b3: bv32): bv32 { Mix(b0, Up(Mix(b1, Up(Mix(b2, Up(b3)))))) }

  lemma {:induction false} HighParts(b1: bv32, b2: bv32, b3: bv32)
    requires b1 < 0x100 && b2 < 0x100 && b3 < 0x100
    ensures TwentyFourBits(b3) && TwentyFourBits(Mix(b2, Up(b3))) && TwentyFourBits(Mix(b1, Up(Mix(b2, Up(b3)))))
  {
  }

  /** Four bytes enter the state as one 32-bit word. */
  lemma {:induction false} FourBytes(crc: bv32, b0: bv32, b1: bv32, b2: bv32, b3: bv32)
    requires b0 < 0x100 && b1 < 0x100 && b2 < 0x100 && b3 < 0x100
    ensures Absorb(Absorb(Absorb(Absorb(crc, b0), b1), b2), b3) == Rounds(Mix(crc, Word(b0, b1, b2, b3)), 32)
  {
    hide Rounds, Mix, Up, TwentyFourBits;
    HighParts(b1, b2, b3);
    var s1 := Absorb(crc, b0);
    var s2 := Absorb(s1, b1);
    Early(s2, b2, b3, 8);
    Early(s1, b1, Mix(b2, Up(b3)), 16);
    Early(crc, b0, Mix(b1, Up(Mix(b2, Up(b3)))), 24);
  }

  lemma {:induction false} WordInjective(a0: bv32, a1: bv32, a2: bv32, a3: bv32, b0: bv32, b1: bv32, b2: bv32, b3: bv32)
    requires a0 < 0x100 && a1 < 0x100 && a2 < 0x100 && a3 < 0x100
    requires b0 < 0x100 && b1 < 0x100 && b2 < 0x100 && b3 < 0x100
    requires Word(a0, a1, a2, a3) == Word(b0, b1, b2, b3)
    ensures a0 == b0 && a1 == b1 && a2 == b2 && a3 == b3
  {
  }

  lemma {:induction false} StateOfFour(crc: bv32, b: seq<Byte>)
    requires |b| == 4
    ensures State(crc, b) == Absorb(Absorb(Absorb(Absorb(crc, b[0]), b[1]), b[2]), b[3])
  {
    hide Absorb;
    assert b[..3][..2] == b[..2] && b[..2][..1] == b[..1] && b[..1][..0] == [];
    assert State(crc, b[..1]) == Absorb(crc, b[0]);
    assert State(crc, b[..2]) == Absorb(State(crc, b[..1]), b[1]);
    assert State(crc, b[..3]) == Absorb(State(crc, b[..2]), b[2]);
  }

  lemma {:induction false} FourBytesDiffer(crc: bv32, a: seq<Byte>, b: seq<Byte>)
    requires |a| == |b| == 4 && a != b
    ensures State(crc, a) != State(crc, b)
  {
    hide Absorb, Rounds, Mix, Word, State;
    StateOfFour(crc, a);
    StateOfFour(crc, b);
    FourBytes(crc, a[0], a[1], a[2], a[3]);
    FourBytes(crc, b[0], b[1], b[2], b[3]);
    var v, w := Word(a[0], a[1], a[2], a[3]), Word(b[0], b[1], b[2], b[3]);
    if v == w {
      WordInjective(a[0], a[1], a[2], a[3], b[0], b[1], b[2], b[3]);
      assert false;
    }
    MixInjective(v, w, crc);
    RoundsInjective(Mix(crc, v), Mix(crc, w), 32);
  }

  // ---------- what a checksum detects ----------

  lemma {:induction false} MiddleDiffers(head: seq<Byte>, a: seq<Byte>, b: seq<Byte>, tail: seq<Byte>)
    requires forall s :: State(s, a) != State(s, b)
    ensures Crc(head + a + tail) != Crc(head + b + tail)
  {
    hide State, Mix;
    var s := State(INITIAL, head);
    StateSplit(INITIAL, head, a);
    StateSplit(INITIAL, head, b);
    StateSplit(INITIAL, head + a, tail);
    StateSplit(INITIAL, head + b, tail);
    TailKeepsDifference(State(s, a), State(s, b), tail);
    MixInjective(State(INITIAL, head + a + tail), State(INITIAL, head + b + tail), INITIAL);
  }

  /** Two equal-length byte strings that differ, but only within four consecutive bytes, have different checksums. */
  lemma {:induction false} BurstDetected(a: seq<Byte>, b: seq<Byte>, from: nat)
    requires |a| == |b| && from + 4 <= |a| && a != b
    requires forall k :: 0 <= k < |a| && !(from <= k < from + 4) ==> a[k] == b[k]
    ensures Crc(a) != Crc(b)
  {
    hide State, Crc;
    var head, tail := a[..from], a[from + 4..];
    var mid, mid' := a[from..from + 4], b[from..from + 4];
    assert a == head + mid + tail && b == head + mid' + tail;
    forall s ensures State(s, mid) != State(s, mid') { FourBytesDiffer(s, mid, mid'); }
    MiddleDiffers(head, mid, mid', tail);
  }

  /** A change of exactly one byte is always detected, in strings of any length. */
  lemma {:induction false} ByteChangeDetected(a: seq<Byte>, b: seq<Byte>, k: nat)
    requires |a| == |b| && k < |a| && a[k] != b[k] && forall j :: 0 <= j < |a| && j != k ==> a[j] == b[j]
    ensures Crc(a) != Crc(b)
  {
    hide Absorb, Crc;
    var head, tail := a[..k], a[k + 1..];
    assert a == head + [a[k]] + tail && b == head + [b[k]] + tail;
    forall s ensures State(s, [a[k]]) != State(s, [b[k]]) {
      assert [a[k]][..0] == [] && [b[k]][..0] == [];
      AbsorbInjective(a[k], b[k], s);
    }
    MiddleDiffers(head, [a[k]], [b[k]], tail);
  }

  // ---------- the check value ----------

  lemma {:induction false} EightRounds(s: seq<bv32>)
    requires |s| == 9 && forall i :: 0 <= i < 8 ==> Round(s[i]) == s[i + 1]
    ensures Rounds(s[0], 8) == s[8]
  {
    hide Round;
    var n: nat := 0;
    while n < 8
      invariant n <= 8 && Rounds(s[0], n) == s[n]
    {
      n := n + 1;
    }
  }

  lemma {:induction false} DigitOne()
    ensures Absorb(0xFFFFFFFF, 0x31) == 0x7C231048
  {
    var s: seq<bv32> := [0xFFFFFFCE, 0x7FFFFFE7, 0xD2477CD3, 0x849B3D49, 0xAFF51D84,
                         0x57FA8EC2, 0x2BFD4761, 0xF8462090, 0x7C231048];
    EightRounds(s);
  }

  lemma {:induction false} DigitTwo()
    ensures Absorb(0x7C231048, 0x32) == 0xB0ACBB32
  {
    var s: seq<bv32> := [0x7C23107A, 0x3E11883D, 0xF2B0473E, 0x7958239F, 0xD11492EF,
                         0x8532CA57, 0xAF21E60B, 0xBA287025, 0xB0ACBB32];
    EightRounds(s);
  }

  lemma {:induction false} DigitThree()
    ensures Absorb(0xB0ACBB32, 0x33) == 0x77B79C2D
  {
    var s: seq<bv32> := [0xB0ACBB01, 0xB5EEDEA0, 0x5AF76F50, 0x2D7BB7A8, 0x16BDDBD4,
                         0x0B5EEDEA, 0x05AF76F5, 0xEF6F385A, 0x77B79C2D];
    EightRounds(s);
  }

  lemma {:induction false} DigitFour()
    ensures Absorb(0x77B79C2D, 0x34) == 0x641C1F5C
  {
    var s: seq<bv32> := [0x77B79C19, 0xD6634D2C, 0x6B31A696, 0x3598D34B, 0xF774EA85,
                         0x9602F662, 0x4B017B31, 0xC8383EB8, 0x641C1F5C];
    EightRounds(s);
  }

  lemma {:induction false} DigitFive()
    ensures Absorb(0x641C1F5C, 0x35) == 0x340AC5E3
  {
    var s: seq<bv32> := [0x641C1F69, 0xDFB68C94, 0x6FDB464A, 0x37EDA325, 0xF64E52B2,
                         0x7B272959, 0xD02B178C, 0x68158BC6, 0x340AC5E3];
    EightRounds(s);
  }

  lemma {:induction false} DigitSix()
    ensures Absorb(0x340AC5E3, 0x36) == 0xF68D2C9E
  {
    var s: seq<bv32> := [0x340AC5D5, 0xF7BDE1CA, 0x7BDEF0E5, 0xD057FB52, 0x682BFDA9,
                         0xD9AD7DF4, 0x6CD6BEFA, 0x366B5F7D, 0xF68D2C9E];
    EightRounds(s);
  }

  lemma {:induction false} DigitSeven()
    ensures Absorb(0xF68D2C9E, 0x37) == 0xAFFC9660
  {
    var s: seq<bv32> := [0xF68D2CA9, 0x96FE1574, 0x4B7F0ABA, 0x25BF855D, 0xFF67418E,
                         0x7FB3A0C7, 0xD2615343, 0x84882A81, 0xAFFC9660];
    EightRounds(s);
  }

  lemma {:induction false} DigitEight()
    ensures Absorb(0xAFFC9660, 0x38) == 0x651F2550
  {
    var s: seq<bv32> := [0xAFFC9658, 0x57FE4B2C, 0x2BFF2596, 0x15FF92CB, 0xE7474A45,
                         0x9E1B2602, 0x4F0D9301, 0xCA3E4AA0, 0x651F2550];
    EightRounds(s);
  }

  lemma {:induction false} DigitNine()
    ensures Absorb(0x651F2550, 0x39) == 0x340BC6D9
  {
    var s: seq<bv32> := [0x651F2569, 0xDF371194, 0x6F9B88CA, 0x37CDC465, 0xF65E6112,
                         0x7B2F3089, 0xD02F1B64, 0x68178DB2, 0x340BC6D9];
    EightRounds(s);
  }

  lemma {:induction false} OneMoreByte(bytes: seq<Byte>, b: Byte)
    ensures State(INITIAL, bytes + [b]) == Absorb(State(INITIAL, bytes), b)
  {
    assert (bytes + [b])[..|bytes|] == bytes;
  }

  lemma {:induction false} Fed(d: seq<Byte>, i: nat)
    requires i < |d|
    ensures State(INITIAL, d[..i + 1]) == Absorb(State(INITIAL, d[..i]), d[i])
  {
    assert d[..i] + [d[i]] == d[..i + 1];
    OneMoreByte(d[..i], d[i]);
  }

  /** The check value of this CRC: that of the nine digits "123456789". */
  lemma {:induction false} CheckValue()
    ensures Crc([0x31, 0x32, 0x33, 0x34, 0x35, 0x36, 0x37, 0x38, 0x39]) == 0xCBF43926
  {
    hide Absorb, State;
    var d: seq<Byte> := [0x31, 0x32, 0x33, 0x34, 0x35, 0x36, 0x37, 0x38, 0x39];
    NothingYet();
    assert d[..0] == [];
    Fed(d, 0); DigitOne();
    assert State(INITIAL, d[..1]) == 0x7C231048;
    Fed(d, 1); DigitTwo();
    assert State(INITIAL, d[..2]) == 0xB0ACBB32;
    Fed(d, 2); DigitThree();
    assert State(INITIAL, d[..3]) == 0x77B79C2D;
    Fed(d, 3); DigitFour();
    assert State(INITIAL, d[..4]) == 0x641C1F5C;
    Fed(d, 4); DigitFive();
    assert State(INITIAL, d[..5]) == 0x340AC5E3;
    Fed(d, 5); DigitSix();
    assert State(INITIAL, d[..6]) == 0xF68D2C9E;
    Fed(d, 6); DigitSeven();
    assert State(INITIAL, d[..7]) == 0xAFFC9660;
    Fed(d, 7); DigitEight();
    assert State(INITIAL, d[..8]) == 0x651F2550;
    Fed(d, 8); DigitNine();
    assert State(INITIAL, d[..9]) == 0x340BC6D9;
    assert d[..9] == d;
  }

  lemma {:induction false} NothingYet()
    ensures State(INITIAL, []) == INITIAL
  {
  }
}
