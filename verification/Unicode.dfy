/** UTF-8 as Go strings hold it, and UTF-16 of sections 2.1 and 2.2 of RFC 2781. */
module Unicode {
  type Byte = n: int | 0 <= n < 0x100
  type Unit = n: int | 0 <= n < 0x1_0000
  type Rune = n: int | 0 <= n < 0xD800 || 0xE000 <= n < 0x11_0000 witness 0

  const REPLACEMENT: Rune := 0xFFFD

  // ----- UTF-8 ----------------------------------------------------------------------------------

  function Utf8Rune(r: Rune): (b: seq<Byte>)
    ensures 1 <= |b| <= 4
  {
    if r < 0x80 then [r]
    else if r < 0x800 then [0xC0 + r / 0x40, 0x80 + r % 0x40]
    else if r < 0x1_0000 then [0xE0 + r / 0x1000, 0x80 + r / 0x40 % 0x40, 0x80 + r % 0x40]
    else [0xF0 + r / 0x4_0000, 0x80 + r / 0x1000 % 0x40, 0x80 + r / 0x40 % 0x40, 0x80 + r % 0x40]
  }

  function Utf8(rs: seq<Rune>): seq<Byte> { if rs == [] then [] else Utf8Rune(rs[0]) + Utf8(rs[1..]) }

  predicate Cont(b: Byte) { 0x80 <= b < 0xC0 }

  // The second byte must also exclude overlong forms, surrogates and what is above the last code point.
  predicate Second(b0: Byte, b1: Byte) {
    && Cont(b1) && (b0 == 0xE0 ==> b1 >= 0xA0) && (b0 == 0xED ==> b1 < 0xA0) && (b0 == 0xF0 ==> b1 >= 0x90)
    && (b0 == 0xF4 ==> b1 < 0x90)
  }

  // The length of the valid sequence the bytes start with, 0 if none.
  function Width(b: seq<Byte>): (n: nat)
    requires b != []
    ensures n <= |b| && n <= 4
  {
    if b[0] < 0x80 then 1
    else if 0xC2 <= b[0] < 0xE0 && |b| >= 2 && Cont(b[1]) then 2
    else if 0xE0 <= b[0] < 0xF0 && |b| >= 3 && Second(b[0], b[1]) && Cont(b[2]) then 3
    else if 0xF0 <= b[0] < 0xF5 && |b| >= 4 && Second(b[0], b[1]) && Cont(b[2]) && Cont(b[3]) then 4
    else 0
  }

  // utf8.DecodeRune: the replacement character for an invalid byte.
  function FirstRune(b: seq<Byte>): Rune
    requires b != []
  {
    match Width(b)
    case 1 => b[0]
    case 2 => (b[0] - 0xC0) * 0x40 + (b[1] - 0x80)
    case 3 => (b[0] - 0xE0) * 0x1000 + (b[1] - 0x80) * 0x40 + (b[2] - 0x80)
    case 4 => (b[0] - 0xF0) * 0x4_0000 + (b[1] - 0x80) * 0x1000 + (b[2] - 0x80) * 0x40 + (b[3] - 0x80)
    case _ => REPLACEMENT
  }

  // []rune of a string, and utf8.Valid.
  function Runes(b: seq<Byte>): seq<Rune>
    decreases |b|
  {
    if b == [] then [] else [FirstRune(b)] + Runes(b[if Width(b) == 0 then 1 else Width(b)..])
  }

  predicate ValidUtf8(b: seq<Byte>)
    decreases |b|
  {
    b == [] || (Width(b) > 0 && ValidUtf8(b[Width(b)..]))
  }

  lemma WidthOfRune(r: Rune, rest: seq<Byte>)
    ensures Width(Utf8Rune(r) + rest) == |Utf8Rune(r)|
  {
    var b := Utf8Rune(r);
    var all := b + rest;
    assert all[0] == b[0];
    if |b| > 1 { assert all[1] == b[1]; }
    if |b| > 2 { assert all[2] == b[2]; }
    if |b| > 3 { assert all[3] == b[3]; }
  }

  lemma Digits(r: Rune)
    ensures r / 0x40 == r / 0x1000 * 0x40 + r / 0x40 % 0x40 && r == r / 0x40 * 0x40 + r % 0x40
    ensures r / 0x1000 == r / 0x4_0000 * 0x40 + r / 0x1000 % 0x40
  {
  }

  lemma RuneReadsBack(r: Rune, rest: seq<Byte>)
    ensures FirstRune(Utf8Rune(r) + rest) == r
  {
    var b, all := Utf8Rune(r), Utf8Rune(r) + rest;
    WidthOfRune(r, rest);
    SamePrefix(b, rest);
    hide Width;
    Digits(r);
    var d: seq<int> := b;
    if |b| == 1 {
      assert FirstRune(all) == d[0];
    } else if |b| == 2 {
      assert FirstRune(all) == (d[0] - 0xC0) * 0x40 + (d[1] - 0x80);
    } else if |b| == 3 {
      assert FirstRune(all) == (d[0] - 0xE0) * 0x1000 + (d[1] - 0x80) * 0x40 + (d[2] - 0x80);
    } else {
      assert FirstRune(all) == (d[0] - 0xF0) * 0x4_0000 + (d[1] - 0x80) * 0x1000 + (d[2] - 0x80) * 0x40 + (d[3] - 0x80);
    }
  }

  lemma SamePrefix(b: seq<Byte>, rest: seq<Byte>)
    ensures forall i :: 0 <= i < |b| ==> (b + rest)[i] == b[i]
  {
  }

  /** Valid Unicode text is valid UTF-8, and its runes read back. */
  lemma {:induction false} Utf8ReadsBack(rs: seq<Rune>)
    ensures ValidUtf8(Utf8(rs)) && Runes(Utf8(rs)) == rs
  {
    hide Utf8Rune, Width, FirstRune;
    if rs != [] {
      Utf8ReadsBack(rs[1..]);
      WidthOfRune(rs[0], Utf8(rs[1..]));
      RuneReadsBack(rs[0], Utf8(rs[1..]));
    }
  }

  // The bytes of a valid sequence are its rune's encoding.
  lemma WidthReadsBack(b: seq<Byte>)
    requires b != [] && Width(b) > 0
    ensures Utf8Rune(FirstRune(b)) == b[..Width(b)]
  {
    var d: seq<int> := b;
    if Width(b) == 1 {
      assert FirstRune(b) == d[0] < 0x80;
    } else if Width(b) == 2 {
      assert FirstRune(b) == (d[0] - 0xC0) * 0x40 + (d[1] - 0x80);
    } else if Width(b) == 3 {
      assert FirstRune(b) == (d[0] - 0xE0) * 0x1000 + (d[1] - 0x80) * 0x40 + (d[2] - 0x80);
      assert FirstRune(b) / 0x40 == (d[0] - 0xE0) * 0x40 + (d[1] - 0x80);
    } else {
      FourReadsBack(b);
    }
  }

  lemma FourReadsBack(b: seq<Byte>)
    requires b != [] && Width(b) == 4
    ensures Utf8Rune(FirstRune(b)) == b[..4]
  {
    var d: seq<int> := b;
    var r := FirstRune(b);
    assert r == (d[0] - 0xF0) * 0x4_0000 + (d[1] - 0x80) * 0x1000 + (d[2] - 0x80) * 0x40 + (d[3] - 0x80);
    assert r / 0x40 == (d[0] - 0xF0) * 0x1000 + (d[1] - 0x80) * 0x40 + (d[2] - 0x80);
    assert r / 0x1000 == (d[0] - 0xF0) * 0x40 + (d[1] - 0x80);
    assert r / 0x4_0000 == d[0] - 0xF0;
  }

  lemma {:induction false} RunesReadBack(b: seq<Byte>)
    requires ValidUtf8(b)
    ensures Utf8(Runes(b)) == b
    decreases |b|
  {
    hide Utf8Rune, Width, FirstRune;
    if b != [] {
      RunesReadBack(b[Width(b)..]);
      WidthReadsBack(b);
      assert b[..Width(b)] + b[Width(b)..] == b;
    }
  }

  /** utf8.Valid accepts exactly the encodings of Unicode text, each of exactly one text. */
  lemma ValidIsText(b: seq<Byte>, rs: seq<Rune>)
    ensures ValidUtf8(b) <==> Utf8(Runes(b)) == b
    ensures Utf8(rs) == b ==> ValidUtf8(b) && rs == Runes(b)
  {
    hide ValidUtf8, Utf8, Runes;
    Utf8ReadsBack(Runes(b));
    Utf8ReadsBack(rs);
    if ValidUtf8(b) { RunesReadBack(b); }
  }

  // A sequence starts with its own lead byte; ASCII bytes stand only for themselves.
  lemma LeadByte(r: Rune)
    ensures var b := Utf8Rune(r);
            && b[0] < 0xF5 && (r < 0x80 ==> b == [r]) && (r >= 0x80 ==> forall i :: 0 <= i < |b| ==> b[i] >= 0x80)
  {
  }

  lemma {:induction false} Utf8Append(a: seq<Rune>, b: seq<Rune>)
    ensures Utf8(a + b) == Utf8(a) + Utf8(b)
  {
    hide Utf8Rune;
    if a == [] {
      assert a + b == b;
    } else {
      Utf8Append(a[1..], b);
      assert (a + b)[1..] == a[1..] + b;
    }
  }

  // ----- UTF-16 ---------------------------------------------------------------------------------

  // Section 2.1 of RFC 2781.
  function Units(r: Rune): (u: seq<Unit>)
    ensures 1 <= |u| <= 2
  {
    if r < 0x1_0000 then [r] else [0xD800 + (r - 0x1_0000) / 0x400, 0xDC00 + (r - 0x1_0000) % 0x400]
  }

  function Utf16(rs: seq<Rune>): seq<Unit> { if rs == [] then [] else Units(rs[0]) + Utf16(rs[1..]) }

  predicate Pair(u: seq<Unit>) { |u| >= 2 && 0xD800 <= u[0] < 0xDC00 && 0xDC00 <= u[1] < 0xE000 }

  // utf16.Decode, section 2.2 of RFC 2781, with the replacement character for an unpaired surrogate.
  function FromUtf16(u: seq<Unit>): seq<Rune>
    decreases |u|
  {
    if u == [] then []
    else if u[0] < 0xD800 || u[0] >= 0xE000 then [u[0]] + FromUtf16(u[1..])
    else if Pair(u) then [(u[0] - 0xD800) * 0x400 + (u[1] - 0xDC00) + 0x1_0000] + FromUtf16(u[2..])
    else [REPLACEMENT] + FromUtf16(u[1..])
  }

  lemma UnitsReadBack(r: Rune, rest: seq<Unit>)
    ensures FromUtf16(Units(r) + rest) == [r] + FromUtf16(rest)
  {
    var u := Units(r);
    var all := u + rest;
    assert all[0] == u[0] && all[|u|..] == rest;
    if |u| > 1 {
      assert all[1] == u[1] && Pair(all);
      var high: int, low: int := u[0], u[1];
      assert (high - 0xD800) * 0x400 + (low - 0xDC00) + 0x1_0000 == r;
    }
  }

  lemma {:induction false} Utf16ReadsBack(rs: seq<Rune>)
    ensures FromUtf16(Utf16(rs)) == rs
  {
    hide Units, FromUtf16;
    if rs == [] {
      assert FromUtf16([]) == [] by { NoUnits(); }
    } else {
      Utf16ReadsBack(rs[1..]);
      UnitsReadBack(rs[0], Utf16(rs[1..]));
    }
  }

  lemma NoUnits()
    ensures FromUtf16([]) == []
  {
  }

  // ----- UTF-16 bytes ---------------------------------------------------------------------------

  // The byte at an even or odd place of a unit's two bytes.
  function LowByte(u: Unit): Byte { u % 0x100 }

  function HighByte(u: Unit): Byte { u / 0x100 }

  function UnitFrom(high: int, low: int): Unit
    requires 0 <= high < 0x100 && 0 <= low < 0x100
  {
    high * 0x100 + low
  }

  function UnitBytes(us: seq<Unit>, big: bool): (b: seq<Byte>)
    ensures |b| == 2 * |us|
  {
    seq(2 * |us|, i requires 0 <= i < 2 * |us| => if big == (i % 2 == 0) then HighByte(us[i / 2]) else LowByte(us[i / 2]))
  }

  // encodeUTF16LE and encodeUTF16BE: a byte order mark, then the units filled in by index.
  method EncodeUTF16(content: seq<Byte>, big: bool) returns (result: array<Byte>)
    ensures result[..] == (if big then [0xFE, 0xFF] else [0xFF, 0xFE]) + UnitBytes(Utf16(Runes(content)), big)
  {
    hide Runes, Utf16;
    var us := Utf16(Runes(content));
    result := new Byte[2 + |us| * 2](_ => 0);
    result[0], result[1] := if big then 0xFE else 0xFF, if big then 0xFF else 0xFE;
    for i := 0 to |us|
      invariant result[0] == (if big then 0xFE else 0xFF) && result[1] == (if big then 0xFF else 0xFE)
      invariant forall k :: 0 <= k < 2 * i ==> result[2 + k] == UnitBytes(us, big)[k]
    {
      var high, low := HighByte(us[i]), LowByte(us[i]);
      result[2 + i * 2], result[2 + i * 2 + 1] := if big then high else low, if big then low else high;
    }
  }

  function UnitsOf(data: seq<Byte>, big: bool): seq<Unit> {
    seq(|data| / 2, i requires 0 <= i < |data| / 2 =>
      if big then UnitFrom(data[2 * i], data[2 * i + 1]) else UnitFrom(data[2 * i + 1], data[2 * i]))
  }

  // decodeUTF16LE and decodeUTF16BE; an odd last byte is dropped.
  method DecodeUTF16(data0: seq<Byte>, big: bool) returns (content: seq<Byte>)
    ensures content == Utf8(FromUtf16(UnitsOf(data0, big)))
  {
    hide FromUtf16, Utf8;
    var data := if |data0| % 2 != 0 then data0[..|data0| - 1] else data0;
    var us := new Unit[|data| / 2](_ => 0);
    var i := 0;
    while i < |data|
      invariant i % 2 == 0 && i <= |data| && |data| / 2 == |data0| / 2
      invariant forall k :: 0 <= k < i / 2 ==> us[k] == UnitsOf(data0, big)[k]
    {
      us[i / 2] := if big then UnitFrom(data[i], data[i + 1]) else UnitFrom(data[i + 1], data[i]);
      i := i + 2;
    }
    assert us[..] == UnitsOf(data0, big);
    content := Utf8(FromUtf16(us[..]));
  }

  lemma UnitBytesReadBack(us: seq<Unit>, big: bool)
    ensures UnitsOf(UnitBytes(us, big), big) == us
  {
    var b := UnitBytes(us, big);
    forall i | 0 <= i < |us| ensures UnitsOf(b, big)[i] == us[i] {
      assert 2 * i / 2 == i && (2 * i + 1) / 2 == i && 2 * i % 2 == 0 && (2 * i + 1) % 2 == 1;
    }
  }

  /** Text through UTF-16 bytes of either order comes back as the same runes. */
  lemma Utf16Bytes(rs: seq<Rune>, big: bool)
    ensures FromUtf16(UnitsOf(UnitBytes(Utf16(rs), big), big)) == rs
  {
    hide Utf16, FromUtf16, UnitBytes, UnitsOf;
    UnitBytesReadBack(Utf16(rs), big);
    Utf16ReadsBack(rs);
  }
}
