// The standard base64 alphabet with canonical padding, section 4 of RFC 4648: the form that the
// final-bundle chunks carry. A decoder of this kind also refuses non-zero trailing bits.

module Base64 {
  import opened Common

  const PAD: Byte := 61

  type Sextet = v: int | 0 <= v < 64

  function Symbol(v: Sextet): Byte {
    if v < 26 then (65 + v) as Byte
    else if v < 52 then (97 + v - 26) as Byte
    else if v < 62 then (48 + v - 52) as Byte
    else if v == 62 then 43
    else 47
  }

  function Value(b: Byte): Option<Sextet> {
    var c := b as int;
    if 65 <= c <= 90 then Some(c - 65)
    else if 97 <= c <= 122 then Some(c - 97 + 26)
    else if 48 <= c <= 57 then Some(c - 48 + 52)
    else if c == 43 then Some(62)
    else if c == 47 then Some(63)
    else None
  }

  // The symbols of a group of one, two or three bytes.
  function OneSymbols(x: Byte): Bytes {
    var a := x as int;
    [Symbol(a / 4), Symbol(a % 4 * 16), PAD, PAD]
  }

  function TwoSymbols(x: Byte, y: Byte): Bytes {
    var (a, b) := (x as int, y as int);
    [Symbol(a / 4), Symbol(a % 4 * 16 + b / 16), Symbol(b % 16 * 4), PAD]
  }

  function ThreeSymbols(x: Byte, y: Byte, z: Byte): Bytes {
    var (a, b, c) := (x as int, y as int, z as int);
    [Symbol(a / 4), Symbol(a % 4 * 16 + b / 16), Symbol(b % 16 * 4 + c / 64), Symbol(c % 64)]
  }

  function Encode(bytes: Bytes): (text: Bytes)
    ensures |text| == (|bytes| + 2) / 3 * 4
    decreases |bytes|
  {
    if bytes == [] then []
    else if |bytes| == 1 then OneSymbols(bytes[0])
    else if |bytes| == 2 then TwoSymbols(bytes[0], bytes[1])
    else ThreeSymbols(bytes[0], bytes[1], bytes[2]) + Encode(bytes[3..])
  }

  /** The bytes of a group of four symbols; only the last group may be padded. */
  function DecodeGroup(group: Bytes, last: bool): Option<Bytes>
    requires |group| == 4
  {
    var (v0, v1, v2, v3) := (Value(group[0]), Value(group[1]), Value(group[2]), Value(group[3]));
    if v0.None? || v1.None? then None
    else
      var a: int := v0.value as int * 4 + v1.value as int / 16;
      if group[3] == PAD && group[2] == PAD then
        if last && v1.value % 16 == 0 then Some([a as Byte]) else None
      else if v2.None? then None
      else
        var b: int := v1.value as int % 16 * 16 + v2.value as int / 4;
        if group[3] == PAD then
          if last && v2.value % 4 == 0 then Some([a as Byte, b as Byte]) else None
        else if v3.None? then None
        else Some([a as Byte, b as Byte, (v2.value as int % 4 * 64 + v3.value as int) as Byte])
  }

  function Decode(text: Bytes): Option<Bytes>
    decreases |text|
  {
    if text == [] then Some([])
    else if |text| < 4 then None
    else
      match DecodeGroup(text[..4], |text| == 4)
      case None => None
      case Some(bytes) =>
        match Decode(text[4..])
        case None => None
        case Some(rest) => Some(bytes + rest)
  }

  lemma ValueUndoesSymbol(v: Sextet)
    ensures Value(Symbol(v)) == Some(v) && Symbol(v) != PAD
  {}

  lemma SymbolUndoesValue(b: Byte)
    requires Value(b).Some?
    ensures Symbol(Value(b).value) == b && b != PAD
  {}

  // Splitting two bytes over sextets at bit 2 and at bit 4, and joining them again.
  lemma SplitJoin(a: int, b: int, c: int)
    requires 0 <= a < 256 && 0 <= b < 256 && 0 <= c < 256
    ensures a / 4 * 4 + (a % 4 * 16 + b / 16) / 16 == a && (a % 4 * 16) / 16 == a % 4
    ensures (a % 4 * 16 + b / 16) % 16 * 16 + (b % 16 * 4 + c / 64) / 4 == b && (b % 16 * 4) / 4 == b % 16
    ensures (b % 16 * 4 + c / 64) % 4 * 64 + c % 64 == c
    ensures (a % 4 * 16 + b / 16) % 16 == b / 16
    ensures (a % 4 * 16) % 16 == 0 && (b % 16 * 4) % 4 == 0
  {}

  lemma GroupOfOne(v0: Sextet, v1: Sextet, a: Byte)
    requires v1 as int % 16 == 0 && v0 as int * 4 + v1 as int / 16 == a as int
    ensures DecodeGroup([Symbol(v0), Symbol(v1), PAD, PAD], true) == Some([a])
  {
    ValueUndoesSymbol(v0);
    ValueUndoesSymbol(v1);
  }

  lemma GroupOfTwo(v0: Sextet, v1: Sextet, v2: Sextet, a: Byte, b: Byte)
    requires v2 as int % 4 == 0 && v0 as int * 4 + v1 as int / 16 == a as int
    requires v1 as int % 16 * 16 + v2 as int / 4 == b as int
    ensures DecodeGroup([Symbol(v0), Symbol(v1), Symbol(v2), PAD], true) == Some([a, b])
  {
    ValueUndoesSymbol(v0);
    ValueUndoesSymbol(v1);
    ValueUndoesSymbol(v2);
  }

  lemma GroupOfThree(v0: Sextet, v1: Sextet, v2: Sextet, v3: Sextet, a: Byte, b: Byte, c: Byte, last: bool)
    requires v0 as int * 4 + v1 as int / 16 == a as int
    requires v1 as int % 16 * 16 + v2 as int / 4 == b as int
    requires v2 as int % 4 * 64 + v3 as int == c as int
    ensures DecodeGroup([Symbol(v0), Symbol(v1), Symbol(v2), Symbol(v3)], last) == Some([a, b, c])
  {
    ValueUndoesSymbol(v0);
    ValueUndoesSymbol(v1);
    ValueUndoesSymbol(v2);
    ValueUndoesSymbol(v3);
  }

  lemma OneByteDecodes(x: Byte)
    ensures DecodeGroup(OneSymbols(x), true) == Some([x])
  {
    var a := x as int;
    SplitJoin(a, 0, 0);
    GroupOfOne(a / 4, a % 4 * 16, x);
  }

  lemma TwoBytesDecode(x: Byte, y: Byte)
    ensures DecodeGroup(TwoSymbols(x, y), true) == Some([x, y])
  {
    var (a, b) := (x as int, y as int);
    SplitJoin(a, b, 0);
    GroupOfTwo(a / 4, a % 4 * 16 + b / 16, b % 16 * 4, x, y);
  }

  lemma PaddedGroup(bytes: Bytes)
    requires 1 <= |bytes| <= 2
    ensures DecodeGroup(Encode(bytes), true) == Some(bytes)
  {
    if |bytes| == 1 {
      assert bytes == [bytes[0]];
      OneByteDecodes(bytes[0]);
    } else {
      assert bytes == [bytes[0], bytes[1]];
      TwoBytesDecode(bytes[0], bytes[1]);
    }
  }

  lemma FullGroup(bytes: Bytes, last: bool)
    requires |bytes| == 3
    ensures |Encode(bytes)| == 4 && DecodeGroup(Encode(bytes), last) == Some(bytes)
  {
    ThreeBytesDecode(bytes[0], bytes[1], bytes[2], last);
    assert bytes == [bytes[0], bytes[1], bytes[2]];
    assert bytes[3..] == [] && Encode(bytes[3..]) == [];
    assert Encode(bytes) == ThreeSymbols(bytes[0], bytes[1], bytes[2]) + [];
  }

  lemma ThreeBytesDecode(x: Byte, y: Byte, z: Byte, last: bool)
    ensures DecodeGroup(ThreeSymbols(x, y, z), last) == Some([x, y, z])
  {
    var (a, b, c) := (x as int, y as int, z as int);
    SplitJoin(a, b, c);
    GroupOfThree(a / 4, a % 4 * 16 + b / 16, b % 16 * 4 + c / 64, c % 64, x, y, z, last);
  }

  lemma GroupUndoesSymbols(bytes: Bytes)
    requires 1 <= |bytes| <= 3
    ensures DecodeGroup(Encode(bytes), true) == Some(bytes)
    ensures |bytes| == 3 ==> DecodeGroup(Encode(bytes), false) == Some(bytes)
  {
    if |bytes| == 3 {
      FullGroup(bytes, true);
      FullGroup(bytes, false);
    } else {
      PaddedGroup(bytes);
    }
  }

  // Joining sextets to bytes and splitting the bytes again.
  lemma JoinSplit(v0: int, v1: int, v2: int, v3: int)
    requires 0 <= v0 < 64 && 0 <= v1 < 64 && 0 <= v2 < 64 && 0 <= v3 < 64
    ensures var a, b, c := v0 * 4 + v1 / 16, v1 % 16 * 16 + v2 / 4, v2 % 4 * 64 + v3;
            a / 4 == v0 && a % 4 * 16 + b / 16 == v1 && b % 16 * 4 + c / 64 == v2 && c % 64 == v3
    ensures var a, b := v0 * 4 + v1 / 16, v1 % 16 * 16 + v2 / 4;
            (v1 % 16 == 0 ==> a % 4 * 16 == v1) && (v2 % 4 == 0 ==> b % 16 * 4 == v2)
  {}

  lemma SymbolsUndoGroup(group: Bytes, last: bool)
    requires |group| == 4 && DecodeGroup(group, last).Some?
    ensures var bytes := DecodeGroup(group, last).value;
            1 <= |bytes| <= 3 && Encode(bytes) == group && (!last ==> |bytes| == 3)
  {
    var bytes := DecodeGroup(group, last).value;
    var v0, v1 := Value(group[0]).value, Value(group[1]).value;
    SymbolUndoesValue(group[0]);
    SymbolUndoesValue(group[1]);
    if |bytes| == 1 {
      JoinSplit(v0, v1, 0, 0);
    } else {
      var v2 := Value(group[2]).value;
      SymbolUndoesValue(group[2]);
      if |bytes| == 2 {
        JoinSplit(v0, v1, v2, 0);
      } else {
        var v3 := Value(group[3]).value;
        SymbolUndoesValue(group[3]);
        JoinSplit(v0, v1, v2, v3);
        assert Encode(bytes[3..]) == [];
      }
    }
  }

  lemma {:induction false} DecodeUndoesEncode(bytes: Bytes)
    ensures Decode(Encode(bytes)) == Some(bytes)
    decreases |bytes|
  {
    var text := Encode(bytes);
    if 1 <= |bytes| <= 3 {
      GroupUndoesSymbols(bytes);
      assert text[..4] == text && text[4..] == [] && bytes + [] == bytes;
    } else if bytes != [] {
      GroupUndoesSymbols(bytes[..3]);
      DecodeUndoesEncode(bytes[3..]);
      assert Encode(bytes[..3]) == text[..4];
      assert text[4..] == Encode(bytes[3..]);
      assert bytes == bytes[..3] + bytes[3..];
    }
  }

  /** An accepted text is the encoding of its bytes, so no two texts carry the same bytes. */
  lemma {:induction false} EncodeUndoesDecode(text: Bytes)
    requires Decode(text).Some?
    ensures Encode(Decode(text).value) == text
    decreases |text|
  {
    if text != [] {
      var last := |text| == 4;
      SymbolsUndoGroup(text[..4], last);
      EncodeUndoesDecode(text[4..]);
      var bytes, rest := DecodeGroup(text[..4], last).value, Decode(text[4..]).value;
      assert text == text[..4] + text[4..];
      if last {
        assert bytes + rest == bytes;
      } else {
        assert (bytes + rest)[3..] == rest;
        assert Encode(bytes[3..]) == [];
      }
    }
  }

  // ---------------------------------------------------------------- the text of the standard

  // The alphabet: the letters, the small letters, the decimal digits, plus and slash.
  ghost predicate Digit(symbol: Byte, d: int) {
    var c := symbol as int;
    || (0 <= d <= 25 && c == 'A' as int + d)
    || (26 <= d <= 51 && c == 'a' as int + (d - 26))
    || (52 <= d <= 61 && c == '0' as int + (d - 52))
    || (d == 62 && c == '+' as int)
    || (d == 63 && c == '/' as int)
  }

  // Byte i of a 24-bit group; the group is filled up with zero bits.
  function ByteOf(bytes: Bytes, i: nat): int {
    if i < |bytes| then bytes[i] as int else 0
  }

  // Four digits to the base 64 that make up the same 24-bit number as three bytes; digits without any bit of the
  // bytes are written as padding.
  ghost predicate Group(bytes: Bytes, text: Bytes, d0: int, d1: int, d2: int, d3: int)
    requires |text| >= 4
  {
    && ByteOf(bytes, 0) * 65536 + ByteOf(bytes, 1) * 256 + ByteOf(bytes, 2) == d0 * 262144 + d1 * 4096 + d2 * 64 + d3
    && Digit(text[0], d0) && Digit(text[1], d1)
    && (if |bytes| >= 2 then Digit(text[2], d2) else d2 == 0 && text[2] as int == '=' as int)
    && (if |bytes| >= 3 then Digit(text[3], d3) else d3 == 0 && text[3] as int == '=' as int)
  }

  ghost predicate StandardText(bytes: Bytes, text: Bytes)
    decreases |bytes|
  {
    if bytes == [] then text == []
    else
      && |text| >= 4 && (exists d0, d1, d2, d3 :: Group(bytes, text, d0, d1, d2, d3))
      && StandardText(if |bytes| >= 3 then bytes[3..] else [], text[4..])
  }

  lemma SymbolsAreTheAlphabet(v: Sextet)
    ensures Digit(Symbol(v), v)
  {}

  lemma SextetsOf(a: int, b: int, c: int)
    requires 0 <= a < 256 && 0 <= b < 256 && 0 <= c < 256
    ensures a * 65536 + b * 256 + c
         == a / 4 * 262144 + (a % 4 * 16 + b / 16) * 4096 + (b % 16 * 4 + c / 64) * 64 + c % 64
  {}

  lemma FirstGroup(bytes: Bytes)
    requires bytes != []
    ensures |Encode(bytes)| >= 4
    ensures exists d0, d1, d2, d3 :: Group(bytes, Encode(bytes), d0, d1, d2, d3)
  {
    var (a, b, c) := (ByteOf(bytes, 0), ByteOf(bytes, 1), ByteOf(bytes, 2));
    if |bytes| == 1 {
      GroupIsStandard(bytes, Encode(bytes), a, 0, 0);
    } else if |bytes| == 2 {
      GroupIsStandard(bytes, Encode(bytes), a, b, 0);
    } else {
      GroupIsStandard(bytes, Encode(bytes), a, b, c);
    }
  }

  lemma GroupIsStandard(bytes: Bytes, text: Bytes, a: int, b: int, c: int)
    requires bytes != [] && |text| >= 4
    requires a == ByteOf(bytes, 0) && b == ByteOf(bytes, 1) && c == ByteOf(bytes, 2)
    requires 0 <= a < 256 && 0 <= b < 256 && 0 <= c < 256
    requires text[0] == Symbol(a / 4) && text[1] == Symbol(a % 4 * 16 + b / 16)
    requires text[2] == if |bytes| >= 2 then Symbol(b % 16 * 4 + c / 64) else PAD
    requires text[3] == if |bytes| >= 3 then Symbol(c % 64) else PAD
    ensures Group(bytes, text, a / 4, a % 4 * 16 + b / 16, b % 16 * 4 + c / 64, c % 64)
  {
    SextetsOf(a, b, c);
    SymbolsAreTheAlphabet(a / 4);
    SymbolsAreTheAlphabet(a % 4 * 16 + b / 16);
    if |bytes| >= 2 { SymbolsAreTheAlphabet(b % 16 * 4 + c / 64); }
    if |bytes| >= 3 { SymbolsAreTheAlphabet(c % 64); }
  }

  /** The encoder writes the text that section 4 of RFC 4648 describes. */
  lemma {:induction false} EncodeIsStandard(bytes: Bytes)
    ensures StandardText(bytes, Encode(bytes))
    decreases |bytes|
  {
    if bytes != [] {
      FirstGroup(bytes);
      if |bytes| >= 3 {
        EncodeIsStandard(bytes[3..]);
        assert Encode(bytes)[4..] == Encode(bytes[3..]);
      } else {
        assert Encode(bytes)[4..] == [];
      }
    }
  }
}
