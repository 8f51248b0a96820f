// Reading a raw JSON string without allocating it: the slice-emitting loop, the recursive decoder it
// refines (section 7 of RFC 8259), and UTF-8 (sections 3 and 4 of RFC 3629).

module JsonString {
  import opened Common

  const QUOTE: Byte := 34
  const BACKSLASH: Byte := 92
  const SLASH: Byte := 47
  const LETTER_U: Byte := 117

  // ---------------------------------------------------------------- UTF-8

  predicate IsSurrogate(n: int) { 0xD800 <= n <= 0xDFFF }

  predicate IsScalar(n: int) { 0 <= n <= 0x10FFFF && !IsSurrogate(n) }

  function EncodeUtf8(c: int): (bytes: Bytes)
    requires IsScalar(c)
    ensures 1 <= |bytes| <= 4
  {
    if c < 0x80 then [c as Byte]
    else if c < 0x800 then [(0xC0 + c / 64) as Byte, (0x80 + c % 64) as Byte]
    else if c < 0x1_0000 then [(0xE0 + c / 4096) as Byte, (0x80 + c / 64 % 64) as Byte, (0x80 + c % 64) as Byte]
    else [(0xF0 + c / 0x4_0000) as Byte, (0x80 + c / 4096 % 64) as Byte, (0x80 + c / 64 % 64) as Byte,
          (0x80 + c % 64) as Byte]
  }

  predicate Tail(b: Byte) { 0x80 <= b <= 0xBF }

  /** The length of the first character by the octet syntax of section 4 of RFC 3629, 0 if there is none. */
  function CharLength(s: Bytes): (n: nat)
    ensures n <= |s|
  {
    if s == [] then 0
    else if s[0] < 0x80 then 1
    else if |s| >= 2 && 0xC2 <= s[0] <= 0xDF && Tail(s[1]) then 2
    else if |s| >= 3 && Tail(s[1]) && Tail(s[2]) &&
            ((s[0] == 0xE0 && 0xA0 <= s[1]) || 0xE1 <= s[0] <= 0xEC || (s[0] == 0xED && s[1] <= 0x9F)
             || 0xEE <= s[0] <= 0xEF) then 3
    else if |s| >= 4 && Tail(s[1]) && Tail(s[2]) && Tail(s[3]) &&
            ((s[0] == 0xF0 && 0x90 <= s[1]) || 0xF1 <= s[0] <= 0xF3 || (s[0] == 0xF4 && s[1] <= 0x8F)) then 4
    else 0
  }

  predicate ValidUtf8(s: Bytes)
    decreases |s|
  {
    s == [] || (CharLength(s) > 0 && ValidUtf8(s[CharLength(s)..]))
  }

  /** The scalar that the first character stands for. */
  function FirstScalar(s: Bytes): int
    requires CharLength(s) > 0
  {
    var n := CharLength(s);
    if n == 1 then s[0] as int
    else if n == 2 then (s[0] as int - 0xC0) * 64 + (s[1] as int - 0x80)
    else if n == 3 then (s[0] as int - 0xE0) * 4096 + (s[1] as int - 0x80) * 64 + (s[2] as int - 0x80)
    else (s[0] as int - 0xF0) * 0x4_0000 + (s[1] as int - 0x80) * 4096 + (s[2] as int - 0x80) * 64
         + (s[3] as int - 0x80)
  }

  // Base-64 digits of a number.
  lemma ThreeDigits(a: int, b: int, d: int)
    requires 0 <= b < 64 && 0 <= d < 64
    ensures (a * 64 + b) * 64 + d == a * 4096 + b * 64 + d
    ensures (a * 4096 + b * 64 + d) / 64 == a * 64 + b && (a * 4096 + b * 64 + d) % 64 == d
    ensures (a * 64 + b) % 64 == b && (a * 4096 + b * 64 + d) / 4096 == a
  {}

  lemma FourDigits(e: int, a: int, b: int, d: int)
    requires 0 <= a < 64 && 0 <= b < 64 && 0 <= d < 64
    ensures var c := e * 0x4_0000 + a * 4096 + b * 64 + d;
      c / 0x4_0000 == e && c / 4096 % 64 == a && c / 64 % 64 == b && c % 64 == d
  {
    ThreeDigits(e * 64 + a, b, d);
    assert (e * 64 + a) * 4096 + b * 64 + d == e * 0x4_0000 + a * 4096 + b * 64 + d;
    ThreeDigits(e, a, b * 64 + d - (b * 64 + d) / 64 * 64);
  }

  lemma ThreeBytesRead(s: Bytes, a: int, b: int, d: int)
    requires |s| >= 3 && 0 <= a < 16 && 0 <= b < 64 && 0 <= d < 64
    requires s[0] as int == 0xE0 + a && s[1] as int == 0x80 + b && s[2] as int == 0x80 + d
    requires a * 4096 + b * 64 + d >= 0x800 && IsScalar(a * 4096 + b * 64 + d)
    ensures CharLength(s) == 3 && FirstScalar(s) == a * 4096 + b * 64 + d
  {}

  lemma FourBytesRead(s: Bytes, e: int, a: int, b: int, d: int)
    requires |s| >= 4 && 0 <= e < 8 && 0 <= a < 64 && 0 <= b < 64 && 0 <= d < 64
    requires s[0] as int == 0xF0 + e && s[1] as int == 0x80 + a && s[2] as int == 0x80 + b && s[3] as int == 0x80 + d
    requires 0x1_0000 <= e * 0x4_0000 + a * 4096 + b * 64 + d <= 0x10FFFF
    ensures CharLength(s) == 4 && FirstScalar(s) == e * 0x4_0000 + a * 4096 + b * 64 + d
  {}

  lemma EncodedCharacterReads(c: int, rest: Bytes)
    requires IsScalar(c)
    ensures CharLength(EncodeUtf8(c) + rest) == |EncodeUtf8(c)|
    ensures FirstScalar(EncodeUtf8(c) + rest) == c
  {
    var s := EncodeUtf8(c) + rest;
    if 0x800 <= c < 0x1_0000 {
      var q := c / 64;
      ThreeDigits(q / 64, q % 64, c % 64);
      ThreeBytesRead(s, c / 4096, c / 64 % 64, c % 64);
    } else if c >= 0x1_0000 {
      var q := c / 64;
      var p := q / 64;
      FourDigits(p / 64, p % 64, q % 64, c % 64);
      FourBytesRead(s, c / 0x4_0000, c / 4096 % 64, c / 64 % 64, c % 64);
    }
  }

  lemma ThreeBytesEncode(s: Bytes)
    requires CharLength(s) == 3
    ensures IsScalar(FirstScalar(s)) && EncodeUtf8(FirstScalar(s)) == s[..3]
  {
    ThreeDigits(s[0] as int - 0xE0, s[1] as int - 0x80, s[2] as int - 0x80);
  }

  lemma FourBytesEncode(s: Bytes)
    requires CharLength(s) == 4
    ensures IsScalar(FirstScalar(s)) && EncodeUtf8(FirstScalar(s)) == s[..4]
  {
    FourDigits(s[0] as int - 0xF0, s[1] as int - 0x80, s[2] as int - 0x80, s[3] as int - 0x80);
  }

  lemma FirstCharacterEncodes(s: Bytes)
    requires CharLength(s) > 0
    ensures IsScalar(FirstScalar(s)) && EncodeUtf8(FirstScalar(s)) == s[..CharLength(s)]
  {
    var n := CharLength(s);
    if n == 3 {
      ThreeBytesEncode(s);
    } else if n == 4 {
      FourBytesEncode(s);
    }
  }

  function Utf8(scalars: seq<int>): Bytes
    requires forall i | 0 <= i < |scalars| :: IsScalar(scalars[i])
  {
    if scalars == [] then [] else EncodeUtf8(scalars[0]) + Utf8(scalars[1..])
  }

  lemma {:induction false} Utf8IsValid(scalars: seq<int>)
    requires forall i | 0 <= i < |scalars| :: IsScalar(scalars[i])
    ensures ValidUtf8(Utf8(scalars))
    decreases |scalars|
  {
    if scalars != [] {
      var first, rest := EncodeUtf8(scalars[0]), Utf8(scalars[1..]);
      EncodedCharacterReads(scalars[0], rest);
      assert (first + rest)[|first|..] == rest;
      Utf8IsValid(scalars[1..]);
    }
  }

  // ---------------------------------------------------------------- the recursive decoder

  function HexValue(b: Byte): Option<int> {
    var c := b as int;
    if 48 <= c <= 57 then Some(c - 48)
    else if 97 <= c <= 102 then Some(c - 97 + 10)
    else if 65 <= c <= 70 then Some(c - 65 + 10)
    else None
  }

  function HexUnit(bytes: Bytes, start: nat): (r: Option<int>)
    ensures r.Some? ==> start + 4 <= |bytes| && 0 <= r.value <= 0xFFFF
  {
    if start + 4 > |bytes| then None
    else
      var (a, b, c, d) :=
        (HexValue(bytes[start]), HexValue(bytes[start + 1]), HexValue(bytes[start + 2]), HexValue(bytes[start + 3]));
      if a.None? || b.None? || c.None? || d.None? then None
      else Some(a.value * 4096 + b.value * 256 + c.value * 16 + d.value)
  }

  function ShortEscape(code: Byte): Option<Byte> {
    if code == QUOTE || code == BACKSLASH || code == SLASH then Some(code)
    else if code == 98 then Some(8)
    else if code == 102 then Some(12)
    else if code == 110 then Some(10)
    else if code == 114 then Some(13)
    else if code == 116 then Some(9)
    else None
  }

  function Combine(high: int, low: int): int {
    0x1_0000 + (high - 0xD800) * 1024 + (low - 0xDC00)
  }

  /** The scalar of a unicode escape and the number of bytes it takes. */
  function UnicodeEscape(text: Bytes): (r: Option<(int, nat)>)
    requires |text| >= 2
    ensures r.Some? ==> IsScalar(r.value.0) && 2 <= r.value.1 <= |text|
  {
    match HexUnit(text, 2)
    case None => None
    case Some(unit) =>
      if 0xD800 <= unit <= 0xDBFF then
        if |text| < 8 || text[6] != BACKSLASH || text[7] != LETTER_U then None
        else
          match HexUnit(text, 8)
          case None => None
          case Some(low) => if 0xDC00 <= low <= 0xDFFF then Some((Combine(unit, low), 12)) else None
      else if IsSurrogate(unit) then None
      else Some((unit, 6))
  }

  function Escape(text: Bytes): (r: Option<(Bytes, nat)>)
    requires text != [] && text[0] == BACKSLASH
    ensures r.Some? ==> 2 <= r.value.1 <= |text|
  {
    if |text| < 2 then None
    else if text[1] == LETTER_U then
      match UnicodeEscape(text)
      case None => None
      case Some((scalar, n)) => Some((EncodeUtf8(scalar), n))
    else
      match ShortEscape(text[1])
      case None => None
      case Some(b) => Some(([b], 2))
  }

  function Prepend(bytes: Bytes, r: Option<Bytes>): Option<Bytes> {
    if r.None? then None else Some(bytes + r.value)
  }

  predicate Forbidden(b: Byte) { b < 0x20 || b == QUOTE }

  function DecodeBody(body: Bytes): Option<Bytes>
    decreases |body|
  {
    if body == [] then Some([])
    else if Forbidden(body[0]) then None
    else if body[0] != BACKSLASH then Prepend([body[0]], DecodeBody(body[1..]))
    else
      match Escape(body)
      case None => None
      case Some((bytes, n)) => Prepend(bytes, DecodeBody(body[n..]))
  }

  predicate Quoted(value: Bytes) {
    |value| >= 2 && value[0] == QUOTE && value[|value| - 1] == QUOTE
  }

  function Decode(value: Bytes): Option<Bytes> {
    if Quoted(value) then DecodeBody(value[1..|value| - 1]) else None
  }

  // ---------------------------------------------------------------- exactly the legal spellings

  // One way to write one character inside a JSON string.
  datatype Spelling = Spelling(text: Bytes, scalar: int)

  // The letters of the short escapes.
  ghost predicate ShortFor(letter: Byte, scalar: int) {
    || (letter as int == '\"' as int && scalar == 0x22)
    || (letter as int == '\\' as int && scalar == 0x5C)
    || (letter as int == '/' as int && scalar == 0x2F)
    || (letter as int == 'b' as int && scalar == 0x08)
    || (letter as int == 'f' as int && scalar == 0x0C)
    || (letter as int == 'n' as int && scalar == 0x0A)
    || (letter as int == 'r' as int && scalar == 0x0D)
    || (letter as int == 't' as int && scalar == 0x09)
  }

  // A hexadecimal digit in either case.
  ghost predicate HexDigitFor(symbol: Byte, d: int) {
    || (0 <= d <= 9 && symbol as int == '0' as int + d)
    || (10 <= d <= 15 && (symbol as int == 'a' as int + (d - 10) || symbol as int == 'A' as int + (d - 10)))
  }

  // Backslash, u and the four digits of n, from this place on.
  ghost predicate UnicodeFor(text: Bytes, at: nat, n: int) {
    && at + 6 <= |text| && text[at] as int == '\\' as int && text[at + 1] as int == 'u' as int
    && 0 <= n <= 0xFFFF
    && HexDigitFor(text[at + 2], n / 4096) && HexDigitFor(text[at + 3], n / 256 % 16)
    && HexDigitFor(text[at + 4], n / 16 % 16) && HexDigitFor(text[at + 5], n % 16)
  }

  // The surrogates of UTF-16, section 2.1 of RFC 2781.
  ghost function HighSurrogate(c: int): int { 0xD800 + (c - 0x1_0000) / 1024 }

  ghost function LowSurrogate(c: int): int { 0xDC00 + (c - 0x1_0000) % 1024 }

  /** The ways to write a character by section 7 of RFC 8259: itself, a short escape, one unicode escape, or two of
      them for the surrogates that UTF-16 gives for it. */
  ghost predicate Spells(s: Spelling) {
    && IsScalar(s.scalar)
    && (|| (s.text == EncodeUtf8(s.scalar) && s.scalar >= 0x20 && s.scalar != 0x22 && s.scalar != 0x5C)
        || (|s.text| == 2 && s.text[0] as int == '\\' as int && ShortFor(s.text[1], s.scalar))
        || (|s.text| == 6 && UnicodeFor(s.text, 0, s.scalar))
        || (|s.text| == 12 && s.scalar >= 0x1_0000
            && UnicodeFor(s.text, 0, HighSurrogate(s.scalar)) && UnicodeFor(s.text, 6, LowSurrogate(s.scalar))))
  }

  // The same in terms of what the decoder reads.
  ghost predicate Reads(s: Spelling) {
    && IsScalar(s.scalar)
    && (|| (s.text == EncodeUtf8(s.scalar) && s.scalar >= 0x20 && s.scalar != QUOTE as int && s.scalar != BACKSLASH as int)
        || (|s.text| == 2 && s.text[0] == BACKSLASH && ShortEscape(s.text[1]).Some?
            && s.scalar == ShortEscape(s.text[1]).value as int)
        || (|s.text| == 6 && s.text[0] == BACKSLASH && s.text[1] == LETTER_U && HexUnit(s.text, 2) == Some(s.scalar))
        || (|s.text| == 12 && s.text[0] == BACKSLASH && s.text[1] == LETTER_U
            && s.text[6] == BACKSLASH && s.text[7] == LETTER_U
            && HexUnit(s.text, 2).Some? && HexUnit(s.text, 8).Some?
            && 0xD800 <= HexUnit(s.text, 2).value <= 0xDBFF && 0xDC00 <= HexUnit(s.text, 8).value <= 0xDFFF
            && s.scalar == Combine(HexUnit(s.text, 2).value, HexUnit(s.text, 8).value)))
  }

  lemma ShortEscapesAreRead(letter: Byte, scalar: int)
    ensures ShortFor(letter, scalar) <==> ShortEscape(letter).Some? && ShortEscape(letter).value as int == scalar
  {}

  lemma HexDigitsAreRead(symbol: Byte, d: int)
    ensures HexDigitFor(symbol, d) <==> HexValue(symbol) == Some(d)
  {}

  lemma HexDigitsOf(a: int, b: int, c: int, d: int)
    requires 0 <= a < 16 && 0 <= b < 16 && 0 <= c < 16 && 0 <= d < 16
    ensures var n := a * 4096 + b * 256 + c * 16 + d;
            n / 4096 == a && n / 256 % 16 == b && n / 16 % 16 == c && n % 16 == d
  {
    var n := a * 4096 + b * 256 + c * 16 + d;
    assert n / 256 == a * 16 + b by { assert n == (a * 16 + b) * 256 + (c * 16 + d); }
    assert n / 16 == (a * 16 + b) * 16 + c by { assert n == ((a * 16 + b) * 16 + c) * 16 + d; }
    LastHexDigit(a, b);
    LastHexDigit(a * 16 + b, c);
    LastHexDigit((a * 16 + b) * 16 + c, d);
  }

  lemma LastHexDigit(q: int, r: int)
    requires 0 <= r < 16
    ensures (q * 16 + r) % 16 == r
  {}

  lemma DigitsMakeUp(n: int)
    requires 0 <= n <= 0xFFFF
    ensures n / 4096 * 4096 + n / 256 % 16 * 256 + n / 16 % 16 * 16 + n % 16 == n
  {}

  /** Four digits written for a number in either case are read as that number, and no others are. */
  lemma UnicodeEscapesAreRead(text: Bytes, at: nat, n: int)
    ensures UnicodeFor(text, at, n)
            <==> at + 6 <= |text| && text[at] == BACKSLASH && text[at + 1] == LETTER_U && HexUnit(text, at + 2) == Some(n)
  {
    if at + 6 <= |text| && 0 <= n <= 0xFFFF {
      HexUnitByDigits(text, at + 2, n);
      HexDigitsAreRead(text[at + 2], n / 4096);
      HexDigitsAreRead(text[at + 3], n / 256 % 16);
      HexDigitsAreRead(text[at + 4], n / 16 % 16);
      HexDigitsAreRead(text[at + 5], n % 16);
    }
  }

  lemma HexUnitByDigits(text: Bytes, start: nat, n: int)
    requires start + 4 <= |text| && 0 <= n <= 0xFFFF
    ensures HexUnit(text, start) == Some(n)
            <==> && HexValue(text[start]) == Some(n / 4096) && HexValue(text[start + 1]) == Some(n / 256 % 16)
                 && HexValue(text[start + 2]) == Some(n / 16 % 16) && HexValue(text[start + 3]) == Some(n % 16)
  {
    var (a, b, c, d) :=
      (HexValue(text[start]), HexValue(text[start + 1]), HexValue(text[start + 2]), HexValue(text[start + 3]));
    if a.Some? && b.Some? && c.Some? && d.Some? { HexDigitsOf(a.value, b.value, c.value, d.value); }
    DigitsMakeUp(n);
  }

  /** The surrogates of UTF-16 for a character combine to it, and no others do. */
  lemma SurrogatesCombine(c: int, high: int, low: int)
    ensures 0x1_0000 <= c <= 0x10FFFF && high == HighSurrogate(c) && low == LowSurrogate(c)
            <==> 0xD800 <= high <= 0xDBFF && 0xDC00 <= low <= 0xDFFF && c == Combine(high, low)
  {}

  /** The decoder reads exactly the spellings of the standard. */
  lemma SpellsExactlyWhatIsRead(s: Spelling)
    ensures Spells(s) <==> Reads(s)
  {
    if IsScalar(s.scalar) {
      if |s.text| == 2 {
        ShortEscapesAreRead(s.text[1], s.scalar);
      } else if |s.text| == 6 {
        UnicodeEscapesAreRead(s.text, 0, s.scalar);
      } else if |s.text| == 12 {
        PairsAreRead(s.text, s.scalar);
      }
    }
  }

  lemma PairsAreRead(text: Bytes, c: int)
    requires |text| == 12 && IsScalar(c)
    ensures c >= 0x1_0000 && UnicodeFor(text, 0, HighSurrogate(c)) && UnicodeFor(text, 6, LowSurrogate(c))
            <==> && text[0] == BACKSLASH && text[1] == LETTER_U && text[6] == BACKSLASH && text[7] == LETTER_U
                 && HexUnit(text, 2).Some? && HexUnit(text, 8).Some?
                 && 0xD800 <= HexUnit(text, 2).value <= 0xDBFF && 0xDC00 <= HexUnit(text, 8).value <= 0xDFFF
                 && c == Combine(HexUnit(text, 2).value, HexUnit(text, 8).value)
  {
    var (high, low) := (HighSurrogate(c), LowSurrogate(c));
    UnicodeEscapesAreRead(text, 0, high);
    UnicodeEscapesAreRead(text, 6, low);
    SurrogatesCombine(c, high, low);
    if HexUnit(text, 2).Some? && HexUnit(text, 8).Some? {
      SurrogatesCombine(c, HexUnit(text, 2).value, HexUnit(text, 8).value);
    }
  }

  ghost predicate AllSpell(parts: seq<Spelling>) {
    forall i | 0 <= i < |parts| :: Spells(parts[i])
  }

  function Text(parts: seq<Spelling>): Bytes {
    if parts == [] then [] else parts[0].text + Text(parts[1..])
  }

  function Scalars(parts: seq<Spelling>): seq<int> {
    seq(|parts|, i requires 0 <= i < |parts| => parts[i].scalar)
  }

  lemma HexUnitOfPrefix(text: Bytes, rest: Bytes, start: nat)
    requires start + 4 <= |text|
    ensures HexUnit(text + rest, start) == HexUnit(text, start)
  {}

  // Bytes of a multi-byte character pass one by one.
  lemma {:induction false} PlainBytesPass(plain: Bytes, rest: Bytes)
    requires forall i | 0 <= i < |plain| :: !Forbidden(plain[i]) && plain[i] != BACKSLASH
    ensures DecodeBody(plain + rest) == Prepend(plain, DecodeBody(rest))
    decreases |plain|
  {
    if plain == [] {
      assert plain + rest == rest;
      if DecodeBody(rest).Some? { assert [] + DecodeBody(rest).value == DecodeBody(rest).value; }
    } else {
      assert (plain + rest)[1..] == plain[1..] + rest;
      PlainBytesPass(plain[1..], rest);
      if DecodeBody(rest).Some? {
        assert [plain[0]] + (plain[1..] + DecodeBody(rest).value) == plain + DecodeBody(rest).value;
      }
    }
  }

  lemma SpellingDecodes(s: Spelling, rest: Bytes)
    requires Spells(s)
    ensures DecodeBody(s.text + rest) == Prepend(EncodeUtf8(s.scalar), DecodeBody(rest))
  {
    SpellsExactlyWhatIsRead(s);
    if s.text == EncodeUtf8(s.scalar) && s.scalar >= 0x20 && s.scalar != QUOTE as int && s.scalar != BACKSLASH as int {
      PlainBytesPass(s.text, rest);
    } else {
      var body := s.text + rest;
      assert body[|s.text|..] == rest;
      if |s.text| >= 6 { HexUnitOfPrefix(s.text, rest, 2); }
      if |s.text| == 12 { HexUnitOfPrefix(s.text, rest, 8); }
      assert Escape(body) == Some((EncodeUtf8(s.scalar), |s.text|));
    }
  }

  /** Decoding undoes any legal spelling of any characters. */
  lemma {:induction false} DecodeUndoesEscaping(parts: seq<Spelling>)
    requires AllSpell(parts)
    ensures forall i | 0 <= i < |parts| :: IsScalar(Scalars(parts)[i])
    ensures DecodeBody(Text(parts)) == Some(Utf8(Scalars(parts)))
    decreases |parts|
  {
    assert forall i | 0 <= i < |parts| :: Spells(parts[i]);
    if parts != [] {
      SpellingDecodes(parts[0], Text(parts[1..]));
      DecodeUndoesEscaping(parts[1..]);
      assert Scalars(parts)[1..] == Scalars(parts[1..]);
    }
  }

  lemma PlainSpelling(body: Bytes) returns (s: Spelling)
    requires body != [] && ValidUtf8(body) && !Forbidden(body[0]) && body[0] != BACKSLASH
    ensures Spells(s) && 1 <= |s.text| <= |body| && s.text == body[..|s.text|]
    ensures ValidUtf8(body[|s.text|..])
  {
    var n := CharLength(body);
    FirstCharacterEncodes(body);
    s := Spelling(body[..n], FirstScalar(body));
  }

  lemma EscapeSpelling(body: Bytes) returns (s: Spelling)
    requires body != [] && body[0] == BACKSLASH && Escape(body).Some?
    ensures Spells(s) && 1 <= |s.text| <= |body| && s.text == body[..|s.text|]
    ensures forall i | 0 <= i < |s.text| :: s.text[i] < 0x80
  {
    s := EscapeReads(body);
    SpellsExactlyWhatIsRead(s);
  }

  lemma EscapeReads(body: Bytes) returns (s: Spelling)
    requires body != [] && body[0] == BACKSLASH && Escape(body).Some?
    ensures Reads(s) && 1 <= |s.text| <= |body| && s.text == body[..|s.text|]
    ensures forall i | 0 <= i < |s.text| :: s.text[i] < 0x80
  {
    if body[1] == LETTER_U {
      s := UnicodeReads(body);
    } else {
      s := Spelling(body[..2], ShortEscape(body[1]).value as int);
    }
  }

  lemma UnicodeReads(body: Bytes) returns (s: Spelling)
    requires |body| >= 2 && body[0] == BACKSLASH && body[1] == LETTER_U && UnicodeEscape(body).Some?
    ensures Reads(s) && 1 <= |s.text| <= |body| && s.text == body[..|s.text|]
    ensures forall i | 0 <= i < |s.text| :: s.text[i] < 0x80
  {
    var (scalar, n) := UnicodeEscape(body).value;
    s := Spelling(body[..n], scalar);
    assert body == body[..n] + body[n..];
    HexUnitOfPrefix(body[..n], body[n..], 2);
    if n == 12 { HexUnitOfPrefix(body[..n], body[n..], 8); }
  }

  lemma DecodableHead(body: Bytes)
    requires body != [] && DecodeBody(body).Some?
    ensures !Forbidden(body[0]) && (body[0] == BACKSLASH ==> Escape(body).Some?)
  {}

  // The first spelling of a body that decodes.
  lemma FirstSpelling(body: Bytes) returns (s: Spelling)
    requires body != [] && ValidUtf8(body)
    requires !Forbidden(body[0]) && (body[0] == BACKSLASH ==> Escape(body).Some?)
    ensures Spells(s) && 1 <= |s.text| <= |body| && s.text == body[..|s.text|]
    ensures ValidUtf8(body[|s.text|..])
  {
    if body[0] != BACKSLASH {
      s := PlainSpelling(body);
    } else {
      s := EscapeSpelling(body);
      var n := |s.text|;
      forall i | 0 <= i < n ensures body[i] < 0x80 { assert body[i] == s.text[i]; }
      AsciiPrefixIsValid(body, n);
    }
  }

  lemma {:induction false} AsciiPrefixIsValid(body: Bytes, n: nat)
    requires ValidUtf8(body) && n <= |body| && forall i | 0 <= i < n :: body[i] < 0x80
    ensures ValidUtf8(body[n..])
    decreases n
  {
    if n > 0 {
      AsciiPrefixIsValid(body[1..], n - 1);
      assert body[1..][n - 1..] == body[n..];
    } else {
      assert body[0..] == body;
    }
  }

  lemma SplitFirst(first: Spelling, others: seq<Spelling>)
    requires Spells(first) && AllSpell(others)
    ensures AllSpell([first] + others) && Text([first] + others) == first.text + Text(others)
  {
    assert ([first] + others)[1..] == others;
  }

  lemma SplitOne(body: Bytes) returns (first: Spelling, rest: Bytes)
    requires body != [] && ValidUtf8(body) && DecodeBody(body).Some?
    ensures Spells(first) && body == first.text + rest && |rest| < |body|
    ensures ValidUtf8(rest) && DecodeBody(rest).Some?
  {
    DecodableHead(body);
    first := FirstSpelling(body);
    rest := body[|first.text|..];
    assert body == first.text + rest;
    RestDecodes(body, first, rest);
  }

  lemma RestDecodes(body: Bytes, first: Spelling, rest: Bytes)
    requires Spells(first) && body == first.text + rest && DecodeBody(body).Some?
    ensures DecodeBody(rest).Some?
  {
    SpellingDecodes(first, rest);
  }

  lemma {:induction false} SplitBody(body: Bytes) returns (parts: seq<Spelling>)
    requires ValidUtf8(body) && DecodeBody(body).Some?
    ensures AllSpell(parts) && Text(parts) == body
    decreases |body|
  {
    if body == [] {
      parts := [];
    } else {
      var first, rest := SplitOne(body);
      var others := SplitBody(rest);
      SplitFirst(first, others);
      parts := [first] + others;
    }
  }

  /** Conversely, whatever a valid UTF-8 body decodes to, the body is a legal spelling of it. */
  lemma DecodedBodyIsSpelled(body: Bytes) returns (parts: seq<Spelling>)
    requires ValidUtf8(body) && DecodeBody(body).Some?
    ensures AllSpell(parts) && Text(parts) == body
    ensures forall i | 0 <= i < |parts| :: IsScalar(Scalars(parts)[i])
    ensures DecodeBody(body) == Some(Utf8(Scalars(parts)))
  {
    parts := SplitBody(body);
    DecodeUndoesEscaping(parts);
  }

  // A quoted text.
  function Quote(body: Bytes): Bytes { [0x22] + body + [0x22] }

  /** A UTF-8 value is read exactly when it is a spelled text between quotation marks, and it is read as that text. */
  lemma StringsAreQuotedSpellings(value: Bytes)
    requires ValidUtf8(value)
    ensures Decode(value).Some? <==> exists parts :: AllSpell(parts) && value == Quote(Text(parts))
    ensures forall parts | AllSpell(parts) && value == Quote(Text(parts)) ::
              && (forall i | 0 <= i < |parts| :: IsScalar(Scalars(parts)[i]))
              && Decode(value) == Some(Utf8(Scalars(parts)))
  {
    forall parts | AllSpell(parts) && value == Quote(Text(parts))
      ensures (forall i | 0 <= i < |parts| :: IsScalar(Scalars(parts)[i])) && Decode(value) == Some(Utf8(Scalars(parts)))
    {
      QuotedSpellingIsRead(parts);
    }
    if Decode(value).Some? { var parts := ReadIsQuotedSpelling(value); }
  }

  lemma QuotedSpellingIsRead(parts: seq<Spelling>)
    requires AllSpell(parts)
    ensures forall i | 0 <= i < |parts| :: IsScalar(Scalars(parts)[i])
    ensures Decode(Quote(Text(parts))) == Some(Utf8(Scalars(parts)))
  {
    var value := Quote(Text(parts));
    assert value[1..|value| - 1] == Text(parts);
    DecodeUndoesEscaping(parts);
  }

  lemma QuotedBody(value: Bytes) returns (body: Bytes)
    requires ValidUtf8(value) && Quoted(value)
    ensures ValidUtf8(body) && value == Quote(body) && body == value[1..|value| - 1]
  {
    DropLastByte(value);
    var init := value[..|value| - 1];
    body := value[1..|value| - 1];
    assert init[1..] == body && CharLength(init) == 1;
  }

  lemma ReadIsQuotedSpelling(value: Bytes) returns (parts: seq<Spelling>)
    requires ValidUtf8(value) && Decode(value).Some?
    ensures AllSpell(parts) && value == Quote(Text(parts))
  {
    var body := QuotedBody(value);
    parts := DecodedBodyIsSpelled(body);
  }

  lemma {:induction false} DropLastByte(s: Bytes)
    requires s != [] && s[|s| - 1] < 0x80 && ValidUtf8(s)
    ensures ValidUtf8(s[..|s| - 1])
    decreases |s|
  {
    var n := CharLength(s);
    if n < |s| {
      DropLastByte(s[n..]);
      var init := s[..|s| - 1];
      assert init[n..] == s[n..][..|s[n..]| - 1];
      assert forall i | 0 <= i < n :: init[i] == s[i];
      assert CharLength(init) == n;
    }
  }

  /** A quoted value that is valid UTF-8 decodes to valid UTF-8. */
  lemma DecodedIsUtf8(value: Bytes)
    requires ValidUtf8(value) && Decode(value).Some?
    ensures ValidUtf8(Decode(value).value)
  {
    var body := QuotedBody(value);
    var parts := DecodedBodyIsSpelled(body);
    Utf8IsValid(Scalars(parts));
  }

  // ---------------------------------------------------------------- the slice-emitting loop

  function Flatten(slices: seq<Bytes>): Bytes {
    if slices == [] then [] else Flatten(slices[..|slices| - 1]) + slices[|slices| - 1]
  }

  function Fold<A>(visit: (A, Bytes) -> Option<A>, init: A, slices: seq<Bytes>): Option<A> {
    if slices == [] then Some(init)
    else
      match Fold(visit, init, slices[..|slices| - 1])
      case None => None
      case Some(acc) => visit(acc, slices[|slices| - 1])
  }

  /** The slices the source hands over: each run of plain bytes and each escaped character, in order, with the last
      run even when it is empty; None exactly where the text is refused. */
  function SliceBody(plain: Bytes, body: Bytes): Option<seq<Bytes>>
    decreases |body|
  {
    if body == [] then Some([plain])
    else if Forbidden(body[0]) then None
    else if body[0] != BACKSLASH then SliceBody(plain + [body[0]], body[1..])
    else
      match Escape(body)
      case None => None
      case Some((piece, n)) => PrependSlices([plain, piece], SliceBody([], body[n..]))
  }

  function PrependSlices(slices: seq<Bytes>, r: Option<seq<Bytes>>): Option<seq<Bytes>> {
    if r.None? then None else Some(slices + r.value)
  }

  function Slices(value: Bytes): Option<seq<Bytes>> {
    if Quoted(value) then SliceBody([], value[1..|value| - 1]) else None
  }

  lemma {:induction false} FlattenTogether(a: seq<Bytes>, b: seq<Bytes>)
    ensures Flatten(a + b) == Flatten(a) + Flatten(b)
    decreases |b|
  {
    if b == [] {
      assert a + b == a;
    } else {
      assert (a + b)[..|a + b| - 1] == a + b[..|b| - 1];
      FlattenTogether(a, b[..|b| - 1]);
      assert Flatten(a) + (Flatten(b[..|b| - 1]) + b[|b| - 1]) == Flatten(a) + Flatten(b[..|b| - 1]) + b[|b| - 1];
    }
  }

  lemma FlattenPair(plain: Bytes, piece: Bytes, slices: seq<Bytes>)
    ensures Flatten([plain, piece] + slices) == plain + (piece + Flatten(slices))
  {
    FlattenTogether([plain, piece], slices);
    assert [plain, piece][..1] == [plain] && [plain][..0] == [];
    assert Flatten([plain]) == plain;
    assert plain + piece + Flatten(slices) == plain + (piece + Flatten(slices));
  }

  // The slices of a body belong to its decoding: as many answers, and the same bytes after the pending ones.
  ghost predicate SlicesMatch(plain: Bytes, slices: Option<seq<Bytes>>, decoded: Option<Bytes>) {
    && (slices.Some? <==> decoded.Some?)
    && (slices.Some? ==> Flatten(slices.value) == plain + decoded.value)
  }

  lemma PlainSlicesMatch(plain: Bytes, byte: Byte, slices: Option<seq<Bytes>>, decoded: Option<Bytes>)
    requires SlicesMatch(plain + [byte], slices, decoded)
    ensures SlicesMatch(plain, slices, Prepend([byte], decoded))
  {
    if decoded.Some? { assert plain + [byte] + decoded.value == plain + ([byte] + decoded.value); }
  }

  lemma PieceSlicesMatch(plain: Bytes, piece: Bytes, slices: Option<seq<Bytes>>, decoded: Option<Bytes>)
    requires SlicesMatch([], slices, decoded)
    ensures SlicesMatch(plain, PrependSlices([plain, piece], slices), Prepend(piece, decoded))
  {
    if decoded.Some? {
      assert [] + decoded.value == decoded.value;
      FlattenPair(plain, piece, slices.value);
    }
  }

  lemma {:induction false} SlicesConcatenate(plain: Bytes, body: Bytes)
    ensures SlicesMatch(plain, SliceBody(plain, body), DecodeBody(body))
    decreases |body|
  {
    if body == [] {
      assert [plain][..0] == [] && Flatten([plain]) == plain && plain + [] == plain;
    } else if !Forbidden(body[0]) && body[0] != BACKSLASH {
      SlicesConcatenate(plain + [body[0]], body[1..]);
      PlainSlicesMatch(plain, body[0], SliceBody(plain + [body[0]], body[1..]), DecodeBody(body[1..]));
    } else if body[0] == BACKSLASH && Escape(body).Some? {
      var (piece, n) := Escape(body).value;
      SlicesConcatenate([], body[n..]);
      PieceSlicesMatch(plain, piece, SliceBody([], body[n..]), DecodeBody(body[n..]));
    }
  }

  /** The slices are there exactly when the value decodes, and they concatenate to the decoded text. */
  lemma SlicesAreTheDecodedText(value: Bytes)
    ensures Slices(value).Some? <==> Decode(value).Some?
    ensures Slices(value).Some? ==> Flatten(Slices(value).value) == Decode(value).value
  {
    if Quoted(value) {
      var body := value[1..|value| - 1];
      SlicesConcatenate([], body);
      if DecodeBody(body).Some? { assert [] + DecodeBody(body).value == DecodeBody(body).value; }
    }
  }

  lemma FoldMore<A>(visit: (A, Bytes) -> Option<A>, init: A, slices: seq<Bytes>, slice: Bytes)
    ensures Fold(visit, init, slices + [slice]) ==
      match Fold(visit, init, slices) case None => None case Some(acc) => visit(acc, slice)
  {
    assert (slices + [slice])[..|slices|] == slices;
  }

  // A visitor that has refused sees no more.
  lemma {:induction false} FoldStops<A>(visit: (A, Bytes) -> Option<A>, init: A, slices: seq<Bytes>, more: seq<Bytes>)
    requires Fold(visit, init, slices).None?
    ensures Fold(visit, init, slices + more).None?
    decreases |more|
  {
    if more == [] {
      assert slices + more == slices;
    } else {
      FoldStops(visit, init, slices, more[..|more| - 1]);
      assert (slices + more)[..|slices + more| - 1] == slices + more[..|more| - 1];
    }
  }

  lemma HexUnitShift(bytes: Bytes, from: nat, start: nat)
    requires from <= start && from <= |bytes|
    ensures HexUnit(bytes, start) == HexUnit(bytes[from..], start - from)
  {}

  function HexPrefix(bytes: Bytes, start: nat, i: nat): Option<int>
    requires start + i <= |bytes|
  {
    if i == 0 then Some(0)
    else
      var (high, digit) := (HexPrefix(bytes, start, i - 1), HexValue(bytes[start + i - 1]));
      if high.None? || digit.None? then None else Some(high.value * 16 + digit.value)
  }

  // Horner's scheme against the positional weights.
  lemma {:induction false} HexPrefixIsUnit(bytes: Bytes, start: nat, i: nat)
    requires start + 4 <= |bytes| && i <= 4
    ensures HexPrefix(bytes, start, i).None? ==> HexUnit(bytes, start).None?
    ensures HexPrefix(bytes, start, 4) == HexUnit(bytes, start)
    decreases 4 - i
  {
    if i < 4 {
      HexPrefixIsUnit(bytes, start, i + 1);
    } else {
      var p1, p2, p3 := HexPrefix(bytes, start, 1), HexPrefix(bytes, start, 2), HexPrefix(bytes, start, 3);
      assert p1 == HexValue(bytes[start]) by { assert HexPrefix(bytes, start, 0) == Some(0); }
    }
  }

  method ParseHexEscape(bytes: Bytes, start: nat) returns (r: Option<(int, nat)>)
    ensures r == match HexUnit(bytes, start) case None => None case Some(unit) => Some((unit, start + 4))
  {
    if start + 4 > |bytes| { return None; }
    var value := 0;
    for i := 0 to 4
      invariant HexPrefix(bytes, start, i) == Some(value)
    {
      var digit := HexValue(bytes[start + i]);
      HexPrefixIsUnit(bytes, start, i + 1);
      if digit.None? { return None; }
      value := value * 16 + digit.value;
    }
    HexPrefixIsUnit(bytes, start, 4);
    return Some((value, start + 4));
  }

  lemma PrependSlicesTwice(a: seq<Bytes>, b: seq<Bytes>, r: Option<seq<Bytes>>)
    ensures PrependSlices(a, PrependSlices(b, r)) == PrependSlices(a + b, r)
  {
    if r.Some? { assert a + (b + r.value) == a + b + r.value; }
  }

  // What the loop knows: the slices handed over come before those of the pending plain run and what is left.
  ghost predicate Progress(bytes: Bytes, slices: seq<Bytes>, plainStart: nat, index: nat) {
    && plainStart <= index <= |bytes|
    && SliceBody([], bytes) == PrependSlices(slices, SliceBody(bytes[plainStart..index], bytes[index..]))
  }

  lemma ProgressStarts(bytes: Bytes)
    ensures Progress(bytes, [], 0, 0)
  {
    assert bytes[0..] == bytes && bytes[0..0] == [];
    if SliceBody([], bytes).Some? { assert [] + SliceBody([], bytes).value == SliceBody([], bytes).value; }
  }

  lemma PlainByte(bytes: Bytes, slices: seq<Bytes>, plainStart: nat, index: nat)
    requires Progress(bytes, slices, plainStart, index)
    requires index < |bytes| && !Forbidden(bytes[index]) && bytes[index] != BACKSLASH
    ensures Progress(bytes, slices, plainStart, index + 1)
  {
    assert bytes[index..][1..] == bytes[index + 1..];
    assert bytes[plainStart..index] + [bytes[index]] == bytes[plainStart..index + 1];
  }

  lemma EscapedPiece(bytes: Bytes, slices: seq<Bytes>, plainStart: nat, index: nat, piece: Bytes, n: nat)
    requires Progress(bytes, slices, plainStart, index)
    requires index < |bytes| && bytes[index] == BACKSLASH && Escape(bytes[index..]) == Some((piece, n))
    ensures index + n <= |bytes|
    ensures Progress(bytes, slices + [bytes[plainStart..index]] + [piece], index + n, index + n)
  {
    var plain := bytes[plainStart..index];
    var rest := SliceBody([], bytes[index + n..]);
    assert SliceBody(plain, bytes[index..]) == PrependSlices([plain, piece], rest) by {
      assert bytes[index..][n..] == bytes[index + n..];
    }
    PrependSlicesTwice(slices, [plain, piece], rest);
    assert slices + [plain] + [piece] == slices + [plain, piece];
    assert bytes[index + n..index + n] == [];
  }

  // The visitor refused one of the slices handed over, or the pending plain run: so it refuses the whole.
  lemma RefusedEarly<A>(visit: (A, Bytes) -> Option<A>, init: A, bytes: Bytes, slices: seq<Bytes>, plainStart: nat,
                        index: nat)
    requires Progress(bytes, slices, plainStart, index) && Fold(visit, init, slices).None?
    ensures SliceBody([], bytes).Some? ==> Fold(visit, init, SliceBody([], bytes).value).None?
  {
    var rest := SliceBody(bytes[plainStart..index], bytes[index..]);
    if rest.Some? { FoldStops(visit, init, slices, rest.value); }
  }

  lemma RefusedPlain<A>(visit: (A, Bytes) -> Option<A>, init: A, bytes: Bytes, slices: seq<Bytes>, plainStart: nat,
                        index: nat)
    requires Progress(bytes, slices, plainStart, index)
    requires index < |bytes| && bytes[index] == BACKSLASH
    requires Fold(visit, init, slices + [bytes[plainStart..index]]).None?
    ensures SliceBody([], bytes).Some? ==> Fold(visit, init, SliceBody([], bytes).value).None?
  {
    if SliceBody([], bytes).Some? {
      var (piece, n) := Escape(bytes[index..]).value;
      EscapedPiece(bytes, slices, plainStart, index, piece, n);
      FoldStops(visit, init, slices + [bytes[plainStart..index]], [piece]);
      RefusedEarly(visit, init, bytes, slices + [bytes[plainStart..index]] + [piece], index + n, index + n);
    }
  }

  lemma ProgressEnds(bytes: Bytes, slices: seq<Bytes>, plainStart: nat)
    requires Progress(bytes, slices, plainStart, |bytes|)
    ensures SliceBody([], bytes) == Some(slices + [bytes[plainStart..]])
  {
    assert bytes[|bytes|..] == [];
    assert bytes[plainStart..|bytes|] == bytes[plainStart..];
  }

  lemma DeadEnd(bytes: Bytes, slices: seq<Bytes>, plainStart: nat, index: nat)
    requires Progress(bytes, slices, plainStart, index) && index < |bytes|
    requires Forbidden(bytes[index]) || (bytes[index] == BACKSLASH && Escape(bytes[index..]).None?)
    ensures SliceBody([], bytes).None?
  {}

  /** The escape at `at`, read as the loop does: None where the loop bails out. */
  method ReadEscape(bytes: Bytes, at: nat) returns (r: Option<(Bytes, nat)>)
    requires at < |bytes| && bytes[at] == BACKSLASH
    ensures r == match Escape(bytes[at..]) case None => None case Some((piece, n)) => Some((piece, at + n))
  {
    ghost var text := bytes[at..];
    var index := at + 1;
    if index >= |bytes| { return None; }
    var escape := bytes[index];
    index := index + 1;
    if escape != LETTER_U {
      var short := ShortEscape(escape);
      if short.None? { return None; }
      return Some(([short.value], index));
    }
    HexUnitShift(bytes, at, index);
    var first := ParseHexEscape(bytes, index);
    if first.None? { return None; }
    var (scalar, next) := first.value;
    index := next;
    if 0xD800 <= scalar <= 0xDBFF {
      if index + 2 > |bytes| || bytes[index] != BACKSLASH || bytes[index + 1] != LETTER_U { return None; }
      HexUnitShift(bytes, at, index + 2);
      var second := ParseHexEscape(bytes, index + 2);
      if second.None? { return None; }
      var (low, after) := second.value;
      if !(0xDC00 <= low <= 0xDFFF) { return None; }
      scalar := 0x1_0000 + (scalar - 0xD800) * 1024 + (low - 0xDC00);
      index := after;
    }
    if !IsScalar(scalar) { return None; }
    return Some((EncodeUtf8(scalar), index));
  }

  /** Hands over the pending plain run and the character of the escape after it. */
  method TakeEscape<A>(bytes: Bytes, ghost init: A, visit: (A, Bytes) -> Option<A>, acc: A, ghost slices: seq<Bytes>,
                       plainStart: nat, index: nat)
    returns (r: Option<(A, nat)>, ghost slices': seq<Bytes>)
    requires Progress(bytes, slices, plainStart, index) && Fold(visit, init, slices) == Some(acc)
    requires index < |bytes| && bytes[index] == BACKSLASH
    ensures r.Some? ==>
              && index < r.value.1 && Progress(bytes, slices', r.value.1, r.value.1)
              && Fold(visit, init, slices') == Some(r.value.0)
    ensures r.None? ==> (SliceBody([], bytes).Some? ==> Fold(visit, init, SliceBody([], bytes).value).None?)
  {
    slices' := slices;
    FoldMore(visit, init, slices, bytes[plainStart..index]);
    var visited := visit(acc, bytes[plainStart..index]);
    if visited.None? {
      RefusedPlain(visit, init, bytes, slices, plainStart, index);
      return None, slices';
    }
    var escaped := ReadEscape(bytes, index);
    if escaped.None? {
      DeadEnd(bytes, slices, plainStart, index);
      return None, slices';
    }
    var (piece, next) := escaped.value;
    EscapedPiece(bytes, slices, plainStart, index, piece, next - index);
    FoldMore(visit, init, slices + [bytes[plainStart..index]], piece);
    slices' := slices + [bytes[plainStart..index]] + [piece];
    visited := visit(visited.value, piece);
    if visited.None? {
      RefusedEarly(visit, init, bytes, slices', next, next);
      return None, slices';
    }
    return Some((visited.value, next)), slices';
  }

  /** The loop hands exactly the slices of the value to the visitor, in order; it refuses exactly when the text does
      not decode or the visitor refuses a slice. */
  method VisitJsonString<A>(value: Bytes, init: A, visit: (A, Bytes) -> Option<A>) returns (r: Option<A>)
    ensures r == if Slices(value).Some? then Fold(visit, init, Slices(value).value) else None
  {
    if |value| < 2 || value[0] != QUOTE || value[|value| - 1] != QUOTE { return None; }
    var bytes := value[1..|value| - 1];
    ghost var slices: seq<Bytes> := [];
    var acc := init;
    var index: nat, plainStart: nat := 0, 0;
    ProgressStarts(bytes);
    while index < |bytes|
      invariant Progress(bytes, slices, plainStart, index)
      invariant Fold(visit, init, slices) == Some(acc)
      decreases |bytes| - index
    {
      if Forbidden(bytes[index]) {
        DeadEnd(bytes, slices, plainStart, index);
        return None;
      }
      if bytes[index] != BACKSLASH {
        PlainByte(bytes, slices, plainStart, index);
        index := index + 1;
        continue;
      }
      var taken;
      taken, slices := TakeEscape(bytes, init, visit, acc, slices, plainStart, index);
      if taken.None? { return None; }
      acc := taken.value.0;
      index := taken.value.1;
      plainStart := index;
    }
    ProgressEnds(bytes, slices, plainStart);
    FoldMore(visit, init, slices, bytes[plainStart..]);
    r := visit(acc, bytes[plainStart..]);
  }

  // ---------------------------------------------------------------- the callers

  // The visitors: append below a limit, count bytes, and remember the first byte while refusing NUL.
  function Collect(limit: nat): (Bytes, Bytes) -> Option<Bytes> {
    (acc: Bytes, slice: Bytes) => if |acc| + |slice| > limit then None else Some(acc + slice)
  }

  function Count(): (nat, Bytes) -> Option<nat> {
    (acc: nat, slice: Bytes) => Some(acc + |slice|)
  }

  function PathFirst(): (Option<Byte>, Bytes) -> Option<Option<Byte>> {
    (acc: Option<Byte>, slice: Bytes) =>
      if 0 in slice then None else if acc.None? && slice != [] then Some(Some(slice[0])) else Some(acc)
  }

  lemma {:induction false} CollectFolds(limit: nat, slices: seq<Bytes>)
    ensures Fold(Collect(limit), [], slices) == if |Flatten(slices)| <= limit then Some(Flatten(slices)) else None
    decreases |slices|
  {
    if slices != [] { CollectFolds(limit, slices[..|slices| - 1]); }
  }

  lemma {:induction false} CountFolds(slices: seq<Bytes>)
    ensures Fold(Count(), 0, slices) == Some(|Flatten(slices)|)
    decreases |slices|
  {
    if slices != [] { CountFolds(slices[..|slices| - 1]); }
  }

  lemma {:induction false} PathFirstFolds(slices: seq<Bytes>)
    ensures var out := Flatten(slices);
      Fold(PathFirst(), None, slices)
        == if 0 in out then None else if out == [] then Some(None) else Some(Some(out[0]))
    decreases |slices|
  {
    if slices != [] {
      var init, last := slices[..|slices| - 1], slices[|slices| - 1];
      PathFirstFolds(init);
      assert Flatten(slices) == Flatten(init) + last;
      assert 0 in Flatten(slices) <==> 0 in Flatten(init) || 0 in last;
    }
  }

  /** An identifier is read whole exactly when it decodes to at most `limit` bytes. */
  method CollectSmallJsonString(value: Bytes, limit: nat) returns (r: Option<Bytes>)
    ensures r == if Decode(value).Some? && |Decode(value).value| <= limit then Decode(value) else None
  {
    r := VisitJsonString(value, [], Collect(limit));
    SlicesAreTheDecodedText(value);
    if Slices(value).Some? { CollectFolds(limit, Slices(value).value); }
  }

  /** A string is accepted as such exactly when it decodes. */
  method ValidateJsonString(value: Bytes) returns (ok: bool)
    ensures ok <==> Decode(value).Some?
  {
    var seen := VisitJsonString(value, 0, Count());
    SlicesAreTheDecodedText(value);
    if Slices(value).Some? { CountFolds(Slices(value).value); }
    ok := seen.Some?;
  }

  method RequireNonemptyJsonString(value: Bytes) returns (ok: bool)
    ensures ok <==> Decode(value).Some? && Decode(value).value != []
  {
    var count := VisitJsonString(value, 0, Count());
    SlicesAreTheDecodedText(value);
    if Slices(value).Some? { CountFolds(Slices(value).value); }
    ok := count.Some? && count.value != 0;
  }

  /** A managed path is accepted exactly when it decodes, starts with a slash and holds no NUL. */
  method ManagedPathIsAbsolute(value: Bytes) returns (ok: bool)
    ensures ok <==> Decode(value).Some? && 0 !in Decode(value).value && Decode(value).value != []
                    && Decode(value).value[0] == SLASH
  {
    var first := VisitJsonString(value, None, PathFirst());
    SlicesAreTheDecodedText(value);
    if Slices(value).Some? { PathFirstFolds(Slices(value).value); }
    ok := first == Some(Some(SLASH));
  }
}
