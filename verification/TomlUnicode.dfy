/** The `\u` and `\U` escapes of string literals, and UTF-8 as RFC 3629 defines it. */
module TomlUnicode {
  import opened Basics
  import opened TomlText

  function HexDigit(c: char): nat {
    if IsDigit(c) then (c - '0') as nat
    else if 'A' <= c <= 'F' then (c - 'A') as nat + 10
    else if 'a' <= c <= 'f' then (c - 'a') as nat + 10
    else 0
  }

  /** What `ss >> std::hex >> x` reads from at most eight hexadecimal digits. */
  function HexValue(digits: string): nat {
    if digits == "" then 0
    else 16 * HexValue(digits[..|digits| - 1]) + HexDigit(digits[|digits| - 1])
  }

  /** The bytes stored for a code point, up to the terminating zero byte; the masks and
      shifts of the source are these quotients and remainders (MasksAreRemainders). */
  function Encode(x: nat): string {
    if x == 0 then ""
    else if x <= 0x7F then [x as char]
    else if x <= 0x7FF then
      [(0xC0 + x / 0x40) as char, (0x80 + x % 0x40) as char]
    else if x <= 0xFFFF then
      [(0xE0 + x / 0x1000) as char, (0x80 + x / 0x40 % 0x40) as char, (0x80 + x % 0x40) as char]
    else if x <= 0x10FFFF then
      [(0xF0 + x / 0x40000) as char, (0x80 + x / 0x1000 % 0x40) as char,
       (0x80 + x / 0x40 % 0x40) as char, (0x80 + x % 0x40) as char]
    else ""
  }

  function Unescape(codepoint: string): string { Encode(HexValue(codepoint)) }

  /** Each byte as the source computes it, before it is stored in eight bits. */
  lemma MasksAreRemainders(x: bv32)
    ensures x <= 0x7F ==> 0x00 | (x & 0x7F) == x
    ensures x <= 0x7FF ==> (0xC0 | ((x >> 6) & 0xDF)) & 0xFF == 0xC0 + x / 0x40
    ensures x <= 0xFFFF ==> (0xE0 | ((x >> 12) & 0xEF)) & 0xFF == 0xE0 + x / 0x1000
    ensures x <= 0x10FFFF ==> (0xF0 | ((x >> 18) & 0xF7)) & 0xFF == 0xF0 + x / 0x40000
    ensures (0x80 | ((x >> 12) & 0xBF)) & 0xFF == 0x80 + x / 0x1000 % 0x40
    ensures (0x80 | ((x >> 6) & 0xBF)) & 0xFF == 0x80 + x / 0x40 % 0x40
    ensures (0x80 | (x & 0xBF)) & 0xFF == 0x80 + x % 0x40
  {
  }

  // ---------- RFC 3629

  /** The characters UTF-8 can encode: no surrogates (section 3). */
  predicate IsScalar(x: nat) { x <= 0x10FFFF && !(0xD800 <= x <= 0xDFFF) }

  predicate IsTail(b: char) { 0x80 <= b as int <= 0xBF }

  function Payload(b: char): nat
    requires IsTail(b)
  {
    b as int - 0x80
  }

  /** The code point at the front of a byte sequence and the number of its bytes, by the
      ABNF of section 4; (0, 0) when no well-formed sequence starts there. */
  function DecodeFirst(s: string): (nat, nat) {
    if s == "" then (0, 0) else
      var b := s[0] as int;
      if b <= 0x7F then (b, 1)
      else if 0xC2 <= b <= 0xDF && |s| >= 2 && IsTail(s[1]) then
        ((b - 0xC0) * 0x40 + Payload(s[1]), 2)
      else if 0xE0 <= b <= 0xEF && |s| >= 3 && IsTail(s[1]) && IsTail(s[2])
              && (b == 0xE0 ==> s[1] as int >= 0xA0) && (b == 0xED ==> s[1] as int <= 0x9F) then
        ((b - 0xE0) * 0x1000 + Payload(s[1]) * 0x40 + Payload(s[2]), 3)
      else if 0xF0 <= b <= 0xF4 && |s| >= 4 && IsTail(s[1]) && IsTail(s[2]) && IsTail(s[3])
              && (b == 0xF0 ==> s[1] as int >= 0x90) && (b == 0xF4 ==> s[1] as int <= 0x8F) then
        ((b - 0xF0) * 0x40000 + Payload(s[1]) * 0x1000 + Payload(s[2]) * 0x40 + Payload(s[3]), 4)
      else (0, 0)
  }

  /** The code points of a UTF-8 byte sequence, None when it is not well formed. */
  function Decode(s: string): Option<seq<nat>> {
    if s == "" then Some([]) else
      var (x, n) := DecodeFirst(s);
      if n == 0 || n > |s| then None else
        match Decode(s[n..])
        case None => None
        case Some(xs) => Some([x] + xs)
  }

  lemma EncodeThenDecodeFirst(x: nat, rest: string)
    requires IsScalar(x) && x != 0
    ensures Encode(x) != "" && DecodeFirst(Encode(x) + rest) == (x, |Encode(x)|)
  {
    if x <= 0x7FF {
    } else if x <= 0xFFFF {
      ThreeBytes(x, rest);
    } else {
      FourBytes(x, rest);
    }
  }

  lemma ThreeBytes(x: nat, rest: string)
    requires IsScalar(x) && 0x800 <= x <= 0xFFFF
    ensures DecodeFirst(Encode(x) + rest) == (x, 3)
  {
    var s := Encode(x) + rest;
    var h, m, l := x / 0x1000, x / 0x40 % 0x40, x % 0x40;
    assert x == h * 0x1000 + m * 0x40 + l;
    assert s[0] as int == 0xE0 + h && s[1] as int == 0x80 + m && s[2] as int == 0x80 + l;
  }

  lemma FourBytes(x: nat, rest: string)
    requires 0x10000 <= x <= 0x10FFFF
    ensures DecodeFirst(Encode(x) + rest) == (x, 4)
  {
    var u, h, m, l := x / 0x40000, x / 0x1000 % 0x40, x / 0x40 % 0x40, x % 0x40;
    FourGroups(x);
    FourBytesDecode(u, h, m, l, rest);
  }

  lemma FourGroups(x: nat)
    requires 0x10000 <= x <= 0x10FFFF
    ensures x == x / 0x40000 * 0x40000 + x / 0x1000 % 0x40 * 0x1000 + x / 0x40 % 0x40 * 0x40 + x % 0x40
    ensures x / 0x40000 <= 4
    ensures x / 0x40000 == 0 ==> x / 0x1000 % 0x40 >= 0x10
    ensures x / 0x40000 == 4 ==> x / 0x1000 % 0x40 < 0x10
  {
    var a, b := x / 0x40, x / 0x1000;
    assert b == a / 0x40;
    assert x / 0x40000 == b / 0x40;
  }

  lemma FourBytesDecode(u: nat, h: nat, m: nat, l: nat, rest: string)
    requires u <= 4 && h < 0x40 && m < 0x40 && l < 0x40
    requires (u == 0 ==> h >= 0x10) && (u == 4 ==> h < 0x10)
    ensures DecodeFirst([(0xF0 + u) as char, (0x80 + h) as char, (0x80 + m) as char, (0x80 + l) as char] + rest)
            == (u * 0x40000 + h * 0x1000 + m * 0x40 + l, 4)
  {
  }

  function EncodeAll(xs: seq<nat>): string {
    if xs == [] then "" else Encode(xs[0]) + EncodeAll(xs[1..])
  }

  /** The bytes of any scalar values but zero decode to those values. */
  lemma {:induction false} DecodeEncodes(xs: seq<nat>)
    requires forall i :: 0 <= i < |xs| ==> IsScalar(xs[i]) && xs[i] != 0
    ensures Decode(EncodeAll(xs)) == Some(xs)
  {
    if xs != [] {
      EncodeThenDecodeFirst(xs[0], EncodeAll(xs[1..]));
      DecodeEncodes(xs[1..]);
      assert EncodeAll(xs)[|Encode(xs[0])|..] == EncodeAll(xs[1..]);
      assert [xs[0]] + xs[1..] == xs;
    }
  }

  // ---------- writing an escape

  function HexChar(d: nat, lower: bool): char
    requires d < 16
  {
    if lower then "0123456789abcdef"[d] else "0123456789ABCDEF"[d]
  }

  /** The n lowest hexadecimal digits of x. */
  function HexText(x: nat, n: nat, lower: bool): (s: string)
    ensures |s| == n && All(s, IsHex)
  {
    if n == 0 then "" else HexText(x / 16, n - 1, lower) + [HexChar(x % 16, lower)]
  }

  function Power16(n: nat): nat { if n == 0 then 1 else 16 * Power16(n - 1) }

  lemma HexCharReads(d: nat, lower: bool)
    requires d < 16
    ensures HexDigit(HexChar(d, lower)) == d
  {
  }

  lemma {:induction false} HexTextReads(x: nat, n: nat, lower: bool)
    requires x < Power16(n)
    ensures HexValue(HexText(x, n, lower)) == x
  {
    if n > 0 {
      HexTextReads(x / 16, n - 1, lower);
      var s := HexText(x, n, lower);
      assert s[..n - 1] == HexText(x / 16, n - 1, lower) && s[n - 1] == HexChar(x % 16, lower);
      HexCharReads(x % 16, lower);
    }
  }

  lemma Power16Of8()
    ensures Power16(4) == 0x1_0000 && Power16(8) == 0x1_0000_0000
  {
    assert Power16(4) == 0x1_0000;
    assert Power16(6) == 0x100_0000;
  }
}
