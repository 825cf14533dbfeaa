/** Characters, decimal text and the escaping helpers of the TOML reader and writer.

    Text is a sequence of characters, one per byte of the original; the character
    classes are those of the "C" locale, so no byte above 127 is alphanumeric. */
module TomlText {

  predicate IsDigit(c: char) { '0' <= c <= '9' }

  predicate IsAlpha(c: char) { 'a' <= c <= 'z' || 'A' <= c <= 'Z' }

  /** The characters of a bare key. */
  predicate IsKeyChar(c: char) { IsAlpha(c) || IsDigit(c) || c == '_' || c == '-' }

  predicate IsHex(c: char) { IsDigit(c) || 'A' <= c <= 'F' || 'a' <= c <= 'f' }

  /** The characters that can occur in a number or a time. */
  predicate IsValueChar(c: char) {
    || IsDigit(c) || c == '.' || c == 'e' || c == 'E' || c == 'T' || c == 'Z'
    || c == '_' || c == ':' || c == '-' || c == '+'
  }

  predicate IsBlank(c: char) { c == ' ' || c == '\t' }

  predicate IsSpace(c: char) { c == ' ' || c == '\t' || c == '\r' || c == '\n' }

  predicate All(s: string, p: char -> bool) { forall i :: 0 <= i < |s| ==> p(s[i]) }

  /** The rest of a text does not go on with a character of the given class. */
  predicate Stops(rest: string, p: char -> bool) { rest == "" || !p(rest[0]) }

  /** How many characters at the front of s satisfy p. */
  function Run(s: string, p: char -> bool): (n: nat)
    ensures n <= |s| && All(s[..n], p) && Stops(s[n..], p)
  {
    if s == "" || !p(s[0]) then 0 else
      var n := Run(s[1..], p);
      assert s[..n + 1] == [s[0]] + s[1..][..n];
      n + 1
  }

  lemma {:induction false} RunOf(a: string, rest: string, p: char -> bool)
    requires All(a, p) && Stops(rest, p)
    ensures Run(a + rest, p) == |a| && (a + rest)[..|a|] == a && (a + rest)[|a|..] == rest
  {
    if a == "" {
      assert a + rest == rest;
    } else {
      assert (a + rest)[1..] == a[1..] + rest;
      RunOf(a[1..], rest, p);
    }
  }

  /** The number of line feeds in s. */
  function Newlines(s: string): nat {
    if s == "" then 0 else Newlines(s[..|s| - 1]) + if s[|s| - 1] == '\n' then 1 else 0
  }

  // ---------- decimal text

  type int64 = x: int | -0x8000_0000_0000_0000 <= x <= 0x7FFF_FFFF_FFFF_FFFF

  function DigitChar(d: nat): char
    requires d < 10
  {
    '0' + d as char
  }

  function NatText(n: nat): (s: string)
    ensures s != "" && All(s, IsDigit)
  {
    if n < 10 then [DigitChar(n)] else NatText(n / 10) + [DigitChar(n % 10)]
  }

  /** What `os << i` writes for an integer. */
  function IntText(i: int): string {
    if i < 0 then "-" + NatText(-i) else NatText(i)
  }

  function NatValue(s: string): nat
    requires All(s, IsDigit)
  {
    if s == "" then 0 else 10 * NatValue(s[..|s| - 1]) + (s[|s| - 1] - '0') as nat
  }

  function Saturate(i: int): int64 {
    if i < -0x8000_0000_0000_0000 then -0x8000_0000_0000_0000
    else if i > 0x7FFF_FFFF_FFFF_FFFF then 0x7FFF_FFFF_FFFF_FFFF
    else i
  }

  function DropSign(s: string): string {
    if s != "" && (s[0] == '+' || s[0] == '-') then s[1..] else s
  }

  /** What `ss >> x` extracts into a 64-bit integer: a text without digits gives 0 and a
      number out of range the nearest bound. */
  function ToInt64(s: string): int64
    requires All(DropSign(s), IsDigit)
  {
    var n: int := NatValue(DropSign(s));
    Saturate(if s != "" && s[0] == '-' then -n else n)
  }

  lemma {:induction false} NatValueOfText(n: nat)
    ensures NatValue(NatText(n)) == n
  {
    if n < 10 {
      assert NatText(n)[..0] == "";
      assert NatValue("") == 0;
    } else {
      NatValueOfText(n / 10);
      assert NatText(n)[..|NatText(n)| - 1] == NatText(n / 10);
    }
  }

  lemma {:induction false} IntTextShape(i: int)
    ensures IntText(i) != "" && DropSign(IntText(i)) == NatText(if i < 0 then -i else i)
    ensures All(IntText(i), IsValueChar)
  {
    if i < 0 {
      assert IntText(i)[1..] == NatText(-i);
      assert forall k :: 0 < k < |IntText(i)| ==> IntText(i)[k] == NatText(-i)[k - 1];
    } else {
      assert IsDigit(IntText(i)[0]);
    }
  }

  /** Reading back a printed 64-bit integer. */
  lemma {:induction false} IntTextReads(i: int64)
    ensures All(DropSign(IntText(i)), IsDigit)
    ensures ToInt64(IntText(i)) == i
  {
    var n: int := i;
    IntTextShape(n);
    NatValueOfText(if n < 0 then -n else n);
    assert IsDigit(NatText(if n < 0 then -n else n)[0]);
  }

  // ---------- removing delimiters and escaping

  function RemoveDelimiter(s: string): string {
    if s == "" then "" else (if s[0] == '_' then "" else [s[0]]) + RemoveDelimiter(s[1..])
  }

  method StripDelimiter(s: string) returns (r: string)
    ensures r == RemoveDelimiter(s)
  {
    r := "";
    for i := 0 to |s|
      invariant r + RemoveDelimiter(s[i..]) == RemoveDelimiter(s)
    {
      if s[i] != '_' {
        r := r + [s[i]];
      }
    }
  }

  function EscapeChar(c: char): string {
    match c
    case '\n' => "\\n"
    case '\r' => "\\r"
    case '\t' => "\\t"
    case '\"' => "\\\""
    case '\'' => "\\\'"
    case '\\' => "\\\\"
    case _ => [c]
  }

  function EscapeString(s: string): string {
    if s == "" then "" else EscapeChar(s[0]) + EscapeString(s[1..])
  }

  method Escape(s: string) returns (r: string)
    ensures r == EscapeString(s)
  {
    hide EscapeChar;
    r := "";
    for i := 0 to |s|
      invariant r + EscapeString(s[i..]) == EscapeString(s)
    {
      ghost var before, rest := r, EscapeString(s[i + 1..]);
      assert s[i..][1..] == s[i + 1..];
      assert before + (EscapeChar(s[i]) + rest) == (before + EscapeChar(s[i])) + rest;
      r := r + EscapeChar(s[i]);
    }
  }

  /** A string literal as the writer prints it. */
  function Quoted(s: string): string { "\"" + EscapeString(s) + "\"" }

  predicate IsBare(key: string) { key != "" && All(key, IsKeyChar) }

  function EscapeKeyBody(s: string): string {
    if s == "" then "" else
      (if s[0] == '\\' || s[0] == '\"' then ['\\', s[0]] else [s[0]]) + EscapeKeyBody(s[1..])
  }

  /** Keys with other characters than those of a bare key are quoted. The empty key is
      printed as nothing at all. */
  function EscapeKey(key: string): string {
    if All(key, IsKeyChar) then key else "\"" + EscapeKeyBody(key) + "\""
  }

  method WriteKey(key: string) returns (r: string)
    ensures r == EscapeKey(key)
  {
    var position := 0;
    while position < |key| && IsKeyChar(key[position])
      invariant position <= |key| && All(key[..position], IsKeyChar)
    {
      position := position + 1;
    }
    if position == |key| {
      assert key[..position] == key;
      return key;
    }
    assert !IsKeyChar(key[position]);
    r := "\"";
    for i := 0 to |key|
      invariant r + EscapeKeyBody(key[i..]) == "\"" + EscapeKeyBody(key)
    {
      if key[i] == '\\' || key[i] == '\"' {
        r := r + "\\";
      }
      r := r + [key[i]];
    }
    r := r + "\"";
  }
}
