/** Binary data as text, two lower-case hexadecimal digits a byte. */
module SwigPack {
  import opened Basics

  function HexDigit(n: nat): char
    requires n < 16
  {
    if n < 10 then '0' + n as char else 'a' + (n - 10) as char
  }

  function Digit(d: char): (v: Option<nat>)
    ensures v.Some? ==> v.value < 16 && HexDigit(v.value) == d
  {
    if '0' <= d <= '9' then Some(d as int - '0' as int)
    else if 'a' <= d <= 'f' then Some(d as int - 'a' as int + 10)
    else None
  }

  lemma DigitOfHex(n: nat)
    requires n < 16
    ensures Digit(HexDigit(n)) == Some(n)
  {
  }

  function Digits(b: byte): (text: string)
    ensures |text| == 2
  {
    [HexDigit(b / 16), HexDigit(b % 16)]
  }

  function Packed(data: seq<byte>): (text: string)
    ensures |text| == 2 * |data|
  {
    if data == [] then "" else Digits(data[0]) + Packed(data[1..])
  }

  /** The bytes of the first 2 * size characters, when all of them are digits. */
  function Unpacked(text: string, size: nat): (data: Option<seq<byte>>)
    ensures data.Some? ==> |data.value| == size
  {
    if size == 0 then Some([])
    else if |text| < 2 || Digit(text[0]).None? || Digit(text[1]).None? then None
    else match Unpacked(text[2..], size - 1)
      case None => None
      case Some(rest) => Some([Digit(text[0]).value * 16 + Digit(text[1]).value] + rest)
  }

  /** Bytes with others in front of them. */
  function Joined(done: seq<byte>, rest: Option<seq<byte>>): Option<seq<byte>> {
    if rest.None? then None else Some(done + rest.value)
  }

  predicate StartsWithByte(text: string) {
    |text| >= 2 && Digit(text[0]).Some? && Digit(text[1]).Some?
  }

  function FirstByte(text: string): byte
    requires StartsWithByte(text)
  {
    Digit(text[0]).value * 16 + Digit(text[1]).value
  }

  lemma {:induction false} UnpackedStep(text: string, size: nat, done: seq<byte>)
    ensures size == 0 ==> Joined(done, Unpacked(text, size)) == Some(done)
    ensures size > 0 && !StartsWithByte(text) ==> Joined(done, Unpacked(text, size)) == None
    ensures size > 0 && StartsWithByte(text) ==>
      (Joined(done, Unpacked(text, size)) == Joined(done + [FirstByte(text)], Unpacked(text[2..], size - 1)))
  {
    if size == 0 {
      assert done + [] == done;
    } else if StartsWithByte(text) && Unpacked(text[2..], size - 1).Some? {
      var b, rest := FirstByte(text), Unpacked(text[2..], size - 1).value;
      assert done + ([b] + rest) == (done + [b]) + rest;
    }
  }

  lemma DigitsRead(b: byte, rest: string)
    ensures var text := Digits(b) + rest; StartsWithByte(text) && FirstByte(text) == b && text[2..] == rest
  {
    DigitOfHex(b / 16);
    DigitOfHex(b % 16);
  }

  /** Unpacking gives back what was packed, whatever follows. */
  lemma {:induction false} PackThenUnpack(data: seq<byte>, rest: string)
    ensures Unpacked(Packed(data) + rest, |data|) == Some(data)
  {
    hide Digits, StartsWithByte, FirstByte;
    var text := Packed(data) + rest;
    UnpackedStep(text, |data|, []);
    if data != [] {
      DigitsRead(data[0], Packed(data[1..]) + rest);
      assert text == Digits(data[0]) + (Packed(data[1..]) + rest);
      PackThenUnpack(data[1..], rest);
      assert [] + [data[0]] + data[1..] == data;
    }
    var all := Unpacked(text, |data|);
    assert all.Some? ==> [] + all.value == all.value;
  }

  /** What can be unpacked is the packed form of what it unpacks to. */
  lemma {:induction false} UnpackThenPack(text: string, size: nat)
    requires Unpacked(text, size).Some?
    ensures |text| >= 2 * size && Packed(Unpacked(text, size).value) == text[..2 * size]
  {
    if size > 0 {
      UnpackThenPack(text[2..], size - 1);
      var b := Unpacked(text, size).value[0];
      assert b / 16 == Digit(text[0]).value && b % 16 == Digit(text[1]).value;
      assert text[..2 * size] == [text[0], text[1]] + text[2..][..2 * (size - 1)];
    }
  }

  const DIGITS := "0123456789abcdef"

  /** The characters for the i-th byte: first its high half, then its low half. */
  lemma {:induction false} PackedAt(data: seq<byte>, i: nat)
    requires i < |data|
    ensures Packed(data)[2 * i] == DIGITS[data[i] / 16] && Packed(data)[2 * i + 1] == DIGITS[data[i] % 16]
    decreases i
  {
    if i == 0 {
      DigitIs(data[0] / 16);
      DigitIs(data[0] % 16);
    } else {
      PackedAt(data[1..], i - 1);
      assert Packed(data)[2..] == Packed(data[1..]);
    }
  }

  lemma DigitIs(n: nat)
    requires n < 16
    ensures HexDigit(n) == DIGITS[n]
  {
    assert n in [0, 1, 2, 3, 4, 5, 6, 7, 8, 9, 10, 11, 12, 13, 14, 15];
  }

  method PackData(data: seq<byte>) returns (text: string)
    ensures text == Packed(data)
    ensures forall i :: 0 <= i < |data| ==>
      text[2 * i] == DIGITS[data[i] / 16] && text[2 * i + 1] == DIGITS[data[i] % 16]
  {
    text := "";
    for i := 0 to |data|
      invariant text + Packed(data[i..]) == Packed(data)
    {
      assert data[i..][1..] == data[i + 1..];
      ghost var before, rest := text, Packed(data[i + 1..]);
      text := text + [HexDigit(data[i] / 16)];
      text := text + [HexDigit(data[i] % 16)];
      assert text == before + Digits(data[i]);
      assert before + (Digits(data[i]) + rest) == (before + Digits(data[i])) + rest;
    }
    forall i | 0 <= i < |data|
      ensures text[2 * i] == DIGITS[data[i] / 16] && text[2 * i + 1] == DIGITS[data[i] % 16]
    {
      PackedAt(data, i);
    }
  }

  /** Fills the buffer from the text; stops at the first character that is no digit. */
  method UnpackData(text: string, data: array<byte>) returns (end: Option<nat>)
    modifies data
    ensures end.Some? <==> Unpacked(text, data.Length).Some?
    ensures end.Some? ==> end.value == 2 * data.Length && data[..] == Unpacked(text, data.Length).value
  {
    hide Unpacked;
    ghost var goal := Unpacked(text, data.Length);
    assert text[0..] == text && (goal.Some? ==> [] + goal.value == goal.value);
    var c := 0;
    for u := 0 to data.Length
      invariant c == 2 * u && c <= |text|
      invariant goal == Joined(data[..u], Unpacked(text[c..], data.Length - u))
    {
      ghost var done := data[..u];
      UnpackedStep(text[c..], data.Length - u, done);
      var high := Digit(CharAt(text, c));
      if high.None? {
        return None;
      }
      var low := Digit(CharAt(text, c + 1));
      if low.None? {
        return None;
      }
      assert text[c..][2..] == text[c + 2..];
      data[u] := high.value * 16 + low.value;
      assert data[..u + 1] == done + [high.value * 16 + low.value];
      c := c + 2;
    }
    assert data[..data.Length] == data[..];
    UnpackedStep(text[c..], 0, data[..]);
    return Some(c);
  }
}
