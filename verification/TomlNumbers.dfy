/** The recognisers of integers and floating-point literals, and the regular
    languages they accept. */
module TomlNumbers {
  import opened Basics
  import opened TomlText

  // ---------- the scanners

  /** The loop both recognisers share: skips digits, and an underscore only between two
      digits. Gives what is left, or None at a misplaced underscore. */
  function ScanGroups(s: string): (r: Option<string>)
    ensures r.Some? ==> |r.value| <= |s|
  {
    if s == "" || !IsDigit(s[0]) then Some(s)
    else if |s| > 1 && s[1] == '_' then
      if |s| > 2 && IsDigit(s[2]) then ScanGroups(s[2..]) else None
    else ScanGroups(s[1..])
  }

  predicate IsInteger(s: string) {
    s != "" && ScanGroups(DropSign(s)) == Some("")
  }

  /** The exponent of a floating-point literal, up to the end of the text. */
  predicate IsExponent(s: string) {
    || s == ""
    || ((s[0] == 'e' || s[0] == 'E') && DropSign(s[1..]) != "" && IsDigit(DropSign(s[1..])[0])
        && ScanGroups(DropSign(s[1..])) == Some(""))
  }

  function DropDot(s: string): string {
    if s != "" && s[0] == '.' then s[1..] else s
  }

  /** What may follow the whole part; `digit` says whether that had a digit. */
  predicate IsFraction(digit: bool, r: string) {
    var fraction := DropDot(r);
    match ScanGroups(fraction)
    case None => false
    case Some(e) => (digit || |e| < |fraction|) && IsExponent(e)
  }

  predicate IsDouble(s: string) {
    s != "" &&
    match ScanGroups(DropSign(s))
    case None => false
    case Some(r) => IsFraction(|r| < |DropSign(s)|, r)
  }

  /** The scan from position p: `ok` turns true when a digit was skipped. */
  method Scan(s: string, p0: nat, ok0: bool) returns (p: nat, ok: bool, valid: bool)
    requires p0 <= |s|
    ensures p <= |s|
    ensures valid <==> ScanGroups(s[p0..]).Some?
    ensures valid ==> ScanGroups(s[p0..]) == Some(s[p..]) && (ok <==> ok0 || p0 < p)
  {
    p, ok := p0, ok0;
    while p < |s| && IsDigit(s[p])
      invariant p0 <= p <= |s|
      invariant ScanGroups(s[p..]) == ScanGroups(s[p0..])
      invariant ok <==> ok0 || p0 < p
    {
      ghost var q := p;
      p := p + 1;
      ok := true;
      if p < |s| && s[p] == '_' {
        p := p + 1;
        if !(p < |s| && IsDigit(s[p])) {
          return p, ok, false;
        }
        assert s[q..][2..] == s[p..];
      } else {
        assert s[q..][1..] == s[p..];
      }
    }
    valid := true;
  }

  method RecogniseInteger(s: string) returns (b: bool)
    ensures b <==> IsInteger(s)
  {
    if s == "" {
      return false;
    }
    var p := 0;
    if s[p] == '+' || s[p] == '-' {
      p := p + 1;
    }
    assert s[p..] == DropSign(s);
    var q, _, valid := Scan(s, p, false);
    return valid && q == |s|;
  }

  method RecogniseExponent(s: string, p0: nat) returns (b: bool)
    requires p0 <= |s|
    ensures b <==> IsExponent(s[p0..])
  {
    var p := p0;
    if p < |s| && (s[p] == 'e' || s[p] == 'E') {
      p := p + 1;
      assert s[p0..][1..] == s[p..];
      ghost var q := p;
      if p < |s| && (s[p] == '+' || s[p] == '-') {
        p := p + 1;
      }
      assert s[p..] == DropSign(s[q..]);
      var p', ok, valid := Scan(s, p, false);
      ScanMoves(s[p..]);
      return valid && ok && p' == |s|;
    }
    return p == |s|;
  }

  lemma ScanMoves(s: string)
    ensures ScanGroups(s).Some? ==> (|ScanGroups(s).value| < |s| <==> s != "" && IsDigit(s[0]))
  {
  }

  method RecogniseFraction(s: string, p0: nat, digit: bool) returns (b: bool)
    requires p0 <= |s|
    ensures b <==> IsFraction(digit, s[p0..])
  {
    var p := p0;
    if p < |s| && s[p] == '.' {
      p := p + 1;
    }
    assert s[p..] == DropDot(s[p0..]);
    var p', ok, valid := Scan(s, p, digit);
    if !valid || !ok {
      return false;
    }
    b := RecogniseExponent(s, p');
  }

  method RecogniseDouble(s: string) returns (b: bool)
    ensures b <==> IsDouble(s)
  {
    if s == "" {
      return false;
    }
    var p := 0;
    if s[p] == '+' || s[p] == '-' {
      p := p + 1;
    }
    assert s[p..] == DropSign(s);
    var p', ok, valid := Scan(s, p, false);
    if !valid {
      return false;
    }
    b := RecogniseFraction(s, p', ok);
  }

  // ---------- the languages

  function Join(groups: seq<string>, separator: string): string {
    if groups == [] then ""
    else if |groups| == 1 then groups[0]
    else groups[0] + separator + Join(groups[1..], separator)
  }

  predicate AreDigitRuns(groups: seq<string>) {
    forall i :: 0 <= i < |groups| ==> groups[i] != "" && All(groups[i], IsDigit)
  }

  /** `\d+(_\d+)*` */
  ghost predicate IsDigitGroups(s: string) {
    exists groups: seq<string> :: groups != [] && AreDigitRuns(groups) && s == Join(groups, "_")
  }

  predicate IsSign(s: string) { s == "" || s == "+" || s == "-" }

  ghost predicate SignedGroups(sign: string, digits: string) {
    IsSign(sign) && IsDigitGroups(digits)
  }

  /** `[+-]?\d+(_\d+)*` */
  ghost predicate InIntegerLanguage(s: string) {
    exists sign, digits :: SignedGroups(sign, digits) && s == sign + digits
  }

  ghost predicate InExponentLanguage(e: string) {
    e == "" ||
    exists sign, digits :: SignedGroups(sign, digits) && (e == "e" + sign + digits || e == "E" + sign + digits)
  }

  datatype Literal = Literal(sign: string, whole: string, dot: string, fraction: string, exponent: string) {
    function Text(): string { sign + (whole + (dot + (fraction + exponent))) }

    ghost predicate Ok() {
      && IsSign(sign)
      && (whole == "" || IsDigitGroups(whole))
      && (dot == "" || dot == ".")
      && (fraction == "" || (dot == "." && IsDigitGroups(fraction)))
      && (whole != "" || fraction != "")
      && InExponentLanguage(exponent)
    }
  }

  /** An optional sign, digit groups around an optional dot with at least one digit, and an
      optional exponent with at least one digit. */
  ghost predicate InDoubleLanguage(s: string) {
    exists literal: Literal :: literal.Ok() && s == literal.Text()
  }

  // ---------- scanning a run of digit groups

  lemma {:induction false} ScanDigits(digits: string, rest: string)
    requires All(digits, IsDigit) && digits != ""
    requires Stops(rest, IsDigit) && (rest != "" ==> rest[0] != '_')
    ensures ScanGroups(digits + rest) == Some(rest)
  {
    assert (digits + rest)[1..] == digits[1..] + rest;
    if |digits| > 1 {
      assert IsDigit(digits[1]) && (digits + rest)[1] == digits[1];
      ScanDigits(digits[1..], rest);
    } else {
      assert digits[1..] + rest == rest;
    }
  }

  lemma {:induction false} ScanDigitsThenUnderscore(digits: string, rest: string)
    requires All(digits, IsDigit) && digits != ""
    requires rest != "" && IsDigit(rest[0])
    ensures ScanGroups(digits + "_" + rest) == ScanGroups(rest)
  {
    var s := digits + "_" + rest;
    if |digits| > 1 {
      assert IsDigit(digits[1]) && s[1] == digits[1];
      assert s[1..] == digits[1..] + "_" + rest;
      ScanDigitsThenUnderscore(digits[1..], rest);
    } else {
      assert s[2..] == rest;
    }
  }

  lemma {:induction false} JoinStart(groups: seq<string>)
    requires groups != [] && AreDigitRuns(groups)
    ensures Join(groups, "_") != "" && IsDigit(Join(groups, "_")[0])
  {
    assert Join(groups, "_")[0] == groups[0][0];
  }

  lemma {:induction false} ScanJoin(groups: seq<string>, rest: string)
    requires groups != [] && AreDigitRuns(groups)
    requires Stops(rest, IsDigit) && (rest != "" ==> rest[0] != '_')
    ensures ScanGroups(Join(groups, "_") + rest) == Some(rest)
  {
    if |groups| == 1 {
      ScanDigits(groups[0], rest);
    } else {
      var tail := Join(groups[1..], "_");
      JoinStart(groups[1..]);
      assert Join(groups, "_") + rest == groups[0] + "_" + (tail + rest);
      ScanDigitsThenUnderscore(groups[0], tail + rest);
      ScanJoin(groups[1..], rest);
    }
  }

  /** A maximal run of digit groups is skipped exactly. */
  lemma {:induction false} ScanAccepts(digits: string, rest: string)
    requires digits == "" || IsDigitGroups(digits)
    requires Stops(rest, IsDigit) && (rest != "" && digits != "" ==> rest[0] != '_')
    ensures ScanGroups(digits + rest) == Some(rest)
    ensures digits != "" ==> IsDigit(digits[0])
  {
    if digits == "" {
      assert digits + rest == rest;
    } else {
      var groups :| groups != [] && AreDigitRuns(groups) && digits == Join(groups, "_");
      ScanJoin(groups, rest);
      JoinStart(groups);
    }
  }

  /** s is a run of digit groups, possibly empty, in front of a rest that does not go on with it. */
  ghost predicate Skipped(s: string, rest: string) {
    exists digits :: s == digits + rest && SkipsTo(digits, rest)
  }

  ghost predicate SkipsTo(digits: string, rest: string) {
    && (digits == "" || IsDigitGroups(digits))
    && Stops(rest, IsDigit) && (rest != "" && digits != "" ==> rest[0] != '_')
  }

  /** Whatever the scan skips is a run of digit groups. */
  lemma {:induction false} ScanSkips(s: string)
    requires ScanGroups(s).Some?
    ensures Skipped(s, ScanGroups(s).value)
    decreases |s|
  {
    var rest := ScanGroups(s).value;
    if s == "" || !IsDigit(s[0]) {
      assert s == "" + rest && SkipsTo("", rest);
    } else if |s| > 1 && s[1] == '_' {
      ScanSkips(s[2..]);
      SkipGroup(s[..1], s[2..], rest);
      assert s == s[..1] + "_" + s[2..];
    } else {
      ScanSkips(s[1..]);
      SkipDigit(s[..1], s[1..], rest);
      assert s == s[..1] + s[1..];
    }
  }

  lemma {:induction false} SkipGroup(digit: string, s: string, rest: string)
    requires |digit| == 1 && IsDigit(digit[0]) && s != "" && IsDigit(s[0]) && Skipped(s, rest)
    ensures Skipped(digit + "_" + s, rest)
  {
    var tail :| s == tail + rest && SkipsTo(tail, rest);
    assert tail == "" ==> s == rest;
    var groups :| groups != [] && AreDigitRuns(groups) && tail == Join(groups, "_");
    var all := [digit] + groups;
    assert all[1..] == groups;
    assert Join(all, "_") == digit + "_" + tail;
    assert SkipsTo(digit + "_" + tail, rest);
    assert digit + "_" + s == (digit + "_" + tail) + rest;
  }

  lemma {:induction false} SkipDigit(digit: string, s: string, rest: string)
    requires |digit| == 1 && IsDigit(digit[0]) && Skipped(s, rest) && (s != "" ==> s[0] != '_')
    ensures Skipped(digit + s, rest)
  {
    var tail :| s == tail + rest && SkipsTo(tail, rest);
    if tail == "" {
      assert Join([digit], "_") == digit && AreDigitRuns([digit]);
      assert s == rest;
    } else {
      var groups :| groups != [] && AreDigitRuns(groups) && tail == Join(groups, "_");
      Prepend(digit, groups);
    }
    assert SkipsTo(digit + tail, rest);
    assert digit + s == (digit + tail) + rest;
  }

  lemma {:induction false} Prepend(digit: string, groups: seq<string>)
    requires |digit| == 1 && IsDigit(digit[0]) && groups != [] && AreDigitRuns(groups)
    ensures IsDigitGroups(digit + Join(groups, "_"))
  {
    var longer := groups[0 := digit + groups[0]];
    assert longer[1..] == groups[1..];
    assert Join(longer, "_") == digit + Join(groups, "_");
    assert AreDigitRuns(longer);
  }

  // ---------- the recognisers accept exactly their languages

  lemma {:induction false} ScanAll(s: string)
    ensures ScanGroups(s) == Some("") <==> s == "" || IsDigitGroups(s)
    ensures IsDigitGroups(s) ==> s != "" && IsDigit(s[0])
  {
    assert s + "" == s;
    if ScanGroups(s) == Some("") {
      ScanSkips(s);
      assert s[..|s|] == s;
    }
    if IsDigitGroups(s) {
      ScanAccepts(s, "");
      var groups :| groups != [] && AreDigitRuns(groups) && s == Join(groups, "_");
      JoinStart(groups);
    }
  }

  function SignOf(s: string): (sign: string)
    ensures IsSign(sign) && s == sign + DropSign(s)
  {
    if s != "" && (s[0] == '+' || s[0] == '-') then s[..1] else ""
  }

  lemma SignIsDropped(sign: string, s: string)
    requires IsSign(sign) && (s == "" || (s[0] != '+' && s[0] != '-'))
    ensures DropSign(sign + s) == s
  {
  }

  /** A lone sign is accepted as well; the documented language is not. */
  lemma {:induction false} IntegerLanguage(s: string)
    ensures IsInteger(s) <==> InIntegerLanguage(s) || s == "+" || s == "-"
  {
    ScanAll(DropSign(s));
    if IsInteger(s) && s != "+" && s != "-" {
      assert SignedGroups(SignOf(s), DropSign(s));
    }
    if InIntegerLanguage(s) {
      var sign, digits :| SignedGroups(sign, digits) && s == sign + digits;
      ScanAll(digits);
      SignIsDropped(sign, digits);
    }
  }

  lemma {:induction false} ExponentInLanguage(e: string)
    requires IsExponent(e) && e != ""
    ensures InExponentLanguage(e)
  {
    var sign, digits := SignOf(e[1..]), DropSign(e[1..]);
    ScanAll(digits);
    assert SignedGroups(sign, digits);
    hide ScanGroups, IsDigitGroups, DropSign, SignOf;
    assert e == [e[0]] + (sign + digits) == [e[0]] + sign + digits;
    assert [e[0]] == "e" || [e[0]] == "E";
  }

  lemma {:induction false} LanguageIsExponent(mark: char, sign: string, digits: string)
    requires SignedGroups(sign, digits) && (mark == 'e' || mark == 'E')
    ensures IsExponent([mark] + sign + digits)
  {
    var e := [mark] + sign + digits;
    ScanAll(digits);
    assert e[1..] == sign + digits;
    SignIsDropped(sign, digits);
  }

  lemma {:induction false} ExponentLanguage(e: string)
    ensures IsExponent(e) <==> InExponentLanguage(e)
  {
    if e != "" && IsExponent(e) {
      ExponentInLanguage(e);
    }
    if e != "" && InExponentLanguage(e) {
      var sign, digits :| SignedGroups(sign, digits) && (e == "e" + sign + digits || e == "E" + sign + digits);
      LanguageIsExponent(e[0], sign, digits);
    }
  }

  lemma {:induction false} ExponentStart(e: string)
    requires InExponentLanguage(e)
    ensures e == "" || e[0] == 'e' || e[0] == 'E'
  {
  }

  lemma {:induction false} FractionAccepts(l: Literal)
    requires l.Ok()
    ensures IsFraction(l.whole != "", l.dot + (l.fraction + l.exponent))
  {
    var tail := l.fraction + l.exponent;
    ExponentStart(l.exponent);
    ExponentLanguage(l.exponent);
    ScanAccepts(l.fraction, l.exponent);
    assert l.dot == "" ==> l.dot + tail == l.exponent;
    assert DropDot(l.dot + tail) == tail;
  }

  lemma {:induction false} DoubleAccepts(l: Literal)
    requires l.Ok()
    ensures IsDouble(l.Text())
  {
    var r := l.dot + (l.fraction + l.exponent);
    FractionAccepts(l);
    ExponentStart(l.exponent);
    assert l.dot == "" ==> r == l.exponent;
    ScanAccepts(l.whole, r);
    SignIsDropped(l.sign, l.whole + r);
  }

  lemma {:induction false} FractionSplits(digit: bool, r: string) returns (dot: string, f: string, e: string)
    requires IsFraction(digit, r) && Stops(r, IsDigit)
    ensures r == dot + (f + e) && (dot == "" || dot == ".")
    ensures f == "" || (dot == "." && IsDigitGroups(f))
    ensures (digit || f != "") && InExponentLanguage(e)
  {
    var fraction := DropDot(r);
    e := ScanGroups(fraction).value;
    ScanSkips(fraction);
    f :| fraction == f + e && SkipsTo(f, e);
    ExponentLanguage(e);
    dot := if fraction == r then "" else ".";
    if dot == "" && f != "" {
      ScanAccepts(f, e);
    }
  }

  lemma {:induction false} DoubleSplits(s: string)
    requires IsDouble(s)
    ensures InDoubleLanguage(s)
  {
    var whole := DropSign(s);
    var r := ScanGroups(whole).value;
    ScanSkips(whole);
    var w :| whole == w + r && SkipsTo(w, r);
    var dot, f, e := FractionSplits(|r| < |whole|, r);
    var l := Literal(SignOf(s), w, dot, f, e);
    assert l.Ok();
    assert s == l.Text();
  }

  lemma {:induction false} DoubleLanguage(s: string)
    ensures IsDouble(s) <==> InDoubleLanguage(s)
  {
    if IsDouble(s) {
      DoubleSplits(s);
    }
    if InDoubleLanguage(s) {
      var l: Literal :| l.Ok() && s == l.Text();
      DoubleAccepts(l);
    }
  }

  // ---------- removing the delimiters of an integer leaves digits

  lemma {:induction false} StrippedIntegerIsDigits(s: string)
    requires ScanGroups(s) == Some("")
    ensures All(RemoveDelimiter(s), IsDigit)
    ensures s != "" ==> IsDigit(s[0])
    decreases |s|
  {
    if s != "" {
      if |s| > 1 && s[1] == '_' {
        StrippedIntegerIsDigits(s[2..]);
        assert s[1..][1..] == s[2..];
      } else {
        StrippedIntegerIsDigits(s[1..]);
      }
    }
  }

  lemma {:induction false} StrippedInteger(s: string)
    requires IsInteger(s)
    ensures All(DropSign(RemoveDelimiter(s)), IsDigit)
  {
    StrippedIntegerIsDigits(DropSign(s));
    var digits := RemoveDelimiter(DropSign(s));
    if DropSign(s) != s {
      assert RemoveDelimiter(s) == s[..1] + digits;
    } else {
      assert digits != "" ==> IsDigit(digits[0]);
    }
  }
}
