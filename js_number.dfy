/** `Number.parseInt` without a radix, on integers of unbounded size: leading
    white space is skipped, one sign is read, a `0x`/`0X` prefix switches to
    hexadecimal, and the longest run of digits that follows is the value; no
    digit at all gives NaN. */
module JsNumber {
  import opened Wrappers
  import opened Text

  datatype JsInt = NaN | Int(value: int) {
    /** JavaScript truthiness of the number: NaN and zero are falsy. */
    predicate Truthy() { Int? && value != 0 }
  }

  /** The length of the longest run of decimal digits at the start of `s`. */
  function DigitRun(s: string): (n: nat)
    ensures n <= |s| && AllDigits(s[..n]) && (n < |s| ==> !IsDigit(s[n]))
  {
    if s != [] && IsDigit(s[0]) then 1 + DigitRun(s[1..]) else 0
  }

  predicate IsHexDigit(c: char) { IsDigit(c) || 'a' <= c <= 'f' || 'A' <= c <= 'F' }

  /** The length of the longest run of hexadecimal digits at the start of `s`. */
  function HexRun(s: string): (n: nat)
    ensures n <= |s| && (forall i :: 0 <= i < n ==> IsHexDigit(s[i])) && (n < |s| ==> !IsHexDigit(s[n]))
  {
    if s != [] && IsHexDigit(s[0]) then 1 + HexRun(s[1..]) else 0
  }

  function HexValue(c: char): (d: nat)
    requires IsHexDigit(c)
    ensures d < 16
  {
    if IsDigit(c) then DigitValue(c)
    else if 'a' <= c <= 'f' then c as int - 'a' as int + 10
    else c as int - 'A' as int + 10
  }

  function HexDigitsValue(s: string): nat
    requires forall i :: 0 <= i < |s| ==> IsHexDigit(s[i])
  {
    if s == [] then 0 else HexDigitsValue(s[..|s| - 1]) * 16 + HexValue(s[|s| - 1])
  }

  /** The text after the sign, and whether the sign was a minus. */
  function Unsigned(t: string): (string, bool) {
    if t != [] && (t[0] == '-' || t[0] == '+') then (t[1..], t[0] == '-') else (t, false)
  }

  predicate HasHexPrefix(u: string) { |u| >= 2 && u[0] == '0' && (u[1] == 'x' || u[1] == 'X') }

  /** The value of the digits at the start of the unsigned text `u`: hexadecimal
      after a `0x` prefix, decimal otherwise; None when there is no digit. */
  function Magnitude(u: string): (r: Option<nat>)
    ensures r.None? <==> if HasHexPrefix(u) then HexRun(u[2..]) == 0 else DigitRun(u) == 0
  {
    if HasHexPrefix(u) then
      var h := u[2..];
      var n := HexRun(h);
      if n == 0 then None else Some(HexDigitsValue(h[..n]))
    else
      var n := DigitRun(u);
      if n == 0 then None else Some(DigitsValue(u[..n]))
  }

  /** `Number.parseInt(s)` */
  function ParseInt(s: string): (r: JsInt)
  {
    var (u, negative) := Unsigned(TrimStart(s));
    match Magnitude(u)
    case None => NaN
    case Some(m) => Int(if negative then -(m as int) else m as int)
  }

  lemma {:induction false} DigitRunOfDigits(d: string, tail: string)
    requires AllDigits(d)
    requires tail == [] || !IsDigit(tail[0])
    ensures DigitRun(d + tail) == |d|
  {
    if d != [] {
      assert (d + tail)[1..] == d[1..] + tail;
      DigitRunOfDigits(d[1..], tail);
    } else {
      assert d + tail == tail;
    }
  }

  lemma MagnitudeDecimal(n: nat, tail: string)
    requires tail == [] || (!IsDigit(tail[0]) && !(n == 0 && (tail[0] == 'x' || tail[0] == 'X')))
    ensures Magnitude(NatToString(n) + tail) == Some(n)
  {
    var digits := NatToString(n);
    var u := digits + tail;
    assert !HasHexPrefix(u) by {
      if |digits| == 1 && tail != [] {
        assert u[1] == tail[0];
        if n != 0 { assert u[0] == digits[0] == DigitChar(n); }
      } else if |digits| >= 2 {
        assert u[1] == digits[1];
      }
    }
    DigitRunOfDigits(digits, tail);
    assert u[..|digits|] == digits;
    NatToStringValue(n);
  }

  function SignText(negative: bool): string { if negative then "-" else "" }

  /** White space and a sign in front of text that starts with a digit are
      read as such. */
  lemma ParseIntSigned(ws: string, negative: bool, u: string)
    requires AllSpace(ws)
    requires u != [] && IsDigit(u[0])
    ensures ParseInt(ws + SignText(negative) + u)
            == match Magnitude(u)
               case None => NaN
               case Some(m) => Int(if negative then -(m as int) else m as int)
  {
    var body := SignText(negative) + u;
    assert ws + SignText(negative) + u == ws + body;
    assert body[0] == if negative then '-' else u[0];
    TrimStartBefore(ws, body);
    assert negative ==> body[1..] == u;
    assert Unsigned(body) == (u, negative);
  }

  /** A decimal numeral, optionally preceded by white space and a sign and
      followed by text that does not continue it, reads back as its value. */
  lemma ParseIntDecimal(ws: string, negative: bool, n: nat, tail: string)
    requires AllSpace(ws)
    requires tail == [] || (!IsDigit(tail[0]) && !(n == 0 && (tail[0] == 'x' || tail[0] == 'X')))
    ensures ParseInt(ws + SignText(negative) + NatToString(n) + tail) == Int(if negative then -(n as int) else n as int)
  {
    var u := NatToString(n) + tail;
    assert u[0] == NatToString(n)[0];
    assert ws + SignText(negative) + NatToString(n) + tail == ws + SignText(negative) + u;
    ParseIntSigned(ws, negative, u);
    MagnitudeDecimal(n, tail);
  }

  /** Text that has no digit after the optional white space and sign is NaN. */
  lemma ParseIntNoDigits(s: string)
    requires var u := Unsigned(TrimStart(s)).0; u == [] || !IsDigit(u[0])
    ensures ParseInt(s) == NaN
  {
  }
}

/** The size literals of the `larger than` filters: a decimal number with an
    optional fraction, then a unit `kb`, `mb` or `gb` (or none, for bytes).
    Its value is the number times the unit, rounded down, computed exactly. */
module SizeSyntax {
  import opened Wrappers
  import opened Text
  import opened JsNumber

  datatype Unit = Bytes | KB | MB | GB

  function Multiplier(u: Unit): (m: nat)
    ensures m >= 1
  {
    match u
    case Bytes => 1
    case KB => 1024
    case MB => 1024 * 1024
    case GB => 1024 * 1024 * 1024
  }

  function UnitText(u: Unit): string {
    match u
    case Bytes => ""
    case KB => "kb"
    case MB => "mb"
    case GB => "gb"
  }

  function UnitOf(s: string): (r: Option<Unit>)
    ensures r.Some? ==> UnitText(r.value) == s
  {
    if s == "" then Some(Bytes)
    else if s == "kb" then Some(KB)
    else if s == "mb" then Some(MB)
    else if s == "gb" then Some(GB)
    else None
  }

  /** `whole` is the integer part, `fraction` the digits after the point
      (empty when there is no point). */
  datatype SizeLiteral = SizeLiteral(whole: string, fraction: string, unit: Unit)

  predicate WellFormed(lit: SizeLiteral) {
    lit.whole != [] && AllDigits(lit.whole) && AllDigits(lit.fraction)
  }

  function SpaceRun(s: string): (n: nat)
    ensures n <= |s| && AllSpace(s[..n]) && (n < |s| ==> !IsJsSpace(s[n]))
  {
    if s != [] && IsJsSpace(s[0]) then 1 + SpaceRun(s[1..]) else 0
  }

  /** The optional `.digits` group: the fraction digits and the rest. */
  function Fraction(r: string): (p: (string, string))
    ensures AllDigits(p.0)
  {
    if |r| >= 2 && r[0] == '.' && IsDigit(r[1]) then
      var digits := r[1..];
      var n := DigitRun(digits);
      (digits[..n], digits[n..])
    else ("", r)
  }

  /** The optional `\s*` before the unit, skipped only in the spaced form. */
  function SkipSpaces(rest: string, spaced: bool): string {
    if spaced then rest[SpaceRun(rest)..] else rest
  }

  /** Matching `^(\d+(?:\.\d+)?)\s*(kb|mb|gb)?$` (with `spaced`) or
      `^(\d+(?:\.\d+)?)(kb|mb|gb)?$` (without) against the whole text. */
  function Lex(t: string, spaced: bool): (r: Option<SizeLiteral>)
    ensures r.Some? ==> WellFormed(r.value)
  {
    var n := DigitRun(t);
    if n == 0 then None
    else
      var (fraction, rest) := Fraction(t[n..]);
      var u := UnitOf(SkipSpaces(rest, spaced));
      if u.None? then None else Some(SizeLiteral(t[..n], fraction, u.value))
  }

  function Pow10(k: nat): (p: nat)
    ensures p >= 1
  {
    if k == 0 then 1 else 10 * Pow10(k - 1)
  }

  function Product(a: nat, b: nat): nat { a * b }

  function FloorDiv(a: nat, b: nat): nat
    requires b > 0
  {
    a / b
  }

  /** `Math.floor(parseFloat(number) * multiplier)` in exact arithmetic: the
      digits without the point, times the unit, divided by ten to the number
      of fraction digits. */
  function ByteCount(lit: SizeLiteral): nat
    requires WellFormed(lit)
  {
    AllDigitsAppend(lit.whole, lit.fraction);
    FloorDiv(Product(DigitsValue(lit.whole + lit.fraction), Multiplier(lit.unit)), Pow10(|lit.fraction|))
  }

  function PointText(fraction: string): string {
    if fraction == [] then "" else "." + fraction
  }

  /** The text of a literal, with `spaces` between the number and the unit. */
  function Render(lit: SizeLiteral, spaces: string): string {
    lit.whole + (PointText(lit.fraction) + (spaces + UnitText(lit.unit)))
  }

  lemma {:induction false} SpaceRunOfSpaces(w: string, tail: string)
    requires AllSpace(w)
    requires tail == [] || !IsJsSpace(tail[0])
    ensures SpaceRun(w + tail) == |w|
  {
    if w != [] {
      assert (w + tail)[1..] == w[1..] + tail;
      SpaceRunOfSpaces(w[1..], tail);
    } else {
      assert w + tail == tail;
    }
  }

  lemma FractionOf(fraction: string, tail: string)
    requires AllDigits(fraction)
    requires tail == [] || (!IsDigit(tail[0]) && tail[0] != '.')
    ensures Fraction(PointText(fraction) + tail) == (fraction, tail)
  {
    var r := PointText(fraction) + tail;
    if fraction != [] {
      assert r == "." + (fraction + tail);
      assert r[1..] == fraction + tail;
      DigitRunOfDigits(fraction, tail);
      assert r[1] == fraction[0];
      assert r[1..][..|fraction|] == fraction && r[1..][|fraction|..] == tail;
    } else {
      assert r == tail;
    }
  }

  lemma SkipSpacesOf(spaces: string, u: Unit, spaced: bool)
    requires spaces == [] || (spaced && AllSpace(spaces))
    ensures SkipSpaces(spaces + UnitText(u), spaced) == UnitText(u)
  {
    if spaced {
      SpaceRunOfSpaces(spaces, UnitText(u));
      assert (spaces + UnitText(u))[|spaces|..] == UnitText(u);
    } else {
      assert spaces + UnitText(u) == UnitText(u);
    }
  }

  /** Every well-formed literal is recognised back from its text: with no
      space, or, when spaces are allowed, with any run of white space before
      the unit. */
  lemma LexRender(lit: SizeLiteral, spaces: string, spaced: bool)
    requires WellFormed(lit)
    requires spaces == [] || (spaced && AllSpace(spaces))
    ensures Lex(Render(lit, spaces), spaced) == Some(lit)
  {
    var tail := spaces + UnitText(lit.unit);
    var after := PointText(lit.fraction) + tail;
    TailStart(spaces, lit.unit);
    assert after == [] || !IsDigit(after[0]) by {
      if after != [] && lit.fraction != [] { assert after[0] == '.'; }
    }
    FractionOf(lit.fraction, tail);
    SkipSpacesOf(spaces, lit.unit, spaced);
    UnitOfText(lit.unit);
    LexAfterNumber(lit.whole, after, spaced);
  }

  lemma UnitOfText(u: Unit)
    ensures UnitOf(UnitText(u)) == Some(u)
  {
    match u
    case Bytes =>
    case KB =>
    case MB =>
    case GB =>
  }

  /** What follows the number part of a rendered literal starts with neither
      a digit nor a point. */
  lemma TailStart(spaces: string, u: Unit)
    requires spaces == [] || AllSpace(spaces)
    ensures var tail := spaces + UnitText(u); tail == [] || (!IsDigit(tail[0]) && tail[0] != '.')
  {
    var tail := spaces + UnitText(u);
    if spaces != [] {
      assert tail[0] == spaces[0];
      assert IsJsSpace(spaces[0]);
    } else {
      assert tail == UnitText(u);
    }
  }

  /** After the integer part, `Lex` goes on with the text that follows it. */
  lemma LexAfterNumber(whole: string, after: string, spaced: bool)
    requires whole != [] && AllDigits(whole)
    requires after == [] || !IsDigit(after[0])
    ensures Lex(whole + after, spaced)
            == var u := UnitOf(SkipSpaces(Fraction(after).1, spaced));
               if u.None? then None else Some(SizeLiteral(whole, Fraction(after).0, u.value))
  {
    var t := whole + after;
    DigitRunOfDigits(whole, after);
    assert t[..|whole|] == whole && t[|whole|..] == after;
  }

  lemma FractionSound(r: string)
    ensures r == PointText(Fraction(r).0) + Fraction(r).1
  {
    if |r| >= 2 && r[0] == '.' && IsDigit(r[1]) {
      var digits := r[1..];
      var k := DigitRun(digits);
      assert r == [r[0]] + (digits[..k] + digits[k..]);
    }
  }

  lemma SkipSpacesSound(rest: string, spaced: bool)
    ensures exists spaces :: (spaces == [] || (spaced && AllSpace(spaces))) && rest == spaces + SkipSpaces(rest, spaced)
  {
    if spaced {
      var k := SpaceRun(rest);
      assert AllSpace(rest[..k]) && rest == rest[..k] + SkipSpaces(rest, spaced);
    } else {
      assert rest == [] + SkipSpaces(rest, spaced);
    }
  }

  /** Nothing else is recognised: whatever `Lex` accepts is the text of the
      literal it returns, with only white space between number and unit. */
  lemma LexSound(t: string, spaced: bool)
    requires Lex(t, spaced).Some?
    ensures exists spaces :: (spaces == [] || (spaced && AllSpace(spaces)))
                             && t == Render(Lex(t, spaced).value, spaces)
    ensures !spaced ==> t == Render(Lex(t, spaced).value, [])
  {
    var lit := Lex(t, spaced).value;
    var n := DigitRun(t);
    var (fraction, rest) := Fraction(t[n..]);
    assert t == t[..n] + t[n..];
    FractionSound(t[n..]);
    SkipSpacesSound(rest, spaced);
    var spaces :| (spaces == [] || (spaced && AllSpace(spaces))) && rest == spaces + SkipSpaces(rest, spaced);
    assert SkipSpaces(rest, spaced) == UnitText(lit.unit);
    assert t == Render(lit, spaces);
  }

  lemma DigitsValue2(a: char, b: char)
    requires IsDigit(a) && IsDigit(b)
    ensures DigitsValue([a, b]) == 10 * DigitValue(a) + DigitValue(b)
  {
    var s := [a, b];
    assert s[..1] == [a] && s[1] == b;
    assert [a][..0] == [] && [a][0] == a;
    assert DigitsValue([a]) == DigitValue(a);
  }

  /** The example of the command help `500kb` is 512000 bytes. */
  lemma SizeExampleKb()
    ensures Lex("500kb", false) == Some(SizeLiteral("500", "", KB))
    ensures ByteCount(SizeLiteral("500", "", KB)) == 512000
  {
    LexRender(SizeLiteral("500", "", KB), "", false);
    assert Render(SizeLiteral("500", "", KB), "") == "500kb";
    DigitsValue2('5', '0');
    assert "500"[..2] == ['5', '0'];
    assert "500" + "" == "500";
  }

  /** The example of the command help `10mb` is 10485760 bytes. */
  lemma SizeExampleMb()
    ensures Lex("10mb", false) == Some(SizeLiteral("10", "", MB))
    ensures ByteCount(SizeLiteral("10", "", MB)) == 10485760
  {
    LexRender(SizeLiteral("10", "", MB), "", false);
    assert Render(SizeLiteral("10", "", MB), "") == "10mb";
    DigitsValue2('1', '0');
    assert "10" == ['1', '0'] && "10" + "" == "10";
  }

  /** A fraction is rounded down: `0.1kb` is 102 bytes. */
  lemma SizeExampleFraction()
    ensures ByteCount(SizeLiteral("0", "1", KB)) == 102
  {
    DigitsValue2('0', '1');
    assert "0" + "1" == ['0', '1'];
  }
}
