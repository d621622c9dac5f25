/** The parser beyond what the encoder writes: numbers, literals and coded characters, by the
    grammar of JSON (RFC 8259). */
module JsonGrammar {
  import opened Text
  import opened Json

  /* ---- numbers: section 6 ---- */

  predicate IsDigits(s: string) {
    s != "" && forall k :: 0 <= k < |s| ==> '0' <= s[k] <= '9'
  }

  predicate IsWhole(s: string) {
    IsDigits(s) && (s[0] == '0' ==> |s| == 1)
  }

  predicate IsFraction(s: string) {
    s == "" || (s[0] == '.' && IsDigits(s[1..]))
  }

  predicate IsExponent(s: string) {
    s == "" || (s[0] in ['e', 'E'] && (IsDigits(s[1..]) || (|s| > 1 && s[1] in ['+', '-'] && IsDigits(s[2..]))))
  }

  predicate IsNumber(sign: string, whole: string, fraction: string, exponent: string) {
    sign in ["", "-"] && IsWhole(whole) && IsFraction(fraction) && IsExponent(exponent)
  }

  lemma {:induction false} LeadingDigitsAre(text: string)
    ensures forall k :: 0 <= k < LeadingDigits(text) ==> '0' <= text[k] <= '9'
    ensures LeadingDigits(text) < |text| ==> !('0' <= text[LeadingDigits(text)] <= '9')
  {
    if text != "" && '0' <= text[0] <= '9' {
      LeadingDigitsAre(text[1..]);
    }
  }

  /** Where the exponent's digits start, when an exponent starts at `b`. */
  function PowerAt(text: string, b: nat): (c: nat)
    requires b < |text|
    ensures b < c <= |text|
  {
    if b + 1 < |text| && (text[b + 1] == '+' || text[b + 1] == '-') then b + 2 else b + 1
  }

  /** The parts of a number by their lengths. */
  lemma PartsOf(text: string) returns (s: nat, a: nat, b: nat)
    requires NumberLength(text) > 0
    ensures text != "" && s == (if text[0] == '-' then 1 else 0) && s < a <= b <= NumberLength(text)
    ensures a == s + LeadingDigits(text[s..]) && !(LeadingDigits(text[s..]) > 1 && text[s] == '0')
    ensures b == a + if a < |text| && text[a] == '.' then 1 + LeadingDigits(text[a + 1..]) else 0
    ensures b != a + 1
    ensures if b < |text| && (text[b] == 'e' || text[b] == 'E')
      then LeadingDigits(text[PowerAt(text, b)..]) > 0 && NumberLength(text) == PowerAt(text, b) + LeadingDigits(text[PowerAt(text, b)..])
      else NumberLength(text) == b
  {
    hide LeadingDigits;
    s := if text[0] == '-' then 1 else 0;
    a := s + LeadingDigits(text[s..]);
    b := a + if a < |text| && text[a] == '.' then 1 + LeadingDigits(text[a + 1..]) else 0;
  }

  /** What a text opens with that counts as a number is one. */
  lemma NumberIsOne(text: string) returns (sign: string, whole: string, fraction: string, exponent: string)
    requires NumberLength(text) > 0
    ensures IsNumber(sign, whole, fraction, exponent)
    ensures text[..NumberLength(text)] == sign + whole + fraction + exponent
  {
    hide IsNumber, IsExponent, IsFraction, IsWhole, NumberLength, LeadingDigits;
    var s, a, b := PartsOf(text);
    SignAt(text, s);
    WholeAt(text, s);
    sign, whole := text[..s], text[s..a];
    fraction := FractionAt(text, a);
    exponent := ExponentAt(text, b);
    Sliced(text, s, a, b, NumberLength(text));
    AreNumber(sign, whole, fraction, exponent);
  }

  lemma AreNumber(sign: string, whole: string, fraction: string, exponent: string)
    requires sign in ["", "-"] && IsWhole(whole) && IsFraction(fraction) && IsExponent(exponent)
    ensures IsNumber(sign, whole, fraction, exponent)
  {
    hide IsWhole, IsFraction, IsExponent;
  }

  lemma SignAt(text: string, s: nat)
    requires text != "" && s == if text[0] == '-' then 1 else 0
    ensures text[..s] in ["", "-"]
  {
    assert s == 1 ==> text[..s] == "-";
  }

  lemma Sliced(text: string, s: nat, a: nat, b: nat, n: nat)
    requires s <= a <= b <= n <= |text|
    ensures text[..n] == text[..s] + text[s..a] + text[a..b] + text[b..n]
  {
  }

  lemma WholeAt(text: string, s: nat)
    requires s <= |text| && LeadingDigits(text[s..]) > 0
    requires !(LeadingDigits(text[s..]) > 1 && text[s] == '0')
    ensures IsWhole(text[s..s + LeadingDigits(text[s..])])
  {
    LeadingDigitsAre(text[s..]);
    assert text[s..s + LeadingDigits(text[s..])] == text[s..][..LeadingDigits(text[s..])];
  }

  lemma FractionAt(text: string, a: nat) returns (fraction: string)
    requires a <= |text| && (a < |text| && text[a] == '.' ==> LeadingDigits(text[a + 1..]) > 0)
    ensures IsFraction(fraction) && a + |fraction| <= |text| && text[a..a + |fraction|] == fraction
    ensures |fraction| == if a < |text| && text[a] == '.' then 1 + LeadingDigits(text[a + 1..]) else 0
  {
    fraction := "";
    if a < |text| && text[a] == '.' {
      LeadingDigitsAre(text[a + 1..]);
      fraction := text[a..a + 1 + LeadingDigits(text[a + 1..])];
      assert fraction[1..] == text[a + 1..][..LeadingDigits(text[a + 1..])];
    }
  }

  lemma ExponentAt(text: string, b: nat) returns (exponent: string)
    requires b <= |text|
    requires b < |text| && (text[b] == 'e' || text[b] == 'E') ==> LeadingDigits(text[PowerAt(text, b)..]) > 0
    ensures IsExponent(exponent) && b + |exponent| <= |text| && text[b..b + |exponent|] == exponent
    ensures exponent == "" <==> !(b < |text| && (text[b] == 'e' || text[b] == 'E'))
    ensures b < |text| && (text[b] == 'e' || text[b] == 'E') ==> b + |exponent| == PowerAt(text, b) + LeadingDigits(text[PowerAt(text, b)..])
  {
    exponent := "";
    if b < |text| && (text[b] == 'e' || text[b] == 'E') {
      var c := PowerAt(text, b);
      LeadingDigitsAre(text[c..]);
      exponent := text[b..c + LeadingDigits(text[c..])];
      assert exponent[c - b..] == text[c..][..LeadingDigits(text[c..])];
    }
  }

  /** Nothing that would go on with a number. */
  predicate EndsNumber(rest: string) {
    rest == "" || !('0' <= rest[0] <= '9' || rest[0] in ['.', 'e', 'E', '+', '-'])
  }

  lemma {:induction false} DigitsRead(digits: string, rest: string)
    requires (forall k :: 0 <= k < |digits| ==> '0' <= digits[k] <= '9') && (rest == "" || !('0' <= rest[0] <= '9'))
    ensures LeadingDigits(digits + rest) == |digits|
  {
    if digits == "" {
      assert digits + rest == rest;
    } else {
      assert (digits + rest)[1..] == digits[1..] + rest;
      DigitsRead(digits[1..], rest);
    }
  }

  /** Every number is read whole, as it is written. */
  lemma NumberIsRead(sign: string, whole: string, fraction: string, exponent: string, rest: string)
    requires IsNumber(sign, whole, fraction, exponent) && EndsNumber(rest)
    ensures ReadScalar(sign + whole + fraction + exponent + rest) == Some((Number(sign + whole + fraction + exponent), rest))
  {
    hide NumberLength;
    var number := sign + whole + fraction + exponent;
    NumberCounts(sign, whole, fraction, exponent, rest);
    assert (number + rest)[..|number|] == number && (number + rest)[|number|..] == rest;
    assert number[0] == (if sign == "" then whole else sign)[0];
    NoLiteral(number + rest);
  }

  lemma NoLiteral(text: string)
    requires text != "" && (text[0] == '-' || '0' <= text[0] <= '9')
    ensures !("null" <= text) && !("true" <= text) && !("false" <= text)
  {
    assert "null"[0] == 'n' && "true"[0] == 't' && "false"[0] == 'f';
  }

  /** The length of a number by the lengths of its parts. */
  lemma LengthIs(text: string, sign: nat, whole: nat, fraction: nat, exponent: nat)
    requires sign == (if text != "" && text[0] == '-' then 1 else 0) && sign + whole + fraction + exponent <= |text|
    requires whole == LeadingDigits(text[sign..]) > 0 && (whole > 1 ==> text[sign] != '0')
    requires var a := sign + whole;
      fraction != 1 && fraction == if a < |text| && text[a] == '.' then 1 + LeadingDigits(text[a + 1..]) else 0
    requires var b := sign + whole + fraction;
      if b < |text| && (text[b] == 'e' || text[b] == 'E') then
        var c := PowerAt(text, b);
        c < b + exponent && exponent == c - b + LeadingDigits(text[c..])
      else exponent == 0
    ensures NumberLength(text) == sign + whole + fraction + exponent
  {
    hide LeadingDigits;
  }

  lemma SignCounts(sign: string, whole: string, tail: string)
    requires sign in ["", "-"] && IsWhole(whole) && (tail == "" || !('0' <= tail[0] <= '9'))
    ensures var text := sign + whole + tail;
      && text != "" && (text[0] == '-' <==> sign == "-")
      && LeadingDigits(text[|sign|..]) == |whole| > 0 && (|whole| > 1 ==> text[|sign|] != '0')
  {
    var text := sign + whole + tail;
    assert text[|sign|..] == whole + tail;
    DigitsRead(whole, tail);
    assert text[|sign|] == whole[0];
  }

  lemma FractionCounts(head: string, fraction: string, tail: string)
    requires IsFraction(fraction) && (tail == "" || !('0' <= tail[0] <= '9' || tail[0] == '.'))
    ensures var text, a := head + fraction + tail, |head|;
      |fraction| != 1 && |fraction| == if a < |text| && text[a] == '.' then 1 + LeadingDigits(text[a + 1..]) else 0
  {
    var text, a := head + fraction + tail, |head|;
    assert text[a..] == fraction + tail;
    if fraction != "" {
      assert text[a] == '.' && text[a + 1..] == fraction[1..] + tail;
      DigitsRead(fraction[1..], tail);
    }
  }

  lemma ExponentCounts(head: string, exponent: string, rest: string)
    requires IsExponent(exponent) && EndsNumber(rest)
    ensures var text, b := head + exponent + rest, |head|;
      if b < |text| && (text[b] == 'e' || text[b] == 'E') then
        var c := PowerAt(text, b);
        c < b + |exponent| && |exponent| == c - b + LeadingDigits(text[c..])
      else |exponent| == 0
  {
    var text, b := head + exponent + rest, |head|;
    assert text[b..] == exponent + rest;
    if exponent != "" {
      ExponentRead(exponent, rest);
      hide IsExponent, LeadingDigits;
      assert text[b] == exponent[0] && text[b + 1] == exponent[1];
      assert text[b + 1..] == exponent[1..] + rest;
      if exponent[1] in ['+', '-'] {
        assert text[b + 2..] == exponent[2..] + rest;
      }
    }
  }

  lemma NotDigits(fraction: string, exponent: string, rest: string)
    requires IsFraction(fraction) && IsExponent(exponent) && EndsNumber(rest)
    ensures var tail := exponent + rest; tail == "" || !('0' <= tail[0] <= '9' || tail[0] == '.')
    ensures var tail := fraction + (exponent + rest); tail == "" || !('0' <= tail[0] <= '9')
  {
  }

  lemma Regrouped(a: string, b: string, c: string, d: string)
    ensures a + b + c + d == a + (b + (c + d)) && a + b + c + d == a + b + (c + d)
    ensures |a + b + c + d| == |a| + |b| + |c| + |d|
  {
  }

  lemma NumberCounts(sign: string, whole: string, fraction: string, exponent: string, rest: string)
    requires IsNumber(sign, whole, fraction, exponent) && EndsNumber(rest)
    ensures NumberLength(sign + whole + fraction + exponent + rest) == |sign + whole + fraction + exponent| > 0
  {
    hide NumberLength, LeadingDigits, IsWhole, IsFraction, IsExponent, EndsNumber;
    var text := sign + whole + fraction + exponent + rest;
    NotDigits(fraction, exponent, rest);
    SignCounts(sign, whole, fraction + (exponent + rest));
    FractionCounts(sign + whole, fraction, exponent + rest);
    ExponentCounts(sign + whole + fraction, exponent, rest);
    Regrouped(sign + whole, fraction, exponent, rest);
    LengthIs(text, |sign|, |whole|, |fraction|, |exponent|);
  }

  lemma ExponentRead(exponent: string, rest: string)
    requires IsExponent(exponent) && exponent != "" && EndsNumber(rest)
    ensures |exponent| > 1
    ensures if exponent[1] in ['+', '-'] then |exponent| > 2 && LeadingDigits(exponent[2..] + rest) == |exponent| - 2
            else LeadingDigits(exponent[1..] + rest) == |exponent| - 1
  {
    if exponent[1] in ['+', '-'] {
      assert !IsDigits(exponent[1..]) by {
        assert exponent[1..][0] == exponent[1];
      }
      DigitsRead(exponent[2..], rest);
    } else {
      DigitsRead(exponent[1..], rest);
    }
  }

  /* ---- literals: section 3 ---- */

  lemma LiteralsAreRead(rest: string)
    ensures ReadScalar("null" + rest) == Some((Null, rest))
    ensures ReadScalar("true" + rest) == Some((True, rest))
    ensures ReadScalar("false" + rest) == Some((False, rest))
  {
    hide NumberLength;
    var n, t, f := "null" + rest, "true" + rest, "false" + rest;
    assert n[..4] == "null" && n[4..] == rest;
    assert t[..4] == "true" && t[4..] == rest && t[0] == 't';
    assert f[..5] == "false" && f[5..] == rest && f[0] == 'f';
  }

  /* ---- coded characters: section 7 ---- */

  lemma InBase64(code: int)
    requires 0 <= code < 0x110000
    ensures code == code / 64 * 64 + code % 64
    ensures code / 64 == code / 4096 * 64 + code / 64 % 64
    ensures code / 4096 == code / 262144 * 64 + code / 4096 % 64
  {
  }

  lemma Utf8Long(code: int)
    requires 0x10000 <= code < 0x110000
    ensures var b := Utf8(code);
      && |b| == 4 && 0xF0 <= b[0] as int < 0xF8 && Continues(b, 1) && Continues(b, 2) && Continues(b, 3)
      && (b[0] as int - 0xF0) * 262144 + Tail(b, 1) * 4096 + Tail(b, 2) * 64 + Tail(b, 3) == code
  {
    InBase64(code);
  }

  /** The UTF-8 bytes of a code point read back as it (RFC 3629, section 3). */
  lemma Utf8ReadsBack(code: int)
    requires 0 <= code < 0x110000
    ensures var b := Utf8(code);
      && (code < 0x80 ==> |b| == 1 && b[0] as int == code)
      && (0x80 <= code < 0x800 ==>
            |b| == 2 && 0xC0 <= b[0] as int < 0xE0 && Continues(b, 1) && (b[0] as int - 0xC0) * 64 + Tail(b, 1) == code)
      && (0x800 <= code < 0x10000 ==>
            && |b| == 3 && 0xE0 <= b[0] as int < 0xF0 && Continues(b, 1) && Continues(b, 2)
            && (b[0] as int - 0xE0) * 4096 + Tail(b, 1) * 64 + Tail(b, 2) == code)
      && (0x10000 <= code ==>
            && |b| == 4 && 0xF0 <= b[0] as int < 0xF8 && Continues(b, 1) && Continues(b, 2) && Continues(b, 3)
            && (b[0] as int - 0xF0) * 262144 + Tail(b, 1) * 4096 + Tail(b, 2) * 64 + Tail(b, 3) == code)
  {
    InBase64(code);
    if 0x10000 <= code {
      Utf8Long(code);
    }
  }

  predicate Continues(b: string, k: nat) {
    k < |b| && 0x80 <= b[k] as int < 0xC0
  }

  function Tail(b: string, k: nat): int
    requires k < |b|
  {
    b[k] as int - 0x80
  }

  function Hex4(n: nat): string
    requires n < 0x10000
  {
    [HexDigit(n / 4096), HexDigit(n / 256 % 16), HexDigit(n / 16 % 16), HexDigit(n % 16)]
  }

  lemma HexDigitReads(d: nat)
    requires d < 16
    ensures HexValue(HexDigit(d)) == d
  {
  }

  lemma InHex(n: nat)
    requires n < 0x10000
    ensures n == 4096 * (n / 4096) + 256 * (n / 256 % 16) + 16 * (n / 16 % 16) + n % 16
  {
    assert n / 16 == n / 256 * 16 + n / 16 % 16;
    assert n / 256 == n / 4096 * 16 + n / 256 % 16;
  }

  lemma DigitsReadAs(a: nat, b: nat, c: nat, d: nat, rest: string)
    requires a < 16 && b < 16 && c < 16 && d < 16
    ensures var text := [HexDigit(a), HexDigit(b), HexDigit(c), HexDigit(d)] + rest;
      HexCode(text) == 4096 * a + 256 * b + 16 * c + d && text[4..] == rest
  {
    hide HexDigit, HexValue;
    HexDigitReads(a);
    HexDigitReads(b);
    HexDigitReads(c);
    HexDigitReads(d);
  }

  /** Four hexadecimal digits read as their number. */
  lemma Hex4Reads(n: nat, rest: string)
    requires n < 0x10000
    ensures HexCode(Hex4(n) + rest) == n && (Hex4(n) + rest)[4..] == rest
  {
    hide HexDigit, HexCode;
    InHex(n);
    DigitsReadAs(n / 4096, n / 256 % 16, n / 16 % 16, n % 16, rest);
  }

  /** Upper-case digits read the same. */
  lemma UpperHexReads(c: char)
    requires 'A' <= c <= 'F'
    ensures HexValue(c) == HexValue(LowerByte(c))
  {
  }

  /** A coded character outside the surrogates is itself. */
  lemma CodeIsRead(code: nat, rest: string)
    requires code < 0xD800 || 0xE000 <= code < 0x10000
    ensures ReadCode(Hex4(code) + rest) == Some((Utf8(code), rest))
  {
    hide HexCode, Utf8, Hex4;
    Hex4Reads(code, rest);
  }

  /** Two halves of a pair are one code point. */
  lemma PairIsRead(code: nat, rest: string)
    requires 0x10000 <= code < 0x110000
    ensures var high, low := 0xD800 + (code - 0x10000) / 1024, 0xDC00 + (code - 0x10000) % 1024;
      ReadCode(Hex4(high) + ("\\u" + (Hex4(low) + rest))) == Some((Utf8(code), rest))
  {
    hide HexCode, Utf8;
    var high, low := 0xD800 + (code - 0x10000) / 1024, 0xDC00 + (code - 0x10000) % 1024;
    var more := "\\u" + (Hex4(low) + rest);
    var text := Hex4(high) + more;
    Hex4Reads(high, more);
    Hex4Reads(low, rest);
    assert text[4..] == more && text[4] == more[0] && text[5] == more[1];
    assert text[6..] == Hex4(low) + rest && text[10..] == rest;
  }

  /** A half without its other is replaced, and what follows is read on. */
  lemma HalfIsReplaced(code: nat, rest: string)
    requires 0xD800 <= code < 0xE000 && (0xDC00 <= code || !("\\u" <= rest))
    ensures ReadCode(Hex4(code) + rest) == Some((Utf8(0xFFFD), rest))
  {
    hide HexCode, Utf8;
    var text := Hex4(code) + rest;
    Hex4Reads(code, rest);
    if |text| >= 6 && text[4] == '\\' && text[5] == 'u' {
      assert rest[0] == '\\' && rest[1] == 'u';
      assert "\\u" <= rest;
    }
  }
}
