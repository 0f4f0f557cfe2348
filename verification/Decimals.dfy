/** Decimal numerals: fixed-point printing, the tolerant parser, and their round trip. */
module Decimals {
  import opened Common

  /** A finite decimal number (-1)^negative * coefficient * 10^exponent. */
  datatype Decimal = Decimal(negative: bool, coefficient: nat, exponent: int)

  /** What a price or stock field may hold: nothing, a number (possibly NaN or infinite) or any other value's text. */
  datatype Cell = Null | Number(number: Decimal) | NonFinite | Text(text: string)

  function Pow10(n: nat): nat {
    if n == 0 then 1 else 10 * Pow10(n - 1)
  }

  lemma {:induction false} Pow10Positive(n: nat)
    ensures Pow10(n) > 0
  {
    if n > 0 { Pow10Positive(n - 1); }
  }

  function ValueOf(d: Decimal): real {
    Pow10Positive(if d.exponent < 0 then -d.exponent else 0);
    var magnitude :=
      if d.exponent >= 0 then (d.coefficient * Pow10(d.exponent)) as real
      else d.coefficient as real / Pow10(-d.exponent) as real;
    if d.negative then -magnitude else magnitude
  }

  lemma ScaledDown(c: int, p: int)
    requires p > 0
    ensures c as real / p as real == 10.0 * (c as real / (10 * p) as real)
  {
    var x, y := c as real / p as real, c as real / (10 * p) as real;
    assert x * p as real == c as real == y * (10 * p) as real;
    assert (10 * p) as real == 10.0 * p as real;
    assert (x - 10.0 * y) * p as real == 0.0;
  }

  lemma ScaledUp(c: int, p: int)
    ensures (c * (10 * p)) as real == 10.0 * (c * p) as real
  {
    assert c * (10 * p) == 10 * (c * p);
  }

  /** The value by its laws: the coefficient itself without an exponent, ten times as much with each power of ten, and
      the opposite with a sign. */
  lemma ValueLaws(coefficient: nat, exponent: int)
    ensures ValueOf(Decimal(false, coefficient, 0)) == coefficient as real
    ensures ValueOf(Decimal(false, coefficient, exponent + 1)) == 10.0 * ValueOf(Decimal(false, coefficient, exponent))
    ensures ValueOf(Decimal(true, coefficient, exponent)) == -ValueOf(Decimal(false, coefficient, exponent))
  {
    if exponent < 0 {
      Pow10Positive(-exponent - 1);
      ScaledDown(coefficient, Pow10(-exponent - 1));
    } else {
      ScaledUp(coefficient, Pow10(exponent));
    }
  }

  // ---------- digit strings ----------

  predicate IsDigit(c: char) { '0' <= c <= '9' }

  predicate AllDigits(s: string) { forall i :: 0 <= i < |s| ==> IsDigit(s[i]) }

  function DigitChar(n: nat): char
    requires n < 10
  {
    "0123456789"[n]
  }

  function DigitValue(c: char): nat
    requires IsDigit(c)
  {
    c as int - '0' as int
  }

  function Digits(n: nat): (s: string)
    ensures s != [] && AllDigits(s)
  {
    if n < 10 then [DigitChar(n)] else Digits(n / 10) + [DigitChar(n % 10)]
  }

  /** The number the first `n` digits spell. */
  function ValueTo(s: string, n: nat): nat
    requires AllDigits(s) && n <= |s|
  {
    if n == 0 then 0 else 10 * ValueTo(s, n - 1) + DigitValue(s[n - 1])
  }

  function DigitsValue(s: string): nat
    requires AllDigits(s)
  {
    ValueTo(s, |s|)
  }

  lemma {:induction false} SamePrefix(s: string, t: string, n: nat)
    requires AllDigits(s) && AllDigits(t) && n <= |s| && n <= |t| && forall i :: 0 <= i < n ==> s[i] == t[i]
    ensures ValueTo(s, n) == ValueTo(t, n)
  {
    if n > 0 { SamePrefix(s, t, n - 1); }
  }

  function Zeros(n: nat): (s: string)
    ensures |s| == n && AllDigits(s)
  {
    seq(n, _ => '0')
  }

  lemma LastDigit(s: string)
    requires AllDigits(s) && s != []
    ensures DigitsValue(s) == 10 * DigitsValue(s[..|s| - 1]) + DigitValue(s[|s| - 1])
  {
    SamePrefix(s, s[..|s| - 1], |s| - 1);
  }

  lemma OneDigit(s: string)
    requires AllDigits(s) && |s| == 1
    ensures DigitsValue(s) == DigitValue(s[0])
  {
    assert ValueTo(s, 0) == 0;
    assert ValueTo(s, 1) == DigitValue(s[0]);
  }

  lemma CharValue(d: nat)
    requires d < 10
    ensures DigitValue(DigitChar(d)) == d && IsDigit(DigitChar(d))
  {
  }

  lemma {:induction false} DigitsRoundTrip(n: nat)
    ensures DigitsValue(Digits(n)) == n
  {
    if n >= 10 {
      DigitsRoundTrip(n / 10);
      var s := Digits(n);
      assert s == Digits(n / 10) + [DigitChar(n % 10)];
      assert s[..|s| - 1] == Digits(n / 10) && s[|s| - 1] == DigitChar(n % 10);
      LastDigit(s);
      CharValue(n % 10);
    } else {
      OneDigit(Digits(n));
      CharValue(n);
    }
  }

  lemma {:induction false} ZerosValue(s: string, k: nat)
    requires AllDigits(s) && k <= |s| && forall i :: 0 <= i < k ==> s[i] == '0'
    ensures ValueTo(s, k) == 0
  {
    if k > 0 { ZerosValue(s, k - 1); }
  }

  lemma {:induction false} LeadingZerosTo(k: nat, s: string, n: nat)
    requires AllDigits(s) && n <= |s|
    ensures ValueTo(Zeros(k) + s, k + n) == ValueTo(s, n)
  {
    if n == 0 {
      ZerosValue(Zeros(k) + s, k);
    } else {
      LeadingZerosTo(k, s, n - 1);
      assert (Zeros(k) + s)[k + n - 1] == s[n - 1];
    }
  }

  lemma LeadingZeros(k: nat, s: string)
    requires AllDigits(s)
    ensures DigitsValue(Zeros(k) + s) == DigitsValue(s)
  {
    LeadingZerosTo(k, s, |s|);
  }

  lemma {:induction false} TrailingZerosTo(s: string, t: string, k: nat)
    requires AllDigits(s) && AllDigits(t) && |t| >= |s| + k && t[..|s|] == s
    requires forall i :: |s| <= i < |s| + k ==> t[i] == '0'
    ensures ValueTo(t, |s| + k) == DigitsValue(s) * Pow10(k)
  {
    if k == 0 {
      assert forall i :: 0 <= i < |s| ==> t[i] == t[..|s|][i];
      SamePrefix(t, s, |s|);
    } else {
      TrailingZerosTo(s, t, k - 1);
      assert DigitValue(t[|s| + k - 1]) == 0;
    }
  }

  lemma TrailingZeros(s: string, k: nat)
    requires AllDigits(s)
    ensures DigitsValue(s + Zeros(k)) == DigitsValue(s) * Pow10(k)
  {
    TrailingZerosTo(s, s + Zeros(k), k);
  }

  // ---------- printing: format(value, "f") ----------

  /** Digits of the coefficient, padded so that a digit remains before `k` decimal places. */
  function Padded(coefficient: nat, k: nat): (s: string)
    ensures AllDigits(s) && |s| > k
  {
    var body := Digits(coefficient);
    if |body| > k then body else Zeros(k + 1 - |body|) + body
  }

  function FormatUnsigned(coefficient: nat, exponent: int): string {
    if exponent >= 0 then
      if coefficient == 0 then "0" else Digits(coefficient) + Zeros(exponent)
    else
      var p := Padded(coefficient, -exponent);
      p[..|p| + exponent] + "." + p[|p| + exponent..]
  }

  function FormatFixed(d: Decimal): string {
    (if d.negative then "-" else "") + FormatUnsigned(d.coefficient, d.exponent)
  }

  function ToJson(d: Option<Decimal>): Option<string> {
    match d
    case None => None
    case Some(value) => Some(FormatFixed(value))
  }

  // ---------- parsing ----------

  function Replace(s: string, c: char, t: string): string {
    if s == [] then [] else (if s[0] == c then t else [s[0]]) + Replace(s[1..], c, t)
  }

  /** First position holding one of `marks`, or the length. */
  function IndexOf(s: string, marks: string): (i: nat)
    ensures i <= |s| && (i < |s| ==> s[i] in marks) && forall j :: 0 <= j < i ==> s[j] !in marks
  {
    if s == [] || s[0] in marks then 0 else 1 + IndexOf(s[1..], marks)
  }

  predicate HasSign(s: string) { s != [] && (s[0] == '-' || s[0] == '+') }

  /** `digits [. digits]` with at least one digit: the coefficient and the (non-positive) exponent. */
  function ParseMantissa(m: string): Option<(nat, int)> {
    var dot := IndexOf(m, ".");
    var whole, fraction := m[..dot], if dot < |m| then m[dot + 1..] else [];
    if AllDigits(whole + fraction) && whole + fraction != [] then
      Some((DigitsValue(whole + fraction), -|fraction|))
    else None
  }

  function ParseInteger(s: string): Option<int> {
    var body := if HasSign(s) then s[1..] else s;
    if body == [] || !AllDigits(body) then None
    else
      var n: int := DigitsValue(body);
      Some(if s[0] == '-' then -n else n)
  }

  function ParseUnsigned(negative: bool, s: string): Option<Decimal> {
    var e := IndexOf(s, "eE");
    var exponent := if e < |s| then ParseInteger(s[e + 1..]) else Some(0);
    match ParseMantissa(s[..e])
    case None => None
    case Some(m) => if exponent.None? then None else Some(Decimal(negative, m.0, m.1 + exponent.value))
  }

  /** A finite numeral `[sign] digits [. digits] [E [sign] digits]`; NaN, infinities and malformed text give None. */
  function ParseNumeral(s: string): Option<Decimal> {
    ParseUnsigned(s != [] && s[0] == '-', if HasSign(s) then s[1..] else s)
  }

  function Cleaned(text: string): string {
    Strip(Replace(Replace(Replace(text, ' ', ""), '\U{00A0}', ""), ',', "."))
  }

  function ParseDecimal(cell: Cell): Option<Decimal> {
    match cell
    case Null => None
    case Number(d) => Some(d)
    case NonFinite => None
    case Text(text) =>
      var t := Cleaned(text);
      if t == [] then None else ParseNumeral(Replace(t, '_', ""))
  }

  /** Parsing what `ToJson` printed, as the row consumers do. */
  function Reparse(printed: Option<string>): Option<Decimal> {
    match printed
    case None => None
    case Some(text) => ParseDecimal(Text(text))
  }

  // ---------- round trip ----------

  predicate Plain(s: string) {
    forall i :: 0 <= i < |s| ==> IsDigit(s[i]) || s[i] in ".-+eE"
  }

  lemma {:induction false} ReplaceAbsent(s: string, c: char, t: string)
    requires forall i :: 0 <= i < |s| ==> s[i] != c
    ensures Replace(s, c, t) == s
  {
    if s != [] {
      ReplaceAbsent(s[1..], c, t);
    }
  }

  lemma PlainIsClean(s: string)
    requires Plain(s)
    ensures Cleaned(s) == s && Replace(s, '_', "") == s
  {
    PlainLacks(s, ' ');
    PlainLacks(s, '\U{00A0}');
    PlainLacks(s, ',');
    PlainLacks(s, '_');
    ReplaceAbsent(s, ' ', "");
    ReplaceAbsent(s, '\U{00A0}', "");
    ReplaceAbsent(s, ',', ".");
    ReplaceAbsent(s, '_', "");
    PlainUnstripped(s);
  }

  lemma PlainLacks(s: string, c: char)
    requires Plain(s) && !IsDigit(c) && c !in ".-+eE"
    ensures forall i :: 0 <= i < |s| ==> s[i] != c
  {
  }

  lemma PlainUnstripped(s: string)
    requires Plain(s)
    ensures Strip(s) == s
  {
    if s != "" {
      PlainUnspaced(s[0]);
      PlainUnspaced(s[|s| - 1]);
    }
  }

  lemma PlainUnspaced(c: char)
    requires IsDigit(c) || c in ".-+eE"
    ensures !IsSpace(c)
  {
  }

  lemma IndexOfAbsent(s: string, marks: string)
    requires forall i :: 0 <= i < |s| ==> s[i] !in marks
    ensures IndexOf(s, marks) == |s|
  {
  }

  lemma IndexOfFirst(a: string, c: char, b: string, marks: string)
    requires c in marks && forall i :: 0 <= i < |a| ==> a[i] !in marks
    ensures IndexOf(a + [c] + b, marks) == |a|
  {
    var s := a + [c] + b;
    assert s[|a|] == c;
    assert forall j :: 0 <= j < |a| ==> s[j] == a[j];
  }

  /** An unsigned print parses to its digits and its number of decimal places. */
  lemma ParseWhole(negative: bool, whole: string)
    requires AllDigits(whole) && whole != []
    ensures ParseUnsigned(negative, whole) == Some(Decimal(negative, DigitsValue(whole), 0))
  {
    IndexOfAbsent(whole, "eE");
    IndexOfAbsent(whole, ".");
    assert whole[..|whole|] == whole && whole + [] == whole;
  }

  lemma ParsePointed(negative: bool, whole: string, fraction: string)
    requires AllDigits(whole) && AllDigits(fraction) && whole != []
    ensures ParseUnsigned(negative, whole + "." + fraction)
         == Some(Decimal(negative, DigitsValue(whole + fraction), -|fraction|))
  {
    var s := whole + "." + fraction;
    IndexOfAbsent(s, "eE");
    IndexOfFirst(whole, '.', fraction, ".");
    assert s[..|s|] == s && s[..|whole|] == whole && s[|whole| + 1..] == fraction;
  }

  /** What parsing a print gives back: the number itself, or its expansion when the exponent is positive. */
  function Expanded(d: Decimal): Decimal {
    if d.exponent < 0 then d else Decimal(d.negative, d.coefficient * Pow10(d.exponent), 0)
  }

  lemma ExpandedExact(d: Decimal)
    ensures Expanded(d) == d <==> d.exponent <= 0
    ensures ValueOf(Expanded(d)) == ValueOf(d)
  {
    if d.exponent == 0 {
      assert Pow10(0) == 1;
    }
  }

  lemma WholeDigits(coefficient: nat, exponent: nat)
    ensures var body := FormatUnsigned(coefficient, exponent);
            AllDigits(body) && body != [] && DigitsValue(body) == coefficient * Pow10(exponent)
  {
    DigitsRoundTrip(coefficient);
    TrailingZeros(Digits(coefficient), exponent);
    if coefficient == 0 {
      assert Digits(0) == "0" == FormatUnsigned(coefficient, exponent);
    }
  }

  lemma PaddedValue(coefficient: nat, k: nat)
    ensures DigitsValue(Padded(coefficient, k)) == coefficient
  {
    DigitsRoundTrip(coefficient);
    if |Digits(coefficient)| <= k {
      PaddedByZeros(coefficient, k);
      ZerosBefore(Digits(coefficient), k + 1 - |Digits(coefficient)|, coefficient);
    }
  }

  lemma ZerosBefore(body: string, zeros: nat, value: nat)
    requires AllDigits(body) && DigitsValue(body) == value
    ensures DigitsValue(Zeros(zeros) + body) == value
  {
    LeadingZeros(zeros, body);
  }

  lemma PaddedByZeros(coefficient: nat, k: nat)
    requires |Digits(coefficient)| <= k
    ensures Padded(coefficient, k) == Zeros(k + 1 - |Digits(coefficient)|) + Digits(coefficient)
  {
  }

  lemma ParseWholePrint(negative: bool, coefficient: nat, exponent: nat)
    ensures ParseUnsigned(negative, FormatUnsigned(coefficient, exponent))
         == Some(Expanded(Decimal(negative, coefficient, exponent)))
  {
    WholeDigits(coefficient, exponent);
    ParseWhole(negative, FormatUnsigned(coefficient, exponent));
  }

  lemma PointedPrint(coefficient: nat, exponent: int)
    requires exponent < 0
    ensures var p := Padded(coefficient, -exponent); var k := |p| + exponent;
      0 < k < |p| && FormatUnsigned(coefficient, exponent) == p[..k] + "." + p[k..] && |p[k..]| == -exponent
  {
  }

  lemma ParsePointedPrint(negative: bool, coefficient: nat, exponent: int)
    requires exponent < 0
    ensures ParseUnsigned(negative, FormatUnsigned(coefficient, exponent))
         == Some(Decimal(negative, coefficient, exponent))
  {
    var p := Padded(coefficient, -exponent);
    var k := |p| + exponent;
    PaddedValue(coefficient, -exponent);
    PointedPrint(coefficient, exponent);
    PrintedPoint(negative, p, k, coefficient);
  }

  lemma SplitValue(p: string, k: nat, value: nat)
    requires AllDigits(p) && k <= |p| && DigitsValue(p) == value
    ensures AllDigits(p[..k]) && AllDigits(p[k..]) && DigitsValue(p[..k] + p[k..]) == value
  {
    assert p[..k] + p[k..] == p;
  }

  lemma PointedValue(negative: bool, whole: string, fraction: string, value: nat)
    requires AllDigits(whole) && AllDigits(fraction) && whole != [] && DigitsValue(whole + fraction) == value
    ensures ParseUnsigned(negative, whole + "." + fraction) == Some(Decimal(negative, value, -|fraction|))
  {
    ParsePointed(negative, whole, fraction);
  }

  lemma PrintedPoint(negative: bool, p: string, k: nat, value: nat)
    requires AllDigits(p) && 0 < k < |p| && DigitsValue(p) == value
    ensures ParseUnsigned(negative, p[..k] + "." + p[k..]) == Some(Decimal(negative, value, -|p[k..]|))
  {
    SplitValue(p, k, value);
    PointedValue(negative, p[..k], p[k..], value);
  }

  lemma ParseUnsignedPrint(negative: bool, coefficient: nat, exponent: int)
    ensures ParseUnsigned(negative, FormatUnsigned(coefficient, exponent))
         == Some(Expanded(Decimal(negative, coefficient, exponent)))
  {
    if exponent >= 0 { ParseWholePrint(negative, coefficient, exponent); }
    else { ParsePointedPrint(negative, coefficient, exponent); }
  }

  lemma PrintIsPlain(coefficient: nat, exponent: int)
    ensures var body := FormatUnsigned(coefficient, exponent);
            Plain(body) && body != [] && IsDigit(body[0])
  {
    if exponent >= 0 {
      WholeDigits(coefficient, exponent);
    } else {
      var p := Padded(coefficient, -exponent);
      assert FormatUnsigned(coefficient, exponent)[0] == p[0];
    }
  }

  lemma ParsePlain(s: string)
    requires Plain(s) && s != []
    ensures ParseDecimal(Text(s)) == ParseNumeral(s)
  {
    PlainIsClean(s);
  }

  lemma PrintThenParse(d: Decimal)
    ensures Reparse(ToJson(Some(d))) == Some(Expanded(d))
  {
    var body := FormatUnsigned(d.coefficient, d.exponent);
    PrintIsPlain(d.coefficient, d.exponent);
    ParseUnsignedPrint(d.negative, d.coefficient, d.exponent);
    var s := FormatFixed(d);
    assert s == if d.negative then "-" + body else body;
    assert d.negative ==> s[1..] == body;
    ParsePlain(s);
  }

  /** For every finite decimal, parsing its fixed-point print gives an equal number. */
  lemma RoundTripValue(d: Decimal)
    ensures Reparse(ToJson(Some(d))).Some?
    ensures ValueOf(Reparse(ToJson(Some(d))).value) == ValueOf(d)
  {
    PrintThenParse(d);
    ExpandedExact(d);
  }

  /** The representation itself survives exactly when no positive exponent had to be written out. */
  lemma RoundTripExact(d: Decimal)
    ensures Reparse(ToJson(Some(d))) == Some(d) <==> d.exponent <= 0
  {
    PrintThenParse(d);
    ExpandedExact(d);
  }

  /** Two numbers print alike only if they are equal. */
  lemma PrintInjective(a: Decimal, b: Decimal)
    requires FormatFixed(a) == FormatFixed(b)
    ensures ValueOf(a) == ValueOf(b)
  {
    RoundTripValue(a);
    RoundTripValue(b);
  }

  lemma {:induction false} ReplaceConcat(a: string, b: string, c: char, t: string)
    ensures Replace(a + b, c, t) == Replace(a, c, t) + Replace(b, c, t)
  {
    if a == [] {
      assert a + b == b;
    } else {
      assert (a + b)[1..] == a[1..] + b;
      ReplaceConcat(a[1..], b, c, t);
    }
  }

  /** The parser ignores grouping spaces anywhere in the text. */
  lemma SpacesIgnored(a: string, b: string)
    ensures ParseDecimal(Text(a + " " + b)) == ParseDecimal(Text(a + b))
  {
    ReplaceConcat(a + " ", b, ' ', "");
    ReplaceConcat(a, " ", ' ', "");
    ReplaceConcat(a, b, ' ', "");
    assert Replace(" ", ' ', "") == "";
    assert Replace(a + " " + b, ' ', "") == Replace(a + b, ' ', "");
  }

  lemma NoBreakSpacesIgnored(a: string, b: string)
    ensures ParseDecimal(Text(a + "\U{00A0}" + b)) == ParseDecimal(Text(a + b))
  {
    var x, y, space := Replace(a, ' ', ""), Replace(b, ' ', ""), "\U{00A0}";
    ReplaceConcat(a + space, b, ' ', "");
    ReplaceConcat(a, space, ' ', "");
    ReplaceConcat(a, b, ' ', "");
    assert Replace(space, ' ', "") == space;
    ReplaceConcat(x + space, y, '\U{00A0}', "");
    ReplaceConcat(x, space, '\U{00A0}', "");
    ReplaceConcat(x, y, '\U{00A0}', "");
    assert Replace(space, '\U{00A0}', "") == "";
    assert Replace(x + space + y, '\U{00A0}', "") == Replace(x + y, '\U{00A0}', "");
  }

  lemma {:induction false} ReplaceMark(a: string, mark: string, b: string, c: char, t: string)
    ensures Replace(a + mark + b, c, t) == Replace(a, c, t) + Replace(mark, c, t) + Replace(b, c, t)
  {
    ReplaceConcat(a + mark, b, c, t);
    ReplaceConcat(a, mark, c, t);
  }

  /** A decimal comma is a decimal point, wherever it stands. */
  lemma CommaIsPoint(a: string, b: string)
    ensures ParseDecimal(Text(a + "," + b)) == ParseDecimal(Text(a + "." + b))
  {
    CommaCleaned(a, b);
  }

  lemma CommaCleaned(a: string, b: string)
    ensures Cleaned(a + "," + b) == Cleaned(a + "." + b)
  {
    var x, y := Replace(a, ' ', ""), Replace(b, ' ', "");
    var u, v := Replace(x, '\U{00A0}', ""), Replace(y, '\U{00A0}', "");
    ReplaceMark(a, ",", b, ' ', "");
    ReplaceMark(a, ".", b, ' ', "");
    assert Replace(",", ' ', "") == "," && Replace(".", ' ', "") == ".";
    ReplaceMark(x, ",", y, '\U{00A0}', "");
    ReplaceMark(x, ".", y, '\U{00A0}', "");
    assert Replace(",", '\U{00A0}', "") == "," && Replace(".", '\U{00A0}', "") == ".";
    ReplaceMark(u, ",", v, ',', ".");
    ReplaceMark(u, ".", v, ',', ".");
    assert Replace(",", ',', ".") == "." && Replace(".", ',', ".") == ".";
  }

  predicate IsSign(sign: string) { sign in {"", "+", "-"} }

  lemma SignedNumeral(sign: string, body: string)
    requires IsSign(sign) && body != "" && !HasSign(body)
    ensures ParseNumeral(sign + body) == ParseUnsigned(sign == "-", body)
  {
    if sign == "" { assert sign + body == body; } else { assert (sign + body)[1..] == body; }
  }

  lemma PointedMantissa(a: string, b: string)
    requires AllDigits(a) && AllDigits(b) && a + b != ""
    ensures ParseMantissa(a + "." + b) == Some((DigitsValue(a + b), -|b|))
  {
    var m := a + "." + b;
    IndexOfFirst(a, '.', b, ".");
    assert m[..|a|] == a && m[|a| + 1..] == b;
  }

  lemma PlainConcat(a: string, b: string)
    requires Plain(a) && Plain(b)
    ensures Plain(a + b)
  {
  }

  lemma PlainMantissa(a: string, b: string)
    requires AllDigits(a) && AllDigits(b)
    ensures Plain(a + "." + b)
  {
    PlainConcat(a, ".");
    PlainConcat(a + ".", b);
  }

  lemma SignedText(sign: string, body: string)
    requires IsSign(sign) && Plain(body) && body != "" && !HasSign(body)
    ensures ParseDecimal(Text(sign + body)) == ParseUnsigned(sign == "-", body)
  {
    PlainConcat(sign, body);
    ParsePlain(sign + body);
    SignedNumeral(sign, body);
  }

  lemma UnsignedPointed(negative: bool, a: string, b: string)
    requires AllDigits(a) && AllDigits(b) && a + b != ""
    ensures ParseUnsigned(negative, a + "." + b) == Some(Decimal(negative, DigitsValue(a + b), -|b|))
  {
    var body := a + "." + b;
    IndexOfAbsent(body, "eE");
    assert body[..|body|] == body;
    PointedMantissa(a, b);
  }

  lemma MantissaUnsigned(a: string, b: string)
    requires AllDigits(a) && AllDigits(b)
    ensures !HasSign(a + "." + b)
  {
    assert a != "" ==> (a + "." + b)[0] == a[0];
  }

  lemma SignedPointed(sign: string, a: string, b: string)
    requires IsSign(sign) && AllDigits(a) && AllDigits(b) && a + b != ""
    ensures ParseDecimal(Text(sign + (a + "." + b))) == Some(Decimal(sign == "-", DigitsValue(a + b), -|b|))
  {
    PlainMantissa(a, b);
    MantissaUnsigned(a, b);
    SignedText(sign, a + "." + b);
    UnsignedPointed(sign == "-", a, b);
  }

  lemma MarkAlike(sign: string, a: string, mark: string, b: string)
    requires mark in {".", ","}
    ensures ParseDecimal(Text(sign + a + mark + b)) == ParseDecimal(Text(sign + a + "." + b))
  {
    if mark == "," { CommaIsPoint(sign + a, b); }
  }

  lemma Regrouped(a: string, b: string, c: string, d: string)
    ensures a + b + c + d == a + (b + c + d)
  {
  }

  /** A sign, whole digits, a comma or a point and decimal places: the digits together, and as many places. */
  lemma PointedMeaning(sign: string, a: string, mark: string, b: string)
    requires IsSign(sign) && AllDigits(a) && AllDigits(b) && a + b != "" && mark in {".", ","}
    ensures ParseDecimal(Text(sign + a + mark + b)) == Some(Decimal(sign == "-", DigitsValue(a + b), -|b|))
  {
    MarkAlike(sign, a, mark, b);
    Regrouped(sign, a, ".", b);
    SignedPointed(sign, a, b);
  }

  function Signed(sign: string, n: int): int { if sign == "-" then -n else n }

  lemma IntegerMeaning(sign: string, c: string)
    requires IsSign(sign) && AllDigits(c) && c != ""
    ensures ParseInteger(sign + c) == Some(Signed(sign, DigitsValue(c)))
  {
    if sign == "" { assert sign + c == c; } else { assert (sign + c)[1..] == c; }
  }

  lemma UnsignedParts(negative: bool, m: string, e: char, tail: string, coefficient: nat, places: int, shift: int)
    requires e in "eE" && forall i :: 0 <= i < |m| ==> m[i] !in "eE"
    requires ParseMantissa(m) == Some((coefficient, places)) && ParseInteger(tail) == Some(shift)
    ensures ParseUnsigned(negative, m + [e] + tail) == Some(Decimal(negative, coefficient, places + shift))
  {
    IndexOfFirst(m, e, tail, "eE");
    SplitAt(m, e, tail);
  }

  lemma SplitAt(m: string, e: char, tail: string)
    ensures (m + [e] + tail)[..|m|] == m && (m + [e] + tail)[|m| + 1..] == tail
  {
  }

  /** An exponent takes places back or adds them: what mantissa and exponent read as is put together. */
  lemma ExponentShifts(sign: string, m: string, e: char, tail: string, coefficient: nat, places: int, shift: int)
    requires IsSign(sign) && Plain(m) && Plain(tail) && m != "" && !HasSign(m)
    requires e in "eE" && forall i :: 0 <= i < |m| ==> m[i] !in "eE"
    requires ParseMantissa(m) == Some((coefficient, places)) && ParseInteger(tail) == Some(shift)
    ensures ParseDecimal(Text(sign + (m + [e] + tail))) == Some(Decimal(sign == "-", coefficient, places + shift))
  {
    var body := m + [e] + tail;
    PlainConcat(m, [e]);
    PlainConcat(m + [e], tail);
    assert body[0] == m[0];
    SignedText(sign, body);
    UnsignedParts(sign == "-", m, e, tail, coefficient, places, shift);
  }
}
