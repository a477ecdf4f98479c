/**
 Deciding what a script or an agent returned: trimming, decimal numbers, name and value
 lists, octet strings, numbers wrapped in text, and what is stored for each.
 */
module ResultClassifier {

  import opened OutputWriter

  // ---- Decimal numbers ----

  predicate AllDigits(s: string) {
    forall i | 0 <= i < |s| :: Digit(s[i])
  }

  predicate Sign(c: char) {
    c == '+' || c == '-'
  }

  function SignEnd(s: string, i: nat): (j: nat)
    requires i <= |s|
    ensures i <= j <= |s|
  {
    if i < |s| && Sign(s[i]) then i + 1 else i
  }

  /** Where the run of digits that begins at i ends. */
  function DigitsEnd(s: string, i: nat): (j: nat)
    requires i <= |s|
    ensures i <= j <= |s|
    decreases |s| - i
  {
    if i < |s| && Digit(s[i]) then DigitsEnd(s, i + 1) else i
  }

  /** Where the digits after a point at b end; b if there is no point. */
  function FractionEnd(s: string, b: nat): (d: nat)
    requires b <= |s|
    ensures b <= d <= |s|
  {
    if b < |s| && s[b] == '.' then DigitsEnd(s, b + 1) else b
  }

  /** From d the text ends, or an exponent reaches its end. */
  predicate ExponentOnly(s: string, d: nat)
    requires d <= |s|
  {
    d == |s| ||
    ((s[d] == 'e' || s[d] == 'E') && SignEnd(s, d + 1) < |s| == DigitsEnd(s, SignEnd(s, d + 1)))
  }

  /** The syntax check as a scan. */
  predicate Scanned(s: string) {
    var a := SignEnd(s, 0);
    var b := DigitsEnd(s, a);
    var d := FractionEnd(s, b);
    (b > a || d > b + 1) && ExponentOnly(s, d)
  }

  /** A scanned text without point or exponent. */
  predicate Integral(s: string) {
    DigitsEnd(s, SignEnd(s, 0)) == |s|
  }

  datatype Option<T> = None | Some(value: T)

  datatype Exponent = Exponent(mark: char, sign: string, digits: string)

  /** A decimal number, part by part. */
  datatype Numeral = Numeral(sign: string, whole: string, fraction: Option<string>, exponent: Option<Exponent>)

  predicate SignText(s: string) {
    s == "" || s == "+" || s == "-"
  }

  /** The grammar: digits somewhere before the exponent, and digits in the exponent. */
  predicate Proper(n: Numeral) {
    && SignText(n.sign) && AllDigits(n.whole)
    && ProperFraction(n.fraction)
    && (n.whole != "" || (n.fraction.Some? && n.fraction.value != ""))
    && ProperExponent(n.exponent)
  }

  predicate ProperFraction(f: Option<string>) {
    f.Some? ==> AllDigits(f.value)
  }

  predicate ProperExponent(e: Option<Exponent>) {
    e.Some? ==>
      && (e.value.mark == 'e' || e.value.mark == 'E') && SignText(e.value.sign)
      && e.value.digits != "" && AllDigits(e.value.digits)
  }

  function ExponentText(e: Option<Exponent>): string {
    if e.None? then "" else [e.value.mark] + (e.value.sign + e.value.digits)
  }

  function FractionText(f: Option<string>): string {
    if f.None? then "" else "." + f.value
  }

  function Written(n: Numeral): string {
    n.sign + (n.whole + (FractionText(n.fraction) + ExponentText(n.exponent)))
  }

  lemma {:induction false} RunOfDigits(s: string, i: nat)
    requires i <= |s|
    ensures var j := DigitsEnd(s, i); AllDigits(s[i..j]) && (j < |s| ==> !Digit(s[j]))
    decreases |s| - i
  {
    if i < |s| && Digit(s[i]) {
      RunOfDigits(s, i + 1);
      assert s[i..DigitsEnd(s, i)] == [s[i]] + s[i + 1..DigitsEnd(s, i + 1)];
    }
  }

  /** A run of digits that nothing continues ends where the scan says. */
  lemma {:induction false} RunIs(s: string, i: nat, j: nat)
    requires i <= j <= |s| && AllDigits(s[i..j]) && (j < |s| ==> !Digit(s[j]))
    ensures DigitsEnd(s, i) == j
    decreases j - i
  {
    if i < j {
      assert s[i..j][0] == s[i] && s[i..j][1..] == s[i + 1..j];
      RunIs(s, i + 1, j);
    }
  }

  function FractionOf(s: string, b: nat): Option<string>
    requires b <= |s|
  {
    if b < |s| && s[b] == '.' then Some(s[b + 1..FractionEnd(s, b)]) else None
  }

  function ExponentOf(s: string, d: nat): Option<Exponent>
    requires d <= |s|
  {
    if d == |s| then None else Some(Exponent(s[d], s[d + 1..SignEnd(s, d + 1)], s[SignEnd(s, d + 1)..]))
  }

  /** The parts the scan finds. */
  function PartsOf(s: string): Numeral {
    var a := SignEnd(s, 0);
    var b := DigitsEnd(s, a);
    Numeral(s[..a], s[a..b], FractionOf(s, b), ExponentOf(s, FractionEnd(s, b)))
  }

  lemma Pieces(s: string, a: nat, b: nat, d: nat)
    requires a <= b <= d <= |s|
    ensures s[..a] + (s[a..b] + (s[b..d] + s[d..])) == s
  {
    assert s[b..d] + s[d..] == s[b..];
    assert s[a..b] + s[b..] == s[a..];
  }

  lemma ExponentParts(s: string, d: nat)
    requires d <= |s| && ExponentOnly(s, d)
    ensures ExponentText(ExponentOf(s, d)) == s[d..] && ProperExponent(ExponentOf(s, d))
  {
    if d < |s| {
      var e := SignEnd(s, d + 1);
      assert AllDigits(s[e..]) by {
        RunOfDigits(s, e);
        assert s[e..DigitsEnd(s, e)] == s[e..];
      }
      assert [s[d]] + (s[d + 1..e] + s[e..]) == s[d..];
      SignIsText(s, d + 1);
    }
  }

  lemma SignIsText(s: string, i: nat)
    requires i <= |s|
    ensures SignText(s[i..SignEnd(s, i)])
  {
    if SignEnd(s, i) > i { assert s[i..i + 1] == [s[i]]; }
  }

  lemma FractionParts(s: string, b: nat)
    requires b <= |s|
    ensures var d, f := FractionEnd(s, b), FractionOf(s, b);
            FractionText(f) == s[b..d] && ProperFraction(f) && (f.Some? && f.value != "" <==> d > b + 1)
  {
    if b < |s| && s[b] == '.' {
      RunOfDigits(s, b + 1);
      assert "." + s[b + 1..FractionEnd(s, b)] == s[b..FractionEnd(s, b)];
    }
  }

  lemma ScanProper(s: string)
    requires Scanned(s)
    ensures Proper(PartsOf(s))
  {
    var a := SignEnd(s, 0);
    var b := DigitsEnd(s, a);
    assert SignText(s[..a]) by {
      SignIsText(s, 0);
      assert s[..a] == s[0..a];
    }
    RunOfDigits(s, a);
    FractionParts(s, b);
    ExponentParts(s, FractionEnd(s, b));
  }

  lemma ScanWritten(s: string)
    requires Scanned(s)
    ensures Written(PartsOf(s)) == s
  {
    var a := SignEnd(s, 0);
    var b := DigitsEnd(s, a);
    var d := FractionEnd(s, b);
    FractionParts(s, b);
    ExponentParts(s, d);
    Pieces(s, a, b, d);
  }

  lemma ScanFindsParts(s: string)
    requires Scanned(s)
    ensures Proper(PartsOf(s)) && Written(PartsOf(s)) == s
  {
    ScanProper(s);
    ScanWritten(s);
  }

  /** The first character of what follows the digits is not a digit. */
  lemma TailStarts(n: Numeral)
    requires Proper(n)
    ensures var t := FractionText(n.fraction) + ExponentText(n.exponent); t != [] ==> !Digit(t[0]) && !Sign(t[0])
    ensures ExponentText(n.exponent) != [] ==> !Digit(ExponentText(n.exponent)[0]) && ExponentText(n.exponent)[0] != '.'
    ensures n.whole == "" ==> FractionText(n.fraction) != []
  {
  }

  lemma SkipTo(s: string, x: string, y: string, i: nat)
    requires i <= |s| && s[i..] == x + y
    ensures i + |x| <= |s| && s[i..i + |x|] == x && s[i + |x|..] == y
  {
    assert s[i..i + |x|] == s[i..][..|x|];
    assert s[i + |x|..] == s[i..][|x|..];
  }

  lemma SignScanned(s: string, sign: string, rest: string, i: nat)
    requires i <= |s| && s[i..] == sign + rest && SignText(sign)
    requires (rest != [] ==> !Sign(rest[0])) && (sign != "" ==> rest != [])
    ensures SignEnd(s, i) == i + |sign| <= |s| && s[i + |sign|..] == rest
  {
    SkipTo(s, sign, rest, i);
    if sign == "" {
      assert sign + rest == rest;
      if i < |s| { assert s[i] == s[i..][0]; }
    } else {
      assert s[i] == s[i..][0] == sign[0];
    }
  }

  lemma DigitsScanned(s: string, digits: string, rest: string, i: nat)
    requires i <= |s| && s[i..] == digits + rest && AllDigits(digits) && (rest != [] ==> !Digit(rest[0]))
    ensures DigitsEnd(s, i) == i + |digits| <= |s| && s[i + |digits|..] == rest
  {
    SkipTo(s, digits, rest, i);
    var j := i + |digits|;
    if j < |s| { assert s[j] == s[j..][0]; }
    RunIs(s, i, j);
  }

  lemma LastDigits(s: string, digits: string, i: nat)
    requires i <= |s| && s[i..] == digits && AllDigits(digits)
    ensures DigitsEnd(s, i) == |s|
  {
    assert digits + [] == digits;
    DigitsScanned(s, digits, [], i);
  }

  lemma ExponentScanned(s: string, n: Numeral, d: nat)
    requires Proper(n) && d <= |s| && s[d..] == ExponentText(n.exponent)
    ensures ExponentOnly(s, d)
  {
    if n.exponent.Some? {
      var e := n.exponent.value;
      assert s[d] == e.mark && s[d + 1..] == e.sign + e.digits by {
        SkipTo(s, [e.mark], e.sign + e.digits, d);
        assert s[d] == s[d..][0];
      }
      var i := d + 1 + |e.sign|;
      assert SignEnd(s, d + 1) == i <= |s| && s[i..] == e.digits by { SignScanned(s, e.sign, e.digits, d + 1); }
      assert DigitsEnd(s, i) == |s| by { LastDigits(s, e.digits, i); }
    }
  }

  lemma PointScanned(s: string, f: string, tail: string, b: nat)
    requires b <= |s| && s[b..] == "." + (f + tail) && AllDigits(f) && (tail != [] ==> !Digit(tail[0]))
    ensures FractionEnd(s, b) == b + 1 + |f| <= |s| && s[FractionEnd(s, b)..] == tail
  {
    SkipTo(s, ".", f + tail, b);
    assert s[b] == s[b..][0];
    DigitsScanned(s, f, tail, b + 1);
  }

  lemma FractionScanned(s: string, n: Numeral, b: nat)
    requires Proper(n) && b <= |s| && s[b..] == FractionText(n.fraction) + ExponentText(n.exponent)
    ensures FractionEnd(s, b) == b + |FractionText(n.fraction)| <= |s|
    ensures s[FractionEnd(s, b)..] == ExponentText(n.exponent)
  {
    TailStarts(n);
    var tail := ExponentText(n.exponent);
    if n.fraction.Some? {
      assert "." + n.fraction.value + tail == "." + (n.fraction.value + tail);
      PointScanned(s, n.fraction.value, tail, b);
    } else {
      assert [] + tail == tail;
      if b < |s| { assert s[b] == s[b..][0]; }
    }
  }

  lemma HeadScanned(s: string, n: Numeral)
    requires Proper(n) && Written(n) == s
    ensures SignEnd(s, 0) == |n.sign| && DigitsEnd(s, |n.sign|) == |n.sign| + |n.whole|
    ensures s[|n.sign| + |n.whole|..] == FractionText(n.fraction) + ExponentText(n.exponent)
  {
    TailStarts(n);
    var tail := FractionText(n.fraction) + ExponentText(n.exponent);
    assert s[0..] == n.sign + (n.whole + tail);
    assert n.whole + tail != [] && !Sign((n.whole + tail)[0]) by {
      if n.whole != "" {
        assert (n.whole + tail)[0] == n.whole[0];
      } else {
        assert n.whole + tail == tail;
      }
    }
    SignScanned(s, n.sign, n.whole + tail, 0);
    DigitsScanned(s, n.whole, tail, |n.sign|);
  }

  lemma TailScanned(s: string, n: Numeral, b: nat)
    requires Proper(n) && b <= |s| && s[b..] == FractionText(n.fraction) + ExponentText(n.exponent)
    ensures FractionEnd(s, b) == b + |FractionText(n.fraction)| && ExponentOnly(s, FractionEnd(s, b))
    ensures b == |s| <==> n.fraction.None? && n.exponent.None?
  {
    FractionScanned(s, n, b);
    ExponentScanned(s, n, FractionEnd(s, b));
    assert |s[b..]| == |s| - b;
  }

  lemma ScannedFrom(s: string, n: Numeral, a: nat, b: nat)
    requires Proper(n) && a == SignEnd(s, 0) && b == DigitsEnd(s, a) == a + |n.whole|
    requires s[b..] == FractionText(n.fraction) + ExponentText(n.exponent)
    ensures Scanned(s) && (Integral(s) <==> n.fraction.None? && n.exponent.None?)
  {
    TailScanned(s, n, b);
    assert n.whole == "" ==> |FractionText(n.fraction)| > 1;
  }

  lemma PartsScan(s: string, n: Numeral)
    requires Proper(n) && Written(n) == s
    ensures Scanned(s) && (Integral(s) <==> n.fraction.None? && n.exponent.None?)
  {
    HeadScanned(s, n);
    ScannedFrom(s, n, |n.sign|, |n.sign| + |n.whole|);
  }

  /** The scan accepts exactly the texts of the grammar. */
  lemma ScanIffGrammar(s: string)
    ensures Scanned(s) <==> exists n :: Proper(n) && Written(n) == s
  {
    if Scanned(s) { ScanFindsParts(s); }
    if n :| Proper(n) && Written(n) == s { PartsScan(s, n); }
  }

  method SkipDigits(text: string, from: nat) returns (cursor: nat)
    requires from <= |text|
    ensures cursor == DigitsEnd(text, from)
  {
    cursor := from;
    while cursor < |text| && Digit(text[cursor])
      invariant cursor <= |text| && DigitsEnd(text, cursor) == DigitsEnd(text, from)
    {
      cursor := cursor + 1;
    }
  }

  /** decimal_syntax, with its cursor. */
  method DecimalSyntax(text: string) returns (ok: bool, integral: bool)
    ensures ok <==> Scanned(text)
    ensures ok ==> (integral <==> Integral(text))
  {
    integral := true;
    var start := SignEnd(text, 0);
    var cursor := SkipDigits(text, start);
    var digits := cursor - start;
    if cursor < |text| && text[cursor] == '.' {
      integral, start := false, cursor + 1;
      cursor := SkipDigits(text, start);
      digits := digits + (cursor - start);
    }
    if digits == 0 { return false, integral; }
    if cursor < |text| && (text[cursor] == 'e' || text[cursor] == 'E') {
      integral, cursor := false, SignEnd(text, cursor + 1);
      if cursor == |text| || !Digit(text[cursor]) { return false, integral; }
      cursor := SkipDigits(text, cursor);
    }
    ok := cursor == |text|;
  }

  // ---- Values ----

  const TWO_64 := 0x1_0000_0000_0000_0000
  const TWO_63 := 0x8000_0000_0000_0000

  function DigitValue(c: char): nat
    requires Digit(c)
  {
    (c - '0') as nat
  }

  function NatOf(s: string): nat
    requires AllDigits(s)
  {
    if s == [] then 0 else 10 * NatOf(s[..|s| - 1]) + DigitValue(s[|s| - 1])
  }

  /** What a text is worth. */
  datatype Value = Nothing | Natural(n: nat) | Negative(z: int) | Float(x: real)

  datatype Kind = Unknown | Counter | Signed | Real | HexCounter | Multipart

  /** A number and the kind it was read as. */
  datatype Parsed = Parsed(kind: Kind, value: Value)

  lemma IntegralDigits(s: string)
    requires Integral(s)
    ensures AllDigits(s[SignEnd(s, 0)..])
  {
    var a := SignEnd(s, 0);
    RunOfDigits(s, a);
    forall k | 0 <= k < |s[a..]| ensures Digit(s[a..][k]) { assert s[a..][k] == s[a..|s|][k]; }
  }

  /** The magnitude of an integral text. */
  function Magnitude(s: string): nat
    requires Integral(s)
  {
    IntegralDigits(s);
    NatOf(s[SignEnd(s, 0)..])
  }

  /** parse_decimal; strtod gives the finite floating value of a decimal text, if it has one. */
  function ParseDecimal(s: string, strtod: string -> Option<real>): Option<Parsed> {
    if !Scanned(s) then None
    else if Integral(s) && s[0] == '-' && Magnitude(s) <= TWO_63 then Some(Parsed(Signed, Negative(0 - Magnitude(s))))
    else if Integral(s) && s[0] != '-' && Magnitude(s) < TWO_64 then Some(Parsed(Counter, Natural(Magnitude(s))))
    else
      match strtod(s)
      case None => None
      case Some(x) => Some(Parsed(Real, Float(x)))
  }

  lemma {:induction false} DecimalDigits(n: nat)
    ensures AllDigits(Decimal(n)) && Decimal(n) != [] && NatOf(Decimal(n)) == n
  {
    if n >= 10 {
      DecimalDigits(n / 10);
      var s := Decimal(n);
      assert s[..|s| - 1] == Decimal(n / 10);
    } else {
      assert Decimal(n)[..0] == [];
    }
  }

  lemma DigitsAreIntegral(s: string)
    requires AllDigits(s) && s != []
    ensures SignEnd(s, 0) == 0 && Scanned(s) && Integral(s) && s[0] != '-'
  {
    assert s[0..|s|] == s;
    RunIs(s, 0, |s|);
  }

  lemma MagnitudeOfDigits(s: string)
    requires AllDigits(s) && s != [] && SignEnd(s, 0) == 0 && Integral(s)
    ensures Magnitude(s) == NatOf(s)
  {
    assert s[0..] == s;
  }

  /** Printing a natural number and reading it back. */
  lemma DecimalReadsBack(n: nat, strtod: string -> Option<real>)
    requires n < TWO_64
    ensures ParseDecimal(Decimal(n), strtod) == Some(Parsed(Counter, Natural(n)))
  {
    var s := Decimal(n);
    DecimalDigits(n);
    DigitsAreIntegral(s);
    MagnitudeOfDigits(s);
  }

  // ---- Octets ----

  predicate HexDigit(c: char) {
    Digit(c) || 'a' <= c <= 'f' || 'A' <= c <= 'F'
  }

  function HexValue(c: char): (v: nat)
    requires HexDigit(c)
    ensures v < 16
  {
    if Digit(c) then (c - '0') as nat else if 'a' <= c <= 'f' then (c - 'a') as nat + 10 else (c - 'A') as nat + 10
  }

  predicate Separator(c: char) {
    c == ' ' || c == ':' || c == '-'
  }

  /** The first n octets of a text, each followed by a separator unless it is the last of the text. */
  predicate OctetsUpTo(s: string, n: nat) {
    && 3 * n <= |s| + 1
    && (forall k | 0 <= k < n :: HexDigit(s[3 * k]) && HexDigit(s[3 * k + 1]))
    && (forall k | 0 <= k < n && 3 * k + 2 < |s| :: Separator(s[3 * k + 2]))
  }

  /** Two-digit octets, one separator between each. */
  predicate OctetText(s: string) {
    (|s| + 1) % 3 == 0 && OctetsUpTo(s, (|s| + 1) / 3)
  }

  /** The value of the first n octets, most significant first, without bound. */
  function OctetValue(s: string, n: nat): nat
    requires OctetsUpTo(s, n)
  {
    if n == 0 then 0 else 256 * OctetValue(s, n - 1) + (16 * HexValue(s[3 * (n - 1)]) + HexValue(s[3 * (n - 1) + 1]))
  }

  datatype Octets = NoOctets | Octets(value: nat) | TooWide

  function ParseOctets(s: string): Octets {
    if !OctetText(s) then NoOctets
    else if OctetValue(s, (|s| + 1) / 3) < TWO_64 then Octets(OctetValue(s, (|s| + 1) / 3))
    else TooWide
  }

  /** One more octet in the 64-bit accumulator. */
  function Shift(number: nat, octet: nat): nat
    requires octet < 256
  {
    (number * 256 + octet) % TWO_64
  }

  lemma ShiftStep(number: nat, overflow: bool, truth: nat, octet: nat)
    requires number < TWO_64 && octet < 256 && (overflow <==> truth >= TWO_64) && (!overflow ==> number == truth)
    ensures var overflow' := overflow || number > (TWO_64 - 1) / 256;
            var truth' := truth * 256 + octet;
            && (overflow' <==> truth' >= TWO_64)
            && (!overflow' ==> Shift(number, octet) == truth')
            && Shift(number, octet) < TWO_64
  {
  }

  lemma OctetsNext(s: string, n: nat)
    requires OctetsUpTo(s, n) && 3 * n + 2 <= |s| && HexDigit(s[3 * n]) && HexDigit(s[3 * n + 1])
    requires 3 * n + 2 < |s| ==> Separator(s[3 * n + 2])
    ensures OctetsUpTo(s, n + 1)
    ensures OctetValue(s, n + 1) == 256 * OctetValue(s, n) + (16 * HexValue(s[3 * n]) + HexValue(s[3 * n + 1]))
  {
  }

  /** A bad octet or separator anywhere spoils the whole text. */
  lemma NotOctets(s: string, n: nat)
    requires 3 * n <= |s|
    requires || 3 * n + 2 > |s| || !HexDigit(s[3 * n]) || !HexDigit(s[3 * n + 1])
             || (3 * n + 2 < |s| && !Separator(s[3 * n + 2]))
    ensures !OctetText(s)
  {
  }

  /** parse_octets: the sticky flag is set exactly when the true value needs more than 64 bits. */
  method ReadOctets(s: string) returns (r: Octets)
    ensures r == ParseOctets(s)
  {
    var n, number, overflow := 0, 0, false;
    while true
      invariant 3 * n <= |s| && OctetsUpTo(s, n) && 0 <= number < TWO_64
      invariant (overflow <==> OctetValue(s, n) >= TWO_64) && (!overflow ==> number == OctetValue(s, n))
      decreases |s| - 3 * n
    {
      if 3 * n + 1 >= |s| || !HexDigit(s[3 * n]) || !HexDigit(s[3 * n + 1]) {
        NotOctets(s, n);
        return NoOctets;
      }
      if 3 * n + 2 < |s| && !Separator(s[3 * n + 2]) {
        NotOctets(s, n);
        return NoOctets;
      }
      var octet := 16 * HexValue(s[3 * n]) + HexValue(s[3 * n + 1]);
      OctetsNext(s, n);
      ShiftStep(number, overflow, OctetValue(s, n), octet);
      if number > (TWO_64 - 1) / 256 { overflow := true; }
      number, n := Shift(number, octet), n + 1;
      if 3 * n == |s| + 1 { break; }
    }
    assert OctetText(s) && n == (|s| + 1) / 3;
    r := if overflow then TooWide else Octets(number);
  }

  // ---- Name and value lists ----

  /** One colon or exclamation mark per field, fields separated by single blanks. */
  predicate MultipartText(s: string) {
    var delimiters, spaces := Occurrences(s, ':') + Occurrences(s, '!'), Occurrences(s, ' ');
    delimiters > 0 && (spaces == 0 || spaces + 1 == delimiters)
  }

  /** multipart_syntax */
  method MultipartSyntax(s: string) returns (ok: bool)
    ensures ok <==> MultipartText(s)
  {
    var spaces, delimiters := 0, 0;
    for i := 0 to |s|
      invariant spaces == Occurrences(s[..i], ' ') && delimiters == Occurrences(s[..i], ':') + Occurrences(s[..i], '!')
    {
      assert s[..i + 1][..i] == s[..i];
      if s[i] == ':' || s[i] == '!' {
        delimiters := delimiters + 1;
      } else if s[i] == ' ' {
        spaces := spaces + 1;
      }
    }
    assert s[..|s|] == s;
    if delimiters == 0 { return false; }
    ok := spaces == 0 || spaces + 1 == delimiters;
  }

  // ---- Trimming and stripping ----

  predicate Padding(c: char) {
    c == ' ' || c == '"' || c == '\'' || c == '\\' || c == '\t' || c == '\n' || c == '\r'
  }

  predicate Bare(s: string) {
    s != [] && !Padding(s[0]) && !Padding(s[|s| - 1])
  }

  function TrimFront(s: string): string {
    if s != [] && Padding(s[0]) then TrimFront(s[1..]) else s
  }

  function TrimBack(s: string): string {
    if s != [] && Padding(s[|s| - 1]) then TrimBack(s[..|s| - 1]) else s
  }

  function Trimmed(s: string): string {
    TrimBack(TrimFront(s))
  }

  lemma BareStays(s: string)
    requires Bare(s)
    ensures Trimmed(s) == s
  {
  }

  lemma {:induction false} TrimFrontBare(s: string)
    ensures TrimFront(s) == [] || !Padding(TrimFront(s)[0])
  {
    if s != [] && Padding(s[0]) { TrimFrontBare(s[1..]); }
  }

  lemma {:induction false} TrimBackBare(s: string)
    requires s == [] || !Padding(s[0])
    ensures TrimBack(s) == [] || Bare(TrimBack(s))
  {
    if s != [] && Padding(s[|s| - 1]) { TrimBackBare(s[..|s| - 1]); }
  }

  lemma TrimmedIsBare(s: string)
    ensures Trimmed(s) == [] || Bare(Trimmed(s))
  {
    TrimFrontBare(s);
    TrimBackBare(TrimFront(s));
  }

  /** The part of a text that can be a number: from the first digit or minus sign to the last digit. */
  function DropTail(s: string): string {
    if s != [] && !Digit(s[|s| - 1]) then DropTail(s[..|s| - 1]) else s
  }

  function DropHead(s: string): string {
    if s != [] && !Digit(s[0]) && s[0] != '-' then DropHead(s[1..]) else s
  }

  function Core(s: string): string {
    DropHead(DropTail(s))
  }

  lemma {:induction false} DropTailEnds(s: string)
    ensures var r := DropTail(s); r <= s && (r == [] || Digit(r[|r| - 1]))
  {
    if s != [] && !Digit(s[|s| - 1]) { DropTailEnds(s[..|s| - 1]); }
  }

  lemma {:induction false} DropHeadEnds(s: string)
    requires s == [] || Digit(s[|s| - 1])
    ensures var r := DropHead(s);
            && (s != [] ==> r != []) && |r| <= |s|
            && (r == [] || (Digit(r[|r| - 1]) && (Digit(r[0]) || r[0] == '-')))
  {
    if s != [] && !Digit(s[0]) && s[0] != '-' { DropHeadEnds(s[1..]); }
  }

  /** A nonempty core begins with a digit or a minus sign and ends with a digit, so trimming leaves it. */
  lemma CoreIsBare(s: string)
    ensures Core(s) == [] || Bare(Core(s))
    ensures |Core(s)| <= |s|
  {
    DropTailEnds(s);
    DropHeadEnds(DropTail(s));
  }

  /** strip_alpha, shortening from the end in place and then moving the start. */
  method StripAlpha(s: string) returns (core: string)
    ensures core == Core(s)
  {
    var end := |s|;
    assert s[..|s|] == s;
    while end > 0 && !Digit(s[end - 1])
      invariant 0 <= end <= |s| && DropTail(s[..end]) == DropTail(s)
    {
      assert s[..end][..end - 1] == s[..end - 1];
      end := end - 1;
    }
    assert DropTail(s) == s[..end];
    core := StripFront(s[..end]);
  }

  method StripFront(s: string) returns (rest: string)
    ensures rest == DropHead(s)
  {
    var start := 0;
    assert s[0..] == s;
    while start < |s| && !Digit(s[start]) && s[start] != '-'
      invariant 0 <= start <= |s| && DropHead(s[start..]) == DropHead(s)
    {
      assert s[start..][1..] == s[start + 1..];
      start := start + 1;
    }
    rest := s[start..];
  }

  // ---- Classification ----

  const UNDEFINED := "U"

  datatype Classified = Classified(kind: Kind, value: Value, text: string)

  function UnknownResult(): Classified {
    Classified(Unknown, Nothing, UNDEFINED)
  }

  /** What is made of a trimmed text that is neither a number nor a list. */
  function ClassifyRest(s: string, strtod: string -> Option<real>): Classified {
    match ParseOctets(s)
    case Octets(n) => Classified(HexCounter, Natural(n), Decimal(n))
    case TooWide => UnknownResult()
    case NoOctets =>
      match ParseDecimal(Core(s), strtod)
      case None => UnknownResult()
      case Some(p) => Classified(p.kind, p.value, Core(s))
  }

  /** What is made of a trimmed text. */
  function ClassifyText(s: string, strtod: string -> Option<real>): Classified {
    match ParseDecimal(s, strtod)
    case Some(p) => Classified(p.kind, p.value, s)
    case None => if MultipartText(s) then Classified(Multipart, Nothing, s) else ClassifyRest(s, strtod)
  }

  /** classify_result, for a result buffer of the given size. */
  function Classify(raw: string, size: nat, strtod: string -> Option<real>): Classified {
    var s := Trimmed(raw);
    if s == [] || |s| >= size then UnknownResult() else ClassifyText(s, strtod)
  }

  /**
   Classifying the stored text again gives the same text and value; only the kind of an octet counter becomes
   plain.
   */
  predicate Stable(r: Classified, size: nat, strtod: string -> Option<real>) {
    var again := Classify(r.text, size, strtod);
    && again.text == r.text && again.value == r.value
    && again.kind == if r.kind == HexCounter then Counter else r.kind
  }

  lemma ParsedIsNumber(s: string, strtod: string -> Option<real>)
    ensures ParseDecimal(s, strtod).Some? ==>
            s != [] && s != UNDEFINED && ParseDecimal(s, strtod).value.kind in {Counter, Signed, Real}
  {
    assert !Scanned(UNDEFINED) && !Scanned([]);
  }

  lemma UndefinedStable(size: nat, strtod: string -> Option<real>)
    ensures Stable(UnknownResult(), size, strtod)
  {
    var u := UNDEFINED;
    BareStays(u);
    ParsedIsNumber(u, strtod);
    assert Occurrences(u, ':') == 0 && Occurrences(u, '!') == 0 by {
      assert u[..0] == [];
    }
    assert Core(u) == [] by {
      assert u[..0] == [];
    }
    ParsedIsNumber([], strtod);
  }

  /** A number stored as its own text. */
  lemma NumberStable(s: string, size: nat, strtod: string -> Option<real>, p: Parsed)
    requires Bare(s) && |s| < size && ParseDecimal(s, strtod) == Some(p)
    ensures Stable(Classified(p.kind, p.value, s), size, strtod)
  {
    BareStays(s);
    ParsedIsNumber(s, strtod);
  }

  lemma PowerOfTwenty()
    ensures Power(20) == 100_000_000_000_000_000_000
  {
    var five := Power(5);
    PowerSplit(5, 5);
    PowerSplit(10, 10);
  }

  lemma {:induction false} PowerSplit(a: nat, b: nat)
    ensures Power(a + b) == Power(a) * Power(b)
  {
    if a > 0 { PowerSplit(a - 1, b); }
  }

  lemma CounterText(n: nat)
    requires n < TWO_64
    ensures |Decimal(n)| <= 20 && Bare(Decimal(n))
  {
    PowerOfTwenty();
    DecimalLength(n, 20, Power(20));
    DigitsAreBare(n);
  }

  lemma DigitsAreBare(n: nat)
    ensures Bare(Decimal(n))
  {
    DecimalDigits(n);
    var s := Decimal(n);
    assert Digit(s[0]) && Digit(s[|s| - 1]);
  }

  lemma OctetsStable(n: nat, size: nat, strtod: string -> Option<real>)
    requires n < TWO_64 && size > 20
    ensures Stable(Classified(HexCounter, Natural(n), Decimal(n)), size, strtod)
  {
    CounterText(n);
    DecimalReadsBack(n, strtod);
    NumberStable(Decimal(n), size, strtod, Parsed(Counter, Natural(n)));
  }

  /** Classification is idempotent on what it stores, for every result buffer of more than 20 bytes. */
  lemma Idempotent(raw: string, size: nat, strtod: string -> Option<real>)
    requires size > 20
    ensures Stable(Classify(raw, size, strtod), size, strtod)
  {
    var s := Trimmed(raw);
    TrimmedIsBare(raw);
    UndefinedStable(size, strtod);
    if s != [] && |s| < size {
      match ParseDecimal(s, strtod)
      case Some(p) => NumberStable(s, size, strtod, p);
      case None =>
        if MultipartText(s) {
          BareStays(s);
        } else {
          RestStable(s, size, strtod);
        }
    }
  }

  lemma RestStable(s: string, size: nat, strtod: string -> Option<real>)
    requires size > 20 && |s| < size
    ensures Stable(ClassifyRest(s, strtod), size, strtod)
  {
    match ParseOctets(s)
    case Octets(n) => OctetsStable(n, size, strtod);
    case TooWide => UndefinedStable(size, strtod);
    case NoOctets =>
      CoreIsBare(s);
      ParsedIsNumber(Core(s), strtod);
      match ParseDecimal(Core(s), strtod)
      case None => UndefinedStable(size, strtod);
      case Some(p) => NumberStable(Core(s), size, strtod, p);
  }

  /** U goes with the unknown kind, and the text is there and fits. */
  predicate Labelled(r: Classified, size: nat) {
    (r.kind == Unknown <==> r.text == UNDEFINED) && 0 < |r.text| < size
  }

  lemma NumberLabelled(s: string, size: nat, strtod: string -> Option<real>, p: Parsed)
    requires ParseDecimal(s, strtod) == Some(p) && |s| < size
    ensures Labelled(Classified(p.kind, p.value, s), size)
  {
    ParsedIsNumber(s, strtod);
  }

  lemma UndefinedIsNoList()
    ensures !MultipartText(UNDEFINED) && !MultipartText([])
  {
    assert UNDEFINED[..0] == [];
  }

  lemma RestLabelled(s: string, size: nat, strtod: string -> Option<real>)
    requires size > 20 && |s| < size
    ensures Labelled(ClassifyRest(s, strtod), size)
  {
    match ParseOctets(s)
    case Octets(n) =>
      CounterText(n);
      DecimalReadsBack(n, strtod);
      NumberLabelled(Decimal(n), size, strtod, Parsed(Counter, Natural(n)));
    case TooWide =>
    case NoOctets =>
      CoreIsBare(s);
      match ParseDecimal(Core(s), strtod)
      case None =>
      case Some(p) => NumberLabelled(Core(s), size, strtod, p);
  }

  /** The stored text is U exactly when the result is unknown, and it always fits the buffer. */
  lemma UnknownIffU(raw: string, size: nat, strtod: string -> Option<real>)
    requires size > 20
    ensures Labelled(Classify(raw, size, strtod), size)
  {
    var s := Trimmed(raw);
    UndefinedIsNoList();
    if s != [] && |s| < size {
      match ParseDecimal(s, strtod)
      case Some(p) => NumberLabelled(s, size, strtod, p);
      case None =>
        if !MultipartText(s) { RestLabelled(s, size, strtod); }
    }
  }

  // ---- The program's procedure ----

  method ParseDecimalText(s: string, strtod: string -> Option<real>) returns (r: Option<Parsed>)
    ensures r == ParseDecimal(s, strtod)
  {
    var ok, integral := DecimalSyntax(s);
    if !ok { return None; }
    if integral {
      var value := Magnitude(s);
      if s[0] == '-' {
        if value <= TWO_63 { return Some(Parsed(Signed, Negative(0 - value))); }
      } else if value < TWO_64 {
        return Some(Parsed(Counter, Natural(value)));
      }
    }
    var real' := strtod(s);
    if real'.None? { return None; }
    r := Some(Parsed(Real, Float(real'.value)));
  }

  method TrimText(raw: string) returns (s: string)
    ensures s == Trimmed(raw)
  {
    var start := 0;
    while start < |raw| && Padding(raw[start])
      invariant 0 <= start <= |raw| && TrimFront(raw[start..]) == TrimFront(raw)
    {
      assert raw[start..][1..] == raw[start + 1..];
      start := start + 1;
    }
    var front, end := raw[start..], |raw| - start;
    assert front[..end] == front;
    while end > 0 && Padding(front[end - 1])
      invariant 0 <= end <= |front| && TrimBack(front[..end]) == TrimBack(front)
    {
      assert front[..end][..end - 1] == front[..end - 1];
      end := end - 1;
    }
    s := front[..end];
  }

  /** classify_result */
  method ClassifyResult(raw: string, size: nat, strtod: string -> Option<real>) returns (r: Classified)
    ensures r == Classify(raw, size, strtod)
  {
    var s := TrimText(raw);
    if s == [] || |s| >= size { return UnknownResult(); }
    var number := ParseDecimalText(s, strtod);
    if number.Some? { return Classified(number.value.kind, number.value.value, s); }
    var list := MultipartSyntax(s);
    if list { return Classified(Multipart, Nothing, s); }
    var octets := ReadOctets(s);
    if octets.Octets? { return Classified(HexCounter, Natural(octets.value), Decimal(octets.value)); }
    if octets.NoOctets? {
      var core := StripAlpha(s);
      number := ParseDecimalText(core, strtod);
      if number.Some? { return Classified(number.value.kind, number.value.value, core); }
    }
    r := UnknownResult();
  }
}
