/**
 * The text of numbers that `file:read("n")` accepts, and the scan that finds it.
 *
 * `Numeral` is the grammar: sign, decimal or hexadecimal mantissa with at least one digit,
 * exponent. `ScanNumeral` is the greedy scan of the file lease, which looks only at the
 * stream. The two are proved to agree.
 */
module NumberScan {

  /** A byte, written as the character of its code. */
  type Byte = char
  type Bytes = seq<Byte>

  predicate IsWhite(c: Byte) {
    c == ' ' || c == '\t' || c == '\n' || c == '\U{0C}' || c == '\r'
  }

  predicate IsDigit(c: Byte) { '0' <= c <= '9' }

  predicate IsMantissaDigit(c: Byte, hex: bool) {
    IsDigit(c) || (hex && ('a' <= c <= 'f' || 'A' <= c <= 'F'))
  }

  predicate IsSign(c: Byte) { c == '+' || c == '-' }

  predicate IsHexMark(c: Byte) { c == 'x' || c == 'X' }

  predicate IsExponentMark(c: Byte, hex: bool) {
    if hex then c == 'p' || c == 'P' else c == 'e' || c == 'E'
  }

  // The grammar.

  datatype Exponent = NoExponent | Exponent(mark: Byte, sign: Bytes, digits: Bytes)

  /** `hex` holds the two bytes `0x` or is empty, and `point` holds the dot or is empty. */
  datatype Numeral = Numeral(sign: Bytes, hex: Bytes, whole: Bytes, point: Bytes, fraction: Bytes, exponent: Exponent)

  predicate SignPart(s: Bytes) { |s| == 0 || (|s| == 1 && IsSign(s[0])) }

  predicate HexPart(s: Bytes) { |s| == 0 || (|s| == 2 && s[0] == '0' && IsHexMark(s[1])) }

  predicate Digits(s: Bytes, hex: bool) {
    forall i :: 0 <= i < |s| ==> IsMantissaDigit(s[i], hex)
  }

  predicate ExponentPart(e: Exponent, hex: bool) {
    e.Exponent? ==> IsExponentMark(e.mark, hex) && SignPart(e.sign) && e.digits != [] && Digits(e.digits, false)
  }

  /** What follows sign and prefix: digits and a dot, at least one digit, an exponent. */
  predicate BodyPart(n: Numeral, hex: bool) {
    && Digits(n.whole, hex)
    && (n.point == [] || n.point == ['.'])
    && (n.point == [] ==> n.fraction == [])
    && Digits(n.fraction, hex)
    && 0 < |n.whole| + |n.fraction|
    && ExponentPart(n.exponent, hex)
  }

  predicate WellFormed(n: Numeral) {
    SignPart(n.sign) && HexPart(n.hex) && BodyPart(n, n.hex != [])
  }

  function ExponentText(e: Exponent): Bytes {
    match e
    case NoExponent => []
    case Exponent(mark, sign, digits) => [mark] + (sign + digits)
  }

  function MantissaText(n: Numeral): Bytes { n.whole + n.point + n.fraction }

  function Text(n: Numeral): Bytes {
    n.sign + n.hex + MantissaText(n) + ExponentText(n.exponent)
  }

  ghost predicate IsNumeral(s: Bytes) {
    exists n :: WellFormed(n) && Text(n) == s
  }

  /** The next byte is no digit, dot or exponent mark with which the numeral would go on. */
  predicate Stops(n: Numeral, hex: bool, rest: Bytes) {
    rest == [] ||
    var next := rest[0];
    if n.exponent.Exponent? then !IsDigit(next)
    else !IsMantissaDigit(next, hex) && !IsExponentMark(next, hex) && (next == '.' ==> n.point != [])
  }

  /** A lone zero before an `x` is a hexadecimal prefix instead. */
  predicate IsPrefixOnly(n: Numeral, rest: Bytes) {
    n.hex == [] && n.exponent.NoExponent? && MantissaText(n) == ['0'] && rest != [] && IsHexMark(rest[0])
  }

  /** The byte after a numeral is not one with which the numeral would go on. */
  predicate Ends(n: Numeral, rest: Bytes) {
    Stops(n, n.hex != [], rest) && !IsPrefixOnly(n, rest)
  }

  // The scan.

  datatype Run = Run(length: nat, digits: nat)

  /** Digits and, unless there was one, a dot. */
  function MantissaRun(s: Bytes, hex: bool, dot: bool): (r: Run)
    ensures r.length <= |s|
  {
    if s == [] then Run(0, 0)
    else if IsMantissaDigit(s[0], hex) then
      var rest := MantissaRun(s[1..], hex, dot);
      Run(rest.length + 1, rest.digits + 1)
    else if s[0] == '.' && !dot then
      var rest := MantissaRun(s[1..], hex, true);
      Run(rest.length + 1, rest.digits)
    else Run(0, 0)
  }

  function DigitRun(s: Bytes): (n: nat)
    ensures n <= |s|
  {
    if s != [] && IsDigit(s[0]) then 1 + DigitRun(s[1..]) else 0
  }

  function SignLength(s: Bytes): (n: nat)
    ensures n <= |s|
  {
    if s != [] && IsSign(s[0]) then 1 else 0
  }

  predicate StartsHex(s: Bytes) { 2 <= |s| && s[0] == '0' && IsHexMark(s[1]) }

  predicate StartsZero(s: Bytes) { s != [] && s[0] == '0' && !StartsHex(s) }

  function PrefixLength(s: Bytes): (n: nat)
    ensures n <= |s|
  {
    if StartsHex(s) then 2 else if StartsZero(s) then 1 else 0
  }

  /** How many bytes the scan takes, and whether they form a number. */
  datatype Scan = Scan(length: nat, accepted: bool)

  /** What follows the mantissa. */
  function ScanExponent(s: Bytes, hex: bool, digits: nat): (r: Scan)
    ensures r.length <= |s|
  {
    if digits == 0 || s == [] || !IsExponentMark(s[0], hex) then Scan(0, 0 < digits)
    else
      var sign := SignLength(s[1..]);
      var run := DigitRun(s[1 + sign..]);
      Scan(1 + sign + run, 0 < run)
  }

  /** What follows sign and prefix; a decimal `0` is counted as a digit already seen. */
  function ScanBody(s: Bytes, hex: bool, dot: bool, digits: nat): (r: Scan)
    ensures r.length <= |s|
  {
    var run := MantissaRun(s, hex, dot);
    var tail := ScanExponent(s[run.length..], hex, digits + run.digits);
    Scan(run.length + tail.length, tail.accepted)
  }

  function ScanUnsigned(s: Bytes): (r: Scan)
    ensures r.length <= |s|
  {
    var prefix := PrefixLength(s);
    var body := ScanBody(s[prefix..], StartsHex(s), false, if StartsZero(s) then 1 else 0);
    Scan(prefix + body.length, body.accepted)
  }

  function ScanNumeral(s: Bytes): (r: Scan)
    ensures r.length <= |s|
  {
    var sign := SignLength(s);
    var rest := ScanUnsigned(s[sign..]);
    Scan(sign + rest.length, rest.accepted)
  }

  function WhiteLength(s: Bytes): (n: nat)
    ensures n <= |s|
    ensures forall i :: 0 <= i < n ==> IsWhite(s[i])
    ensures n < |s| ==> !IsWhite(s[n])
  {
    if s != [] && IsWhite(s[0]) then 1 + WhiteLength(s[1..]) else 0
  }

  // One step of a run, as the scanning loops take it.

  lemma BodyAfterByte(s: Bytes, hex: bool, dot: bool, digits: nat, laterDot: bool, more: nat)
    requires s != []
    requires var r := MantissaRun(s[1..], hex, laterDot);
             MantissaRun(s, hex, dot) == Run(r.length + 1, r.digits + more)
    ensures ScanBody(s, hex, dot, digits) == Longer(ScanBody(s[1..], hex, laterDot, digits + more))
  {
    hide ScanExponent, MantissaRun;
    SuffixOfSuffix(s, 1, MantissaRun(s[1..], hex, laterDot).length);
  }

  lemma BodyStep(s: Bytes, hex: bool, dot: bool, digits: nat)
    requires s != []
    ensures IsMantissaDigit(s[0], hex) ==>
              ScanBody(s, hex, dot, digits) == Longer(ScanBody(s[1..], hex, dot, digits + 1))
    ensures s[0] == '.' && !dot ==>
              ScanBody(s, hex, dot, digits) == Longer(ScanBody(s[1..], hex, true, digits))
    ensures !IsMantissaDigit(s[0], hex) && !(s[0] == '.' && !dot) ==>
              ScanBody(s, hex, dot, digits) == ScanExponent(s, hex, digits)
  {
    hide ScanExponent, ScanBody;
    if IsMantissaDigit(s[0], hex) {
      BodyAfterByte(s, hex, dot, digits, dot, 1);
    } else if s[0] == '.' && !dot {
      BodyAfterByte(s, hex, dot, digits, true, 0);
    } else {
      BodyAtEnd(s, hex, dot, digits);
    }
  }

  lemma BodyAtEnd(s: Bytes, hex: bool, dot: bool, digits: nat)
    requires MantissaRun(s, hex, dot) == Run(0, 0)
    ensures ScanBody(s, hex, dot, digits) == ScanExponent(s, hex, digits)
  {
    hide ScanExponent, MantissaRun;
    assert s[0..] == s;
  }

  lemma Associate(a: Bytes, b: Bytes, c: Bytes)
    ensures a + b + c == a + (b + c)
  {
  }

  lemma SuffixOfSuffix(s: Bytes, i: nat, j: nat)
    requires i + j <= |s|
    ensures s[i..][j..] == s[i + j..]
    ensures s[i..][..j] == s[i..i + j]
    ensures s[..i] + s[i..i + j] == s[..i + j]
  {
  }

  function Longer(s: Scan): Scan { s.(length := s.length + 1) }

  // The scan accepts only numerals.

  lemma {:induction false} DigitRunIsDigits(s: Bytes)
    ensures Digits(s[..DigitRun(s)], false)
    ensures DigitRun(s) < |s| ==> !IsDigit(s[DigitRun(s)])
  {
    if s != [] && IsDigit(s[0]) {
      DigitRunIsDigits(s[1..]);
      assert s[..DigitRun(s)] == [s[0]] + s[1..][..DigitRun(s[1..])];
    }
  }

  /** The parts of a mantissa run: digits, dot, digits; after a dot there is no other. */
  lemma {:induction false} MantissaRunParts(s: Bytes, hex: bool, dot: bool)
      returns (whole: Bytes, point: Bytes, fraction: Bytes)
    ensures whole + point + fraction == s[..MantissaRun(s, hex, dot).length]
    ensures Digits(whole, hex) && Digits(fraction, hex)
    ensures point == [] || (point == ['.'] && !dot)
    ensures point == [] ==> fraction == []
    ensures |whole| + |fraction| == MantissaRun(s, hex, dot).digits
    ensures var k := MantissaRun(s, hex, dot).length;
            k < |s| ==> !IsMantissaDigit(s[k], hex) && (s[k] == '.' ==> dot || point != [])
  {
    whole, point, fraction := [], [], [];
    var run := MantissaRun(s, hex, dot);
    if run.length != 0 {
      assert s[..run.length] == [s[0]] + s[1..][..run.length - 1];
      if IsMantissaDigit(s[0], hex) {
        whole, point, fraction := MantissaRunParts(s[1..], hex, dot);
        whole := [s[0]] + whole;
      } else {
        whole, point, fraction := MantissaRunParts(s[1..], hex, true);
        whole, point, fraction := [], [s[0]], whole;
      }
    }
  }

  lemma ExponentParts(s: Bytes, hex: bool, digits: nat) returns (e: Exponent)
    requires ScanExponent(s, hex, digits).accepted
    ensures ExponentText(e) == s[..ScanExponent(s, hex, digits).length]
    ensures ExponentPart(e, hex)
    ensures var k := ScanExponent(s, hex, digits).length;
            k < |s| ==> if e.Exponent? then !IsDigit(s[k]) else k == 0 && !IsExponentMark(s[k], hex)
  {
    if s == [] || !IsExponentMark(s[0], hex) {
      e := NoExponent;
    } else {
      var sign := SignLength(s[1..]);
      var run := DigitRun(s[1 + sign..]);
      DigitRunIsDigits(s[1 + sign..]);
      e := Exponent(s[0], s[1..1 + sign], s[1 + sign..1 + sign + run]);
      assert s[1 + sign..][..run] == e.digits;
      assert ExponentText(e) == s[..1 + sign + run];
    }
  }

  /** The body of an accepted scan: mantissa and exponent, with the zero that was counted apart. */
  lemma AcceptedBody(u: Bytes, hex: bool, zero: Bytes) returns (n: Numeral)
    requires zero == [] || (zero == ['0'] && !hex)
    requires ScanBody(u, hex, false, |zero|).accepted
    ensures BodyPart(n, hex)
    ensures MantissaText(n) + ExponentText(n.exponent) == zero + u[..ScanBody(u, hex, false, |zero|).length]
    ensures Stops(n, hex, u[ScanBody(u, hex, false, |zero|).length..])
  {
    hide MantissaRun, ScanExponent, ExponentText, ExponentPart, IsExponentMark, IsMantissaDigit, Digits, Stops;
    var run := MantissaRun(u, hex, false);
    var whole, point, fraction := MantissaRunParts(u, hex, false);
    var rest := u[run.length..];
    var e := ExponentParts(rest, hex, |zero| + run.digits);
    AcceptedHasDigit(rest, hex, |zero| + run.digits);
    n := Numeral([], [], zero + whole, point, fraction, e);
    MoreDigits(zero, whole, hex);
    TextOfParts(zero, whole, point, fraction, u, run.length, |ExponentText(e)|);
    StopsAfterParts(n, u, hex, run.length, |ExponentText(e)|);
  }

  lemma MoreDigits(zero: Bytes, digits: Bytes, hex: bool)
    requires zero == [] || zero == ['0']
    requires Digits(digits, hex)
    ensures Digits(zero + digits, hex)
  {
  }

  lemma StopsAfterParts(n: Numeral, u: Bytes, hex: bool, mantissa: nat, exponent: nat)
    requires mantissa + exponent <= |u|
    requires mantissa < |u| ==> !IsMantissaDigit(u[mantissa], hex) && (u[mantissa] == '.' ==> n.point != [])
    requires var rest := u[mantissa..];
             exponent < |rest| ==>
               if n.exponent.Exponent? then !IsDigit(rest[exponent])
               else exponent == 0 && !IsExponentMark(rest[exponent], hex)
    ensures Stops(n, hex, u[mantissa + exponent..])
  {
    hide IsMantissaDigit, IsDigit, IsExponentMark;
  }

  lemma TextOfParts(zero: Bytes, whole: Bytes, point: Bytes, fraction: Bytes, u: Bytes, mantissa: nat, exponent: nat)
    requires mantissa + exponent <= |u| && whole + point + fraction == u[..mantissa]
    ensures zero + whole + point + fraction + u[mantissa..][..exponent] == zero + u[..mantissa + exponent]
  {
    SuffixOfSuffix(u, mantissa, exponent);
    Associate(zero, whole, point);
    Associate(zero, whole + point, fraction);
    Associate(zero, u[..mantissa], u[mantissa..][..exponent]);
  }

  lemma AcceptedIsNumeral(s: Bytes)
    requires ScanNumeral(s).accepted
    ensures var k := ScanNumeral(s).length;
            exists n :: WellFormed(n) && Text(n) == s[..k] && Ends(n, s[k..])
  {
    hide ScanUnsigned, MantissaText, ExponentText, WellFormed, Stops, IsPrefixOnly;
    var sign := SignLength(s);
    var t := s[sign..];
    var n := AcceptedUnsigned(t);
    var m := n.(sign := s[..sign]);
    var k := ScanUnsigned(t).length;
    SameBodySameText(m, n);
    OtherSign(n, s[..sign], t[k..]);
    SuffixOfSuffix(s, sign, k);
    assert Text(m) == s[..sign + k] by {
      Associate(m.sign, m.hex, MantissaText(m));
      Associate(m.sign, m.hex + MantissaText(m), ExponentText(m.exponent));
      assert [] + m.hex == m.hex;
    }
  }

  lemma OtherSign(n: Numeral, sign: Bytes, rest: Bytes)
    requires WellFormed(n) && Ends(n, rest) && SignPart(sign)
    ensures WellFormed(n.(sign := sign)) && Ends(n.(sign := sign), rest)
  {
  }

  lemma AcceptedUnsigned(t: Bytes) returns (n: Numeral)
    requires ScanUnsigned(t).accepted
    ensures n.sign == [] && WellFormed(n)
    ensures Text(n) == t[..ScanUnsigned(t).length]
    ensures Ends(n, t[ScanUnsigned(t).length..])
  {
    hide ScanBody, BodyPart, MantissaText, ExponentText, Stops;
    var prefix := PrefixLength(t);
    var hex := StartsHex(t);
    var zero := if StartsZero(t) then ['0'] else [];
    var body := ScanBody(t[prefix..], hex, false, |zero|);
    var b := AcceptedBody(t[prefix..], hex, zero);
    n := b.(sign := [], hex := if hex then t[..2] else []);
    SameBodySameText(n, b);
    assert n.hex + zero == t[..prefix];
    SuffixOfSuffix(t, prefix, body.length);
    assert Text(n) == t[..prefix + body.length] by {
      assert [] + n.hex == n.hex;
      Associate(n.hex, MantissaText(n), ExponentText(n.exponent));
      Associate(n.hex, zero, t[prefix..][..body.length]);
    }
    NotOnlyPrefix(n, t, prefix + body.length);
  }

  lemma NotOnlyPrefix(n: Numeral, t: Bytes, k: nat)
    requires k <= |t| && Text(n) == t[..k] && n.sign == [] && (n.hex == [] ==> !StartsHex(t))
    ensures !IsPrefixOnly(n, t[k..])
  {
    if n.hex == [] && n.exponent.NoExponent? && MantissaText(n) == ['0'] {
      assert Text(n) == ['0'];
      assert t[0] == t[..k][0] == '0';
    }
  }

  predicate SameBody(m: Numeral, n: Numeral) {
    m.whole == n.whole && m.point == n.point && m.fraction == n.fraction && m.exponent == n.exponent
  }

  lemma SameBodySameText(m: Numeral, n: Numeral)
    requires SameBody(m, n)
    ensures forall hex :: BodyPart(m, hex) == BodyPart(n, hex)
    ensures MantissaText(m) == MantissaText(n) && ExponentText(m.exponent) == ExponentText(n.exponent)
    ensures forall hex, rest :: Stops(m, hex, rest) == Stops(n, hex, rest)
  {
  }

  lemma AcceptedHasDigit(s: Bytes, hex: bool, digits: nat)
    requires ScanExponent(s, hex, digits).accepted
    ensures 0 < digits
  {
  }

  /** Taking exactly `k` bytes and accepting them means that they are a numeral which ends there. */
  lemma ScanIsExact(s: Bytes, k: nat)
    requires k <= |s|
    ensures ScanNumeral(s) == Scan(k, true)
            <==> exists n :: WellFormed(n) && Text(n) == s[..k] && Ends(n, s[k..])
  {
    hide WellFormed, Text, Ends, ScanNumeral;
    if ScanNumeral(s) == Scan(k, true) {
      AcceptedIsNumeral(s);
    }
    if n :| WellFormed(n) && Text(n) == s[..k] && Ends(n, s[k..]) {
      NumeralIsAccepted(n, s[k..]);
      assert s[..k] + s[k..] == s;
    }
  }

  // Every numeral that ends where the next byte cannot continue it is found whole.

  lemma {:induction false} RunOfDigits(digits: Bytes, rest: Bytes)
    requires Digits(digits, false) && (rest == [] || !IsDigit(rest[0]))
    ensures DigitRun(digits + rest) == |digits|
  {
    if digits == [] {
      assert digits + rest == rest;
    } else {
      RunOfDigits(digits[1..], rest);
      assert (digits + rest)[1..] == digits[1..] + rest;
    }
  }

  lemma {:induction false} RunOfMantissaDigits(digits: Bytes, rest: Bytes, hex: bool, dot: bool)
    requires Digits(digits, hex)
    ensures MantissaRun(digits + rest, hex, dot)
            == var r := MantissaRun(rest, hex, dot); Run(|digits| + r.length, |digits| + r.digits)
  {
    if digits == [] {
      assert digits + rest == rest;
    } else {
      RunOfMantissaDigits(digits[1..], rest, hex, dot);
      assert (digits + rest)[1..] == digits[1..] + rest;
    }
  }

  lemma RunOfMantissa(whole: Bytes, point: Bytes, fraction: Bytes, rest: Bytes, hex: bool)
    requires Digits(whole, hex) && Digits(fraction, hex)
    requires point == [] || point == ['.']
    requires point == [] ==> fraction == []
    requires rest == [] || (!IsMantissaDigit(rest[0], hex) && (rest[0] == '.' ==> point != []))
    ensures MantissaRun(whole + point + fraction + rest, hex, false)
            == Run(|whole + point + fraction|, |whole| + |fraction|)
  {
    assert !IsMantissaDigit('.', hex);
    hide Digits, IsMantissaDigit;
    var tail := point + (fraction + rest);
    assert whole + point + fraction + rest == whole + tail by {
      Associate(whole, point, fraction + rest);
      Associate(whole + point, fraction, rest);
    }
    RunOfMantissaDigits(whole, tail, hex, false);
    if point == [] {
      assert tail == rest;
    } else {
      assert tail[1..] == fraction + rest;
      RunOfMantissaDigits(fraction, rest, hex, true);
    }
  }

  lemma ExponentIsScanned(e: Exponent, rest: Bytes, hex: bool, digits: nat)
    requires 0 < digits
    requires e.NoExponent? ==> rest == [] || !IsExponentMark(rest[0], hex)
    requires ExponentPart(e, hex)
    requires e.Exponent? ==> rest == [] || !IsDigit(rest[0])
    ensures ScanExponent(ExponentText(e) + rest, hex, digits) == Scan(|ExponentText(e)|, true)
  {
    hide DigitRun;
    if e.Exponent? {
      var t := e.sign + e.digits + rest;
      SignThenDigits(e.sign, e.digits, rest);
      ExponentOf(e.mark, t, hex, digits);
      Associate([e.mark], e.sign + e.digits, rest);
    } else {
      assert ExponentText(e) + rest == rest;
    }
  }

  lemma ExponentOf(mark: Byte, t: Bytes, hex: bool, digits: nat)
    requires 0 < digits && IsExponentMark(mark, hex)
    ensures var run := DigitRun(t[SignLength(t)..]);
            ScanExponent([mark] + t, hex, digits) == Scan(1 + SignLength(t) + run, 0 < run)
  {
    hide DigitRun, SignLength;
    var s := [mark] + t;
    assert s[1..] == t;
    SuffixOfSuffix(s, 1, SignLength(t));
  }

  lemma SignThenDigits(sign: Bytes, digits: Bytes, rest: Bytes)
    requires SignPart(sign) && digits != [] && Digits(digits, false) && (rest == [] || !IsDigit(rest[0]))
    ensures var t := sign + digits + rest;
            SignLength(t) == |sign| && DigitRun(t[|sign|..]) == |digits|
  {
    hide DigitRun;
    var t := sign + digits + rest;
    RunOfDigits(digits, rest);
    assert IsDigit(digits[0]);
    assert t[|sign|] == digits[0];
    assert t[|sign|..] == digits + rest;
  }

  /** A leading decimal zero is counted apart from the run, which changes nothing. */
  lemma ZeroIsADigit(s: Bytes)
    requires StartsZero(s)
    ensures ScanUnsigned(s) == ScanBody(s, false, false, 0)
  {
    BodyStep(s, false, false, 0);
  }

  lemma {:induction false} NumeralIsAccepted(n: Numeral, rest: Bytes)
    requires WellFormed(n) && Ends(n, rest)
    ensures ScanNumeral(Text(n) + rest) == Scan(|Text(n)|, true)
  {
    hide ScanUnsigned, MantissaText, ExponentText;
    var tail := ExponentText(n.exponent) + rest;
    var body := MantissaText(n) + tail;
    var s := Text(n) + rest;
    assert s == n.sign + (n.hex + body) by {
      Associate(n.sign + n.hex + MantissaText(n), ExponentText(n.exponent), rest);
      Associate(n.sign + n.hex, MantissaText(n), tail);
      Associate(n.sign, n.hex, body);
    }
    BodyIsScanned(n, rest);
    BodyStart(n, rest);
    if n.sign == [] {
      assert s == n.hex + body;
    }
    assert SignLength(s) == |n.sign|;
    assert s[|n.sign|..] == n.hex + body;
    UnsignedIsScanned(n, rest);
  }

  lemma BodyIsScanned(n: Numeral, rest: Bytes)
    requires WellFormed(n) && Ends(n, rest)
    ensures ScanBody(MantissaText(n) + (ExponentText(n.exponent) + rest), n.hex != [], false, 0)
            == Scan(|MantissaText(n)| + |ExponentText(n.exponent)|, true)
  {
    hide MantissaRun, ScanExponent, DigitRun;
    var hex := n.hex != [];
    var tail := ExponentText(n.exponent) + rest;
    RunOfMantissa(n.whole, n.point, n.fraction, tail, hex);
    ExponentIsScanned(n.exponent, rest, hex, |n.whole| + |n.fraction|);
    assert (MantissaText(n) + tail)[|MantissaText(n)|..] == tail;
  }

  /** The mantissa starts with a digit or a dot, and an `x` never follows a lone zero. */
  lemma BodyStart(n: Numeral, rest: Bytes)
    requires WellFormed(n) && Ends(n, rest)
    ensures var body := MantissaText(n) + (ExponentText(n.exponent) + rest);
            && body != []
            && (IsMantissaDigit(body[0], n.hex != []) || body[0] == '.')
            && (n.hex == [] ==> !StartsHex(body))
  {
    var m := MantissaText(n);
    var tail := ExponentText(n.exponent) + rest;
    var body := m + tail;
    if n.whole != [] {
      assert body[0] == n.whole[0];
    } else {
      assert n.point == ['.'];
      assert body[0] == '.';
    }
    if n.hex == [] && 2 <= |body| && body[0] == '0' {
      if 2 <= |m| {
        MantissaBytes(n, 1);
        assert body[1] == m[1];
      } else {
        assert m == ['0'];
        assert body[1] == tail[0];
      }
    }
  }

  lemma MantissaBytes(n: Numeral, i: nat)
    requires WellFormed(n) && i < |MantissaText(n)|
    ensures MantissaText(n)[i] == '.' || IsMantissaDigit(MantissaText(n)[i], n.hex != [])
  {
    var m := MantissaText(n);
    if i < |n.whole| {
      assert m[i] == n.whole[i];
    } else if |n.whole| + |n.point| <= i {
      assert m[i] == n.fraction[i - |n.whole| - |n.point|];
    }
  }

  lemma UnsignedIsScanned(n: Numeral, rest: Bytes)
    requires WellFormed(n) && Ends(n, rest)
    ensures var body := MantissaText(n) + (ExponentText(n.exponent) + rest);
            ScanUnsigned(n.hex + body) == Scan(|n.hex| + |MantissaText(n)| + |ExponentText(n.exponent)|, true)
  {
    hide MantissaRun, ScanExponent, DigitRun, ScanBody;
    var body := MantissaText(n) + (ExponentText(n.exponent) + rest);
    BodyIsScanned(n, rest);
    BodyStart(n, rest);
    if n.hex == [] {
      assert n.hex + body == body;
      if StartsZero(body) {
        ZeroIsADigit(body);
      } else {
        assert body[0..] == body;
      }
    } else {
      assert (n.hex + body)[2..] == body;
    }
  }

  // The same scan by position in the stream, as the reading loops go: lengths become ends.

  function Further(k: nat, scan: Scan): Scan { Scan(k + scan.length, scan.accepted) }

  function WhiteEnd(s: Bytes, k: nat): nat
    requires k <= |s|
  {
    k + WhiteLength(s[k..])
  }

  function SignEnd(s: Bytes, k: nat): nat { if k < |s| && IsSign(s[k]) then k + 1 else k }

  function DigitEnd(s: Bytes, k: nat): nat
    requires k <= |s|
  {
    k + DigitRun(s[k..])
  }

  function ExponentAt(s: Bytes, k: nat, hex: bool, digits: nat): Scan
    requires k <= |s|
  {
    Further(k, ScanExponent(s[k..], hex, digits))
  }

  function BodyAt(s: Bytes, k: nat, hex: bool, dot: bool, digits: nat): Scan
    requires k <= |s|
  {
    Further(k, ScanBody(s[k..], hex, dot, digits))
  }

  function UnsignedAt(s: Bytes, k: nat): Scan
    requires k <= |s|
  {
    Further(k, ScanUnsigned(s[k..]))
  }

  function NumeralAt(s: Bytes, k: nat): Scan
    requires k <= |s|
  {
    Further(k, ScanNumeral(s[k..]))
  }

  lemma Tail(s: Bytes, k: nat)
    requires k <= |s|
    ensures |s[k..]| == |s| - k && (k < |s| ==> s[k..][0] == s[k] && s[k..][1..] == s[k + 1..])
  {
  }

  lemma WhiteEndStep(s: Bytes, k: nat)
    requires k <= |s|
    ensures WhiteEnd(s, k) == if k < |s| && IsWhite(s[k]) then WhiteEnd(s, k + 1) else k
  {
    Tail(s, k);
  }

  lemma DigitEndStep(s: Bytes, k: nat)
    requires k <= |s|
    ensures DigitEnd(s, k) == if k < |s| && IsDigit(s[k]) then DigitEnd(s, k + 1) else k
    ensures k <= DigitEnd(s, k) <= |s|
  {
    Tail(s, k);
  }

  lemma ExponentAtCases(s: Bytes, k: nat, hex: bool, digits: nat)
    requires k < |s|
    ensures if 0 < digits && IsExponentMark(s[k], hex)
            then var j := SignEnd(s, k + 1); ExponentAt(s, k, hex, digits) == Scan(DigitEnd(s, j), j < DigitEnd(s, j))
            else ExponentAt(s, k, hex, digits) == Scan(k, 0 < digits)
  {
    hide DigitRun, IsExponentMark;
    Tail(s, k);
    if 0 < digits && IsExponentMark(s[k], hex) {
      var t := s[k + 1..];
      assert s[k..] == [s[k]] + t;
      ExponentOf(s[k], t, hex, digits);
      assert k + 1 + SignLength(t) == SignEnd(s, k + 1) by {
        Tail(s, k + 1);
      }
      SuffixOfSuffix(s, k + 1, SignLength(t));
    }
  }

  lemma BodyAtStep(s: Bytes, k: nat, hex: bool, dot: bool, digits: nat)
    requires k <= |s|
    ensures BodyAt(s, k, hex, dot, digits)
            == if k == |s| then Scan(k, 0 < digits)
               else if IsMantissaDigit(s[k], hex) then BodyAt(s, k + 1, hex, dot, digits + 1)
               else if s[k] == '.' && !dot then BodyAt(s, k + 1, hex, true, digits)
               else ExponentAt(s, k, hex, digits)
  {
    hide IsMantissaDigit, ScanBody, ScanExponent;
    Tail(s, k);
    if k < |s| {
      BodyStep(s[k..], hex, dot, digits);
    } else {
      BodyOfNothing(hex, dot, digits);
      assert s[k..] == [];
    }
  }

  lemma BodyOfNothing(hex: bool, dot: bool, digits: nat)
    ensures ScanBody([], hex, dot, digits) == Scan(0, 0 < digits)
  {
  }

  lemma UnsignedAtCases(s: Bytes, k: nat)
    requires k <= |s|
    ensures UnsignedAt(s, k)
            == if k < |s| && s[k] == '0'
               then
                 if k + 1 < |s| && IsHexMark(s[k + 1]) then BodyAt(s, k + 2, true, false, 0)
                 else BodyAt(s, k + 1, false, false, 1)
               else BodyAt(s, k, false, false, 0)
  {
    hide ScanBody;
    var t := s[k..];
    Tail(s, k);
    SuffixOfSuffix(s, k, PrefixLength(t));
    if k + 1 < |s| {
      assert t[1] == s[k + 1];
    }
  }

  lemma NumeralAtSign(s: Bytes, k: nat)
    requires k <= |s|
    ensures SignEnd(s, k) <= |s| && NumeralAt(s, k) == UnsignedAt(s, SignEnd(s, k))
  {
    hide ScanUnsigned;
    Tail(s, k);
    SuffixOfSuffix(s, k, SignLength(s[k..]));
  }
}
