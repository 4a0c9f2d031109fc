/**
 * Character-level helpers that stand in for the Python string operations the
 * application relies on: `str.strip()`, `str.replace(",", ".")`, `int(s)` for
 * base-10 text, and the formatting of integers by `str(n)` and `f"{n:0Wd}"`.
 */
module Text {
  import opened Wrappers

  /** Python's `str.isspace()`: the characters `str.strip()` drops (`int()` skips fewer, see `IsIntSpace`). */
  predicate IsSpace(c: char) {
    if c <= ' ' then c == ' ' || ('\t' <= c <= '\r') || ('\U{1C}' <= c <= '\U{1F}')
    else if c < '\U{85}' then false
    else
      || c == '\U{85}' || c == '\U{A0}' || c == '\U{1680}'
      || ('\U{2000}' <= c <= '\U{200A}')
      || c == '\U{2028}' || c == '\U{2029}' || c == '\U{202F}' || c == '\U{205F}' || c == '\U{3000}'
  }

  predicate IsDigit(c: char) {
    '0' <= c <= '9'
  }

  function DigitValue(c: char): (d: nat)
    requires IsDigit(c)
    ensures d < 10
  {
    (c as int) - ('0' as int)
  }

  function DigitChar(d: nat): (c: char)
    requires d < 10
    ensures IsDigit(c) && DigitValue(c) == d
  {
    (('0' as int) + d) as char
  }

  lemma DigitNotSpace(c: char)
    requires IsDigit(c)
    ensures !IsSpace(c)
  {
  }

  /** Drops leading whitespace. */
  function TrimLeft(s: string): (r: string)
    ensures |r| <= |s| && r == s[|s| - |r|..]
    ensures r == [] || !IsSpace(r[0])
  {
    if s != [] && IsSpace(s[0]) then TrimLeft(s[1..]) else s
  }

  /** Drops trailing whitespace. */
  function TrimRight(s: string): (r: string)
    ensures |r| <= |s| && r == s[..|r|]
    ensures r == [] || !IsSpace(r[|r| - 1])
  {
    if s != [] && IsSpace(s[|s| - 1]) then TrimRight(s[..|s| - 1]) else s
  }

  /** Python's `s.strip()`. */
  function Strip(s: string): (r: string)
    ensures |r| <= |s|
    ensures r == [] || (!IsSpace(r[0]) && !IsSpace(r[|r| - 1]))
  {
    TrimRight(TrimLeft(s))
  }

  /** Python's `s.replace(",", ".")`. */
  function CommaToDot(s: string): string {
    seq(|s|, i requires 0 <= i < |s| => if s[i] == ',' then '.' else s[i])
  }

  /** The text `parse_number` hands to `float()`: stripped, with commas turned into dots. */
  function NormalizeNumber(raw: string): string {
    CommaToDot(Strip(raw))
  }

  /**
   * `parse_number(raw)`: normalise, then parse as a float. Python's `float()`
   * is a parameter: it either yields a value or fails with `ValueError`.
   */
  function ParseNumber(raw: string, toFloat: string -> Option<real>): Option<real> {
    toFloat(NormalizeNumber(raw))
  }

  /** `TrimLeft` removes whitespace only. */
  lemma {:induction false} TrimLeftDropsSpaces(s: string)
    ensures forall i :: 0 <= i < |s| - |TrimLeft(s)| ==> IsSpace(s[i])
  {
    if s != [] && IsSpace(s[0]) {
      TrimLeftDropsSpaces(s[1..]);
      assert forall i :: 1 <= i < |s| - |TrimLeft(s)| ==> s[i] == s[1..][i - 1];
    }
  }

  /** `TrimRight` removes whitespace only. */
  lemma {:induction false} TrimRightDropsSpaces(s: string)
    ensures forall i :: |TrimRight(s)| <= i < |s| ==> IsSpace(s[i])
  {
    if s != [] && IsSpace(s[|s| - 1]) {
      TrimRightDropsSpaces(s[..|s| - 1]);
    }
  }

  /** Text without surrounding whitespace is left as it is by both trims. */
  lemma BothTrimsOfTrimmed(s: string)
    requires s == [] || (!IsSpace(s[0]) && !IsSpace(s[|s| - 1]))
    ensures TrimLeft(s) == s && TrimRight(s) == s
  {
  }

  lemma StripOfTrimmed(s: string)
    requires s == [] || (!IsSpace(s[0]) && !IsSpace(s[|s| - 1]))
    ensures Strip(s) == s
  {
  }

  /** The normalised text has no surrounding whitespace. */
  lemma NormalizedIsTrimmed(raw: string)
    ensures var n := NormalizeNumber(raw); n == [] || (!IsSpace(n[0]) && !IsSpace(n[|n| - 1]))
  {
    CommaToDotKeepsTrim(Strip(raw));
  }

  /** The normalised text carries no comma. */
  lemma NormalizedHasNoComma(raw: string)
    ensures forall i :: 0 <= i < |NormalizeNumber(raw)| ==> NormalizeNumber(raw)[i] != ','
  {
    CommaToDotHasNoComma(Strip(raw));
  }

  /** Normalising already normalised text changes nothing. */
  lemma NormalizeNumberIdempotent(raw: string)
    ensures NormalizeNumber(NormalizeNumber(raw)) == NormalizeNumber(raw)
  {
    var n := NormalizeNumber(raw);
    assert Strip(n) == n by {
      NormalizedIsTrimmed(raw);
      StripOfTrimmed(n);
    }
    assert CommaToDot(n) == n by {
      NormalizedHasNoComma(raw);
      CommaToDotWithoutCommas(n);
    }
  }

  lemma CommaToDotKeepsTrim(s: string)
    requires s == [] || (!IsSpace(s[0]) && !IsSpace(s[|s| - 1]))
    ensures var n := CommaToDot(s); n == [] || (!IsSpace(n[0]) && !IsSpace(n[|n| - 1]))
  {
    if s != [] {
      NotSpaceAfterReplace(s[0]);
      NotSpaceAfterReplace(s[|s| - 1]);
    }
  }

  lemma NotSpaceAfterReplace(c: char)
    requires !IsSpace(c)
    ensures !IsSpace(if c == ',' then '.' else c)
  {
  }

  lemma CommaToDotHasNoComma(s: string)
    ensures forall i :: 0 <= i < |CommaToDot(s)| ==> CommaToDot(s)[i] != ','
  {
  }

  lemma CommaToDotWithoutCommas(s: string)
    requires forall i :: 0 <= i < |s| ==> s[i] != ','
    ensures CommaToDot(s) == s
  {
    var m := CommaToDot(s);
    assert forall i :: 0 <= i < |s| ==> m[i] == s[i];
  }

  /**
   * Every amount field accepts a comma wherever it accepts a dot: writing any
   * input's commas as dots does not change how it parses.
   */
  lemma ParseNumberSeparatorAgnostic(raw: string, toFloat: string -> Option<real>)
    ensures ParseNumber(CommaToDot(raw), toFloat) == ParseNumber(raw, toFloat)
  {
    StripCommaToDot(raw);
    CommaToDotIdempotent(Strip(raw));
  }

  /** A comma and a dot are both non-blank, so replacing one by the other commutes with `strip`. */
  lemma StripCommaToDot(s: string)
    ensures Strip(CommaToDot(s)) == CommaToDot(Strip(s))
  {
    TrimLeftCommaToDot(s);
    TrimRightCommaToDot(TrimLeft(s));
  }

  lemma {:induction false} TrimLeftCommaToDot(s: string)
    ensures TrimLeft(CommaToDot(s)) == CommaToDot(TrimLeft(s))
  {
    var c := CommaToDot(s);
    if s != [] {
      assert c[0] == if s[0] == ',' then '.' else s[0];
      if IsSpace(s[0]) {
        assert c[1..] == CommaToDot(s[1..]);
        TrimLeftCommaToDot(s[1..]);
      } else {
        NotSpaceAfterReplace(s[0]);
      }
    }
  }

  lemma {:induction false} TrimRightCommaToDot(s: string)
    ensures TrimRight(CommaToDot(s)) == CommaToDot(TrimRight(s))
  {
    var c := CommaToDot(s);
    if s != [] {
      assert c[|c| - 1] == if s[|s| - 1] == ',' then '.' else s[|s| - 1];
      if IsSpace(s[|s| - 1]) {
        assert c[..|c| - 1] == CommaToDot(s[..|s| - 1]);
        TrimRightCommaToDot(s[..|s| - 1]);
      } else {
        NotSpaceAfterReplace(s[|s| - 1]);
      }
    }
  }

  lemma CommaToDotIdempotent(s: string)
    ensures CommaToDot(CommaToDot(s)) == CommaToDot(s)
  {
    CommaToDotHasNoComma(s);
    CommaToDotWithoutCommas(CommaToDot(s));
  }

  lemma NormalizeCommaExample()
    ensures NormalizeNumber(" 2,5") == "2.5"
  {
    StripPaddedExample();
    CommaToDotExample();
  }

  lemma StripPaddedExample()
    ensures Strip(" 2,5") == "2,5"
  {
    var t := "2,5";
    assert " 2,5"[0] == ' ' && " 2,5"[1..] == t;
    assert t[0] == '2' && t[2] == '5';
    assert TrimLeft(" 2,5") == t;
    StripOfTrimmed(t);
  }

  lemma CommaToDotExample()
    ensures CommaToDot("2,5") == "2.5"
  {
    var c := CommaToDot("2,5");
    assert c[0] == '2' && c[1] == '.' && c[2] == '5';
  }

  lemma NormalizeDotExample()
    ensures NormalizeNumber("2.5") == "2.5"
  {
    StripOfTrimmed("2.5");
    CommaToDotWithoutCommas("2.5");
  }

  /** A comma and a dot as decimal separator, with or without padding, reach `float()` as the same text. */
  lemma ParseNumberExample(toFloat: string -> Option<real>)
    ensures ParseNumber(" 2,5", toFloat) == toFloat("2.5")
    ensures ParseNumber("2.5", toFloat) == toFloat("2.5")
  {
    NormalizeCommaExample();
    NormalizeDotExample();
  }

  // ---------------------------------------------------------------------------
  // Integers as text

  /** The decimal digits of `n`, with no leading zero. */
  function NatToString(n: nat): (s: string)
    ensures |s| >= 1
    ensures forall i :: 0 <= i < |s| ==> IsDigit(s[i])
    ensures |s| > 1 ==> s[0] != '0'
    decreases n
  {
    if n < 10 then [DigitChar(n)] else NatToString(n / 10) + [DigitChar(n % 10)]
  }

  function Zeros(k: int): (s: string)
    ensures |s| == if k <= 0 then 0 else k
    ensures forall i :: 0 <= i < |s| ==> s[i] == '0'
    decreases k
  {
    if k <= 0 then "" else "0" + Zeros(k - 1)
  }

  /**
   * Python's `format(n, "0{width}d")`: the sign, then zeros up to `width`
   * characters, then the digits.
   */
  function ZeroPad(n: int, width: int): string {
    if n < 0 then "-" + PadDigits(-n, width - 1) else PadDigits(n, width)
  }

  /** The digits of `m`, with zeros in front up to `width` characters. */
  function PadDigits(m: nat, width: int): string {
    Zeros(width - |NatToString(m)|) + NatToString(m)
  }

  /** Python's `str(n)` and `f"{n}"`. */
  function IntToString(n: int): string {
    ZeroPad(n, 0)
  }

  /**
   * The digits-and-underscores body that Python's `int()` accepts: a digit,
   * then digits, each optionally preceded by one `_`.
   */
  predicate WellFormedDigits(s: string)
    decreases |s|
  {
    && |s| > 0
    && IsDigit(s[0])
    && (|s| == 1 || WellFormedDigits(if s[1] == '_' then s[2..] else s[1..]))
  }

  /** The value of a run of digits; any other character is skipped. */
  function DigitsValue(s: string): nat {
    if s == [] then 0
    else if IsDigit(s[|s| - 1]) then DigitsValue(s[..|s| - 1]) * 10 + DigitValue(s[|s| - 1])
    else DigitsValue(s[..|s| - 1])
  }

  function ParseDigits(s: string): Option<nat> {
    if WellFormedDigits(s) then Some(DigitsValue(s)) else None
  }

  /** Python's limit on the digits `int()` converts (`sys.get_int_max_str_digits()`, 4300 by default). */
  const MaxIntDigits: nat := 4300

  /**
   * The characters `int()` skips around a number: the ASCII whitespace of
   * `Py_ISSPACE`, and every non-ASCII character `str.isspace()` accepts (which
   * `int()` first turns into a blank). U+001C..U+001F are whitespace to
   * `str.strip()` but not to `int()`.
   */
  predicate IsIntSpace(c: char) {
    c == ' ' || ('\t' <= c <= '\r') || ('\U{85}' <= c && IsSpace(c))
  }

  /** Every character `Strip` removes from `s` is one that `int()` skips too. */
  predicate IntPadding(s: string) {
    var t := TrimLeft(s);
    && (forall i :: 0 <= i < |s| - |t| ==> IsIntSpace(s[i]))
    && (forall i :: |TrimRight(t)| <= i < |t| ==> IsIntSpace(t[i]))
  }

  /** The number of decimal digits in `s`; underscores and a sign are not digits. */
  function DigitCount(s: string): nat {
    if s == [] then 0 else DigitCount(s[..|s| - 1]) + (if IsDigit(s[|s| - 1]) then 1 else 0)
  }

  /**
   * Python's `int(s)` in base 10. It skips its whitespace, reads an optional
   * sign and well-formed digits, skips its whitespace again and must then be at
   * the end; anything else, or more than `MaxIntDigits` digits, is a
   * `ValueError`, here `None`. As every character `int()` skips is one
   * `str.strip()` drops, this is `Strip` followed by the sign-and-digits check,
   * provided all that `Strip` removed is `int()` whitespace.
   */
  function ParseInt(s: string): Option<int> {
    if IntPadding(s) && DigitCount(Strip(s)) <= MaxIntDigits then ParseSigned(Strip(s)) else None
  }

  /** `int()` after stripping: an optional sign, then the digits. */
  function ParseSigned(t: string): Option<int> {
    if |t| > 0 && (t[0] == '-' || t[0] == '+') then
      match ParseDigits(t[1..])
      case None => None
      case Some(v) => var k: int := v; Some(if t[0] == '-' then -k else k)
    else
      match ParseDigits(t)
      case None => None
      case Some(v) => Some(v)
  }

  lemma {:induction false} DigitsValueOfNatToString(n: nat)
    ensures DigitsValue(NatToString(n)) == n
    decreases n
  {
    var s := NatToString(n);
    if n >= 10 {
      DigitsValueOfNatToString(n / 10);
      assert s[..|s| - 1] == NatToString(n / 10);
    }
  }

  lemma {:induction false} DigitsValueLeadingZeros(k: int, s: string)
    requires forall i :: 0 <= i < |s| ==> IsDigit(s[i])
    ensures DigitsValue(Zeros(k) + s) == DigitsValue(s)
    decreases |s|
  {
    var z := Zeros(k);
    if s == [] {
      DigitsValueOfZeros(k);
      assert z + s == z;
    } else {
      var p := s[..|s| - 1];
      DigitsValueLeadingZeros(k, p);
      assert (z + s)[..|z + s| - 1] == z + p;
      assert s[..|s| - 1] == p;
    }
  }

  lemma {:induction false} DigitsValueOfZeros(k: int)
    ensures DigitsValue(Zeros(k)) == 0
    decreases if k <= 0 then 0 else k
  {
    if k > 0 {
      var z := Zeros(k);
      assert z[..|z| - 1] == Zeros(k - 1) by {
        assert forall i :: 0 <= i < |z| - 1 ==> z[i] == '0';
      }
      DigitsValueOfZeros(k - 1);
    }
  }

  lemma {:induction false} AllDigitsWellFormed(s: string)
    requires |s| > 0 && forall i :: 0 <= i < |s| ==> IsDigit(s[i])
    ensures WellFormedDigits(s)
    decreases |s|
  {
    if |s| > 1 {
      AllDigitsWellFormed(s[1..]);
    }
  }

  /** The unsigned part of `ZeroPad`: zeros, then the digits of `m`, reads back as `m`. */
  lemma PaddedDigits(m: nat, width: int)
    ensures WellFormedDigits(PadDigits(m, width))
    ensures DigitsValue(PadDigits(m, width)) == m
  {
    var k := width - |NatToString(m)|;
    var digits := NatToString(m);
    var body := Zeros(k) + digits;
    assert forall i :: 0 <= i < |body| ==> IsDigit(body[i]) by {
      forall i | 0 <= i < |body| ensures IsDigit(body[i]) {
        if i < |Zeros(k)| { assert body[i] == Zeros(k)[i]; } else { assert body[i] == digits[i - |Zeros(k)|]; }
      }
    }
    AllDigitsWellFormed(body);
    DigitsValueLeadingZeros(k, digits);
    DigitsValueOfNatToString(m);
  }

  lemma {:induction false} WellFormedEndsInDigit(s: string)
    requires WellFormedDigits(s)
    ensures IsDigit(s[0]) && IsDigit(s[|s| - 1])
    decreases |s|
  {
    if |s| > 1 {
      var t := if s[1] == '_' then s[2..] else s[1..];
      WellFormedEndsInDigit(t);
      assert s[|s| - 1] == t[|t| - 1];
    }
  }

  lemma ParseSignedOfBody(body: string)
    requires WellFormedDigits(body)
    ensures ParseSigned(body) == Some(DigitsValue(body))
    ensures ParseSigned("-" + body) == Some(-(DigitsValue(body) as int))
  {
    WellFormedEndsInDigit(body);
    assert ("-" + body)[1..] == body;
  }

  lemma SignedValue(x: Option<int>, v: nat, n: int)
    requires x == Some(-(v as int)) && v == -n
    ensures x == Some(n)
  {
  }

  /** A negative number renders as a minus sign and the padded digits of its magnitude. */
  lemma ZeroPadNegative(n: int, width: int)
    requires n < 0
    ensures WellFormedDigits(PadDigits(-n, width - 1)) && DigitsValue(PadDigits(-n, width - 1)) == -n
    ensures ZeroPad(n, width) == "-" + PadDigits(-n, width - 1)
  {
    PaddedDigits(-n, width - 1);
  }

  /** A non-negative number renders as its padded digits, starting with a digit. */
  lemma ZeroPadNonNegative(n: int, width: int)
    requires n >= 0
    ensures WellFormedDigits(ZeroPad(n, width)) && DigitsValue(ZeroPad(n, width)) == n
    ensures IsDigit(ZeroPad(n, width)[0])
  {
    PaddedDigits(n, width);
    WellFormedEndsInDigit(PadDigits(n, width));
  }

  /** The sign-and-digits phase of `int()` reads back a zero-padded rendering. */
  lemma ParseSignedZeroPad(n: int, width: int)
    ensures ParseSigned(ZeroPad(n, width)) == Some(n)
  {
    if n < 0 {
      var body := PadDigits(-n, width - 1);
      ZeroPadNegative(n, width);
      ParseSignedOfBody(body);
      SignedValue(ParseSigned("-" + body), DigitsValue(body), n);
    } else {
      ZeroPadNonNegative(n, width);
      ParseSignedOfBody(ZeroPad(n, width));
    }
  }

  /** A zero-padded rendering has no surrounding whitespace. */
  lemma ZeroPadIsTrimmed(n: int, width: int)
    ensures Strip(ZeroPad(n, width)) == ZeroPad(n, width)
  {
    ZeroPadEnds(n, width);
    StripOfTrimmed(ZeroPad(n, width));
  }

  lemma ZeroPadEnds(n: int, width: int)
    ensures var s := ZeroPad(n, width); s != [] && !IsSpace(s[0]) && !IsSpace(s[|s| - 1])
  {
    if n < 0 {
      var body := PadDigits(-n, width - 1);
      PaddedDigits(-n, width - 1);
      WellFormedEndsInDigit(body);
      DigitNotSpace(body[|body| - 1]);
      assert ZeroPad(n, width) == "-" + body;
    } else {
      var body := PadDigits(n, width);
      PaddedDigits(n, width);
      WellFormedEndsInDigit(body);
      DigitNotSpace(body[0]);
      DigitNotSpace(body[|body| - 1]);
    }
  }

  /** The whitespace `int()` skips is whitespace to `str.strip()` as well. */
  lemma IntSpaceIsSpace(c: char)
    requires IsIntSpace(c)
    ensures IsSpace(c)
  {
  }

  /** Text without surrounding whitespace gives `int()` nothing to skip. */
  lemma TrimmedIntPadding(s: string)
    requires s == [] || (!IsSpace(s[0]) && !IsSpace(s[|s| - 1]))
    ensures IntPadding(s)
  {
    BothTrimsOfTrimmed(s);
  }

  /**
   * Python's `int()` reads back every zero-padded rendering of an integer,
   * `str(n)` included, that is within the digit limit; beyond it, it fails.
   */
  lemma ParseZeroPad(n: int, width: int)
    ensures DigitCount(ZeroPad(n, width)) <= MaxIntDigits ==> ParseInt(ZeroPad(n, width)) == Some(n)
    ensures DigitCount(ZeroPad(n, width)) > MaxIntDigits ==> ParseInt(ZeroPad(n, width)) == None
  {
    ZeroPadEnds(n, width);
    ZeroPadIsTrimmed(n, width);
    TrimmedIntPadding(ZeroPad(n, width));
    ParseSignedZeroPad(n, width);
  }

  /** A zero-padded rendering carries the sign of `n` and the digits of its magnitude. */
  lemma ZeroPadValue(n: int, width: int)
    ensures ZeroPad(n, width) != [] && (ZeroPad(n, width)[0] == '-' <==> n < 0)
    ensures n < 0 ==> DigitsValue(ZeroPad(n, width)[1..]) == -n
    ensures n >= 0 ==> DigitsValue(ZeroPad(n, width)) == n
  {
    if n < 0 {
      ZeroPadNegative(n, width);
      var body := PadDigits(-n, width - 1);
      assert ("-" + body)[1..] == body;
    } else {
      ZeroPadNonNegative(n, width);
    }
  }

  /** Different integers never render to the same text. */
  lemma ZeroPadInjective(a: int, b: int, wa: int, wb: int)
    requires ZeroPad(a, wa) == ZeroPad(b, wb)
    ensures a == b
  {
    ZeroPadValue(a, wa);
    ZeroPadValue(b, wb);
  }

  /**
   * `int()` skips a blank but not U+001C, although `str.strip()` drops both:
   * `int(" 5")` is 5 and `int("\x1c5")` is a `ValueError`.
   */
  lemma ParseIntControlPadding()
    ensures ParseInt(" 5") == Some(5)
    ensures Strip("\U{1C}5") == "5" && ParseInt("\U{1C}5") == None
  {
    ParseFive();
    var blank, control := " 5", "\U{1C}5";
    assert blank[0] == ' ' && blank[1..] == "5";
    assert control[0] == '\U{1C}' && control[1..] == "5";
    assert TrimLeft(blank) == "5";
    assert TrimLeft(control) == "5";
    assert Strip(blank) == "5";
    assert IntPadding(blank);
    assert !IntPadding(control) by {
      assert !IsIntSpace(control[0]);
    }
  }

  /** The one-digit text "5" is its own stripped form and reads as 5. */
  lemma ParseFive()
    ensures TrimLeft("5") == "5" && TrimRight("5") == "5"
    ensures DigitCount("5") == 1 && ParseSigned("5") == Some(5)
  {
    FiveTrimmed();
    FiveDigitCount();
    FiveValue();
  }

  lemma FiveTrimmed()
    ensures TrimLeft("5") == "5" && TrimRight("5") == "5"
  {
    var five := "5";
    assert five[0] == '5' && five[|five| - 1] == '5';
    DigitNotSpace(five[0]);
    BothTrimsOfTrimmed(five);
  }

  lemma FiveDigitCount()
    ensures DigitCount("5") == 1
  {
    assert "5"[..0] == [];
  }

  lemma FiveValue()
    ensures ParseSigned("5") == Some(5)
  {
    var five := "5";
    assert |five| == 1 && five[0] == '5' && five[..0] == [];
    assert WellFormedDigits(five);
    assert DigitsValue(five) == 5;
  }


}
