/** Go's `strconv.ParseUint(s, 10, bits)` and `strconv.ParseInt(s, 10, 32)`, the two
    integer conversions the modelled parsers apply to literal tokens.

    The model follows the library's left-to-right scan: an empty string is a syntax
    error; each character must be a decimal digit (`_` is only accepted with base 0,
    letters are digits `>= 10` and so rejected by base 10); the accumulated value is
    checked against the maximum after every digit, so an overflow is reported as a
    range error at the first digit that overflows, before any later non-digit is seen. */
module Numbers {
  import opened Tokens

  /** The result of a conversion: the value, or the kind of `*NumError`. */
  datatype IntResult = IntOk(value: int) | IntErr(kind: NumErrKind)

  predicate IsDigit(c: char) {
    '0' <= c <= '9'
  }

  function DigitValue(c: char): (d: nat)
    requires IsDigit(c)
    ensures d < 10
  {
    c as int - '0' as int
  }

  predicate AllDigits(s: string) {
    forall k :: 0 <= k < |s| ==> IsDigit(s[k])
  }

  /** The number a string of decimal digits denotes (most significant digit first). */
  function DecValue(s: string): nat
    requires AllDigits(s)
  {
    if |s| == 0 then 0 else DecValue(s[..|s| - 1]) * 10 + DigitValue(s[|s| - 1])
  }

  /** The length of the longest all-digit prefix of `s`. */
  function LeadingDigits(s: string): (k: nat)
    ensures k <= |s| && AllDigits(s[..k])
    ensures k < |s| ==> !IsDigit(s[k])
  {
    if |s| == 0 || !IsDigit(s[0]) then 0
    else
      var k := 1 + LeadingDigits(s[1..]);
      assert s[..k] == [s[0]] + s[1..][..k - 1];
      k
  }

  /** The largest value of an unsigned integer of `bits` bits. */
  function MaxUint(bits: nat): nat {
    Pow2(bits) - 1
  }

  function Pow2(n: nat): (p: nat)
    ensures p >= 1
  {
    if n == 0 then 1 else 2 * Pow2(n - 1)
  }

  lemma {:induction false} Pow2Add(a: nat, b: nat)
    ensures Pow2(a + b) == Pow2(a) * Pow2(b)
    decreases a
  {
    if a > 0 {
      Pow2Add(a - 1, b);
    }
  }

  /** The two widths the parsers use: `uint16` and `uint32`. */
  lemma MaxUintValues()
    ensures MaxUint(16) == 0xFFFF && MaxUint(32) == 0xFFFF_FFFF
  {
    assert Pow2(2) == 4;
    assert Pow2(4) == 16 by { Pow2Add(2, 2); }
    assert Pow2(8) == 256 by { Pow2Add(4, 4); }
    assert Pow2(16) == 0x1_0000 by { Pow2Add(8, 8); }
    assert Pow2(32) == 0x1_0000_0000 by { Pow2Add(16, 16); }
  }

  /** The scan loop of `ParseUint` from position `i`, with `n` the value of the digits before it:
      a digit that takes the value past `maxVal` is a range error before any later non-digit is seen. */
  function ScanUint(s: string, i: nat, n: nat, maxVal: nat): (r: IntResult)
    requires i <= |s|
    ensures n <= maxVal && r.IntOk? ==> n <= r.value <= maxVal
    ensures r.IntOk? ==> forall j :: i <= j < |s| ==> IsDigit(s[j])
    decreases |s| - i
  {
    if i == |s| then IntOk(n)
    else if !IsDigit(s[i]) then IntErr(Syntax)
    else if n * 10 + DigitValue(s[i]) > maxVal then IntErr(Range)
    else ScanUint(s, i + 1, n * 10 + DigitValue(s[i]), maxVal)
  }

  /** `strconv.ParseUint(s, 10, bits)`: the empty string is a syntax error; a success is a
      value of `bits` bits read from a string of digits only. */
  function ParseUint(s: string, bits: nat): (r: IntResult)
    ensures r.IntOk? ==> 0 <= r.value <= MaxUint(bits) && s != "" && AllDigits(s)
  {
    if s == "" then IntErr(Syntax) else ScanUint(s, 0, 0, MaxUint(bits))
  }

  lemma DecValueSnoc(s: string, c: char)
    requires AllDigits(s) && IsDigit(c)
    ensures AllDigits(s + [c]) && DecValue(s + [c]) == DecValue(s) * 10 + DigitValue(c)
  {
    assert (s + [c])[..|s + [c]| - 1] == s;
  }

  /** A longer all-digit prefix never has a smaller value. */
  lemma {:induction false} DecValuePrefixMono(s: string, j: nat, k: nat)
    requires j <= k <= |s| && AllDigits(s[..k])
    ensures AllDigits(s[..j]) && DecValue(s[..j]) <= DecValue(s[..k])
    decreases k - j
  {
    assert s[..k][..j] == s[..j];
    if j < k {
      assert s[..k][..k - 1] == s[..k - 1];
      DecValuePrefixMono(s, j, k - 1);
      DecValueSnoc(s[..k - 1], s[k - 1]);
      assert s[..k - 1] + [s[k - 1]] == s[..k];
    }
  }

  /** The scan from position `i` classifies the whole string by its leading digits. */
  lemma {:induction false} ScanClassifies(s: string, i: nat, maxVal: nat)
    requires i <= LeadingDigits(s) && DecValue(s[..i]) <= maxVal
    ensures var k := LeadingDigits(s);
      ScanUint(s, i, DecValue(s[..i]), maxVal) ==
        if DecValue(s[..k]) > maxVal then IntErr(Range)
        else if k < |s| then IntErr(Syntax)
        else IntOk(DecValue(s))
    decreases |s| - i
  {
    var k := LeadingDigits(s);
    DecValuePrefixMono(s, i, k);
    if i < k {
      DecValueSnoc(s[..i], s[i]);
      assert s[..i] + [s[i]] == s[..i + 1];
      if DecValue(s[..i + 1]) > maxVal {
        DecValuePrefixMono(s, i + 1, k);
      } else {
        ScanClassifies(s, i + 1, maxVal);
      }
    } else {
      assert s[..|s|] == s;
    }
  }

  /** `ParseUint(s, 10, bits)` succeeds exactly on a non-empty string of digits whose
      value fits in `bits` bits, and then yields that value; otherwise the error is a
      range error exactly when the leading digits already exceed the maximum. */
  lemma ParseUintSpec(s: string, bits: nat)
    ensures var k := LeadingDigits(s);
      ParseUint(s, bits) ==
        if s == "" then IntErr(Syntax)
        else if DecValue(s[..k]) > MaxUint(bits) then IntErr(Range)
        else if k < |s| then IntErr(Syntax)
        else IntOk(DecValue(s))
  {
    if s != "" {
      assert s[..0] == "";
      ScanClassifies(s, 0, MaxUint(bits));
    }
  }

  /** The corollary the callers rely on: success exactly on in-range digit strings. */
  lemma ParseUintOk(s: string, bits: nat)
    ensures ParseUint(s, bits).IntOk? <==> s != "" && AllDigits(s) && DecValue(s) <= MaxUint(bits)
    ensures ParseUint(s, bits).IntOk? ==> ParseUint(s, bits).value == DecValue(s)
  {
    ParseUintSpec(s, bits);
    var k := LeadingDigits(s);
    if s != "" && AllDigits(s) {
      assert k == |s|;
      assert s[..k] == s;
    }
  }

  function DigitChar(d: nat): (c: char)
    requires d < 10
    ensures IsDigit(c) && DigitValue(c) == d
  {
    ('0' as int + d) as char
  }

  /** The decimal spelling of `n`, the form `strconv.FormatUint(n, 10)` writes. */
  function DecimalString(n: nat): (s: string)
    ensures s != "" && AllDigits(s)
  {
    if n < 10 then [DigitChar(n)] else DecimalString(n / 10) + [DigitChar(n % 10)]
  }

  lemma {:induction false} DecimalStringValue(n: nat)
    ensures DecValue(DecimalString(n)) == n
  {
    if n >= 10 {
      DecimalStringValue(n / 10);
      DecValueSnoc(DecimalString(n / 10), DigitChar(n % 10));
    }
  }

  /** Round trip: every value that fits is read back from its decimal spelling. */
  lemma ParseUintRoundTrip(n: nat, bits: nat)
    requires n <= MaxUint(bits)
    ensures ParseUint(DecimalString(n), bits) == IntOk(n)
  {
    DecimalStringValue(n);
    ParseUintOk(DecimalString(n), bits);
  }

  const Int32Min: int := -0x8000_0000
  const Int32Max: int := 0x7FFF_FFFF

  /** The digits after an optional leading sign. */
  function Unsigned(s: string): string
    requires s != ""
  {
    if s[0] == '+' || s[0] == '-' then s[1..] else s
  }

  /** The value of an optionally signed digit string. */
  function SignedValue(s: string): int
    requires s != "" && AllDigits(Unsigned(s))
  {
    if s[0] == '-' then -(DecValue(Unsigned(s)) as int) else DecValue(Unsigned(s))
  }

  /** `strconv.ParseInt(s, 10, 32)`: an optional sign, then `ParseUint` of the rest with
      32 bits; a syntax error there is reported as the `ParseInt` error; a magnitude of
      2^31 or more is out of range unless negative and exactly 2^31. */
  function ParseInt32(s: string): (r: IntResult)
    ensures r.IntOk? ==> Int32Min <= r.value <= Int32Max
  {
    if s == "" then IntErr(Syntax)
    else
      var neg := s[0] == '-';
      match ParseUint(Unsigned(s), 32)
      case IntErr(k) => IntErr(k)
      case IntOk(u) =>
        if !neg && u >= 0x8000_0000 then IntErr(Range)
        else if neg && u > 0x8000_0000 then IntErr(Range)
        else IntOk(if neg then -u else u)
  }

  /** `ParseInt(s, 10, 32)` succeeds exactly on an optionally signed digit string whose
      signed value lies in the int32 range, and yields that value. */
  lemma ParseInt32Ok(s: string)
    ensures ParseInt32(s).IntOk? <==>
      s != "" && var u := Unsigned(s);
      u != "" && AllDigits(u) && Int32Min <= SignedValue(s) <= Int32Max
    ensures ParseInt32(s).IntOk? ==> ParseInt32(s).value == SignedValue(s)
  {
    if s != "" {
      ParseUintOk(Unsigned(s), 32);
      MaxUintValues();
    }
  }

  /** The decimal spelling of an integer, with `-` for negatives (`strconv.Itoa`). */
  function IntString(v: int): (s: string)
    ensures s != ""
  {
    if v < 0 then "-" + DecimalString(-v) else DecimalString(v)
  }

  /** Round trip: every int32 value is read back from its decimal spelling. */
  lemma ParseInt32RoundTrip(v: int)
    requires Int32Min <= v <= Int32Max
    ensures ParseInt32(IntString(v)) == IntOk(v)
  {
    var s := IntString(v);
    if v < 0 {
      assert Unsigned(s) == DecimalString(-v);
      DecimalStringValue(-v);
    } else {
      assert s[0] != '+' && s[0] != '-';
      DecimalStringValue(v);
    }
    ParseInt32Ok(s);
  }

  /** `ParseInt(s, 10, 32)` fails with a syntax error exactly when nothing follows the sign or a
      non-digit follows an in-range digit run, and with a range error exactly when the digit run
      exceeds 2^32 - 1 (whatever follows it) or the signed value of a digit string leaves the
      int32 range: `ParseInt` hands the same bit size to `ParseUint` and keeps its range error. */
  lemma ParseInt32Errors(s: string)
    requires s != ""
    ensures var u := Unsigned(s); var k := LeadingDigits(u);
      ParseInt32(s) == IntErr(Syntax) <==> u == "" || (DecValue(u[..k]) <= MaxUint(32) && k < |u|)
    ensures var u := Unsigned(s); var k := LeadingDigits(u);
      ParseInt32(s) == IntErr(Range) <==>
        u != "" && (DecValue(u[..k]) > MaxUint(32) || (k == |u| && !(Int32Min <= SignedValue(s) <= Int32Max)))
  {
    var u := Unsigned(s);
    ParseUintSpec(u, 32);
    ParseInt32Ok(s);
    var k := LeadingDigits(u);
    if u != "" && k == |u| {
      assert u[..k] == u;
    }
  }

  lemma FiveHundredThousand()
    ensures AllDigits("500000") && DecValue("500000") == 500000
  {
    assert DecValue("5") == 5;
    assert DecValue("50") == 50 by {
      assert "50" == "5" + ['0'];
      DecValueSnoc("5", '0');
    }
    assert DecValue("500") == 500 by {
      assert "500" == "50" + ['0'];
      DecValueSnoc("50", '0');
    }
    assert DecValue("5000") == 5000 by {
      assert "5000" == "500" + ['0'];
      DecValueSnoc("500", '0');
    }
    assert DecValue("50000") == 50000 by {
      assert "50000" == "5000" + ['0'];
      DecValueSnoc("5000", '0');
    }
    assert DecValue("500000") == 500000 by {
      assert "500000" == "50000" + ['0'];
      DecValueSnoc("50000", '0');
    }
  }

  lemma FiveBillion()
    ensures AllDigits("5000000000") && DecValue("5000000000") == 5000000000
  {
    FiveHundredThousand();
    assert DecValue("5000000") == 5000000 by {
      assert "5000000" == "500000" + ['0'];
      DecValueSnoc("500000", '0');
    }
    assert DecValue("50000000") == 50000000 by {
      assert "50000000" == "5000000" + ['0'];
      DecValueSnoc("5000000", '0');
    }
    assert DecValue("500000000") == 500000000 by {
      assert "500000000" == "50000000" + ['0'];
      DecValueSnoc("50000000", '0');
    }
    assert DecValue("5000000000") == 5000000000 by {
      assert "5000000000" == "500000000" + ['0'];
      DecValueSnoc("500000000", '0');
    }
  }

  lemma {:induction false} LeadingDigitsOfRun(s: string, k: nat)
    requires k < |s| && AllDigits(s[..k]) && !IsDigit(s[k])
    ensures LeadingDigits(s) == k
    decreases k
  {
    if k > 0 {
      assert s[..k][0] == s[0];
      assert s[1..][..k - 1] == s[..k][1..];
      LeadingDigitsOfRun(s[1..], k - 1);
    }
  }

  /** A ten-digit run too large for 32 bits, followed by a letter, is out of range. */
  lemma ParseInt32RangeBeforeSyntax()
    ensures ParseInt32("5000000000x") == IntErr(Range)
  {
    var s := "5000000000x";
    assert Unsigned(s) == s;
    assert s[..10] == "5000000000";
    FiveBillion();
    LeadingDigitsOfRun(s, 10);
    MaxUintValues();
    ParseInt32Errors(s);
  }
}
