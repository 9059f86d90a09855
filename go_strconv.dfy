/**
 * Go's `strconv.ParseInt(s, 10, 0)` on a platform whose `int` is 64 bits
 * wide, together with `strconv.FormatInt(v, 10)`, its inverse.
 *
 * The parse works as Go's does: the unsigned scan stops at the first byte
 * that is not a decimal digit (a syntax error) or at the first digit that
 * takes the value past the unsigned 64-bit maximum (a range error), and the
 * signed parse then checks the magnitude against the signed cutoff.
 */
module GoStrconv {
  import opened Wrappers

  /** The `Err` field of Go's `*strconv.NumError`. */
  datatype NumError = ErrSyntax | ErrRange

  const MaxUint64: nat := 0xFFFF_FFFF_FFFF_FFFF
  const MinInt64: int := -0x8000_0000_0000_0000
  const MaxInt64: int := 0x7FFF_FFFF_FFFF_FFFF

  predicate InIntRange(v: int) { MinInt64 <= v <= MaxInt64 }

  predicate IsDigit(c: char) { '0' <= c <= '9' }

  function DigitValue(c: char): nat
    requires IsDigit(c)
  {
    (c as int) - ('0' as int)
  }

  predicate AllDigits(s: string) { forall i :: 0 <= i < |s| ==> IsDigit(s[i]) }

  /** Value of a digit string read as a base-10 numeral, last digit least significant. */
  function DecimalValue(s: string): nat
    requires AllDigits(s)
  {
    if s == [] then 0 else DecimalValue(s[..|s| - 1]) * 10 + DigitValue(s[|s| - 1])
  }

  /** The digits after an optional leading `+` or `-`. */
  function Magnitude(s: string): string
  {
    if |s| > 0 && (s[0] == '+' || s[0] == '-') then s[1..] else s
  }

  /** An optional sign followed by at least one decimal digit. */
  predicate IsDecimalInteger(s: string)
  {
    Magnitude(s) != "" && AllDigits(Magnitude(s))
  }

  /** The signed value a decimal integer denotes. */
  function SignedValue(s: string): int
    requires IsDecimalInteger(s)
  {
    if s[0] == '-' then -(DecimalValue(Magnitude(s)) as int) else DecimalValue(Magnitude(s))
  }

  /** The left-to-right accumulation `n := n * 10 + d` of Go's digit loop. */
  function Accumulate(n: nat, s: string): nat
    requires AllDigits(s)
    decreases |s|
  {
    if s == [] then n else Accumulate(n * 10 + DigitValue(s[0]), s[1..])
  }

  lemma {:induction false} AccumulateAtLeast(n: nat, s: string)
    requires AllDigits(s)
    ensures Accumulate(n, s) >= n
    decreases |s|
  {
    if s != [] {
      AccumulateAtLeast(n * 10 + DigitValue(s[0]), s[1..]);
    }
  }

  lemma {:induction false} AccumulateSnoc(n: nat, s: string, c: char)
    requires AllDigits(s) && IsDigit(c)
    ensures AllDigits(s + [c])
    ensures Accumulate(n, s + [c]) == Accumulate(n, s) * 10 + DigitValue(c)
    decreases |s|
  {
    if s != [] {
      assert (s + [c])[1..] == s[1..] + [c];
      AccumulateSnoc(n * 10 + DigitValue(s[0]), s[1..], c);
    }
  }

  /** Accumulating from zero computes the decimal value. */
  lemma {:induction false} AccumulateIsDecimalValue(s: string)
    requires AllDigits(s)
    ensures Accumulate(0, s) == DecimalValue(s)
  {
    if s != [] {
      var init := s[..|s| - 1];
      AccumulateIsDecimalValue(init);
      AccumulateSnoc(0, init, s[|s| - 1]);
      assert init + [s[|s| - 1]] == s;
    }
  }

  /**
   * The digit loop of Go's `ParseUint` from accumulator `n`: it succeeds
   * exactly on an all-digit string whose value stays within `maxVal`, and it
   * reports a syntax error only when some byte is not a digit.
   */
  function ScanDigits(s: string, n: nat, maxVal: nat): (r: Result<nat, NumError>)
    requires n <= maxVal
    ensures r.Ok? <==> AllDigits(s) && Accumulate(n, s) <= maxVal
    ensures r.Ok? ==> r.value == Accumulate(n, s)
    ensures AllDigits(s) && Accumulate(n, s) > maxVal ==> r == Err(ErrRange)
    ensures r == Err(ErrSyntax) ==> !AllDigits(s)
  {
    if s == [] then Ok(n)
    else if !IsDigit(s[0]) then Err(ErrSyntax)
    else
      var n' := n * 10 + DigitValue(s[0]);
      if n' > maxVal then
        assert AllDigits(s) ==> Accumulate(n, s) > maxVal by {
          if AllDigits(s) {
            assert AllDigits(s[1..]) && Accumulate(n, s) == Accumulate(n', s[1..]);
            AccumulateAtLeast(n', s[1..]);
          }
        }
        Err(ErrRange)
      else
        assert AllDigits(s) <==> AllDigits(s[1..]) by {
          if AllDigits(s[1..]) {
            forall i | 0 <= i < |s| ensures IsDigit(s[i]) { if i > 0 { assert s[i] == s[1..][i - 1]; } }
          }
        }
        ScanDigits(s[1..], n', maxVal)
  }

  /** Go's `ParseUint(s, 10, 64)`. */
  function ParseUint(s: string): (r: Result<nat, NumError>)
    ensures r.Ok? <==> s != "" && AllDigits(s) && DecimalValue(s) <= MaxUint64
    ensures r.Ok? ==> r.value == DecimalValue(s)
    ensures s != "" && AllDigits(s) && DecimalValue(s) > MaxUint64 ==> r == Err(ErrRange)
    ensures r == Err(ErrSyntax) ==> s == "" || !AllDigits(s)
  {
    if s == "" then Err(ErrSyntax)
    else
      assert AllDigits(s) ==> Accumulate(0, s) == DecimalValue(s) by {
        if AllDigits(s) { AccumulateIsDecimalValue(s); }
      }
      ScanDigits(s, 0, MaxUint64)
  }

  /**
   * Go's `ParseInt(s, 10, 0)` with a 64-bit `int`: it succeeds exactly on a
   * signed decimal integer within the `int` range, with that integer's value;
   * a well-formed integer outside the range is a range error, and a syntax
   * error means the text is not a signed decimal integer.
   */
  function ParseInt(s: string): (r: Result<int, NumError>)
    ensures r.Ok? <==> IsDecimalInteger(s) && InIntRange(SignedValue(s))
    ensures r.Ok? ==> r.value == SignedValue(s)
    ensures IsDecimalInteger(s) && !InIntRange(SignedValue(s)) ==> r == Err(ErrRange)
    ensures r == Err(ErrSyntax) ==> !IsDecimalInteger(s)
  {
    if s == "" then Err(ErrSyntax)
    else
      var neg := s[0] == '-';
      var un := ParseUint(Magnitude(s));
      if un == Err(ErrSyntax) then Err(ErrSyntax)
      else
        // A range error from the unsigned scan reports the maximum as its value.
        var u: int := if un.Err? then MaxUint64 else un.value;
        var cutoff := -MinInt64;
        if !neg && u >= cutoff then Err(ErrRange)
        else if neg && u > cutoff then Err(ErrRange)
        else Ok(if neg then -u else u)
  }

  function DigitChar(d: nat): (c: char)
    requires d < 10
    ensures IsDigit(c) && DigitValue(c) == d
  {
    ('0' as int + d) as char
  }

  /** The base-10 numeral of `n`, without leading zeros. */
  function FormatNat(n: nat): string
  {
    if n < 10 then [DigitChar(n)] else FormatNat(n / 10) + [DigitChar(n % 10)]
  }

  /** Go's `strconv.FormatInt(v, 10)`. */
  function FormatInt(v: int): string
  {
    if v < 0 then "-" + FormatNat(-v) else FormatNat(v)
  }

  lemma {:induction false} FormatNatIsNumeral(n: nat)
    ensures FormatNat(n) != "" && AllDigits(FormatNat(n))
    ensures DecimalValue(FormatNat(n)) == n
  {
    if n >= 10 {
      FormatNatIsNumeral(n / 10);
      var s := FormatNat(n);
      assert s[..|s| - 1] == FormatNat(n / 10);
      assert s[|s| - 1] == DigitChar(n % 10);
    }
  }

  /** Parsing the formatted form of any `int` gives it back. */
  lemma FormatIntRoundTrip(v: int)
    requires InIntRange(v)
    ensures IsDecimalInteger(FormatInt(v)) && SignedValue(FormatInt(v)) == v
    ensures ParseInt(FormatInt(v)) == Ok(v)
  {
    if v < 0 {
      FormatNatIsNumeral(-v);
      assert Magnitude(FormatInt(v)) == FormatNat(-v);
    } else {
      FormatNatIsNumeral(v);
      assert FormatNat(v)[0] != '-' && FormatNat(v)[0] != '+';
    }
  }
}
