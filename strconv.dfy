/**
 * The two Go conversions the authenticator relies on:
 * `strconv.ParseInt(s, 10, 64)`, which reads the trust headers back, and
 * `fmt.Sprintf("%v", n)` on an int64, which writes them.
 */
module Strconv {
  import opened Wrappers

  const MinInt64: int := -0x8000_0000_0000_0000
  const MaxInt64: int := 0x7FFF_FFFF_FFFF_FFFF
  const MaxUint64: int := 0xFFFF_FFFF_FFFF_FFFF

  /** Go's int64. */
  newtype int64 = x: int | -0x8000_0000_0000_0000 <= x <= 0x7FFF_FFFF_FFFF_FFFF

  predicate InInt64(n: int)
  {
    MinInt64 <= n <= MaxInt64
  }

  /** The `Err` field of Go's `*strconv.NumError`. */
  datatype NumError = ErrSyntax | ErrRange

  predicate IsDigit(c: char)
  {
    '0' <= c <= '9'
  }

  function DigitValue(c: char): nat
    requires IsDigit(c)
  {
    c as int - '0' as int
  }

  predicate AllDigits(s: string)
  {
    forall k :: 0 <= k < |s| ==> IsDigit(s[k])
  }

  /** The number a string of decimal digits denotes, most significant digit first. */
  function DecimalValue(s: string): nat
    requires AllDigits(s)
  {
    if s == [] then 0 else 10 * DecimalValue(s[..|s| - 1]) + DigitValue(s[|s| - 1])
  }

  predicate HasSign(s: string)
  {
    |s| > 0 && (s[0] == '+' || s[0] == '-')
  }

  /** What follows the optional leading sign. */
  function Unsigned(s: string): string
  {
    if HasSign(s) then s[1..] else s
  }

  /** An optional `+` or `-` followed by one or more ASCII decimal digits. */
  predicate IsDecimalLiteral(s: string)
  {
    |Unsigned(s)| > 0 && AllDigits(Unsigned(s))
  }

  /** The integer a decimal literal denotes, before any range check. */
  function LiteralValue(s: string): int
    requires IsDecimalLiteral(s)
  {
    if s[0] == '-' then -(DecimalValue(Unsigned(s)) as int) else DecimalValue(Unsigned(s))
  }

  /** The strings `ParseInt(s, 10, 64)` accepts. */
  predicate IsInt64Literal(s: string)
  {
    IsDecimalLiteral(s) && InInt64(LiteralValue(s))
  }

  /** Smallest accumulator whose product with 10 exceeds the uint64 range. */
  const Cutoff: int := MaxUint64 / 10 + 1

  /**
   * The digit loop of Go's `ParseUint(s, 10, 64)` from position `i` with
   * accumulator `n`: a non-digit is a syntax error, and the first step that
   * would leave the uint64 range is a range error, whatever follows.
   */
  function ScanDigits(s: string, i: nat, n: nat): Result<nat, NumError>
    requires i <= |s| && n <= MaxUint64
    decreases |s| - i
  {
    if i == |s| then Ok(n)
    else if !IsDigit(s[i]) then Err(ErrSyntax)
    else if n >= Cutoff then Err(ErrRange)
    else if 10 * n + DigitValue(s[i]) > MaxUint64 then Err(ErrRange)
    else ScanDigits(s, i + 1, 10 * n + DigitValue(s[i]))
  }

  /** A longer digit string never denotes a smaller number than its prefix. */
  lemma {:induction false} PrefixValueAtMost(s: string, k: nat)
    requires AllDigits(s) && k <= |s|
    ensures AllDigits(s[..k]) && DecimalValue(s[..k]) <= DecimalValue(s)
  {
    if k == |s| {
      assert s[..k] == s;
    } else {
      var t := s[..|s| - 1];
      PrefixValueAtMost(t, k);
      assert t[..k] == s[..k];
      assert DecimalValue(s) == 10 * DecimalValue(t) + DigitValue(s[|s| - 1]);
    }
  }

  /** ScanDigits, started on a digit prefix with its value, reads the whole string correctly. */
  lemma {:induction false} ScanDigitsMeaning(s: string, i: nat)
    requires i <= |s| && AllDigits(s[..i]) && DecimalValue(s[..i]) <= MaxUint64
    ensures var r := ScanDigits(s, i, DecimalValue(s[..i]));
      && (r.Ok? <==> AllDigits(s) && DecimalValue(s) <= MaxUint64)
      && (r.Ok? ==> r.value == DecimalValue(s))
      && (AllDigits(s) && DecimalValue(s) > MaxUint64 ==> r == Err(ErrRange))
    decreases |s| - i
  {
    if i == |s| {
      assert s[..i] == s;
    } else if !IsDigit(s[i]) {
      assert !AllDigits(s);
    } else {
      var n := DecimalValue(s[..i]);
      var p := s[..i + 1];
      assert p[..i] == s[..i];
      assert AllDigits(p);
      assert DecimalValue(p) == 10 * n + DigitValue(s[i]);
      if DecimalValue(p) > MaxUint64 {
        if AllDigits(s) {
          PrefixValueAtMost(s, i + 1);
        }
      } else {
        ScanDigitsMeaning(s, i + 1);
      }
    }
  }

  /** Go's `strconv.ParseUint(s, 10, 64)`. */
  function ParseUint64(s: string): (r: Result<nat, NumError>)
    ensures r.Ok? <==> |s| > 0 && AllDigits(s) && DecimalValue(s) <= MaxUint64
    ensures r.Ok? ==> r.value == DecimalValue(s)
    ensures |s| > 0 && AllDigits(s) && DecimalValue(s) > MaxUint64 ==> r == Err(ErrRange)
    ensures s == [] ==> r == Err(ErrSyntax)
  {
    if s == [] then Err(ErrSyntax)
    else
      assert s[..0] == [];
      ScanDigitsMeaning(s, 0);
      ScanDigits(s, 0, 0)
  }

  /**
   * Go's `strconv.ParseInt(s, 10, 64)`: strip one sign, parse the rest as an
   * unsigned number, then check it against the int64 range for that sign.
   */
  function ParseInt64(s: string): (r: Result<int64, NumError>)
    ensures r.Ok? <==> IsInt64Literal(s)
    ensures r.Ok? ==> r.value as int == LiteralValue(s)
    ensures IsDecimalLiteral(s) && !InInt64(LiteralValue(s)) ==> r == Err(ErrRange)
    ensures Unsigned(s) == [] ==> r == Err(ErrSyntax)
  {
    if s == [] then Err(ErrSyntax)
    else
      var neg := s[0] == '-';
      var digits := if s[0] == '+' || s[0] == '-' then s[1..] else s;
      match ParseUint64(digits)
      case Err(e) => Err(e)
      case Ok(u) =>
        if !neg && u >= 0x8000_0000_0000_0000 then Err(ErrRange)
        else if neg && u > 0x8000_0000_0000_0000 then Err(ErrRange)
        else Ok((if neg then -(u as int) else u) as int64)
  }

  function DigitChar(d: nat): (c: char)
    requires d < 10
    ensures IsDigit(c) && DigitValue(c) == d
  {
    ('0' as int + d) as char
  }

  /** Decimal rendering of a natural number: digits only, no leading zero. */
  function FormatUint(n: nat): (s: string)
    ensures |s| > 0 && AllDigits(s) && DecimalValue(s) == n
    ensures s[0] == '0' <==> n == 0
    ensures n == 0 ==> s == "0"
  {
    if n < 10 then [DigitChar(n)]
    else
      var t := FormatUint(n / 10);
      var s := t + [DigitChar(n % 10)];
      assert s[..|s| - 1] == t;
      s
  }

  /** `fmt.Sprintf("%v", n)` for an int64: a `-` for negatives, then the digits. */
  function FormatInt(n: int64): (s: string)
    ensures IsInt64Literal(s) && LiteralValue(s) == n as int
    ensures s[0] != '+' && (s[0] == '-' <==> n < 0)
    ensures Unsigned(s)[0] == '0' ==> Unsigned(s) == "0"
  {
    if n < 0 then
      var d := FormatUint(-(n as int));
      assert Unsigned("-" + d) == d;
      "-" + d
    else
      FormatUint(n as int)
  }

  /** Reading back a rendered int64 gives the same number. */
  lemma ParseFormatRoundTrip(n: int64)
    ensures ParseInt64(FormatInt(n)) == Ok(n)
  {
  }
}
