/**
 * The parts of Go's strconv package that the typed values rely on:
 * ParseBool, and ParseInt/ParseUint in base 10, with the error each one
 * returns. FormatBool, FormatInt and FormatUint are their inverses and serve
 * as the reference against which the parsers are checked.
 */
module Strconv {
  import opened Wrappers
  import opened Errors

  /** The bit sizes the library passes to strconv. */
  type BitSize = b: nat | b == 8 || b == 16 || b == 32 || b == 64 witness 64

  function Pow2(n: nat): (r: nat)
    ensures r >= 1
  {
    if n == 0 then 1 else 2 * Pow2(n - 1)
  }

  /** 2^bitSize: one past the largest unsigned value of that width. */
  function Limit(bitSize: BitSize): nat
  {
    if bitSize == 8 then 0x100
    else if bitSize == 16 then 0x1_0000
    else if bitSize == 32 then 0x1_0000_0000
    else 0x1_0000_0000_0000_0000
  }

  /** 2^(bitSize-1): one past the largest signed value of that width. */
  function Half(bitSize: BitSize): nat
  {
    if bitSize == 8 then 0x80
    else if bitSize == 16 then 0x8000
    else if bitSize == 32 then 0x8000_0000
    else 0x8000_0000_0000_0000
  }

  predicate IsDigit(c: char)
  {
    '0' <= c <= '9'
  }

  function DigitValue(c: char): (d: nat)
    requires IsDigit(c)
    ensures d < 10
  {
    (c as int) - ('0' as int)
  }

  function DigitChar(d: nat): (c: char)
    requires d < 10
    ensures IsDigit(c) && DigitValue(c) == d
  {
    ('0' as int + d) as char
  }

  predicate AllDigits(s: string)
  {
    forall i :: 0 <= i < |s| ==> IsDigit(s[i])
  }

  /** The number a string of decimal digits denotes (leading zeros allowed). */
  function Decimal(s: string): nat
    requires AllDigits(s)
  {
    if s == [] then 0 else Decimal(s[..|s| - 1]) * 10 + DigitValue(s[|s| - 1])
  }

  /** The integer that an optionally signed decimal literal denotes, if `s` is one. */
  function IntLiteral(s: string): Option<int>
  {
    if s != "" && (s[0] == '+' || s[0] == '-') then
      var body := s[1..];
      if body != "" && AllDigits(body) then
        Some(if s[0] == '-' then -(Decimal(body) as int) else Decimal(body))
      else
        None
    else if s != "" && AllDigits(s) then
      Some(Decimal(s))
    else
      None
  }

  /** strconv.ParseBool. */
  function ParseBool(str: string): Result<bool, Error>
  {
    if str in ["1", "t", "T", "TRUE", "true", "True"] then Ok(true)
    else if str in ["0", "f", "F", "FALSE", "false", "False"] then Ok(false)
    else Failure(NumError("ParseBool", str, ErrSyntax))
  }

  /** strconv.FormatBool. */
  function FormatBool(b: bool): string
  {
    if b then "true" else "false"
  }

  /**
   * The digit loop of strconv.ParseUint in base 10, which reads `s` from the
   * left and stops at the first byte that is not a digit (ErrSyntax) or at
   * the first digit that takes the value past `maxVal` (ErrRange). Written as
   * a fold over the prefix, so that the leftmost offence decides the cause.
   */
  function ScanDigits(s: string, maxVal: nat): Result<nat, NumCause>
  {
    if s == [] then Ok(0)
    else
      match ScanDigits(s[..|s| - 1], maxVal)
      case Failure(cause) => Failure(cause)
      case Ok(n) =>
        var c := s[|s| - 1];
        if !IsDigit(c) then Failure(ErrSyntax)
        else if n * 10 + DigitValue(c) > maxVal then Failure(ErrRange)
        else Ok(n * 10 + DigitValue(c))
  }

  /** strconv.ParseUint(s, 10, bitSize). */
  function ParseUint(s: string, bitSize: BitSize): Result<nat, Error>
  {
    if s == "" then Failure(NumError("ParseUint", s, ErrSyntax))
    else
      match ScanDigits(s, Limit(bitSize) - 1)
      case Ok(n) => Ok(n)
      case Failure(cause) => Failure(NumError("ParseUint", s, cause))
  }

  /**
   * strconv.ParseInt(s, 10, bitSize): one leading sign, then ParseUint on the
   * rest. A syntax error of ParseUint is reported against the whole input, and
   * any magnitude beyond the signed range is ErrRange.
   */
  function ParseInt(s: string, bitSize: BitSize): Result<int, Error>
  {
    if s == "" then Failure(NumError("ParseInt", s, ErrSyntax))
    else
      var neg := s[0] == '-';
      var body := if s[0] == '+' || s[0] == '-' then s[1..] else s;
      match ParseUint(body, bitSize)
      case Failure(e) =>
        Failure(NumError("ParseInt", s, if e.NumError? && e.Err == ErrSyntax then ErrSyntax else ErrRange))
      case Ok(un) =>
        var cutoff := Half(bitSize);
        if !neg && un >= cutoff then Failure(NumError("ParseInt", s, ErrRange))
        else if neg && un > cutoff then Failure(NumError("ParseInt", s, ErrRange))
        else Ok(if neg then -(un as int) else un)
  }

  /** strconv.FormatUint(n, 10). */
  function FormatUint(n: nat): string
  {
    if n < 10 then [DigitChar(n)] else FormatUint(n / 10) + [DigitChar(n % 10)]
  }

  /** strconv.FormatInt(i, 10). */
  function FormatInt(i: int): string
  {
    if i < 0 then "-" + FormatUint(-i) else FormatUint(i)
  }

  lemma {:induction false} DecimalOfPrefix(s: string)
    requires AllDigits(s) && s != []
    ensures AllDigits(s[..|s| - 1]) && Decimal(s[..|s| - 1]) <= Decimal(s)
  {
  }

  /** The digit loop accepts exactly the digit strings whose value fits, and yields that value. */
  lemma {:induction false} ScanDigitsSpec(s: string, maxVal: nat)
    ensures ScanDigits(s, maxVal).Ok? <==> AllDigits(s) && Decimal(s) <= maxVal
    ensures ScanDigits(s, maxVal).Ok? ==> AllDigits(s) && ScanDigits(s, maxVal).value == Decimal(s)
  {
    if s != [] {
      var p := s[..|s| - 1];
      ScanDigitsSpec(p, maxVal);
      if AllDigits(s) {
        DecimalOfPrefix(s);
      } else if AllDigits(p) {
        assert !IsDigit(s[|s| - 1]);
      }
    }
  }

  /** A string whose first character is not a digit is a syntax error, whatever follows. */
  lemma {:induction false} ScanDigitsNonDigitFirst(s: string, maxVal: nat)
    requires s != [] && !IsDigit(s[0])
    ensures ScanDigits(s, maxVal) == Failure(ErrSyntax)
  {
    if |s| > 1 {
      ScanDigitsNonDigitFirst(s[..|s| - 1], maxVal);
    }
  }

  /** ParseUint accepts exactly the non-empty digit strings below 2^bitSize. */
  lemma ParseUintSpec(s: string, bitSize: BitSize)
    ensures ParseUint(s, bitSize).Ok? <==> s != "" && AllDigits(s) && Decimal(s) < Limit(bitSize)
    ensures ParseUint(s, bitSize).Ok? ==> AllDigits(s) && ParseUint(s, bitSize).value == Decimal(s)
    ensures ParseUint(s, bitSize).Failure? ==>
              ParseUint(s, bitSize).error == NumError("ParseUint", s, ParseUint(s, bitSize).error.Err)
  {
    ScanDigitsSpec(s, Limit(bitSize) - 1);
  }

  /** ParseUint rejects any sign, e.g. "-1", as a syntax error. */
  lemma ParseUintRejectsSign(s: string, bitSize: BitSize)
    requires s != "" && (s[0] == '-' || s[0] == '+')
    ensures ParseUint(s, bitSize) == Failure(NumError("ParseUint", s, ErrSyntax))
  {
    ScanDigitsNonDigitFirst(s, Limit(bitSize) - 1);
  }

  lemma {:induction false} Pow2Add(a: nat, b: nat)
    ensures Pow2(a + b) == Pow2(a) * Pow2(b)
  {
    if b > 0 {
      Pow2Add(a, b - 1);
    }
  }

  lemma Pow2Of8()
    ensures Pow2(7) == 0x80 && Pow2(8) == 0x100
  {
    Pow2Add(1, 7);
    Pow2Add(4, 4);
    Pow2Add(2, 2);
    Pow2Add(1, 1);
  }

  lemma Pow2Of16()
    ensures Pow2(15) == 0x8000 && Pow2(16) == 0x1_0000
  {
    Pow2Of8();
    Pow2Add(8, 7);
    Pow2Add(8, 8);
  }

  lemma Pow2Of32()
    ensures Pow2(31) == 0x8000_0000 && Pow2(32) == 0x1_0000_0000
  {
    Pow2Of16();
    Pow2Add(16, 15);
    Pow2Add(16, 16);
  }

  lemma Pow2Of64()
    ensures Pow2(63) == 0x8000_0000_0000_0000 && Pow2(64) == 0x1_0000_0000_0000_0000
  {
    Pow2Of32();
    Pow2Add(32, 31);
    Pow2Add(32, 32);
  }

  /** The width tables are the powers of two that Go computes with shifts. */
  lemma LimitsArePowers(bitSize: BitSize)
    ensures Limit(bitSize) == Pow2(bitSize) && Half(bitSize) == Pow2(bitSize - 1)
  {
    if bitSize == 8 {
      Pow2Of8();
    } else if bitSize == 16 {
      Pow2Of16();
    } else if bitSize == 32 {
      Pow2Of32();
    } else {
      Pow2Of64();
    }
  }

  /**
   * ParseInt accepts exactly the signed decimal literals whose value lies in
   * [-2^(bitSize-1), 2^(bitSize-1)), and yields that value.
   */
  lemma ParseIntSpec(s: string, bitSize: BitSize)
    ensures ParseInt(s, bitSize).Ok? <==>
              IntLiteral(s).Some? && -(Half(bitSize) as int) <= IntLiteral(s).value < Half(bitSize)
    ensures ParseInt(s, bitSize).Ok? ==> ParseInt(s, bitSize).value == IntLiteral(s).value
  {
    if s != "" {
      var body := if s[0] == '+' || s[0] == '-' then s[1..] else s;
      ParseUintSpec(body, bitSize);
    }
  }

  /** FormatUint yields a non-empty digit string denoting its argument. */
  lemma {:induction false} FormatUintSpec(n: nat)
    ensures FormatUint(n) != "" && AllDigits(FormatUint(n)) && Decimal(FormatUint(n)) == n
  {
    if n >= 10 {
      FormatUintSpec(n / 10);
      var s := FormatUint(n);
      assert s[..|s| - 1] == FormatUint(n / 10);
    }
  }

  /** Round trip: every value in range is read back from its decimal rendering. */
  lemma ParseUintFormatUint(n: nat, bitSize: BitSize)
    requires n < Limit(bitSize)
    ensures ParseUint(FormatUint(n), bitSize) == Ok(n)
  {
    FormatUintSpec(n);
    ParseUintSpec(FormatUint(n), bitSize);
  }

  /** Round trip: every value in the signed range is read back from its decimal rendering. */
  lemma ParseIntFormatInt(i: int, bitSize: BitSize)
    requires -(Half(bitSize) as int) <= i < Half(bitSize)
    ensures ParseInt(FormatInt(i), bitSize) == Ok(i)
  {
    var s := FormatInt(i);
    if i < 0 {
      FormatUintSpec(-i);
      assert s[1..] == FormatUint(-i);
    } else {
      FormatUintSpec(i);
    }
    ParseIntSpec(s, bitSize);
  }

  /** Round trip: ParseBool reads back what FormatBool writes. */
  lemma ParseBoolFormatBool(b: bool)
    ensures ParseBool(FormatBool(b)) == Ok(b)
  {
  }
}
