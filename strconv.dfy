/** Go's `strconv.Atoi` on a 64-bit platform, the one number parser the
    import path relies on exactly: it turns shared-string indexes and integer
    cells into `int`s. Atoi is `ParseInt(s, 10, 0)`; its short-input fast
    path accepts and rejects the same texts and cannot overflow, so one
    definition covers both paths. */
module Strconv {

  const MaxInt64: int := 0x7FFF_FFFF_FFFF_FFFF
  const MinInt64: int := -0x8000_0000_0000_0000
  const MaxUint64: int := 0xFFFF_FFFF_FFFF_FFFF

  /** What `Atoi` hands back: a value with a nil error, a syntax error
      (value 0), or a range error together with the clamped value that
      Atoi returns beside it. */
  datatype NumResult = Parsed(value: int) | SyntaxError | RangeError(clamped: int)

  predicate IsDigit(c: char) { '0' <= c <= '9' }

  function DigitValue(c: char): (d: nat)
    requires IsDigit(c)
    ensures d < 10
  {
    c as int - '0' as int
  }

  predicate AllDigits(s: string) {
    forall i :: 0 <= i < |s| ==> IsDigit(s[i])
  }

  function Pow10(n: nat): (p: nat)
    ensures p >= 1
  {
    if n == 0 then 1 else 10 * Pow10(n - 1)
  }

  /** The value of a run of decimal digits, most significant first. */
  function DecimalValue(s: string): nat
    requires AllDigits(s)
  {
    if s == [] then 0 else DigitValue(s[0]) * Pow10(|s| - 1) + DecimalValue(s[1..])
  }

  /** The digit loop of `ParseUint(s, 10, 64)`: `acc` is the value read so
      far. A non-digit is a syntax error; a digit that would take the value
      past 2^64-1 is a range error reported at once, before the rest of the
      text is looked at (Go's `n >= cutoff` and `n1 > maxVal` tests together
      say exactly this). */
  function ScanUint(s: string, acc: nat): NumResult
    requires acc <= MaxUint64
    decreases |s|
  {
    if s == [] then Parsed(acc)
    else if !IsDigit(s[0]) then SyntaxError
    else if acc * 10 + DigitValue(s[0]) > MaxUint64 then RangeError(MaxUint64)
    else ScanUint(s[1..], acc * 10 + DigitValue(s[0]))
  }

  /** `strconv.Atoi(s)`: an optional sign, then `ParseUint` on the rest, then
      the int64 cut-off. */
  function Atoi(s: string): NumResult
  {
    if s == "" then SyntaxError
    else
      var neg := s[0] == '-';
      var digits := if s[0] == '+' || s[0] == '-' then s[1..] else s;
      if digits == "" then SyntaxError
      else
        match ScanUint(digits, 0)
        case SyntaxError => SyntaxError
        case RangeError(_) => if neg then RangeError(MinInt64) else RangeError(MaxInt64)
        case Parsed(u) =>
          if !neg && u > MaxInt64 then RangeError(MaxInt64)
          else if neg && u > MaxInt64 + 1 then RangeError(MinInt64)
          else Parsed(if neg then -u else u)
  }

  /** Texts Atoi reads as a number: an optional sign and at least one digit. */
  predicate IsDecimalLiteral(s: string) {
    var digits := if |s| > 0 && (s[0] == '+' || s[0] == '-') then s[1..] else s;
    digits != "" && AllDigits(digits)
  }

  function LiteralValue(s: string): int
    requires IsDecimalLiteral(s)
  {
    if s[0] == '-' then -(DecimalValue(s[1..]) as int)
    else if s[0] == '+' then DecimalValue(s[1..])
    else DecimalValue(s)
  }

  /** Decimal digits of a natural number, without leading zeros. */
  function NatDigits(n: nat): (s: string)
    ensures s != "" && AllDigits(s)
  {
    if n < 10 then [('0' as int + n) as char]
    else NatDigits(n / 10) + [('0' as int + n % 10) as char]
  }

  /** Decimal text of an integer, as `strconv.Itoa` writes it. */
  function FormatInt(n: int): string
  {
    if n < 0 then "-" + NatDigits(-n) else NatDigits(n)
  }

  lemma {:induction false} DecimalValueAppend(s: string, c: char)
    requires AllDigits(s) && IsDigit(c)
    ensures AllDigits(s + [c])
    ensures DecimalValue(s + [c]) == DecimalValue(s) * 10 + DigitValue(c)
  {
    if s != [] {
      var t := s + [c];
      assert t[0] == s[0] && t[1..] == s[1..] + [c];
      DecimalValueAppend(s[1..], c);
      AppendArith(DigitValue(s[0]), |s| - 1, DecimalValue(s[1..]), DigitValue(c));
    }
  }

  /** d * 10^(n+1) + (rest * 10 + e) == (d * 10^n + rest) * 10 + e */
  lemma AppendArith(d: nat, n: nat, rest: nat, e: nat)
    ensures d * Pow10(n + 1) + (rest * 10 + e) == (d * Pow10(n) + rest) * 10 + e
  {
    var p := Pow10(n);
    assert Pow10(n + 1) == 10 * p;
    assert d * (10 * p) == (d * p) * 10;
  }

  /** Reading back the digits of n gives n. */
  lemma {:induction false} NatDigitsValue(n: nat)
    ensures DecimalValue(NatDigits(n)) == n
  {
    if n >= 10 {
      NatDigitsValue(n / 10);
      DecimalValueAppend(NatDigits(n / 10), ('0' as int + n % 10) as char);
    }
  }

  /** acc * 10^(n+1) + d * 10^n + rest == (acc * 10 + d) * 10^n + rest */
  lemma ShiftDigit(acc: nat, d: nat, n: nat, rest: nat)
    ensures acc * Pow10(n + 1) + d * Pow10(n) + rest == (acc * 10 + d) * Pow10(n) + rest
  {
    var p := Pow10(n);
    assert Pow10(n + 1) == 10 * p;
    assert acc * (10 * p) == (acc * 10) * p;
    assert (acc * 10) * p + d * p == (acc * 10 + d) * p;
  }

  lemma MulAtLeast(a: nat, p: nat)
    requires p >= 1
    ensures a * p >= a
  {
  }

  /** On a text of digits the scan either reads the whole value or, exactly
      when that value exceeds 2^64-1, reports a range error. */
  lemma {:induction false} ScanDigits(s: string, acc: nat)
    requires acc <= MaxUint64 && AllDigits(s)
    ensures var total := acc * Pow10(|s|) + DecimalValue(s);
      ScanUint(s, acc) == if total <= MaxUint64 then Parsed(total) else RangeError(MaxUint64)
  {
    if s != [] {
      var d := DigitValue(s[0]);
      var next := acc * 10 + d;
      var p, rest := Pow10(|s| - 1), DecimalValue(s[1..]);
      ShiftDigit(acc, d, |s| - 1, rest);
      assert acc * Pow10(|s|) + DecimalValue(s) == next * p + rest;
      if next > MaxUint64 {
        assert ScanUint(s, acc) == RangeError(MaxUint64);
        MulAtLeast(next, p);
      } else {
        assert ScanUint(s, acc) == ScanUint(s[1..], next);
        ScanDigits(s[1..], next);
      }
    }
  }

  /** A successful scan has read digits only, and their value. */
  lemma {:induction false} ScanParsed(s: string, acc: nat)
    requires acc <= MaxUint64 && ScanUint(s, acc).Parsed?
    ensures AllDigits(s)
    ensures ScanUint(s, acc).value == acc * Pow10(|s|) + DecimalValue(s)
  {
    if s != [] {
      var next := acc * 10 + DigitValue(s[0]);
      ScanParsed(s[1..], next);
      ShiftDigit(acc, DigitValue(s[0]), |s| - 1, DecimalValue(s[1..]));
    }
  }

  /** Atoi succeeds exactly on a sign-and-digits text whose value fits in
      int64, and then returns that value. */
  lemma AtoiParsedIff(s: string)
    ensures Atoi(s).Parsed? <==> IsDecimalLiteral(s) && MinInt64 <= LiteralValue(s) <= MaxInt64
    ensures Atoi(s).Parsed? ==> Atoi(s).value == LiteralValue(s)
  {
    if s != "" {
      var digits := if s[0] == '+' || s[0] == '-' then s[1..] else s;
      if digits != "" {
        if AllDigits(digits) {
          ScanDigits(digits, 0);
        } else if ScanUint(digits, 0).Parsed? {
          ScanParsed(digits, 0);
        }
      }
    }
  }

  /** Atoi reads back every int64 that FormatInt writes. */
  lemma AtoiFormatInt(n: int)
    requires MinInt64 <= n <= MaxInt64
    ensures Atoi(FormatInt(n)) == Parsed(n)
  {
    var s := FormatInt(n);
    var m: nat := if n < 0 then -n else n;
    NatDigitsValue(m);
    if n < 0 {
      assert s[1..] == NatDigits(m);
    } else {
      assert s == NatDigits(m) && s[0] != '-' && s[0] != '+';
    }
    AtoiParsedIff(s);
  }
}
