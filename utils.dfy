/** The cell converters of pkg/utils/utils.go: total functions from the text
    of a spreadsheet cell to a typed value, each falling back to a default
    instead of failing. */
module Utils {
  import opened Wrappers
  import opened Strconv
  import opened Text
  import opened Chrono
  import opened Foreign

  /** `ToInt`: "" is 0; otherwise whatever `Atoi` returns beside its error,
      which is 0 for a syntax error and the clamped bound for a range error. */
  function ToInt(s: string): (n: int)
    ensures MinInt64 <= n <= MaxInt64
    ensures s == "" ==> n == 0
  {
    if s == "" then 0
    else match Atoi(s)
      case Parsed(v) => AtoiInRange(s); v
      case SyntaxError => 0
      case RangeError(c) => c
  }

  lemma AtoiInRange(s: string)
    requires Atoi(s).Parsed?
    ensures MinInt64 <= Atoi(s).value <= MaxInt64
  {
    AtoiParsedIff(s);
  }

  /** A text Atoi reads exactly is converted to its value. */
  lemma ToIntLiteral(s: string)
    requires IsDecimalLiteral(s) && MinInt64 <= LiteralValue(s) <= MaxInt64
    ensures ToInt(s) == LiteralValue(s)
  {
    AtoiParsedIff(s);
  }

  /** ToInt reads back every int64 that FormatInt writes. */
  lemma ToIntFormatInt(n: int)
    requires MinInt64 <= n <= MaxInt64
    ensures ToInt(FormatInt(n)) == n
  {
    AtoiFormatInt(n);
  }

  /** A text without a single digit never fails the import: it is 0. */
  lemma ToIntNoDigit(s: string)
    requires forall i :: 0 <= i < |s| ==> !IsDigit(s[i])
    ensures ToInt(s) == 0
  {
    if s != "" {
      var digits := if s[0] == '+' || s[0] == '-' then s[1..] else s;
      if digits != "" {
        assert !IsDigit(digits[0]);
      }
    }
  }

  /** A run of digits worth more than 2^64-1 is a range error as soon as
      the overflow is seen, so the characters after it are never checked. */
  lemma {:induction false} ScanOverflow(a: string, b: string, acc: nat)
    requires acc <= MaxUint64 && AllDigits(a)
    requires acc * Pow10(|a|) + DecimalValue(a) > MaxUint64
    ensures ScanUint(a + b, acc) == RangeError(MaxUint64)
  {
    if a != [] {
      var d := DigitValue(a[0]);
      var next := acc * 10 + d;
      ShiftDigit(acc, d, |a| - 1, DecimalValue(a[1..]));
      assert (a + b)[0] == a[0] && (a + b)[1..] == a[1..] + b;
      if next <= MaxUint64 {
        assert ScanUint(a + b, acc) == ScanUint(a[1..] + b, next);
        ScanOverflow(a[1..], b, next);
      }
    }
  }

  /** So an unsigned text that starts with an overflowing run of digits is
      the int64 maximum, not the 0 of a syntax error, whatever follows it
      (for example "99999999999999999999x"). */
  lemma ToIntOverflowBeforeJunk(a: string, b: string)
    requires a != "" && AllDigits(a) && DecimalValue(a) > MaxUint64
    ensures ToInt(a + b) == MaxInt64
  {
    ScanOverflow(a, b, 0);
    assert (a + b)[0] == a[0];
  }

  /** Digits whose value stays within 2^64-1 are read without a stop, and
      the scan goes on after them from that value. */
  lemma {:induction false} ScanPrefix(a: string, b: string, acc: nat)
    requires acc <= MaxUint64 && AllDigits(a)
    requires acc * Pow10(|a|) + DecimalValue(a) <= MaxUint64
    ensures ScanUint(a + b, acc) == ScanUint(b, acc * Pow10(|a|) + DecimalValue(a))
  {
    if a == [] {
      assert a + b == b;
    } else {
      var d := DigitValue(a[0]);
      var next := acc * 10 + d;
      ShiftDigit(acc, d, |a| - 1, DecimalValue(a[1..]));
      MulAtLeast(next, Pow10(|a| - 1));
      assert (a + b)[0] == a[0] && (a + b)[1..] == a[1..] + b;
      assert ScanUint(a + b, acc) == ScanUint(a[1..] + b, next);
      ScanPrefix(a[1..], b, next);
    }
  }

  /** Digits followed by anything else are a syntax error, so the text is 0
      although it starts with a number ("12a", "1.5", "1,000"). */
  lemma ToIntJunk(a: string, b: string)
    requires a != "" && AllDigits(a) && DecimalValue(a) <= MaxUint64
    requires b != "" && !IsDigit(b[0])
    ensures ToInt(a + b) == 0
  {
    ScanPrefix(a, b, 0);
    assert (a + b)[0] == a[0];
    assert ScanUint(b, DecimalValue(a)) == SyntaxError;
  }

  /** A number too large for 64 bits is the bound on its side. */
  lemma ToIntOutOfRange(s: string)
    requires IsDecimalLiteral(s) && !(MinInt64 <= LiteralValue(s) <= MaxInt64)
    ensures ToInt(s) == if LiteralValue(s) > MaxInt64 then MaxInt64 else MinInt64
  {
    var digits := if s[0] == '+' || s[0] == '-' then s[1..] else s;
    ScanDigits(digits, 0);
  }

  /** `ToFloat`: "" is 0, and so is a text ParseFloat rejects as malformed. */
  function ToFloat(x: Externals, s: string): real
  {
    if s == "" then 0.0 else x.parseFloat(s).GetOr(0.0)
  }

  /** Go's conversion of a float to an integer: toward zero. */
  function Trunc(r: real): (n: int)
    ensures r >= 0.0 ==> n == r.Floor
    ensures r < 0.0 ==> n == -((-r).Floor)
  {
    if r >= 0.0 then r.Floor else -((-r).Floor)
  }

  /** Day number of 1899-12-30, the epoch of spreadsheet serial dates. */
  const ExcelEpochDay: int := 693_593

  /** `ExcelDateToTime`: the epoch plus the whole days of the serial, plus
      the rest of the serial as a duration truncated to the nanosecond. */
  function ExcelDateToTime(serial: real): Instant
  {
    var days := Trunc(serial);
    var frac := serial - days as real;
    var offset := Trunc(frac * NanosPerDay as real);
    Instant((ExcelEpochDay + days) * NanosPerDay + offset)
  }

  lemma FloorShift(k: int, r: real)
    ensures (k as real + r).Floor == k + r.Floor
  {
  }

  /** Splitting the serial into whole days and a fraction loses nothing: the
      result is the epoch plus `serial` days, truncated toward zero to the
      nanosecond, for negative serials as well. */
  lemma ExcelDateLinear(serial: real)
    ensures ExcelDateToTime(serial).nanos == ExcelEpochDay * NanosPerDay + Trunc(serial * NanosPerDay as real)
  {
    var n := NanosPerDay as real;
    var days := Trunc(serial);
    var frac := serial - days as real;
    assert serial * n == (days * NanosPerDay) as real + frac * n;
    if serial >= 0.0 {
      assert frac >= 0.0;
      FloorShift(days * NanosPerDay, frac * n);
    } else {
      assert frac <= 0.0;
      assert -(serial * n) == (-days * NanosPerDay) as real + (-(frac * n));
      FloorShift(-days * NanosPerDay, -(frac * n));
      if frac == 0.0 {
        assert Trunc(frac * n) == 0;
      }
    }
  }

  /** A whole serial n is midnight of the n-th day after the epoch. */
  lemma ExcelDateWholeDays(n: int)
    ensures ExcelDateToTime(n as real) == Midnight(ExcelEpochDay + n)
  {
  }

  /** For a non-negative serial the day is the serial's integer part. */
  lemma ExcelDateDay(serial: real)
    requires serial >= 0.0
    ensures var t, day := ExcelDateToTime(serial), ExcelEpochDay + serial.Floor;
      Midnight(day).nanos <= t.nanos < Midnight(day + 1).nanos
  {
    var frac := serial - serial.Floor as real;
    assert 0.0 <= frac < 1.0;
    assert 0 <= Trunc(frac * NanosPerDay as real) < NanosPerDay;
  }

  /** The epoch is 1899-12-30, and serial 44197 is 2021-01-01. */
  lemma ExcelDateCalendar()
    ensures ExcelEpochDay == CivilDay(1899, 12, 30)
    ensures ExcelDateToTime(44197.0) == Midnight(CivilDay(2021, 1, 1))
  {
    ExcelDateWholeDays(44197);
  }

  /** Layouts of `time.Parse`, in Go's reference-time notation. */
  const LayoutShortDayFirst := "02-01-06"
  const LayoutSlashDayFirst := "02/01/2006"
  const LayoutSlashMonthFirst := "01/02/2006"
  const LayoutDashDayFirst := "02-01-2006"
  const LayoutIsoDate := "2006-01-02"
  const LayoutRfc3339 := "2006-01-02T15:04:05Z07:00"

  const Dash: int := '-' as int
  const Slash: int := '/' as int
  const LetterT: int := 'T' as int

  /** The layouts `ToDate` tries, in order, for a text with these bytes: the
      choice looks only at the byte length and at the bytes at positions 2,
      4, 5, 7 and 10. */
  function CandidateLayouts(b: seq<int>): seq<string>
  {
    if |b| == 8 && b[2] == Dash && b[5] == Dash then [LayoutShortDayFirst]
    else if |b| == 10 && b[2] == Slash && b[5] == Slash then [LayoutSlashDayFirst, LayoutSlashMonthFirst]
    else if |b| == 10 && b[2] == Dash && b[5] == Dash then [LayoutDashDayFirst]
    else if |b| == 10 && b[4] == Dash && b[7] == Dash then [LayoutIsoDate]
    else if |b| >= 20 && b[4] == Dash && b[10] == LetterT then [LayoutRfc3339]
    else []
  }

  /** `t` is what trying `layouts` in order gives for `s`: the parse under
      the first layout that accepts it, or the zero time when none does. */
  predicate FirstSuccess(x: Externals, layouts: seq<string>, s: string, t: Instant) {
    || (exists i :: 0 <= i < |layouts| && x.parseTime(layouts[i], s) == Some(t)
         && forall j :: 0 <= j < i ==> x.parseTime(layouts[j], s).None?)
    || (t == ZeroTime && forall i :: 0 <= i < |layouts| ==> x.parseTime(layouts[i], s).None?)
  }

  lemma FirstSuccessCons(x: Externals, layouts: seq<string>, s: string, t: Instant)
    requires layouts != [] && x.parseTime(layouts[0], s).None?
    requires FirstSuccess(x, layouts[1..], s, t)
    ensures FirstSuccess(x, layouts, s, t)
  {
    var rest := layouts[1..];
    assert forall i :: 0 <= i < |rest| ==> rest[i] == layouts[i + 1];
    if exists i :: 0 <= i < |rest| && x.parseTime(rest[i], s) == Some(t)
         && forall j :: 0 <= j < i ==> x.parseTime(rest[j], s).None? {
      var i :| 0 <= i < |rest| && x.parseTime(rest[i], s) == Some(t)
         && forall j :: 0 <= j < i ==> x.parseTime(rest[j], s).None?;
      assert x.parseTime(layouts[i + 1], s) == Some(t);
      assert forall j :: 0 <= j < i + 1 ==> x.parseTime(layouts[j], s).None? by {
        forall j | 0 <= j < i + 1 ensures x.parseTime(layouts[j], s).None? {
          if j > 0 { assert layouts[j] == rest[j - 1]; }
        }
      }
    } else {
      assert forall i :: 0 <= i < |layouts| ==> x.parseTime(layouts[i], s).None? by {
        forall i | 0 <= i < |layouts| ensures x.parseTime(layouts[i], s).None? {
          if i > 0 { assert layouts[i] == rest[i - 1]; }
        }
      }
    }
  }

  /** The layouts tried one after the other, as the `time.Parse` calls of
      one branch of `ToDate`'s switch are. */
  function FirstParse(x: Externals, layouts: seq<string>, s: string): (t: Instant)
    ensures FirstSuccess(x, layouts, s, t)
  {
    if layouts == [] then ZeroTime
    else match x.parseTime(layouts[0], s)
      case Some(t) => t
      case None =>
        var t := FirstParse(x, layouts[1..], s);
        FirstSuccessCons(x, layouts, s, t);
        t
  }

  /** `ToDate`: blank text is the zero time; text ParseFloat accepts is a
      serial date; any other text goes to the layouts its shape selects. */
  function ToDate(x: Externals, text: string): (t: Instant)
    ensures TrimSpace(text) == "" ==> t == ZeroTime
    ensures TrimSpace(text) != "" && x.parseFloat(TrimSpace(text)).Some? ==>
      t == ExcelDateToTime(x.parseFloat(TrimSpace(text)).value)
    ensures TrimSpace(text) != "" && x.parseFloat(TrimSpace(text)).None? ==>
      var s := TrimSpace(text);
      FirstSuccess(x, CandidateLayouts(Utf8(s)), s, t)
  {
    var s := TrimSpace(text);
    if s == "" then ZeroTime
    else match x.parseFloat(s)
      case Some(f) => ExcelDateToTime(f)
      case None =>
        var layouts := CandidateLayouts(Utf8(s));
        FirstParse(x, layouts, s)
  }

  /** Only white space around the text is ignored. */
  lemma ToDateTrims(x: Externals, text: string)
    ensures ToDate(x, text) == ToDate(x, TrimSpace(text))
  {
    TrimSpaceIdempotent(text);
  }

  /** A numeric text is always a serial date; the layouts are never tried. */
  lemma ToDateSerial(x: Externals, text: string, n: int)
    requires TrimSpace(text) != "" && x.parseFloat(TrimSpace(text)) == Some(n as real)
    ensures ToDate(x, text) == Midnight(ExcelEpochDay + n)
  {
    ExcelDateWholeDays(n);
  }

  /** The shape of a text decides the layouts, whatever its other bytes. */
  lemma CandidateLayoutsByShape(b1: seq<int>, b2: seq<int>)
    requires |b1| == |b2|
    requires forall k :: k in {2, 4, 5, 7, 10} && k < |b1| ==> b1[k] == b2[k]
    ensures CandidateLayouts(b1) == CandidateLayouts(b2)
  {
    assert |b1| >= 20 ==> b1[4] == b2[4] && b1[10] == b2[10];
    assert |b1| == 10 || |b1| == 8 ==> b1[2] == b2[2] && b1[5] == b2[5];
    assert |b1| == 10 ==> b1[4] == b2[4] && b1[7] == b2[7];
  }

  /** The dispatch table on text whose bytes are its characters, as they
      are for ASCII text (`Utf8Ascii`): which layouts each shape tries. */
  lemma CandidateLayoutsAscii(s: string, b: seq<int>)
    requires |b| == |s| && forall i :: 0 <= i < |s| ==> b[i] == s[i] as int
    ensures |s| == 8 && s[2] == '-' && s[5] == '-' ==> CandidateLayouts(b) == [LayoutShortDayFirst]
    ensures |s| == 10 && s[2] == '/' && s[5] == '/' ==> CandidateLayouts(b) == [LayoutSlashDayFirst, LayoutSlashMonthFirst]
    ensures |s| == 10 && s[2] == '-' && s[5] == '-' ==> CandidateLayouts(b) == [LayoutDashDayFirst]
    ensures |s| == 10 && s[4] == '-' && s[7] == '-' && s[2] != '-' && s[2] != '/' ==> CandidateLayouts(b) == [LayoutIsoDate]
    ensures |s| >= 20 && s[4] == '-' && s[10] == 'T' ==> CandidateLayouts(b) == [LayoutRfc3339]
    ensures |s| != 8 && |s| != 10 && |s| < 20 ==> CandidateLayouts(b) == []
  {
  }

  /** A day-first slash date that does not parse is retried month first. */
  lemma ToDateSlashFallback(x: Externals, s: string)
    requires forall i :: 0 <= i < |s| ==> IsAscii(s[i])
    requires |s| == 10 && s[2] == '/' && s[5] == '/' && TrimSpace(s) == s
    requires x.parseFloat(s).None? && x.parseTime(LayoutSlashDayFirst, s).None?
    ensures ToDate(x, s) == x.parseTime(LayoutSlashMonthFirst, s).GetOr(ZeroTime)
  {
    var b := Utf8(s);
    Utf8Ascii(s);
    CandidateLayoutsAscii(s, b);
    var layouts := [LayoutSlashDayFirst, LayoutSlashMonthFirst];
    assert CandidateLayouts(b) == layouts;
    assert ToDate(x, s) == FirstParse(x, layouts, s);
    assert layouts[1..] == [LayoutSlashMonthFirst] && [LayoutSlashMonthFirst][1..] == [];
    assert FirstParse(x, layouts, s) == FirstParse(x, [LayoutSlashMonthFirst], s);
  }

  /** A yyyy-mm-dd text is read with the ISO layout alone: its parse when
      that succeeds (as for "2021-01-31"), else the zero time. */
  lemma ToDateIsoDate(x: Externals, s: string)
    requires forall i :: 0 <= i < |s| ==> IsAscii(s[i])
    requires |s| == 10 && s[4] == '-' && s[7] == '-' && s[2] != '-' && s[2] != '/' && TrimSpace(s) == s
    requires x.parseFloat(s).None?
    ensures ToDate(x, s) == x.parseTime(LayoutIsoDate, s).GetOr(ZeroTime)
  {
    var b := Utf8(s);
    Utf8Ascii(s);
    CandidateLayoutsAscii(s, b);
    assert CandidateLayouts(b) == [LayoutIsoDate];
    assert [LayoutIsoDate][1..] == [];
  }

  /** `ToStringPtr`: "" is absent, any other text is present as itself. */
  function ToStringPtr(s: string): (p: Option<string>)
    ensures p.None? <==> s == ""
    ensures p.Some? ==> p.value == s
  {
    if s == "" then None else Some(s)
  }

  /** Reading an optional text back with "" for absent undoes ToStringPtr. */
  lemma ToStringPtrRoundTrip(s: string)
    ensures ToStringPtr(s).GetOr("") == s
  {
  }

  /** `ToMapPtr`: "" is absent, and so is text the JSON decoder rejects; a
      decoding error is never passed on. */
  function ToMapPtr(x: Externals, s: string): (m: Option<map<string, string>>)
    ensures s == "" ==> m.None?
    ensures m.Some? ==> x.decodeJsonMap(s) == m
    ensures s != "" ==> m == x.decodeJsonMap(s)
  {
    if s == "" then None else x.decodeJsonMap(s)
  }

  /** `Safe(row, idx)`: the idx-th cell, or "" past the end of the row. Go
      would panic on a negative index, which no caller passes. */
  function Safe(row: seq<string>, idx: int): (cell: string)
    requires idx >= 0
    ensures idx < |row| ==> cell == row[idx]
    ensures idx >= |row| ==> cell == ""
  {
    if idx < |row| then row[idx] else ""
  }
}
