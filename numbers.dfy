/**
 * Go's `strconv` integer conversions on 64-bit platforms: `ParseUint`, `ParseInt`,
 * `Atoi` and `Itoa`, with Go's overflow limits written out.
 */
module Numbers {
  import opened Wrappers

  const MaxUint64: nat := 0xFFFF_FFFF_FFFF_FFFF
  const MaxInt64: int := 0x7FFF_FFFF_FFFF_FFFF
  const MinInt64: int := -0x8000_0000_0000_0000

  /** `strconv.ErrSyntax` and `strconv.ErrRange`. */
  datatype NumError = ErrSyntax | ErrRange

  /** Go's `(value, err)` pair returned by the parsers. */
  datatype NumResult<T> = NumResult(value: T, err: Option<NumError>)

  predicate IsDigit(c: char) { '0' <= c <= '9' }

  predicate AllDigits(s: string) { forall i :: 0 <= i < |s| ==> IsDigit(s[i]) }

  /** Go's `lower(c)`, `c | 0x20`, which only matters for ASCII letters here. */
  function Lower(c: char): char
  {
    if 'A' <= c <= 'Z' then (c as int + 32) as char else c
  }

  /**
   * The digit value `ParseUint` gives a character: 0-9 for digits, 10-35 for letters of
   * either case, and 36 (larger than every base) for anything else.
   */
  function DigitValue(c: char): nat
  {
    if IsDigit(c) then c as int - '0' as int
    else if 'a' <= Lower(c) <= 'z' then Lower(c) as int - 'a' as int + 10
    else 36
  }

  /** The number the digits of `s` denote in `base`, read after the value `n`. */
  function Accumulate(n: nat, s: string, base: nat): nat
    decreases |s|
  {
    if s == [] then n else Accumulate(n * base + DigitValue(s[0]), s[1..], base)
  }

  /** The decimal value of a digit string. */
  function DecimalValue(s: string): nat
  {
    Accumulate(0, s, 10)
  }

  /** What the digit loop of `ParseUint` ends in. */
  datatype ScanOutcome = Scanned(n: nat, underscores: bool) | SyntaxStop | RangeStop

  /**
   * The digit loop of `ParseUint`: underscores are skipped (and remembered) only for
   * base 0, a character that is not a digit of the base is a syntax error, and the
   * first digit that takes the value past `MaxUint64` is a range error.
   */
  function ScanDigits(s: string, base: nat, base0: bool, n: nat, underscores: bool): (r: ScanOutcome)
    ensures r.Scanned? && n <= MaxUint64 ==> r.n <= MaxUint64
  {
    if s == [] then Scanned(n, underscores)
    else if s[0] == '_' && base0 then ScanDigits(s[1..], base, base0, n, true)
    else
      var d := DigitValue(s[0]);
      if d >= base then SyntaxStop
      else if n * base + d > MaxUint64 then RangeStop
      else ScanDigits(s[1..], base, base0, n * base + d, underscores)
  }

  /**
   * The base and the digits `ParseUint` reads when given base 0: "0b", "0o" and "0x"
   * (either case) pick bases 2, 8 and 16 when something follows them, any other leading
   * '0' picks octal, and anything else decimal.
   */
  function BasePrefix(s: string): (string, nat)
    requires s != ""
  {
    if s[0] == '0' then
      if |s| >= 3 && Lower(s[1]) == 'b' then (s[2..], 2)
      else if |s| >= 3 && Lower(s[1]) == 'o' then (s[2..], 8)
      else if |s| >= 3 && Lower(s[1]) == 'x' then (s[2..], 16)
      else (s[1..], 8)
    else (s, 10)
  }

  /**
   * Go's `underscoreOK`: every underscore stands between digits, or between a base
   * prefix and a digit. `saw` is '^' at the start, '0' after a digit or prefix, '_'
   * after an underscore and '!' after anything else.
   */
  function UnderscoreScan(s: string, saw: char, hex: bool): bool
  {
    if s == [] then saw != '_'
    else if IsDigit(s[0]) || (hex && 'a' <= Lower(s[0]) <= 'f') then UnderscoreScan(s[1..], '0', hex)
    else if s[0] == '_' then saw == '0' && UnderscoreScan(s[1..], '_', hex)
    else if saw == '_' then false
    else UnderscoreScan(s[1..], '!', hex)
  }

  function UnderscoreOK(s0: string): bool
  {
    var s := if |s0| >= 1 && (s0[0] == '-' || s0[0] == '+') then s0[1..] else s0;
    if |s| >= 2 && s[0] == '0' && Lower(s[1]) in {'b', 'o', 'x'} then
      UnderscoreScan(s[2..], '0', Lower(s[1]) == 'x')
    else
      UnderscoreScan(s, '^', false)
  }

  /**
   * `strconv.ParseUint(s, base, 64)`: a syntax error yields 0 and a range error yields
   * `MaxUint64`, as in Go.
   */
  function ParseUint(s: string, base: nat): (r: NumResult<nat>)
    requires base == 0 || 2 <= base <= 36
    ensures r.value <= MaxUint64
    ensures r.err.Some? ==> r.value == 0 || r.value == MaxUint64
    ensures s == "" ==> r.err == Some(ErrSyntax)
  {
    if s == "" then NumResult(0, Some(ErrSyntax))
    else
      var (digits, b) := if base == 0 then BasePrefix(s) else (s, base);
      match ScanDigits(digits, b, base == 0, 0, false)
      case SyntaxStop => NumResult(0, Some(ErrSyntax))
      case RangeStop => NumResult(MaxUint64, Some(ErrRange))
      case Scanned(n, us) =>
        if base == 0 && us && !UnderscoreOK(s) then NumResult(0, Some(ErrSyntax))
        else NumResult(n, None)
  }

  /**
   * `strconv.ParseInt(s, base, 64)`: an optional sign, then `ParseUint`; out-of-range
   * values are clamped to the int64 limits with a range error.
   */
  function ParseInt(s: string, base: nat): (r: NumResult<int>)
    requires base == 0 || 2 <= base <= 36
    ensures MinInt64 <= r.value <= MaxInt64
    ensures r.err == Some(ErrSyntax) ==> r.value == 0
    ensures r.err == Some(ErrRange) ==> r.value == MaxInt64 || r.value == MinInt64
    ensures s == "" ==> r.err == Some(ErrSyntax)
    ensures r.value < 0 ==> s != "" && s[0] == '-'
  {
    if s == "" then NumResult(0, Some(ErrSyntax))
    else
      var neg := s[0] == '-';
      var body := if s[0] == '+' || s[0] == '-' then s[1..] else s;
      var u := ParseUint(body, base);
      if u.err == Some(ErrSyntax) then NumResult(0, Some(ErrSyntax))
      else if !neg && u.value > MaxInt64 then NumResult(MaxInt64, Some(ErrRange))
      else if neg && u.value > -MinInt64 then NumResult(MinInt64, Some(ErrRange))
      else NumResult(if neg then 0 - u.value as int else u.value as int, None)
  }

  /**
   * `strconv.Atoi(s)`. Go's fast path for strings shorter than 19 bytes accepts exactly
   * the optionally signed digit strings, which cannot overflow at that length, so it
   * agrees with `ParseInt(s, 10, 0)` (the slow path) on every input.
   */
  function Atoi(s: string): (r: NumResult<int>)
    ensures MinInt64 <= r.value <= MaxInt64
    ensures r.err == Some(ErrSyntax) ==> r.value == 0
    ensures r.err == Some(ErrRange) ==> r.value == MaxInt64 || r.value == MinInt64
    ensures r.value < 0 ==> s != "" && s[0] == '-'
  {
    ParseInt(s, 10)
  }

  function DigitChar(d: nat): char
    requires d < 10
  {
    ('0' as int + d) as char
  }

  /** The decimal digits of `n`, most significant first, without leading zeros. */
  function Decimal(n: nat): (s: string)
    ensures |s| > 0 && AllDigits(s)
    ensures n > 0 ==> s[0] != '0'
  {
    if n < 10 then [DigitChar(n)] else Decimal(n / 10) + [DigitChar(n % 10)]
  }

  /** `strconv.Itoa(n)`. */
  function Itoa(n: int): (s: string)
    ensures |s| > 0
    ensures s[0] == '-' <==> n < 0
    ensures AllDigits(if n < 0 then s[1..] else s)
  {
    if n < 0 then "-" + Decimal(-n) else Decimal(n)
  }

  // ---------------------------------------------------------------- lemmas

  lemma {:induction false} AccumulateAppend(n: nat, a: string, b: string, base: nat)
    ensures Accumulate(n, a + b, base) == Accumulate(Accumulate(n, a, base), b, base)
    decreases |a|
  {
    if a != [] {
      assert (a + b)[1..] == a[1..] + b;
      AccumulateAppend(n * base + DigitValue(a[0]), a[1..], b, base);
    } else {
      assert a + b == b;
    }
  }

  lemma {:induction false} AccumulateGrows(n: nat, s: string, base: nat)
    requires base >= 1
    ensures Accumulate(n, s, base) >= n
    decreases |s|
  {
    if s != [] {
      MulAtLeast(n, base);
      AccumulateGrows(n * base + DigitValue(s[0]), s[1..], base);
    }
  }

  lemma MulAtLeast(n: nat, base: nat)
    requires base >= 1
    ensures n * base >= n
  {
  }

  lemma DigitCharValue(d: nat)
    requires d < 10
    ensures IsDigit(DigitChar(d)) && DigitValue(DigitChar(d)) == d
  {
    assert DigitChar(d) as int == '0' as int + d;
  }

  /** The digit loop over proper digits stops at a range error exactly when the value is too big. */
  lemma {:induction false} ScanValidDigits(s: string, base: nat, base0: bool, n: nat, us: bool)
    requires 1 <= base && n <= MaxUint64
    requires forall i :: 0 <= i < |s| ==> s[i] != '_' && DigitValue(s[i]) < base
    ensures ScanDigits(s, base, base0, n, us) ==
      if Accumulate(n, s, base) <= MaxUint64 then Scanned(Accumulate(n, s, base), us) else RangeStop
  {
    if s != [] {
      var d := DigitValue(s[0]);
      var n1 := n * base + d;
      assert s[0] != '_' && d < base;
      assert Accumulate(n, s, base) == Accumulate(n1, s[1..], base);
      assert forall i :: 0 <= i < |s[1..]| ==> s[1..][i] != '_' && DigitValue(s[1..][i]) < base by {
        forall i | 0 <= i < |s[1..]|
          ensures s[1..][i] != '_' && DigitValue(s[1..][i]) < base
        {
          assert s[1..][i] == s[i + 1];
        }
      }
      AccumulateGrows(n1, s[1..], base);
      if n1 > MaxUint64 {
        assert ScanDigits(s, base, base0, n, us) == RangeStop;
      } else {
        assert ScanDigits(s, base, base0, n, us) == ScanDigits(s[1..], base, base0, n1, us);
        ScanValidDigits(s[1..], base, base0, n1, us);
      }
    }
  }

  /** A character outside the base's digits and underscores always makes the loop fail. */
  lemma {:induction false} ScanStrayFails(s: string, base: nat, n: nat, us: bool, k: nat)
    requires 2 <= base <= 36
    requires k < |s| && DigitValue(s[k]) >= base
    ensures ScanDigits(s, base, false, n, us) in {SyntaxStop, RangeStop}
  {
    if k > 0 {
      var d := DigitValue(s[0]);
      if d < base && n * base + d <= MaxUint64 {
        ScanStrayFails(s[1..], base, n * base + d, us, k - 1);
      }
    }
  }

  lemma {:induction false} DecimalDigitValues(n: nat)
    ensures forall i :: 0 <= i < |Decimal(n)| ==> DigitValue(Decimal(n)[i]) < 10
  {
    if n >= 10 {
      DecimalDigitValues(n / 10);
    }
  }

  lemma {:induction false} DecimalValueOfDecimal(n: nat)
    ensures DecimalValue(Decimal(n)) == n
  {
    if n >= 10 {
      DecimalValueOfDecimal(n / 10);
      AccumulateAppend(0, Decimal(n / 10), [DigitChar(n % 10)], 10);
      DigitCharValue(n % 10);
    } else {
      DigitCharValue(n);
      var c := DigitChar(n);
      assert [c][1..] == [];
      assert DecimalValue([c]) == Accumulate(DigitValue(c), [c][1..], 10);
    }
  }

  /** `Atoi` inverts `Itoa` on the whole int64 range. */
  lemma AtoiItoa(n: int)
    requires MinInt64 <= n <= MaxInt64
    ensures Atoi(Itoa(n)) == NumResult(n, None)
  {
    var m: nat := if n < 0 then -n else n;
    var s := Itoa(n);
    var body := if n < 0 then s[1..] else s;
    assert body == Decimal(m);
    DecimalDigitValues(m);
    DecimalValueOfDecimal(m);
    ScanValidDigits(body, 10, false, 0, false);
  }

  /** An unsigned digit string parses with `Atoi` to its decimal value when that fits in int64. */
  lemma AtoiDigits(s: string)
    requires s != "" && AllDigits(s)
    ensures DecimalValue(s) <= MaxInt64 ==> Atoi(s) == NumResult(DecimalValue(s) as int, None)
    ensures DecimalValue(s) > MaxInt64 ==> Atoi(s) == NumResult(MaxInt64, Some(ErrRange))
  {
    ScanValidDigits(s, 10, false, 0, false);
  }

  /**
   * With base 0, a digit string that does not start with '0' is read in decimal: its value
   * when that fits in 64 bits, and otherwise `MaxUint64` with a range error.
   */
  lemma ParseUintDecimal(s: string)
    requires s != "" && AllDigits(s) && s[0] != '0'
    ensures ParseUint(s, 0) == if DecimalValue(s) <= MaxUint64 then NumResult(DecimalValue(s), None)
                               else NumResult(MaxUint64, Some(ErrRange))
  {
    ScanValidDigits(s, 10, true, 0, false);
  }

  /** With base 0, a '0' followed by octal digits is read in base 8. */
  lemma ParseUintOctal(t: string)
    requires forall i :: 0 <= i < |t| ==> '0' <= t[i] <= '7'
    ensures ParseUint("0" + t, 0) == if Accumulate(0, t, 8) <= MaxUint64 then NumResult(Accumulate(0, t, 8), None)
                                     else NumResult(MaxUint64, Some(ErrRange))
  {
    var s := "0" + t;
    assert s[1..] == t;
    assert BasePrefix(s) == (t, 8);
    ScanValidDigits(t, 8, true, 0, false);
  }

  /** `Atoi` reports an error for any string holding a character that is not a digit, after an optional sign. */
  lemma AtoiRejectsStray(s: string, k: nat)
    requires 0 < k < |s| || (k == 0 < |s| && s[0] != '-' && s[0] != '+')
    requires !IsDigit(s[k])
    ensures Atoi(s).err.Some?
  {
    var body := if s[0] == '+' || s[0] == '-' then s[1..] else s;
    var j: nat := if s[0] == '+' || s[0] == '-' then k - 1 else k;
    assert body[j] == s[k];
    ScanStrayFails(body, 10, 0, false, j);
  }

  /** Decimal of a value read from digits that start with a non-zero digit gives those digits back. */
  lemma {:induction false} DecimalOfDigits(s: string)
    requires s != "" && AllDigits(s) && s[0] != '0'
    ensures Decimal(DecimalValue(s)) == s
    decreases |s|
  {
    if |s| == 1 {
      assert s[1..] == [];
      assert DecimalValue(s) == Accumulate(DigitValue(s[0]), s[1..], 10);
    } else {
      var t, d := s[..|s| - 1], s[|s| - 1];
      assert s == t + [d];
      AccumulateAppend(0, t, [d], 10);
      DecimalOfDigits(t);
      LeadingDigitPositive(t);
      var v := DecimalValue(t) * 10 + DigitValue(d);
      assert DecimalValue(s) == v;
      assert v / 10 == DecimalValue(t) && v % 10 == DigitValue(d);
      assert DigitChar(DigitValue(d)) == d;
      assert Decimal(v) == Decimal(v / 10) + [DigitChar(v % 10)];
    }
  }

  lemma LeadingDigitPositive(s: string)
    requires s != "" && AllDigits(s) && s[0] != '0'
    ensures DecimalValue(s) >= 1
  {
    AccumulateGrows(DigitValue(s[0]), s[1..], 10);
  }
}
