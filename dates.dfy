/**
 * Go's `time.Parse` restricted to the layout elements the program uses: "2006" (four
 * year digits), "01" (two month digits), "02" (two day digits) and literal characters.
 * Parsing walks the layout left to right; a month outside 1..12 fails as soon as it is
 * read, text left over after the layout fails, and the day is checked against the
 * month's length (with Go's leap-year rule) once everything has been read.
 */
module Dates {
  import opened Wrappers
  import opened Numbers

  datatype Element = LongYear | ZeroMonth | ZeroDay | Literal(c: char)

  /** The layout "2006-01-02". */
  const IsoLayout: seq<Element> := [LongYear, Literal('-'), ZeroMonth, Literal('-'), ZeroDay]

  /** The layout "02/01/2006". */
  const SlashLayout: seq<Element> := [ZeroDay, Literal('/'), ZeroMonth, Literal('/'), LongYear]

  datatype Date = Date(year: int, month: int, day: int)

  predicate IsLeap(year: int)
  {
    year % 4 == 0 && (year % 100 != 0 || year % 400 == 0)
  }

  /** Go's `daysIn`. */
  function DaysIn(month: int, year: int): int
    requires 1 <= month <= 12
  {
    if month == 2 then (if IsLeap(year) then 29 else 28)
    else if month in {4, 6, 9, 11} then 30
    else 31
  }

  function TwoDigits(a: char, b: char): nat
    requires IsDigit(a) && IsDigit(b)
  {
    DigitValue(a) * 10 + DigitValue(b)
  }

  /** The layout loop of `time.Parse`: `None` is a parse error. */
  function Walk(layout: seq<Element>, value: string, acc: Date): Option<Date>
  {
    if layout == [] then
      if value == "" then Some(acc) else None
    else match layout[0]
      case Literal(c) =>
        if |value| > 0 && value[0] == c then Walk(layout[1..], value[1..], acc) else None
      case LongYear =>
        if |value| >= 4 && AllDigits(value[..4])
        then Walk(layout[1..], value[4..], acc.(year := DecimalValue(value[..4])))
        else None
      case ZeroMonth =>
        if |value| >= 2 && IsDigit(value[0]) && IsDigit(value[1]) then
          var m := TwoDigits(value[0], value[1]);
          if 1 <= m <= 12 then Walk(layout[1..], value[2..], acc.(month := m)) else None
        else None
      case ZeroDay =>
        if |value| >= 2 && IsDigit(value[0]) && IsDigit(value[1])
        then Walk(layout[1..], value[2..], acc.(day := TwoDigits(value[0], value[1])))
        else None
  }

  /** `time.Parse(layout, value)`: the date read, or `None` for an error. */
  function Parse(layout: seq<Element>, value: string): Option<Date>
  {
    match Walk(layout, value, Date(0, -1, -1))
    case None => None
    case Some(d) =>
      var month := if d.month < 0 then 1 else d.month;
      var day := if d.day < 0 then 1 else d.day;
      if 1 <= month <= 12 && 1 <= day <= DaysIn(month, d.year) then Some(Date(d.year, month, day))
      else None
  }

  /** A real calendar date: month 1..12, day within that month of that year. */
  predicate CalendarDate(year: int, month: int, day: int)
  {
    1 <= month <= 12 && 1 <= day <= DaysIn(month, year)
  }

  /** "YYYY-MM-DD" exactly: ten characters, digits and dashes in place, a real date. */
  predicate IsIsoDate(s: string)
  {
    |s| == 10 && AllDigits(s[..4]) && s[4] == '-' && IsDigit(s[5]) && IsDigit(s[6])
    && s[7] == '-' && IsDigit(s[8]) && IsDigit(s[9])
    && CalendarDate(DecimalValue(s[..4]), TwoDigits(s[5], s[6]), TwoDigits(s[8], s[9]))
  }

  /** "DD/MM/YYYY" exactly: ten characters, digits and slashes in place, a real date. */
  predicate IsSlashDate(s: string)
  {
    |s| == 10 && IsDigit(s[0]) && IsDigit(s[1]) && s[2] == '/' && IsDigit(s[3]) && IsDigit(s[4])
    && s[5] == '/' && AllDigits(s[6..])
    && CalendarDate(DecimalValue(s[6..]), TwoDigits(s[3], s[4]), TwoDigits(s[0], s[1]))
  }

  /** `time.Parse("2006-01-02", s)` succeeds exactly on the "YYYY-MM-DD" calendar dates. */
  lemma IsoParse(s: string)
    ensures Parse(IsoLayout, s).Some? <==> IsIsoDate(s)
    ensures IsIsoDate(s) ==>
      Parse(IsoLayout, s) == Some(Date(DecimalValue(s[..4]), TwoDigits(s[5], s[6]), TwoDigits(s[8], s[9])))
  {
    var l := IsoLayout;
    var a0 := Date(0, -1, -1);
    if |s| >= 4 && AllDigits(s[..4]) {
      var a1 := a0.(year := DecimalValue(s[..4]));
      assert Walk(l, s, a0) == Walk(l[1..], s[4..], a1);
      var v := s[4..];
      if |v| > 0 && v[0] == '-' {
        assert Walk(l[1..], v, a1) == Walk(l[2..], v[1..], a1);
        var w := v[1..];
        if |w| >= 2 && IsDigit(w[0]) && IsDigit(w[1]) && 1 <= TwoDigits(w[0], w[1]) <= 12 {
          var a2 := a1.(month := TwoDigits(w[0], w[1]));
          assert Walk(l[2..], w, a1) == Walk(l[3..], w[2..], a2);
          var x := w[2..];
          if |x| > 0 && x[0] == '-' {
            assert Walk(l[3..], x, a2) == Walk(l[4..], x[1..], a2);
            var y := x[1..];
            if |y| >= 2 && IsDigit(y[0]) && IsDigit(y[1]) {
              var a3 := a2.(day := TwoDigits(y[0], y[1]));
              assert Walk(l[4..], y, a2) == Walk(l[5..], y[2..], a3);
              assert l[5..] == [];
              assert y[2..] == "" <==> |s| == 10;
            }
          }
        }
      }
    }
  }

  /** `time.Parse("02/01/2006", s)` succeeds exactly on the "DD/MM/YYYY" calendar dates. */
  lemma SlashParse(s: string)
    ensures Parse(SlashLayout, s).Some? <==> IsSlashDate(s)
    ensures IsSlashDate(s) ==>
      Parse(SlashLayout, s) == Some(Date(DecimalValue(s[6..]), TwoDigits(s[3], s[4]), TwoDigits(s[0], s[1])))
  {
    var l := SlashLayout;
    var a0 := Date(0, -1, -1);
    if |s| >= 2 && IsDigit(s[0]) && IsDigit(s[1]) {
      var a1 := a0.(day := TwoDigits(s[0], s[1]));
      assert Walk(l, s, a0) == Walk(l[1..], s[2..], a1);
      var v := s[2..];
      if |v| > 0 && v[0] == '/' {
        assert Walk(l[1..], v, a1) == Walk(l[2..], v[1..], a1);
        var w := v[1..];
        if |w| >= 2 && IsDigit(w[0]) && IsDigit(w[1]) && 1 <= TwoDigits(w[0], w[1]) <= 12 {
          var a2 := a1.(month := TwoDigits(w[0], w[1]));
          assert Walk(l[2..], w, a1) == Walk(l[3..], w[2..], a2);
          var x := w[2..];
          if |x| > 0 && x[0] == '/' {
            assert Walk(l[3..], x, a2) == Walk(l[4..], x[1..], a2);
            var y := x[1..];
            if |y| >= 4 && AllDigits(y[..4]) {
              var a3 := a2.(year := DecimalValue(y[..4]));
              assert Walk(l[4..], y, a2) == Walk(l[5..], y[4..], a3);
              assert l[5..] == [];
              assert y[4..] == "" <==> |s| == 10;
              if |s| == 10 {
                assert y[..4] == s[6..];
              }
            }
          }
        }
      }
    }
  }
}
