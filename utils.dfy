/** The string helpers of the utils package. */
module Utils {
  import opened Wrappers
  import Strings
  import N = Numbers
  import Dates

  /** A helper's Go result `(string, error)`. */
  datatype TextResult = TextResult(text: string, err: Option<N.NumError>)

  /**
   * `TrimPhoneNumberZeroPrefix`: a number starting with '0' is read whole as an integer and
   * written back after "62", which drops every leading zero; anything else is kept as it is.
   */
  function TrimPhoneNumberZeroPrefix(phone: string): (r: TextResult)
    ensures r.err.Some? ==> r.text == ""
    ensures (phone == "" || phone[0] != '0') ==> r == TextResult(phone, None)
    ensures phone != "" && phone[0] == '0' && r.err.None? ==>
      |r.text| > 2 && r.text[..2] == "62" && N.AllDigits(r.text[2..])
  {
    if |phone| > 0 && phone[0] == '0' then
      var r := N.Atoi(phone);
      if r.err.Some? then TextResult("", r.err) else TextResult("62" + N.Itoa(r.value), None)
    else TextResult(phone, None)
  }

  /** The characters the pattern `[^0-9.]` does not delete: digits and dots, in order. */
  function DigitsAndDots(s: string): (r: string)
    ensures forall i :: 0 <= i < |r| ==> N.IsDigit(r[i]) || r[i] == '.'
    ensures |r| <= |s|
  {
    if s == [] then []
    else (if N.IsDigit(s[0]) || s[0] == '.' then [s[0]] else []) + DigitsAndDots(s[1..])
  }

  /** `ConvertStringToInt`: delete everything but digits and dots, then `strconv.Atoi`. */
  function ConvertStringToInt(num: string): (r: N.NumResult<int>)
    ensures 0 <= r.value <= N.MaxInt64
    ensures r.err == Some(N.ErrSyntax) ==> r.value == 0
    ensures r.err == Some(N.ErrRange) ==> r.value == N.MaxInt64
  {
    N.Atoi(DigitsAndDots(num))
  }

  /** `ValidationTransactionDate`: the string parses with the layout "02/01/2006". */
  function ValidationTransactionDate(date: string): (ok: bool)
    ensures ok <==> Dates.IsSlashDate(date)
  {
    Dates.SlashParse(date);
    Dates.Parse(Dates.SlashLayout, date).Some?
  }

  /** `ConvertInt64ToString`: the decimal form of an int64, which `Atoi` reads back. */
  function ConvertInt64ToString(data: int): (s: string)
    requires N.MinInt64 <= data <= N.MaxInt64
    ensures N.Atoi(s) == N.NumResult(data, None)
  {
    N.AtoiItoa(data);
    N.Itoa(data)
  }

  /**
   * `GetStringInBetween`: the text after the first `start` up to the first `end` after it,
   * or "" when either is missing.
   */
  function GetStringInBetween(str: string, start: string, end: string): (result: string)
    ensures Strings.Index(str, start) == -1 ==> result == ""
    ensures var s := Strings.Index(str, start);
      s >= 0 && Strings.Index(str[s + |start|..], end) == -1 ==> result == ""
  {
    var s := Strings.Index(str, start);
    if s == -1 then ""
    else
      var from := s + |start|;
      var e := Strings.Index(str[from..], end);
      if e == -1 then "" else str[from..from + e]
  }

  /** `CheckStringInSlice`. */
  method CheckStringInSlice(s: seq<string>, str: string) returns (found: bool)
    ensures found <==> str in s
  {
    var i := 0;
    while i < |s|
      invariant 0 <= i <= |s|
      invariant str !in s[..i]
    {
      if s[i] == str {
        return true;
      }
      assert s[..i + 1] == s[..i] + [s[i]];
      i := i + 1;
    }
    assert s[..i] == s;
    return false;
  }

  /** The two slices share an element. */
  predicate Overlap(a: seq<string>, b: seq<string>)
  {
    exists i, j :: 0 <= i < |a| && 0 <= j < |b| && a[i] == b[j]
  }

  /** `CheckSliceInSlice`. */
  method CheckSliceInSlice(s: seq<string>, str: seq<string>) returns (found: bool)
    ensures found <==> Overlap(s, str)
  {
    var i := 0;
    while i < |s|
      invariant 0 <= i <= |s|
      invariant forall p, q :: 0 <= p < i && 0 <= q < |str| ==> s[p] != str[q]
    {
      var j := 0;
      while j < |str|
        invariant 0 <= j <= |str|
        invariant forall q :: 0 <= q < j ==> s[i] != str[q]
      {
        if s[i] == str[j] {
          return true;
        }
        j := j + 1;
      }
      i := i + 1;
    }
    return false;
  }

  // ------------------------------------------------------------------ properties

  /** An empty number, or one not starting with '0', comes back unchanged and without error. */
  lemma PhoneWithoutZeroKept(phone: string)
    requires phone == "" || phone[0] != '0'
    ensures TrimPhoneNumberZeroPrefix(phone) == TextResult(phone, None)
  {
  }

  lemma {:induction false} AccumulateZeros(zeros: string)
    requires forall i :: 0 <= i < |zeros| ==> zeros[i] == '0'
    ensures N.Accumulate(0, zeros, 10) == 0
    decreases |zeros|
  {
    if zeros != [] {
      assert N.DigitValue(zeros[0]) == 0;
      assert forall i :: 0 <= i < |zeros[1..]| ==> zeros[1..][i] == zeros[i + 1];
      AccumulateZeros(zeros[1..]);
    }
  }

  /**
   * Leading zeros followed by digits that fit in int64 become "62" and those digits without
   * their zeros: "0812" becomes "62812", and a number of zeros only becomes "620".
   */
  lemma PhoneZerosReplaced(zeros: string, rest: string)
    requires |zeros| >= 1 && forall i :: 0 <= i < |zeros| ==> zeros[i] == '0'
    requires N.AllDigits(rest) && (rest == "" || rest[0] != '0')
    requires N.DecimalValue(rest) <= N.MaxInt64
    ensures TrimPhoneNumberZeroPrefix(zeros + rest) == TextResult("62" + (if rest == "" then "0" else rest), None)
  {
    var phone := zeros + rest;
    assert phone[0] == '0';
    N.AccumulateAppend(0, zeros, rest, 10);
    AccumulateZeros(zeros);
    assert N.DecimalValue(phone) == N.DecimalValue(rest);
    assert N.AllDigits(phone) by {
      forall i | 0 <= i < |phone|
        ensures N.IsDigit(phone[i])
      {
        if i >= |zeros| {
          assert phone[i] == rest[i - |zeros|];
        }
      }
    }
    N.AtoiDigits(phone);
    if rest == "" {
      assert N.Itoa(0) == "0";
    } else {
      N.DecimalOfDigits(rest);
    }
  }

  /** A leading '0' followed by a non-digit is an error with an empty result. */
  lemma PhoneWithStrayFails(phone: string, k: nat)
    requires |phone| > 0 && phone[0] == '0'
    requires 0 < k < |phone| && !N.IsDigit(phone[k])
    ensures TrimPhoneNumberZeroPrefix(phone).text == "" && TrimPhoneNumberZeroPrefix(phone).err.Some?
  {
    N.AtoiRejectsStray(phone, k);
  }

  /** A leading '0' followed by digits beyond the int64 range is a range error with an empty result. */
  lemma PhoneOverflowFails(phone: string)
    requires |phone| > 0 && phone[0] == '0' && N.AllDigits(phone)
    requires N.DecimalValue(phone) > N.MaxInt64
    ensures TrimPhoneNumberZeroPrefix(phone) == TextResult("", Some(N.ErrRange))
  {
    N.AtoiDigits(phone);
  }

  lemma {:induction false} DigitsAndDotsAppend(a: string, b: string)
    ensures DigitsAndDots(a + b) == DigitsAndDots(a) + DigitsAndDots(b)
    decreases |a|
  {
    if a != [] {
      assert (a + b)[1..] == a[1..] + b;
      DigitsAndDotsAppend(a[1..], b);
    } else {
      assert a + b == b;
    }
  }

  /** A dot anywhere in the input survives the filter, so the conversion always fails. */
  lemma ConvertWithDotFails(num: string, k: nat)
    requires k < |num| && num[k] == '.'
    ensures ConvertStringToInt(num).err.Some?
  {
    var kept := DigitsAndDots(num);
    DigitsAndDotsAppend(num[..k], num[k..]);
    assert num == num[..k] + num[k..];
    assert num[k..] == [num[k]] + num[k + 1..];
    DigitsAndDotsAppend([num[k]], num[k + 1..]);
    var j := |DigitsAndDots(num[..k])|;
    assert kept[j] == '.';
    N.AtoiRejectsStray(kept, j);
  }

  /** Input without any digit or dot filters down to "", a syntax error. */
  lemma {:induction false} ConvertWithoutDigitsFails(num: string)
    requires forall i :: 0 <= i < |num| ==> !N.IsDigit(num[i]) && num[i] != '.'
    ensures DigitsAndDots(num) == ""
    ensures ConvertStringToInt(num) == N.NumResult(0, Some(N.ErrSyntax))
    decreases |num|
  {
    if num != [] {
      ConvertWithoutDigitsFails(num[1..]);
    }
  }

  /**
   * Without dots, the conversion reads the input's digits as one number, ignoring signs and
   * all other characters, so the result is never negative.
   */
  lemma ConvertDigitsOnly(num: string)
    requires '.' !in DigitsAndDots(num) && DigitsAndDots(num) != ""
    ensures var v := N.DecimalValue(DigitsAndDots(num));
      ConvertStringToInt(num) == if v <= N.MaxInt64 then N.NumResult(v as int, None) else N.NumResult(N.MaxInt64, Some(N.ErrRange))
    ensures ConvertStringToInt(num).value >= 0
  {
    var kept := DigitsAndDots(num);
    assert N.AllDigits(kept) by {
      forall i | 0 <= i < |kept|
        ensures N.IsDigit(kept[i])
      {
        assert kept[i] in kept;
      }
    }
    N.AtoiDigits(kept);
  }

  /**
   * Around a first `start` and a first `end` after it, `GetStringInBetween` returns exactly
   * the text between them.
   */
  lemma InBetween(before: string, start: string, middle: string, end: string, after: string)
    requires forall k :: 0 <= k < |before| ==> !Strings.OccursAt(before + start + middle + end + after, start, k)
    requires forall k :: 0 <= k < |middle| ==> !Strings.OccursAt(middle + end + after, end, k)
    ensures GetStringInBetween(before + start + middle + end + after, start, end) == middle
  {
    var str := before + start + middle + end + after;
    var rest := middle + end + after;
    assert str == before + start + rest;
    assert str[|before|..|before| + |start|] == start;
    FirstOccurrence(str, start, |before|);
    assert rest[|middle|..|middle| + |end|] == end;
    FirstOccurrence(rest, end, |middle|);
    TakeBetween(str, start, end, |before|, |middle|);
    assert str[|before| + |start|..] == rest;
  }

  /** With both markers found, the result is the slice between them. */
  lemma TakeBetween(str: string, start: string, end: string, p: nat, q: nat)
    requires p + |start| <= |str|
    requires Strings.Index(str, start) == p && Strings.Index(str[p + |start|..], end) == q
    ensures q + p + |start| <= |str|
    ensures GetStringInBetween(str, start, end) == str[p + |start|..p + |start| + q]
  {
    var tail := str[p + |start|..];
    assert q <= |tail|;
  }

  /** `Index` finds an occurrence exactly when no earlier position has one. */
  lemma FirstOccurrence(s: string, sub: string, p: nat)
    requires p + |sub| <= |s| && s[p..p + |sub|] == sub
    requires forall k :: 0 <= k < p ==> !Strings.OccursAt(s, sub, k)
    ensures Strings.Index(s, sub) == p
  {
    assert Strings.OccursAt(s, sub, p);
  }

  /** Sharing an element does not depend on which slice is searched first. */
  lemma OverlapSymmetric(a: seq<string>, b: seq<string>)
    ensures Overlap(a, b) <==> Overlap(b, a)
  {
  }
}
