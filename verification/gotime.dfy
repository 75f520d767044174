/**
 * The part of Go's `time.Parse` that the submission validators rely on: the
 * two layouts "2006-01-02" and "2006-01-02T15:04:05".
 *
 * Go reads the layout chunk by chunk: "2006" takes exactly four digits, "01",
 * "02", "04" and "05" take exactly two, "15" takes one or two, and the
 * literals '-', 'T' and ':' must match. A fraction of a second ('.' followed
 * by digits) is accepted after "05" even though the layout has none. The month
 * must be 1..12, the hour below 24, minutes and seconds below 60, and the day
 * must exist in that month of that (proleptic Gregorian) year. No text may
 * follow.
 */
module GoTime {
  import opened Wrappers

  datatype Date = Date(year: nat, month: nat, day: nat)
  datatype Clock = Clock(hour: nat, minute: nat, second: nat)
  datatype DateTime = DateTime(date: Date, clock: Clock)

  predicate IsDigit(c: char) { '0' <= c <= '9' }

  function DigitValue(c: char): nat
    requires IsDigit(c)
  {
    (c as int - '0' as int) as nat
  }

  function DigitChar(k: nat): (c: char)
    requires k < 10
    ensures IsDigit(c) && DigitValue(c) == k
  {
    ('0' as int + k) as char
  }

  predicate IsLeap(year: nat) {
    year % 4 == 0 && (year % 100 != 0 || year % 400 == 0)
  }

  function DaysIn(month: nat, year: nat): nat
    requires 1 <= month <= 12
  {
    if month == 2 then (if IsLeap(year) then 29 else 28)
    else if month == 4 || month == 6 || month == 9 || month == 11 then 30
    else 31
  }

  /** The dates a four-digit year layout can name. */
  predicate ValidDate(d: Date) {
    d.year < 10000 && 1 <= d.month <= 12 && 1 <= d.day <= DaysIn(d.month, d.year)
  }

  predicate ValidClock(c: Clock) {
    c.hour < 24 && c.minute < 60 && c.second < 60
  }

  predicate AllDigits(s: string, lo: nat, hi: nat)
    requires lo <= hi <= |s|
  {
    forall i :: lo <= i < hi ==> IsDigit(s[i])
  }

  /** Two fixed digits at position i (Go's getnum with fixed = true). */
  function Num2(s: string, i: nat): nat
    requires i + 2 <= |s| && AllDigits(s, i, i + 2)
  {
    10 * DigitValue(s[i]) + DigitValue(s[i + 1])
  }

  /** Four fixed digits at position i ("2006"). */
  function Num4(s: string, i: nat): nat
    requires i + 4 <= |s| && AllDigits(s, i, i + 4)
  {
    100 * Num2(s, i) + Num2(s, i + 2)
  }

  /** The ten characters "YYYY-MM-DD" at the start of s, read without range checks. */
  predicate DateShape(s: string) {
    |s| >= 10 && AllDigits(s, 0, 4) && s[4] == '-' && AllDigits(s, 5, 7) && s[7] == '-' && AllDigits(s, 8, 10)
  }

  function DateFields(s: string): Date
    requires DateShape(s)
  {
    Date(Num4(s, 0), Num2(s, 5), Num2(s, 8))
  }

  /** time.Parse("2006-01-02", s). */
  function ParseDate(s: string): Option<Date> {
    if |s| == 10 && DateShape(s) && ValidDate(DateFields(s)) then Some(DateFields(s)) else None
  }

  /** Length of the run of digits in s starting at i. */
  function DigitRun(s: string, i: nat): (n: nat)
    requires i <= |s|
    ensures i + n <= |s| && AllDigits(s, i, i + n)
    ensures i + n < |s| ==> !IsDigit(s[i + n])
    decreases |s| - i
  {
    if i < |s| && IsDigit(s[i]) then 1 + DigitRun(s, i + 1) else 0
  }

  /**
   * What may follow the seconds: nothing, or '.' and a run of digits to the
   * end (Go keeps the first nine as nanoseconds and ignores the rest).
   */
  predicate FractionTail(s: string, i: nat)
    requires i <= |s|
  {
    i == |s| || (s[i] == '.' && i + 1 < |s| && 1 <= DigitRun(s, i + 1) && i + 1 + DigitRun(s, i + 1) == |s|)
  }

  /** time.Parse("2006-01-02T15:04:05", s); the hour takes one digit when the second is not a digit. */
  function ParseDateTime(s: string): Option<DateTime> {
    if !(DateShape(s) && |s| > 11 && s[10] == 'T' && IsDigit(s[11])) then None
    else
      var h := if |s| > 12 && IsDigit(s[12]) then 2 else 1;
      var p := 11 + h;
      if !(p + 6 <= |s| && s[p] == ':' && AllDigits(s, p + 1, p + 3) && s[p + 3] == ':' && AllDigits(s, p + 4, p + 6))
      then None
      else
        var hour := if h == 2 then Num2(s, 11) else DigitValue(s[11]);
        var dt := DateTime(DateFields(s), Clock(hour, Num2(s, p + 1), Num2(s, p + 4)));
        if ValidDate(dt.date) && ValidClock(dt.clock) && FractionTail(s, p + 6) then Some(dt) else None
  }

  function Pad2(k: nat): (s: string)
    requires k < 100
    ensures |s| == 2 && AllDigits(s, 0, 2) && Num2(s, 0) == k
  {
    [DigitChar(k / 10), DigitChar(k % 10)]
  }

  function Pad4(k: nat): (s: string)
    requires k < 10000
    ensures |s| == 4 && AllDigits(s, 0, 4) && Num4(s, 0) == k
  {
    var s := Pad2(k / 100) + Pad2(k % 100);
    assert s[2..] == Pad2(k % 100);
    s
  }

  /** Reading two digits and writing them back gives the same two characters. */
  lemma Pad2Num2(s: string, i: nat)
    requires i + 2 <= |s| && AllDigits(s, i, i + 2)
    ensures Pad2(Num2(s, i)) == s[i..i + 2]
  {
    var a, b := DigitValue(s[i]), DigitValue(s[i + 1]);
    assert (10 * a + b) / 10 == a && (10 * a + b) % 10 == b;
    assert DigitChar(a) == s[i] && DigitChar(b) == s[i + 1];
  }

  /** Reading four digits and writing them back gives the same four characters. */
  lemma Pad4Num4(s: string, i: nat)
    requires i + 4 <= |s| && AllDigits(s, i, i + 4)
    ensures Pad4(Num4(s, i)) == s[i..i + 4]
  {
    var x, y := Num2(s, i), Num2(s, i + 2);
    assert (100 * x + y) / 100 == x && (100 * x + y) % 100 == y;
    Pad2Num2(s, i);
    Pad2Num2(s, i + 2);
    assert s[i..i + 4] == s[i..i + 2] + s[i + 2..i + 4];
  }

  /** Time.Format("2006-01-02"). */
  function FormatDate(d: Date): string
    requires ValidDate(d)
  {
    Pad4(d.year) + "-" + Pad2(d.month) + "-" + Pad2(d.day)
  }

  /** Time.Format("2006-01-02T15:04:05"). */
  function FormatDateTime(dt: DateTime): string
    requires ValidDate(dt.date) && ValidClock(dt.clock)
  {
    FormatDate(dt.date) + "T" + Pad2(dt.clock.hour) + ":" + Pad2(dt.clock.minute) + ":" + Pad2(dt.clock.second)
  }

  /** Every valid date, written in the layout, is accepted and read back unchanged. */
  lemma ParseFormatDate(d: Date)
    requires ValidDate(d)
    ensures ParseDate(FormatDate(d)) == Some(d)
  {
    var s := FormatDate(d);
    assert s[..4] == Pad4(d.year) && s[5..7] == Pad2(d.month) && s[8..10] == Pad2(d.day);
    assert DateFields(s) == d;
  }

  /** Only valid dates written exactly in the layout are accepted. */
  lemma ParseDateCanonical(s: string)
    requires ParseDate(s).Some?
    ensures ValidDate(ParseDate(s).value) && FormatDate(ParseDate(s).value) == s
  {
    var d := ParseDate(s).value;
    Pad4Num4(s, 0);
    Pad2Num2(s, 5);
    Pad2Num2(s, 8);
    assert s == s[0..4] + "-" + s[5..7] + "-" + s[8..10];
  }

  /** Every valid timestamp, written in the layout, is accepted and read back unchanged. */
  lemma ParseFormatDateTime(dt: DateTime)
    requires ValidDate(dt.date) && ValidClock(dt.clock)
    ensures ParseDateTime(FormatDateTime(dt)) == Some(dt)
  {
    var s := FormatDateTime(dt);
    assert s[..10] == FormatDate(dt.date);
    ParseFormatDate(dt.date);
    assert DateShape(s) && DateFields(s) == dt.date;
  }

  /** Whatever is accepted names a valid date and clock. */
  lemma ParseDateTimeValid(s: string)
    requires ParseDateTime(s).Some?
    ensures ValidDate(ParseDateTime(s).value.date) && ValidClock(ParseDateTime(s).value.clock)
  {
  }

  /** A one-digit hour is accepted: "15" is not a fixed-width chunk. */
  lemma OneDigitHourAccepted()
    ensures ParseDateTime("2021-03-04T5:06:07") == Some(DateTime(Date(2021, 3, 4), Clock(5, 6, 7)))
  {
    var s := "2021-03-04T5:06:07";
    assert DateShape(s) && DateFields(s) == Date(2021, 3, 4);
  }

  /** A run of digits that reaches the end of the text is read to the end. */
  lemma {:induction false} DigitRunToEnd(s: string, i: nat)
    requires i <= |s| && AllDigits(s, i, |s|)
    ensures DigitRun(s, i) == |s| - i
    decreases |s| - i
  {
    if i < |s| {
      DigitRunToEnd(s, i + 1);
    }
  }

  /**
   * A fraction of a second (a '.' and any number of digits) is accepted
   * although the layout has none, and does not change the time read.
   */
  lemma FractionAccepted(dt: DateTime, f: string)
    requires ValidDate(dt.date) && ValidClock(dt.clock)
    requires 1 <= |f| && AllDigits(f, 0, |f|)
    ensures ParseDateTime(FormatDateTime(dt) + "." + f) == Some(dt)
  {
    var t := FormatDateTime(dt);
    var s := t + "." + f;
    assert s[..19] == t;
    assert s[..10] == FormatDate(dt.date);
    ParseFormatDate(dt.date);
    assert DateShape(s) && DateFields(s) == dt.date;
    assert s[11..13] == Pad2(dt.clock.hour) && s[14..16] == Pad2(dt.clock.minute) && s[17..19] == Pad2(dt.clock.second);
    DigitRunToEnd(s, 20);
  }
}
