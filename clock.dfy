/** `nr_mins_to_formatted`: a number of minutes written as `"%02d:%02d"` of
    the hours and the remaining minutes. All three copies of the client carry
    the same function. */
module Clock {
  import opened Wrappers
  import opened Decimal

  /** `"%02d" % n`: zero-padded to at least two digits. */
  function Pad2(n: nat): (r: string)
    ensures 2 <= |r| && AllDigits(r)
    ensures n < 100 <==> |r| == 2
  {
    if n < 10 then "0" + DecimalDigits(n) else DecimalDigits(n)
  }

  /** `nr_mins_to_formatted(d)`. `int(d / 60)` is taken as the exact integer
      quotient, which it is for every realistic duration. */
  function FormatMinutes(d: nat): (r: string)
    ensures 5 <= |r| && r[|r| - 3] == ':'
  {
    Pad2(d / 60) + ":" + Pad2(d % 60)
  }

  /** The inverse reading of an `H..H:MM` clock string: at least two hour
      digits, a colon, exactly two minute digits below 60. */
  function ParseClock(r: string): Option<nat> {
    if 5 <= |r| && r[|r| - 3] == ':' && AllDigits(r[..|r| - 3]) && AllDigits(r[|r| - 2..])
       && ParseDecimal(r[|r| - 2..]) < 60
    then Some(ParseDecimal(r[..|r| - 3]) * 60 + ParseDecimal(r[|r| - 2..]))
    else None
  }

  lemma ParsePad2(n: nat)
    ensures ParseDecimal(Pad2(n)) == n
  {
    ParseDecimalOfDigits(n);
    if n < 10 {
      ParseDecimalLeadingZero(DecimalDigits(n));
    }
  }

  /** The hour part reads back as `d / 60`, the minute part, always two
      digits, as `d % 60`; so hours * 60 + minutes == d. */
  lemma FormatMinutesParts(d: nat)
    ensures var r := FormatMinutes(d);
      && AllDigits(r[..|r| - 3]) && AllDigits(r[|r| - 2..])
      && ParseDecimal(r[..|r| - 3]) == d / 60
      && ParseDecimal(r[|r| - 2..]) == d % 60 < 60
      && ParseDecimal(r[..|r| - 3]) * 60 + ParseDecimal(r[|r| - 2..]) == d
  {
    var h, m := Pad2(d / 60), Pad2(d % 60);
    var r := FormatMinutes(d);
    assert r[..|r| - 3] == h;
    assert r[|r| - 2..] == m;
    ParsePad2(d / 60);
    ParsePad2(d % 60);
  }

  /** Formatting can always be undone: the clock string determines `d`. */
  lemma FormatMinutesRoundTrip(d: nat)
    ensures ParseClock(FormatMinutes(d)) == Some(d)
  {
    FormatMinutesParts(d);
    var r := FormatMinutes(d);
    var hours, minutes := ParseDecimal(r[..|r| - 3]), ParseDecimal(r[|r| - 2..]);
    assert ParseClock(r) == Some(hours * 60 + minutes);
  }

  /** Below 100 hours the string is exactly `HH:MM`. */
  lemma FormatMinutesFixedWidth(d: nat)
    requires d < 6000
    ensures |FormatMinutes(d)| == 5 && FormatMinutes(d)[2] == ':'
  {
  }

  /** `"%02d" % n` for n < 100, digit by digit. */
  lemma Pad2Chars(n: nat)
    requires n < 100
    ensures Pad2(n) == [DigitChar(n / 10), DigitChar(n % 10)]
  {
    if n >= 10 {
      assert DecimalDigits(n / 10) == [DigitChar(n / 10)];
    }
  }

  /** Below 100 hours, `HH:MM` character by character. */
  lemma FormatMinutesChars(d: nat)
    requires d < 6000
    ensures FormatMinutes(d) == [DigitChar(d / 600), DigitChar(d / 60 % 10), ':', DigitChar(d % 60 / 10), DigitChar(d % 10)]
  {
    Pad2Chars(d / 60);
    Pad2Chars(d % 60);
  }

  /** The fixed points the device relies on. */
  lemma FormatMinutesExamples()
    ensures FormatMinutes(0) == "00:00"
    ensures FormatMinutes(59) == "00:59"
    ensures FormatMinutes(60) == "01:00"
    ensures FormatMinutes(90) == "01:30"
  {
    FormatMinutesChars(0);
    FormatMinutesChars(59);
    FormatMinutesChars(60);
    FormatMinutesChars(90);
  }

  /** The device time of the offline text, and the last minute of a day and
      the end of it. */
  lemma FormatMinutesLateExamples()
    ensures FormatMinutes(860) == "14:20"
    ensures FormatMinutes(1439) == "23:59"
    ensures FormatMinutes(1440) == "24:00"
  {
    FormatMinutesChars(860);
    FormatMinutesChars(1439);
    FormatMinutesChars(1440);
  }
}
