/**
  The timestamp formatter `convertSecondToHHMMSS` of main.py, applied to a
  second count that has already been truncated to a whole number, and a
  reader for its output that recovers the count.
 */
module Timestamp {
  import opened Wrappers
  import opened Decimal

  /** A duration split into hours, minutes and seconds. */
  datatype Clock = Clock(hours: nat, minutes: nat, seconds: nat)

  /**
    The split computed with `//` and `%`: minutes and seconds are below 60,
    hours are unbounded, and the three fields add back up to `total`.
   */
  function Split(total: nat): (c: Clock)
    ensures c.minutes < 60 && c.seconds < 60
    ensures c.hours * 3600 + c.minutes * 60 + c.seconds == total
  {
    var h := total / 3600;
    var rest := total % 3600;
    var m := rest / 60;
    var s := total % 60;
    assert rest == m * 60 + rest % 60;
    assert total == (h * 60 + m) * 60 + rest % 60;
    assert s == rest % 60;
    Clock(h, m, s)
  }

  /** A clock with minutes and seconds below 60 is the split of its total. */
  lemma SplitUnique(c: Clock, total: nat)
    requires c.minutes < 60 && c.seconds < 60
    requires c.hours * 3600 + c.minutes * 60 + c.seconds == total
    ensures Split(total) == c
  {
    var d := Split(total);
    assert d.hours * 3600 + d.minutes * 60 + d.seconds == c.hours * 3600 + c.minutes * 60 + c.seconds;
    assert d.minutes * 60 + d.seconds < 3600;
    assert c.minutes * 60 + c.seconds < 3600;
    assert d.hours == c.hours;
    assert d.minutes * 60 + d.seconds == c.minutes * 60 + c.seconds;
    assert d.minutes == c.minutes;
  }

  /** `MM:SS` when the hour field is zero, `HH:MM:SS` otherwise, each field `{:02d}`. */
  function Format(total: nat): (r: string)
    ensures |r| >= 5
    ensures |r| == 5 <==> total < 3600
  {
    var c := Split(total);
    if c.hours == 0 then
      Pad2(c.minutes) + ":" + Pad2(c.seconds)
    else
      Pad2(c.hours) + ":" + Pad2(c.minutes) + ":" + Pad2(c.seconds)
  }

  /**
    Reads `MM:SS` or `H...:MM:SS` back into a second count. Minute and
    second fields are exactly two digits; the hour field is any non-empty
    digit string.
   */
  function Parse(t: string): (r: Option<nat>)
    ensures r.Some? ==> |t| >= 5 && t[|t| - 3] == ':' && AllDigits(t[|t| - 2..])
  {
    if |t| == 5 && t[2] == ':' then
      var mm := t[..2];
      var ss := t[3..];
      if AllDigits(mm) && AllDigits(ss) then Some(ValueOf(mm) * 60 + ValueOf(ss)) else None
    else if |t| >= 8 && t[|t| - 6] == ':' && t[|t| - 3] == ':' then
      var hh := t[..|t| - 6];
      var mm := t[|t| - 5..|t| - 3];
      var ss := t[|t| - 2..];
      if AllDigits(hh) && AllDigits(mm) && AllDigits(ss) then
        Some(ValueOf(hh) * 3600 + ValueOf(mm) * 60 + ValueOf(ss))
      else
        None
    else
      None
  }

  /** Below one hour the output is the five characters `MM:SS`. */
  lemma FormatShortForm(total: nat)
    requires total < 3600
    ensures Format(total) == Pad2(total / 60) + ":" + Pad2(total % 60)
    ensures |Format(total)| == 5
  {
    var c := Split(total);
    SplitUnique(Clock(0, total / 60, total % 60), total);
  }

  /**
    From one hour on, the output is `HH:MM:SS`; the hour field has at least
    two digits, reads back as `total / 3600` with no wrap-around, and
    widens past two digits exactly from 100 hours on.
   */
  lemma FormatLongForm(total: nat)
    requires total >= 3600
    ensures Format(total) == Pad2(total / 3600) + ":" + Pad2((total % 3600) / 60) + ":" + Pad2(total % 60)
    ensures var r := Format(total);
      && |r| >= 8
      && AllDigits(r[..|r| - 6])
      && ValueOf(r[..|r| - 6]) == total / 3600
      && (|r| == 8 <==> total < 360000)
  {
    var r := Format(total);
    var h := Pad2(total / 3600);
    assert r[..|r| - 6] == h;
  }

  /**
    Character shape: exactly one colon (at index 2) below one hour, exactly
    two colons (six and three characters from the end) otherwise, and every
    other character is a decimal digit.
   */
  lemma FormatShape(total: nat)
    ensures var r := Format(total);
      forall i :: 0 <= i < |r| ==>
        && (r[i] == ':' <==> (if total < 3600 then i == 2 else i == |r| - 6 || i == |r| - 3))
        && (r[i] != ':' ==> IsDigit(r[i]))
  {
    var r := Format(total);
    var c := Split(total);
    if total < 3600 {
      FormatShortForm(total);
      var a, b := Pad2(total / 60), Pad2(total % 60);
      forall i | 0 <= i < |r|
        ensures (r[i] == ':' <==> i == 2) && (r[i] != ':' ==> IsDigit(r[i]))
      {
        if i < 2 { assert r[i] == a[i]; } else if i > 2 { assert r[i] == b[i - 3]; }
      }
    } else {
      FormatLongForm(total);
      var h, m, s := Pad2(total / 3600), Pad2((total % 3600) / 60), Pad2(total % 60);
      var n := |h|;
      forall i | 0 <= i < |r|
        ensures (r[i] == ':' <==> i == |r| - 6 || i == |r| - 3) && (r[i] != ':' ==> IsDigit(r[i]))
      {
        if i < n { assert r[i] == h[i]; }
        else if n < i < n + 3 { assert r[i] == m[i - n - 1]; }
        else if i > n + 3 { assert r[i] == s[i - n - 4]; }
      }
    }
  }

  /** The reader on a five-character `MM:SS`, given its two fields. */
  lemma ParseShortAt(t: string, m: string, sec: string)
    requires |t| == 5 && t[2] == ':' && t[..2] == m && t[3..] == sec
    requires AllDigits(m) && AllDigits(sec)
    ensures Parse(t) == Some(ValueOf(m) * 60 + ValueOf(sec))
  {
  }

  /** The reader on `H...:MM:SS`, given its three fields. */
  lemma ParseLongAt(t: string, h: string, m: string, sec: string)
    requires |t| >= 8 && t[|t| - 6] == ':' && t[|t| - 3] == ':'
    requires t[..|t| - 6] == h && t[|t| - 5..|t| - 3] == m && t[|t| - 2..] == sec
    requires AllDigits(h) && AllDigits(m) && AllDigits(sec)
    ensures Parse(t) == Some(ValueOf(h) * 3600 + ValueOf(m) * 60 + ValueOf(sec))
  {
  }

  /** `MM:SS` reads back as minutes times 60 plus seconds. */
  lemma ParseShort(m: string, sec: string)
    requires |m| == 2 && |sec| == 2 && AllDigits(m) && AllDigits(sec)
    ensures Parse(m + ":" + sec) == Some(ValueOf(m) * 60 + ValueOf(sec))
  {
    var t := m + ":" + sec;
    assert t[..2] == m;
    assert t[3..] == sec;
    ParseShortAt(t, m, sec);
  }

  /** `H...:MM:SS` with at least two hour digits reads back as the total of its fields. */
  lemma ParseLong(h: string, m: string, sec: string)
    requires |h| >= 2 && |m| == 2 && |sec| == 2 && AllDigits(h) && AllDigits(m) && AllDigits(sec)
    ensures Parse(h + ":" + m + ":" + sec) == Some(ValueOf(h) * 3600 + ValueOf(m) * 60 + ValueOf(sec))
  {
    var t := h + ":" + m + ":" + sec;
    assert t[..|t| - 6] == h;
    assert t[|t| - 5..|t| - 3] == m;
    assert t[|t| - 2..] == sec;
    ParseLongAt(t, h, m, sec);
  }

  /** Reading the formatted string back recovers the (truncated) second count. */
  lemma ParseFormat(total: nat)
    ensures Parse(Format(total)) == Some(total)
  {
    var c := Split(total);
    if c.hours == 0 {
      ParseShort(Pad2(c.minutes), Pad2(c.seconds));
    } else {
      ParseLong(Pad2(c.hours), Pad2(c.minutes), Pad2(c.seconds));
    }
  }

  /** Distinct second counts never format to the same string. */
  lemma FormatInjective(a: nat, b: nat)
    requires Format(a) == Format(b)
    ensures a == b
  {
    ParseFormat(a);
    ParseFormat(b);
  }

  /** `{d:02d}` of a single digit `d` is a zero followed by that digit. */
  lemma Pad2Digit(d: nat)
    requires d < 10
    ensures Pad2(d) == ['0', DigitChar(d)]
  {
  }

  /** 125.9 s, truncated to 125, reads as `02:05`. */
  lemma FormatExampleMinutes()
    ensures Format(125) == "02:05"
  {
    FormatShortForm(125);
    Pad2Digit(2);
    Pad2Digit(5);
  }

  /** One hour reads as `01:00:00`. */
  lemma FormatExampleHour()
    ensures Format(3600) == "01:00:00"
  {
    FormatLongForm(3600);
    Pad2Digit(1);
    Pad2Digit(0);
  }

  /** 100 hours reads as `100:00:00`: the hour field widens and does not wrap. */
  lemma FormatExampleHundredHours()
    ensures Format(360000) == "100:00:00"
  {
    FormatLongForm(360000);
    Pad2Digit(0);
    Pad2Hundred();
  }

  /** `{100:02d}` keeps all three digits. */
  lemma Pad2Hundred()
    ensures Pad2(100) == "100"
  {
    calc {
      Pad2(100);
      ToDecimal(100);
      ToDecimal(10) + [DigitChar(0)];
      ToDecimal(1) + [DigitChar(0)] + [DigitChar(0)];
    }
  }

  /** The times of the worked transcript: 0 s, 5 s and 12 s. */
  lemma FormatExampleSmall()
    ensures Format(0) == "00:00" && Format(5) == "00:05" && Format(12) == "00:12"
  {
    FormatShortForm(0);
    FormatShortForm(5);
    FormatShortForm(12);
    Pad2Digit(0);
    Pad2Digit(5);
    Pad2Digit(1);
    Pad2Digit(2);
  }
}
