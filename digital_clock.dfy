/**
 * The digital clock (digital-clock/src/script.js): each of hours, minutes
 * and seconds padded to two digits, joined as "HH:MM:SS". The hour, minute
 * and second the page reads from the system clock are parameters.
 */
module ClockFormat {
  import opened JsStrings

  /** formatTime: a single digit gets a leading "0", anything larger is written as is. */
  function FormatTime(n: nat): (r: string)
    ensures AllDigits(r)
    ensures n < 10 ==> r == ['0', DigitChar(n)]
    ensures n >= 10 ==> r == NatToString(n)
    ensures n < 100 <==> |r| == 2
  {
    if n < 10 then "0" + NatToString(n) else NatToString(n)
  }

  /** Reading a two-digit field back as a decimal number gives the number that was formatted. */
  lemma {:induction false} FormatTimeRoundTrip(n: nat)
    requires n < 100
    ensures ParseDecimal(FormatTime(n)) == n
  {
    var r := FormatTime(n);
    if n < 10 {
      assert r[..1] == "0";
      assert ParseDecimal("0") == 0 by { assert "0"[..0] == []; }
    } else {
      ParseNatToString(n);
    }
  }

  /** Different numbers below 100 never show as the same field. */
  lemma FormatTimeInjective(a: nat, b: nat)
    requires a < 100 && b < 100 && FormatTime(a) == FormatTime(b)
    ensures a == b
  {
    FormatTimeRoundTrip(a);
    FormatTimeRoundTrip(b);
  }

  /** updateClock's time string: three two-character fields separated by colons. */
  function TimeString(hours: nat, minutes: nat, seconds: nat): (r: string)
    requires hours < 24 && minutes < 60 && seconds < 60
    ensures |r| == 8 && r[2] == ':' && r[5] == ':'
    ensures r[0..2] == FormatTime(hours) && r[3..5] == FormatTime(minutes) && r[6..8] == FormatTime(seconds)
  {
    FormatTime(hours) + ":" + FormatTime(minutes) + ":" + FormatTime(seconds)
  }

  /** Hours, minutes and seconds can be read back from the time string. */
  lemma TimeStringReadsBack(hours: nat, minutes: nat, seconds: nat)
    requires hours < 24 && minutes < 60 && seconds < 60
    ensures var r := TimeString(hours, minutes, seconds);
      && AllDigits(r[0..2]) && AllDigits(r[3..5]) && AllDigits(r[6..8])
      && ParseDecimal(r[0..2]) == hours && ParseDecimal(r[3..5]) == minutes && ParseDecimal(r[6..8]) == seconds
  {
    FormatTimeRoundTrip(hours);
    FormatTimeRoundTrip(minutes);
    FormatTimeRoundTrip(seconds);
  }
}

/** The clock element, rewritten by every firing of the one-second interval. */
module DigitalClock {
  import opened JsStrings
  import opened ClockFormat

  class ClockFace {
    var text: string

    constructor ()
      ensures text == ""
    {
      text := "";
    }

    /** updateClock, given the hour, minute and second the page reads from its Date. */
    method UpdateClock(hour: nat, minute: nat, second: nat)
      requires hour < 24 && minute < 60 && second < 60
      modifies this
      ensures text == TimeString(hour, minute, second)
    {
      var hours := FormatTime(hour);
      var minutes := FormatTime(minute);
      var seconds := FormatTime(second);
      text := hours + ":" + minutes + ":" + seconds;
    }
  }

  method ShowMorning()
  {
    var clock := new ClockFace();
    clock.UpdateClock(9, 5, 30);
    assert clock.text[0..2] == "09" && clock.text[3..5] == "05" && clock.text[6..8] == "30" by {
      assert NatToString(9) == "9";
      assert NatToString(5) == "5";
      assert NatToString(30) == NatToString(3) + ['0'];
    }
  }
}
