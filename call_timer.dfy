/**
  The call timer of components/CallTimer.tsx: a seconds counter that runs
  while the call is active and is reset when it is not, shown as
  `mm:ss` by `formatTime`.

  `formatTime` is modelled on decimal strings: `toString` of a non-negative
  integer, `padStart(2, '0')`, and the `:` separator. `ParseTime` reads such
  a string back, and the round trip `ParseTime(FormatTime(t)) == Some(t)`
  says that the display loses nothing: the seconds field is always two
  digits below 60 and the minutes field is never truncated.
*/
module CallTimer {
  import opened Optional

  predicate IsDigit(c: char)
  {
    '0' <= c <= '9'
  }

  predicate AllDigits(s: string)
  {
    forall i :: 0 <= i < |s| ==> IsDigit(s[i])
  }

  function DigitChar(d: nat): (c: char)
    requires d < 10
    ensures IsDigit(c)
  {
    ('0' as int + d) as char
  }

  function DigitValue(c: char): (d: nat)
    requires IsDigit(c)
    ensures d < 10
  {
    c as int - '0' as int
  }

  /** The value of a string of decimal digits; the empty string reads as zero. */
  function ParseDecimal(s: string): nat
    requires AllDigits(s)
    decreases |s|
  {
    if s == [] then 0 else 10 * ParseDecimal(s[..|s| - 1]) + DigitValue(s[|s| - 1])
  }

  /** `n.toString()` for a non-negative integer: its decimal digits without leading zeros. */
  function NatToString(n: nat): (r: string)
    ensures |r| >= 1 && AllDigits(r)
    ensures |r| > 1 ==> r[0] != '0'
    decreases n
  {
    if n < 10 then [DigitChar(n)] else NatToString(n / 10) + [DigitChar(n % 10)]
  }

  /** `k` copies of `c`. */
  function Repeat(c: char, k: nat): (r: string)
    ensures |r| == k
    ensures forall i :: 0 <= i < k ==> r[i] == c
    decreases k
  {
    if k == 0 then [] else Repeat(c, k - 1) + [c]
  }

  /**
    `s.padStart(width, fill)` with a one-character fill: `fill` is prepended
    until the length reaches `width`; a string already that long is returned
    as it is, never cut.
  */
  function PadStart(s: string, width: nat, fill: char): (r: string)
    ensures |r| == if |s| >= width then |s| else width
    ensures r == Repeat(fill, |r| - |s|) + s
  {
    if |s| >= width then
      assert Repeat(fill, 0) + s == s;
      s
    else Repeat(fill, width - |s|) + s
  }

  /**
    `n.toString().padStart(2, '0')`: at least two characters, exactly two
    below 100, and never shorter than the digits of `n`, so none is cut
    (`PaddedValue` gives its value).
  */
  function Padded(n: nat): (r: string)
    ensures |r| >= 2 && |r| >= |NatToString(n)|
    ensures n < 100 <==> |r| == 2
  {
    NatToStringLength(n);
    PadStart(NatToString(n), 2, '0')
  }

  /**
    `formatTime(totalSeconds)`: whole minutes, a colon, the remaining seconds,
    each padded to two digits. The display has at least five characters with
    the colon third from the end (`FormatTimeRoundTrip` reads it back).
  */
  function FormatTime(totalSeconds: nat): (r: string)
    ensures |r| >= 5 && r[|r| - 3] == ':'
  {
    Padded(totalSeconds / 60) + ":" + Padded(totalSeconds % 60)
  }

  /**
    Reads a timer display back: at least two minute digits, a colon, exactly
    two second digits below 60. Anything else is not a display.
  */
  function ParseTime(t: string): Option<nat>
  {
    if |t| < 5 || t[|t| - 3] != ':' then None
    else ParseFields(t[..|t| - 3], t[|t| - 2..])
  }

  /** The time a minutes field and a seconds field stand for, when both are digits and the seconds are below 60. */
  function ParseFields(mins: string, secs: string): Option<nat>
  {
    if !AllDigits(mins) || !AllDigits(secs) then None
    else if ParseDecimal(secs) >= 60 then None
    else Some(60 * ParseDecimal(mins) + ParseDecimal(secs))
  }

  // ---------------------------------------------------------------- decimal strings

  /** Reading back what `toString` wrote gives the number. */
  lemma {:induction false} NatToStringRoundTrip(n: nat)
    ensures ParseDecimal(NatToString(n)) == n
    decreases n
  {
    if n >= 10 {
      NatToStringRoundTrip(n / 10);
      var r := NatToString(n);
      assert r[..|r| - 1] == NatToString(n / 10);
    }
  }

  /** One digit below 10, at most two below 100, at least three from 100 on. */
  lemma {:induction false} NatToStringLength(n: nat)
    ensures n < 10 ==> |NatToString(n)| == 1
    ensures n < 100 ==> |NatToString(n)| <= 2
    ensures n >= 100 ==> |NatToString(n)| >= 3
    decreases n
  {
    if n >= 10 {
      NatToStringLength(n / 10);
    }
  }

  /** A string of zeros reads as zero. */
  lemma {:induction false} ZerosParseToZero(k: nat)
    ensures AllDigits(Repeat('0', k)) && ParseDecimal(Repeat('0', k)) == 0
    decreases k
  {
    if k > 0 {
      var z := Repeat('0', k);
      assert z[..k - 1] == Repeat('0', k - 1);
      ZerosParseToZero(k - 1);
    }
  }

  /** Leading zeros do not change the value. */
  lemma {:induction false} LeadingZerosIgnored(k: nat, s: string)
    requires AllDigits(s)
    ensures AllDigits(Repeat('0', k) + s)
    ensures ParseDecimal(Repeat('0', k) + s) == ParseDecimal(s)
    decreases |s|
  {
    var z := Repeat('0', k);
    if s == [] {
      assert z + s == z;
      ZerosParseToZero(k);
    } else {
      var t := z + s;
      assert t[..|t| - 1] == z + s[..|s| - 1];
      assert t[|t| - 1] == s[|s| - 1];
      LeadingZerosIgnored(k, s[..|s| - 1]);
    }
  }

  /** Padding a digit string with zeros keeps it a digit string of the same value. */
  lemma ZeroPaddingKeepsValue(s: string, width: nat)
    requires AllDigits(s)
    ensures AllDigits(PadStart(s, width, '0'))
    ensures ParseDecimal(PadStart(s, width, '0')) == ParseDecimal(s)
  {
    if |s| < width {
      LeadingZerosIgnored(width - |s|, s);
    }
  }

  // ---------------------------------------------------------------- formatTime

  /** A padded field is a digit string of the number's value. */
  lemma PaddedValue(n: nat)
    ensures AllDigits(Padded(n)) && ParseDecimal(Padded(n)) == n
  {
    ZeroPaddingKeepsValue(NatToString(n), 2);
    NatToStringRoundTrip(n);
  }

  /**
    The last two characters are the seconds, `totalSeconds % 60`, as two
    digits; everything before the colon is the minutes, `totalSeconds / 60`,
    with every digit of the number kept.
  */
  lemma FormatTimeFields(totalSeconds: nat)
    ensures var t := FormatTime(totalSeconds);
      && |t| >= 5
      && AllDigits(t[|t| - 2..]) && ParseDecimal(t[|t| - 2..]) == totalSeconds % 60 < 60
      && AllDigits(t[..|t| - 3]) && ParseDecimal(t[..|t| - 3]) == totalSeconds / 60
      && |t[..|t| - 3]| >= |NatToString(totalSeconds / 60)|
  {
    FormatTimeSplits(totalSeconds);
    PaddedValue(totalSeconds / 60);
    PaddedValue(totalSeconds % 60);
  }

  /** Before the colon is the padded minutes field, after it the padded seconds field. */
  lemma FormatTimeSplits(totalSeconds: nat)
    ensures var t := FormatTime(totalSeconds);
      t[..|t| - 3] == Padded(totalSeconds / 60) && t[|t| - 2..] == Padded(totalSeconds % 60)
  {
    JoinedFields(Padded(totalSeconds / 60), Padded(totalSeconds % 60));
  }

  /** A display joined from two fields splits back into them around the colon third from the end. */
  lemma JoinedFields(mins: string, secs: string)
    requires |mins| >= 2 && |secs| == 2
    ensures var t := mins + ":" + secs;
      |t| >= 5 && t[|t| - 3] == ':' && t[..|t| - 3] == mins && t[|t| - 2..] == secs
  {
    var t := mins + ":" + secs;
    assert t[..|t| - 3] == mins;
    assert t[|t| - 2..] == secs;
  }

  /** Times under 6000 seconds, below a hundred minutes, show as exactly five characters `mm:ss`. */
  lemma FormatTimeFiveCharacters(totalSeconds: nat)
    ensures totalSeconds < 6000 <==> |FormatTime(totalSeconds)| == 5
    ensures totalSeconds < 6000 ==> FormatTime(totalSeconds)[2] == ':'
  {
    var mins := totalSeconds / 60;
    assert mins < 100 <==> totalSeconds < 6000;
  }

  /** A display splits back into the fields it was joined from. */
  lemma SplitDisplay(mins: string, secs: string)
    requires |mins| >= 2 && |secs| == 2
    ensures ParseTime(mins + ":" + secs) == ParseFields(mins, secs)
  {
    JoinedFields(mins, secs);
  }

  /** Padded minutes and seconds below 60 read back as their time. */
  lemma FieldsRoundTrip(mins: nat, secs: nat)
    requires secs < 60
    ensures ParseFields(Padded(mins), Padded(secs)) == Some(60 * mins + secs)
  {
    PaddedValue(mins);
    PaddedValue(secs);
    DigitFields(Padded(mins), Padded(secs));
  }

  /** The display determines the time: reading it back gives the seconds counted. */
  lemma FormatTimeRoundTrip(totalSeconds: nat)
    ensures ParseTime(FormatTime(totalSeconds)) == Some(totalSeconds)
  {
    var mins, secs := totalSeconds / 60, totalSeconds % 60;
    SplitDisplay(Padded(mins), Padded(secs));
    FieldsRoundTrip(mins, secs);
  }

  /** Fields of digits with seconds below 60 stand for sixty times the minutes plus the seconds. */
  lemma DigitFields(mins: string, secs: string)
    requires AllDigits(mins) && AllDigits(secs) && ParseDecimal(secs) < 60
    ensures ParseFields(mins, secs) == Some(60 * ParseDecimal(mins) + ParseDecimal(secs))
  {
  }

  /** Three displays the component shows: the start, a minute and five seconds, and the hundredth minute. */
  lemma FormatTimeExamples()
    ensures FormatTime(0) == "00:00"
    ensures FormatTime(65) == "01:05"
    ensures FormatTime(6000) == "100:00"
  {
    StartShows();
    MinuteShows();
    HundredMinutesShow();
  }

  lemma StartShows()
    ensures FormatTime(0) == "00:00"
  {
    var z := Padded(0);
    assert z == "00";
    ShowsAs(0, z, z, "00:00");
  }

  lemma MinuteShows()
    ensures FormatTime(65) == "01:05"
  {
    assert 65 / 60 == 1 && 65 % 60 == 5;
    var m, s := Padded(1), Padded(5);
    assert m == "01" && s == "05";
    ShowsAs(65, m, s, "01:05");
  }

  lemma HundredMinutesShow()
    ensures FormatTime(6000) == "100:00"
  {
    HundredDigits();
    assert 6000 / 60 == 100 && 6000 % 60 == 0;
    var m, s := Padded(100), Padded(0);
    assert m == "100";
    assert s == "00";
    ShowsAs(6000, m, s, "100:00");
  }

  lemma HundredDigits()
    ensures NatToString(100) == "100"
  {
    assert NatToString(10) == "10";
    assert NatToString(100) == NatToString(10) + "0";
  }

  /** The display of `t` from its two padded fields. */
  lemma ShowsAs(t: nat, mins: string, secs: string, shown: string)
    requires Padded(t / 60) == mins && Padded(t % 60) == secs && shown == mins + ":" + secs
    ensures FormatTime(t) == shown
  {
  }

  // ---------------------------------------------------------------- the component

  /** The component's `seconds` state under its `isActive` prop. */
  class Timer {
    var active: bool
    var seconds: nat

    /** While the call is inactive the count is zero. */
    ghost predicate Valid()
      reads this
    {
      !active ==> seconds == 0
    }

    /** `useState(0)`, mounted with the call inactive. */
    constructor ()
      ensures Valid() && !active && seconds == 0
    {
      active := false;
      seconds := 0;
    }

    /**
      The effect on a new `isActive`: becoming active starts the interval and
      keeps the count, becoming inactive clears the interval and resets it.
    */
    method SetActive(isActive: bool)
      requires Valid()
      modifies this
      ensures Valid() && active == isActive
      ensures seconds == if isActive then old(seconds) else 0
    {
      active := isActive;
      if !isActive {
        seconds := 0;
      }
    }

    /** One interval callback, `setSeconds(s => s + 1)`; the interval only runs while active. */
    method Tick()
      requires Valid() && active
      modifies this
      ensures Valid() && active && seconds == old(seconds) + 1
    {
      seconds := seconds + 1;
    }

    /** What the component renders: nothing while inactive, otherwise a display that reads back as the count. */
    function Render(): (r: Option<string>)
      reads this
      ensures r.None? <==> !active
      ensures r.Some? ==> ParseTime(r.value) == Some(seconds)
    {
      if !active then None
      else
        FormatTimeRoundTrip(seconds);
        Some(FormatTime(seconds))
    }
  }
}
