/** What both countdown components show: the `m:ss` text of `formatTime`
    and the colour chosen from the seconds left (`getColorClass` of the
    page timer, `getTimerColor` of the exam timer). */
module TimerDisplay {

  import opened Wrappers
  import opened Strings

  /** `formatTime`: whole minutes (`Math.floor(seconds / 60)`), a colon, and
      the remaining seconds (`seconds % 60`) padded to two digits. */
  function FormatTime(seconds: nat): string {
    NatToDecimal(seconds / 60) + ":" + PadStart(NatToDecimal(seconds % 60), 2, '0')
  }

  /** The display is the minutes in decimal, a colon and two digits of
      seconds; a leading zero only appears below one minute, as "0:ss". */
  lemma FormatTimeShape(seconds: nat)
    ensures var r := FormatTime(seconds);
      && |r| >= 4 && r[|r| - 3] == ':'
      && AllDigits(r[..|r| - 3]) && AllDigits(r[|r| - 2..])
      && (r[0] == '0' ==> |r| == 4)
  {
    var mins := NatToDecimal(seconds / 60);
    var secs := PadStart(NatToDecimal(seconds % 60), 2, '0');
    var r := mins + ":" + secs;
    SecondsField(seconds % 60);
    assert r[..|mins|] == mins;
    assert r[|mins| + 1..] == secs;
  }

  /** Reads an `m:ss` text back: minutes in decimal, a colon, then exactly
      two digits of seconds below 60. Anything else is rejected. */
  function ParseTime(t: string): (r: Option<nat>)
  {
    match IndexOf(t, ':')
    case None => None
    case Some(i) =>
      var mins, secs := t[..i], t[i + 1..];
      if mins != [] && AllDigits(mins) && |secs| == 2 && AllDigits(secs) && ParseDecimal(secs) < 60
      then Some(ParseDecimal(mins) * 60 + ParseDecimal(secs))
      else None
  }

  /** The seconds part of the display: `String(s).padStart(2, "0")`. */
  lemma SecondsField(s: nat)
    requires s < 60
    ensures var p := PadStart(NatToDecimal(s), 2, '0');
      |p| == 2 && AllDigits(p) && ParseDecimal(p) == s
  {
    var d := NatToDecimal(s);
    var p := PadStart(d, 2, '0');
    DecimalRoundTrip(s);
    if |d| < 2 {
      var z := p[..|p| - |d|];
      assert p == z + d;
      ParseLeadingZeros(z, d);
    } else {
      assert p == d;
      assert |NatToDecimal(s / 10)| == 1;
    }
  }

  /** The display is never ambiguous: reading it back gives the seconds
      that were formatted, so distinct times show distinct texts. */
  lemma FormatTimeRoundTrip(seconds: nat)
    ensures ParseTime(FormatTime(seconds)) == Some(seconds)
  {
    var mins := NatToDecimal(seconds / 60);
    var secs := PadStart(NatToDecimal(seconds % 60), 2, '0');
    SecondsField(seconds % 60);
    DecimalRoundTrip(seconds / 60);
    ParseTimeOf(mins, secs);
  }

  /** A digit string, a colon and two digits below 60 read back as the
      minutes and seconds they spell. */
  lemma ParseTimeOf(mins: string, secs: string)
    requires mins != [] && AllDigits(mins)
    requires |secs| == 2 && AllDigits(secs) && ParseDecimal(secs) < 60
    ensures ParseTime(mins + ":" + secs) == Some(ParseDecimal(mins) * 60 + ParseDecimal(secs))
  {
    var t := mins + ":" + secs;
    assert t[|mins|] == ':';
    forall k | 0 <= k < |mins| ensures t[k] != ':' {
      assert t[k] == mins[k];
    }
    assert IndexOf(t, ':') == Some(|mins|);
    assert t[..|mins|] == mins;
    assert t[|mins| + 1..] == secs;
  }

  lemma FormatTimeInjective(a: nat, b: nat)
    requires FormatTime(a) == FormatTime(b)
    ensures a == b
  {
    FormatTimeRoundTrip(a);
    FormatTimeRoundTrip(b);
  }

  /** The three warning levels of a countdown display. */
  datatype TimerColor = Red | Orange | Green {
    /** How urgent the colour is: red above orange above green. */
    function Urgency(): nat {
      match this
      case Red => 2
      case Orange => 1
      case Green => 0
    }
  }

  /** `getColorClass` of the page timer: red up to 30 seconds, orange from
      31 to 60, green above 60. */
  function ColorClass(timeLeft: int): (c: TimerColor)
  {
    if timeLeft <= 30 then Red
    else if timeLeft <= 60 then Orange
    else Green
  }

  /** Each value of the countdown gets exactly one colour, on these bands. */
  lemma ColorClassBands(timeLeft: int)
    ensures ColorClass(timeLeft) == Red <==> timeLeft <= 30
    ensures ColorClass(timeLeft) == Orange <==> 30 < timeLeft <= 60
    ensures ColorClass(timeLeft) == Green <==> 60 < timeLeft
  {
  }

  /** Less time left never shows a calmer colour. */
  lemma ColorClassMonotonic(a: int, b: int)
    requires a <= b
    ensures ColorClass(a).Urgency() >= ColorClass(b).Urgency()
  {
  }

  /** The Tailwind class `getColorClass` returns. */
  function ColorClassName(c: TimerColor): string {
    match c
    case Red => "text-red-600"
    case Orange => "text-orange-600"
    case Green => "text-green-600"
  }

  /** `getTimerColor` of the exam timer: red up to 10 seconds, orange up to
      30 only when the warning is shown, green otherwise. */
  function TimerColorOf(timeLeft: int, showWarning: bool): (c: TimerColor)
  {
    if timeLeft <= 10 then Red
    else if timeLeft <= 30 && showWarning then Orange
    else Green
  }

  lemma TimerColorBands(timeLeft: int, showWarning: bool)
    ensures TimerColorOf(timeLeft, showWarning) == Red <==> timeLeft <= 10
    ensures TimerColorOf(timeLeft, showWarning) == Orange <==> showWarning && 10 < timeLeft <= 30
    ensures !showWarning ==> TimerColorOf(timeLeft, showWarning) != Orange
  {
  }
}
