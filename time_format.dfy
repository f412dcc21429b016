/**
 * formatTime: the "Last updated at" time of the footer. The local-time
 * components that `Date` would compute, and whether the date falls on the
 * current calendar day, are inputs; the rest is string building.
 */
module TimeFormat {
  import opened Wrappers
  import opened Text

  const TodayPrefix: string := "Today at "

  /** What `getFullYear`, `getMonth` (0-based), `getDate`, `getHours` and `getMinutes` give. */
  datatype LocalTime = LocalTime(year: nat, month0: nat, day: nat, hours: nat, minutes: nat)

  /** The components a JavaScript `Date` can give in local time. */
  predicate WellFormed(t: LocalTime) {
    t.month0 < 12 && 1 <= t.day <= 31 && t.hours < 24 && t.minutes < 60
  }

  /** Minutes always take two digits: a leading '0' exactly for 0..9. */
  function MinutesText(m: nat): (s: string)
    ensures |s| >= 2 && AllDigits(s)
    ensures m < 100 ==> |s| == 2
    ensures s[0] == '0' <==> m < 10
  {
    if m < 10 then "0" + NatToString(m) else NatToString(m)
  }

  /** `H:MM`: hours unpadded, minutes padded; the one colon comes right after the hours' digits. */
  function ClockText(hours: nat, minutes: nat): (s: string)
    ensures |s| > 0 && IsDigit(s[0])
    ensures |s| == |NatToString(hours)| + 1 + |MinutesText(minutes)| && s[|NatToString(hours)|] == ':'
  {
    NatToString(hours) + ":" + MinutesText(minutes)
  }

  /** `M/D/YYYY`: month counted from 1, nothing padded; the first slash comes right after the month's digits. */
  function DateText(t: LocalTime): (s: string)
    ensures |s| > 0 && IsDigit(s[0])
    ensures |NatToString(t.month0 + 1)| < |s| && s[|NatToString(t.month0 + 1)|] == '/'
    ensures |s| == |NatToString(t.month0 + 1)| + |NatToString(t.day)| + |NatToString(t.year)| + 2
  {
    NatToString(t.month0 + 1) + "/" + NatToString(t.day) + "/" + NatToString(t.year)
  }

  /** formatTime: "Today at H:MM" on the current day, "M/D/YYYY, H:MM" on any other. */
  function FormatTime(t: LocalTime, sameDay: bool): (s: string)
    ensures sameDay <==> |s| >= |TodayPrefix| && s[..|TodayPrefix|] == TodayPrefix
  {
    if sameDay then TodayPrefix + ClockText(t.hours, t.minutes)
    else
      var date := DateText(t);
      var s := date + ", " + ClockText(t.hours, t.minutes);
      assert s[0] == date[0];
      s
  }

  /** What a rendered time says, read back from its text. */
  datatype Stamp =
    | TodayAt(hours: nat, minutes: nat)
    | On(month: nat, day: nat, year: nat, hours: nat, minutes: nat)

  function ParseNumber(s: string): Option<nat> {
    if |s| > 0 && AllDigits(s) then Some(ParseNat(s)) else None
  }

  function ParseClock(s: string): Option<(nat, nat)> {
    var parts := Split(s, ':');
    if |parts| != 2 then None
    else match (ParseNumber(parts[0]), ParseNumber(parts[1]))
      case (Some(h), Some(m)) => Some((h, m))
      case _ => None
  }

  function ParseDate(s: string): Option<(nat, nat, nat)> {
    var parts := Split(s, '/');
    if |parts| != 3 then None
    else match (ParseNumber(parts[0]), ParseNumber(parts[1]), ParseNumber(parts[2]))
      case (Some(mo), Some(d), Some(y)) => Some((mo, d, y))
      case _ => None
  }

  /** Reads either form of the footer time; `None` for any other text. */
  function ParseStamp(s: string): Option<Stamp> {
    if |s| >= |TodayPrefix| && s[..|TodayPrefix|] == TodayPrefix then
      match ParseClock(s[|TodayPrefix|..])
      case Some((h, m)) => Some(TodayAt(h, m))
      case None => None
    else
      var parts := Split(s, ',');
      if |parts| != 2 || |parts[1]| == 0 || parts[1][0] != ' ' then None
      else match (ParseDate(parts[0]), ParseClock(parts[1][1..]))
        case (Some((mo, d, y)), Some((h, m))) => Some(On(mo, d, y, h, m))
        case _ => None
  }

  lemma ParseNumberOfNat(n: nat)
    ensures ParseNumber(NatToString(n)) == Some(n)
  {
    ParseNatToString(n);
  }

  /** The padded minutes still read back as the minutes. */
  lemma {:induction false} MinutesTextRoundTrip(m: nat)
    ensures ParseNumber(MinutesText(m)) == Some(m)
  {
    var s := NatToString(m);
    ParseNatToString(m);
    if m < 10 {
      var t := "0" + s;
      assert t[..|t| - 1] == "0";
      assert t[|t| - 1] == s[0];
      assert ParseNat("0") == 0 by {
        assert "0"[..0] == [];
      }
    }
  }

  lemma ClockTextRoundTrip(hours: nat, minutes: nat)
    ensures ParseClock(ClockText(hours, minutes)) == Some((hours, minutes))
    ensures ',' !in ClockText(hours, minutes)
  {
    var h, m := NatToString(hours), MinutesText(minutes);
    assert ClockText(hours, minutes) == h + [':'] + m;
    DigitsExclude(h, ':');
    DigitsExclude(m, ':');
    SplitTwo(h, m, ':');
    ParseNumberOfNat(hours);
    MinutesTextRoundTrip(minutes);
    DigitsExclude(h, ',');
    DigitsExclude(m, ',');
  }

  lemma DateTextRoundTrip(t: LocalTime)
    ensures ParseDate(DateText(t)) == Some((t.month0 + 1, t.day, t.year))
    ensures ',' !in DateText(t)
  {
    var mo, d, y := NatToString(t.month0 + 1), NatToString(t.day), NatToString(t.year);
    assert DateText(t) == mo + ['/'] + d + ['/'] + y;
    DigitsExclude(mo, '/');
    DigitsExclude(d, '/');
    DigitsExclude(y, '/');
    SplitThree(mo, d, y, '/');
    ParseNumberOfNat(t.month0 + 1);
    ParseNumberOfNat(t.day);
    ParseNumberOfNat(t.year);
    DigitsExclude(mo, ',');
    DigitsExclude(d, ',');
    DigitsExclude(y, ',');
  }

  /** On the current day the text reads back as the hours and minutes. */
  lemma TodayRoundTrip(t: LocalTime)
    ensures ParseStamp(FormatTime(t, true)) == Some(TodayAt(t.hours, t.minutes))
  {
    var s := FormatTime(t, true);
    assert s[|TodayPrefix|..] == ClockText(t.hours, t.minutes);
    ClockTextRoundTrip(t.hours, t.minutes);
  }

  /** On any other day the text reads back as month (from 1), day, year, hours and minutes. */
  lemma OtherDayRoundTrip(t: LocalTime)
    ensures ParseStamp(FormatTime(t, false)) == Some(On(t.month0 + 1, t.day, t.year, t.hours, t.minutes))
  {
    var s := FormatTime(t, false);
    var date, clock := DateText(t), ClockText(t.hours, t.minutes);
    var rest := " " + clock;
    assert s == date + [','] + rest;
    assert Split(s, ',') == [date, rest] by {
      DateTextRoundTrip(t);
      ClockTextRoundTrip(t.hours, t.minutes);
      assert ',' !in rest;
      SplitTwo(date, rest, ',');
    }
    assert rest[0] == ' ' && rest[1..] == clock;
    DateTextRoundTrip(t);
    ClockTextRoundTrip(t.hours, t.minutes);
  }

  /**
   * Every rendered time reads back as what was rendered: the hours and
   * minutes on the current day; otherwise the month counted from 1, the day,
   * the year, the hours and the minutes.
   */
  lemma FormatTimeRoundTrip(t: LocalTime, sameDay: bool)
    ensures ParseStamp(FormatTime(t, sameDay)) ==
      Some(if sameDay then TodayAt(t.hours, t.minutes) else On(t.month0 + 1, t.day, t.year, t.hours, t.minutes))
  {
    if sameDay {
      TodayRoundTrip(t);
    } else {
      OtherDayRoundTrip(t);
    }
  }

  /** Minutes of a well-formed time always print as two characters; hours print as one or two. */
  lemma ClockTextShape(t: LocalTime)
    requires WellFormed(t)
    ensures var s := ClockText(t.hours, t.minutes);
      |s| == |NatToString(t.hours)| + 3 && 1 <= |NatToString(t.hours)| <= 2
      && s[|s| - 3] == ':'
  {
  }
}
