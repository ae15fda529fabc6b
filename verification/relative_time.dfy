/**
 * Relative publication time: whole seconds elapsed since publication are bucketed into
 * "Just now", minutes, hours, or the calendar date; an unparseable timestamp gives "".
 */
module RelativeTime {
  import opened Wrappers
  import opened Decimal
  import opened Articles

  const Minute: int := 60
  const Hour: int := 3600
  const Day: int := 86400

  datatype Age = JustNow | MinutesAgo(minutes: nat) | HoursAgo(hours: nat) | OnDate(date: string)

  /** The bucket for `elapsed` seconds (negative when the timestamp lies in the future). */
  function Bucket(elapsed: int, date: string): (a: Age)
    ensures a.JustNow? <==> elapsed < Minute
    ensures a.MinutesAgo? <==> Minute <= elapsed < Hour
    ensures a.HoursAgo? <==> Hour <= elapsed < Day
    ensures a.OnDate? <==> Day <= elapsed
    ensures a.MinutesAgo? ==> 1 <= a.minutes <= 59 && a.minutes * Minute <= elapsed < (a.minutes + 1) * Minute
    ensures a.HoursAgo? ==> 1 <= a.hours <= 23 && a.hours * Hour <= elapsed < (a.hours + 1) * Hour
    ensures a.OnDate? ==> a.date == date
  {
    if elapsed < Minute then JustNow
    else if elapsed < Hour then MinutesAgo(elapsed / Minute)
    else if elapsed < Day then HoursAgo(elapsed / Hour)
    else OnDate(date)
  }

  const JustNowLabel: string := "Just now"
  const MinutesSuffix: string := " min ago"
  const HoursSuffix: string := " hrs ago"

  function Render(a: Age): string
  {
    match a
    case JustNow => JustNowLabel
    case MinutesAgo(m) => NatToString(m) + MinutesSuffix
    case HoursAgo(h) => NatToString(h) + HoursSuffix
    case OnDate(d) => d
  }

  /** `relative_time`: the label for a publication time read at clock `now`. */
  function Relative(published: Option<ParsedTime>, now: int): (s: string)
    ensures published.None? ==> s == ""
  {
    match published
    case None => ""
    case Some(p) => Render(Bucket(now - p.epochSeconds, p.calendarDate))
  }

  /** Digits as `str` writes a count: no leading zero unless the count is zero itself. */
  predicate CanonicalDigits(d: string)
  {
    AllDigits(d) && (|d| > 1 ==> d[0] != '0')
  }

  /** Reads a relative label back into its bucket: it reads back what Render writes. */
  function ReadLabel(s: string): Option<Age>
  {
    if s == JustNowLabel then Some(JustNow)
    else if |s| > |MinutesSuffix| && s[|s| - |MinutesSuffix|..] == MinutesSuffix && CanonicalDigits(s[..|s| - |MinutesSuffix|]) then
      Some(MinutesAgo(DigitsValue(s[..|s| - |MinutesSuffix|])))
    else if |s| > |HoursSuffix| && s[|s| - |HoursSuffix|..] == HoursSuffix && CanonicalDigits(s[..|s| - |HoursSuffix|]) then
      Some(HoursAgo(DigitsValue(s[..|s| - |HoursSuffix|])))
    else None
  }

  /** A zero-padded count is not a label `str` writes, so it does not read back. */
  lemma ZeroPaddedLabelIsRejected()
    ensures ReadLabel("07 min ago") == None
    ensures ReadLabel("7 min ago") == Some(MinutesAgo(7))
  {
    var s := "07 min ago";
    assert s[..|s| - |MinutesSuffix|] == "07";
    assert s[|s| - |HoursSuffix|..] != HoursSuffix by { assert s[3] == 'm'; }
    var t := "7 min ago";
    assert t[..|t| - |MinutesSuffix|] == "7";
    assert t[|t| - |MinutesSuffix|..] == MinutesSuffix;
    assert t != JustNowLabel by { assert |t| == 9 && |JustNowLabel| == 8; }
    assert "7"[..0] == [];
    assert DigitsValue("7") == 7;
  }

  /** Relative labels are unambiguous: each one reads back as the bucket and count it was made from. */
  lemma {:induction false} RenderReadBack(a: Age)
    requires !a.OnDate?
    ensures ReadLabel(Render(a)) == Some(a)
  {
    match a
    case JustNow =>
    case MinutesAgo(m) =>
      var s := Render(a);
      var digits := NatToString(m);
      assert s[..|s| - |MinutesSuffix|] == digits;
      assert s[|s| - |MinutesSuffix|..] == MinutesSuffix;
      assert s != JustNowLabel by { assert s[|s| - 1] == 'o' && JustNowLabel[|JustNowLabel| - 1] == 'w'; }
      NatToStringRoundTrip(m);
    case HoursAgo(h) =>
      var s := Render(a);
      var digits := NatToString(h);
      assert s[..|s| - |HoursSuffix|] == digits;
      assert s[|s| - |HoursSuffix|..] == HoursSuffix;
      assert s != JustNowLabel by { assert s[|s| - 1] == 'o' && JustNowLabel[|JustNowLabel| - 1] == 'w'; }
      assert s[|s| - |MinutesSuffix|..] != MinutesSuffix by {
        assert s[|s| - 7] == 'h' && MinutesSuffix[1] == 'm';
      }
      NatToStringRoundTrip(h);
  }

  /** The label of an article published `elapsed` seconds ago names the bucket `elapsed` falls in. */
  lemma RelativeLabelBuckets(p: ParsedTime, now: int)
    ensures var elapsed := now - p.epochSeconds;
      var s := Relative(Some(p), now);
      && (elapsed < Minute ==> s == JustNowLabel)
      && (Minute <= elapsed < Hour ==>
            exists m: nat :: (1 <= m <= 59 && s == NatToString(m) + MinutesSuffix &&
                              ReadLabel(s) == Some(MinutesAgo(m)) && m * Minute <= elapsed < (m + 1) * Minute))
      && (Hour <= elapsed < Day ==>
            exists h: nat :: (1 <= h <= 23 && s == NatToString(h) + HoursSuffix &&
                              ReadLabel(s) == Some(HoursAgo(h)) && h * Hour <= elapsed < (h + 1) * Hour))
      && (Day <= elapsed ==> s == p.calendarDate)
  {
    var a := Bucket(now - p.epochSeconds, p.calendarDate);
    var s := Relative(Some(p), now);
    assert s == Render(a);
    if !a.OnDate? {
      RenderReadBack(a);
    }
    if a.MinutesAgo? {
      var m := a.minutes;
      assert 1 <= m <= 59 && s == NatToString(m) + MinutesSuffix && ReadLabel(s) == Some(MinutesAgo(m));
    } else if a.HoursAgo? {
      var h := a.hours;
      assert 1 <= h <= 23 && s == NatToString(h) + HoursSuffix && ReadLabel(s) == Some(HoursAgo(h));
    }
  }
}
