/**
 * The message-selection part of `send_slack_notification`: the window shown
 * as HH:MM in UTC+9, and the zero-activity or the detailed message.
 */
module Notification {
  import opened Optional
  import opened Rounding
  import opened Metrics
  import opened Window
  import opened Summarizer

  /** The display timezone is UTC+9. */
  const DISPLAY_OFFSET: int := 9 * SECONDS_PER_HOUR

  const MENTION: string := "<!here>\n"
  const ZERO_ACTIVITY_SUFFIX: string := "は着信が0件でした。\n"
  const DETAILED_SUFFIX: string := "の受電状況は以下のとおりです。\n"

  function DigitChar(d: int): char
    requires 0 <= d < 10
  {
    ('0' as int + d) as char
  }

  function DigitValue(c: char): Option<int> {
    if '0' <= c <= '9' then Some(c as int - '0' as int) else None
  }

  /** `strftime("%H:%M")` of an hour and a minute. */
  function RenderClock(h: int, m: int): (s: string)
    requires 0 <= h < 24 && 0 <= m < 60
  {
    [DigitChar(h / 10), DigitChar(h % 10), ':', DigitChar(m / 10), DigitChar(m % 10)]
  }

  /** Reads an `HH:MM` text back into its hour and minute. */
  function ParseClock(s: string): Option<(int, int)> {
    if |s| != 5 || s[2] != ':' then None
    else match (DigitValue(s[0]), DigitValue(s[1]), DigitValue(s[3]), DigitValue(s[4]))
      case (Some(h1), Some(h0), Some(m1), Some(m0)) =>
        var h := 10 * h1 + h0;
        var m := 10 * m1 + m0;
        if h < 24 && m < 60 then Some((h, m)) else None
      case _ => None
  }

  lemma ParseRenderClock(h: int, m: int)
    requires 0 <= h < 24 && 0 <= m < 60
    ensures ParseClock(RenderClock(h, m)) == Some((h, m))
  {
  }

  /** Every text ParseClock accepts is exactly the rendering of what it returns. */
  lemma RenderParseClock(s: string, h: int, m: int)
    requires ParseClock(s) == Some((h, m))
    ensures RenderClock(h, m) == s
  {
    var r := RenderClock(h, m);
    assert r[0] == s[0] && r[1] == s[1] && r[2] == s[2] && r[3] == s[3] && r[4] == s[4];
  }

  /** The HH:MM shown for a timestamp, in the display timezone. */
  function ClockText(t: int): (s: string)
    ensures |s| == 5
    ensures ParseClock(s) == Some((HourOf(t + DISPLAY_OFFSET), MinuteOf(t + DISPLAY_OFFSET)))
  {
    ParseRenderClock(HourOf(t + DISPLAY_OFFSET), MinuteOf(t + DISPLAY_OFFSET));
    RenderClock(HourOf(t + DISPLAY_OFFSET), MinuteOf(t + DISPLAY_OFFSET))
  }

  /** The first line and the window: `<!here>\nHH:MM~HH:MM`. */
  function WindowHeadline(w: TimeWindow): string {
    MENTION + ClockText(w.start) + "~" + ClockText(w.end)
  }

  /**
   * The zero-activity message is all text; the detailed one keeps its figures
   * as values (the rendering of floats is not modelled).
   */
  datatype Message =
    | ZeroActivity(text: string)
    | Detailed(header: string, handledCount: int, createdCount: int, answerRate: real,
               serviceLevelCount: int, serviceLevel: real, avgQueueAnswerTime: real)

  function Headline(msg: Message): string {
    match msg
    case ZeroActivity(text) => text
    case Detailed(header, _, _, _, _, _, _) => header
  }

  /** Reads the start and end clocks back out of a message's first two lines. */
  function ParseWindow(text: string): Option<((int, int), (int, int))> {
    if |text| < 19 || text[..8] != MENTION || text[13] != '~' then None
    else match (ParseClock(text[8..13]), ParseClock(text[14..19]))
      case (Some(a), Some(b)) => Some((a, b))
      case _ => None
  }

  /** The source's zero-activity test: the three rounded rates are all 0. */
  predicate IsZeroActivity(s: Summary) {
    s.answerRate == 0.0 && s.serviceLevel == 0.0 && s.avgQueueAnswerTime == 0.0
  }

  /**
   * The message for a window and a summary: the zero-activity text exactly
   * when the three rates are 0, the detailed message otherwise, both starting
   * with the window shifted to the display timezone.
   */
  function ComposeMessage(w: TimeWindow, s: Summary): (msg: Message)
    ensures msg.ZeroActivity? <==> IsZeroActivity(s)
    ensures ParseWindow(Headline(msg)) ==
      Some(((HourOf(w.start + DISPLAY_OFFSET), MinuteOf(w.start + DISPLAY_OFFSET)),
            (HourOf(w.end + DISPLAY_OFFSET), MinuteOf(w.end + DISPLAY_OFFSET))))
    ensures msg.Detailed? ==>
      msg.handledCount == Trunc(s.contactsHandled) && msg.createdCount == Trunc(s.contactsCreated)
      && msg.answerRate == s.answerRate && msg.serviceLevelCount == s.serviceLevelCount
      && msg.serviceLevel == s.serviceLevel && msg.avgQueueAnswerTime == s.avgQueueAnswerTime
    ensures msg.ZeroActivity? ==> msg.text == WindowHeadline(w) + ZERO_ACTIVITY_SUFFIX
    ensures msg.Detailed? ==> msg.header == WindowHeadline(w) + DETAILED_SUFFIX
  {
    var headline := WindowHeadline(w);
    var suffix := if IsZeroActivity(s) then ZERO_ACTIVITY_SUFFIX else DETAILED_SUFFIX;
    HeadlineParses(w, suffix);
    if IsZeroActivity(s) then ZeroActivity(headline + suffix)
    else Detailed(headline + suffix, Trunc(s.contactsHandled), Trunc(s.contactsCreated), s.answerRate,
                  s.serviceLevelCount, s.serviceLevel, s.avgQueueAnswerTime)
  }

  lemma HeadlineParses(w: TimeWindow, suffix: string)
    ensures ParseWindow(WindowHeadline(w) + suffix) ==
      Some(((HourOf(w.start + DISPLAY_OFFSET), MinuteOf(w.start + DISPLAY_OFFSET)),
            (HourOf(w.end + DISPLAY_OFFSET), MinuteOf(w.end + DISPLAY_OFFSET))))
  {
    var text := WindowHeadline(w) + suffix;
    assert text[..8] == MENTION;
    assert text[8..13] == ClockText(w.start);
    assert text[13] == '~';
    assert text[14..19] == ClockText(w.end);
  }

  /** A whole number of hours shows minute 00 and its hour of the day. */
  lemma ClockOfWholeHours(k: int)
    ensures MinuteOf(SECONDS_PER_HOUR * k) == 0
    ensures HourOf(SECONDS_PER_HOUR * k) == k % 24
  {
    var q, r := k / 24, k % 24;
    assert SECONDS_PER_HOUR * k == SECONDS_PER_DAY * q + SECONDS_PER_HOUR * r;
    assert (SECONDS_PER_HOUR * k) % SECONDS_PER_DAY == SECONDS_PER_HOUR * r;
  }

  /** For a resolved window both clocks show minute 00 and the end is the next hour. */
  lemma WindowShownOnTheHour(now: int)
    ensures var w := GetTimeRange(now);
      MinuteOf(w.start + DISPLAY_OFFSET) == 0 && MinuteOf(w.end + DISPLAY_OFFSET) == 0
      && HourOf(w.end + DISPLAY_OFFSET) == (HourOf(w.start + DISPLAY_OFFSET) + 1) % 24
  {
    var w := GetTimeRange(now);
    var k := now / SECONDS_PER_HOUR;
    assert w.end == SECONDS_PER_HOUR * k;
    assert w.start + DISPLAY_OFFSET == SECONDS_PER_HOUR * (k + 8);
    assert w.end + DISPLAY_OFFSET == SECONDS_PER_HOUR * (k + 9);
    ClockOfWholeHours(k + 8);
    ClockOfWholeHours(k + 9);
  }

  /**
   * The zero-activity test ignores the contact counts: five contacts created,
   * none handled and no answer time give the "no contacts" message.
   */
  lemma ZeroActivityDespiteContacts(w: TimeWindow)
    ensures var s := SummaryOf([Metric(ContactsCreated, 5.0), Metric(ContactsHandled, 0.0),
                                Metric(AvgQueueAnswerTime, 0.0), Metric(ServiceLevel, 0.0)]);
      s.contactsCreated == 5.0 && ComposeMessage(w, s).ZeroActivity?
  {
    SummaryOfCollected(5.0, 0.0, 0.0, 0.0);
    Round2OfCents(0);
    assert 0.0 / 5.0 * 100.0 == 0.0 / 100.0;
  }
}
