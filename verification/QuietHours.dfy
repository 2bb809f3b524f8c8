/** Quiet hours (notifier.service.ts, notify-dispatch.processor.ts): reading the two
    bounds, how long a message waits, and that it waits at most once. */
module QuietHours {
  import opened Common
  import opened Text

  const MINUTE_MS := 60000
  const DAY_MINUTES := 1440

  type Minute = m: int | 0 <= m < 1440

  /** Vietnam is seven hours ahead of UTC. */
  const OFFSET_MS := 25200000

  // ---- Reading a time of day ----

  function DigitValue(c: char): (d: int)
    requires IsDigit(c)
    ensures 0 <= d <= 9
  {
    c as int - '0' as int
  }

  function TimeOfDay(h: nat, m: nat): Option<Minute> {
    if 23 < h || 59 < m then None else Some(h * 60 + m)
  }

  /** One or two digits, a colon, two digits; spaces around them are ignored. */
  function ParseHhMm(value: string): Option<Minute> {
    var t := Trim(value);
    if |t| == 4 && IsDigit(t[0]) && t[1] == ':' && IsDigit(t[2]) && IsDigit(t[3]) then
      TimeOfDay(DigitValue(t[0]), DigitValue(t[2]) * 10 + DigitValue(t[3]))
    else if |t| == 5 && IsDigit(t[0]) && IsDigit(t[1]) && t[2] == ':' && IsDigit(t[3]) && IsDigit(t[4]) then
      TimeOfDay(DigitValue(t[0]) * 10 + DigitValue(t[1]), DigitValue(t[3]) * 10 + DigitValue(t[4]))
    else None
  }

  function TwoDigits(n: int): (s: string)
    requires 0 <= n < 100
    ensures |s| == 2 && AllDigits(s)
  {
    [Digit(n / 10), Digit(n % 10)]
  }

  function FormatHhMm(minute: int): string
    requires 0 <= minute < DAY_MINUTES
  {
    TwoDigits(minute / 60) + ":" + TwoDigits(minute % 60)
  }

  function FormatHMm(minute: int): string
    requires 0 <= minute < 600
  {
    [Digit(minute / 60)] + ":" + TwoDigits(minute % 60)
  }

  lemma DigitsRead(n: int)
    requires 0 <= n < 100
    ensures DigitValue(TwoDigits(n)[0]) * 10 + DigitValue(TwoDigits(n)[1]) == n
  {
  }

  lemma DigitsWrite(a: char, b: char)
    requires IsDigit(a) && IsDigit(b)
    ensures TwoDigits(DigitValue(a) * 10 + DigitValue(b)) == [a, b]
  {
    var n := DigitValue(a) * 10 + DigitValue(b);
    assert n / 10 == DigitValue(a) && n % 10 == DigitValue(b);
  }

  lemma FormatIsRead(minute: int)
    requires 0 <= minute < DAY_MINUTES
    ensures forall value :: Trim(value) == FormatHhMm(minute) ==> ParseHhMm(value) == Some(minute)
    ensures minute < 600 ==> forall value :: Trim(value) == FormatHMm(minute) ==> ParseHhMm(value) == Some(minute)
  {
    DigitsRead(minute / 60);
    DigitsRead(minute % 60);
  }

  lemma TimeParts(h: int, m: int)
    requires 0 <= h < 24 && 0 <= m < 60
    ensures (h * 60 + m) / 60 == h && (h * 60 + m) % 60 == m && 0 <= h * 60 + m < DAY_MINUTES
  {
  }

  lemma ReadShort(value: string, minute: int)
    requires |Trim(value)| == 4 && ParseHhMm(value) == Some(minute)
    ensures 0 <= minute < 600 && Trim(value) == FormatHMm(minute)
  {
    var t := Trim(value);
    DigitsWrite(t[2], t[3]);
    TimeParts(DigitValue(t[0]), DigitValue(t[2]) * 10 + DigitValue(t[3]));
    assert t == [t[0]] + ":" + [t[2], t[3]];
  }

  lemma ReadLong(value: string, minute: int)
    requires |Trim(value)| == 5 && ParseHhMm(value) == Some(minute)
    ensures 0 <= minute < DAY_MINUTES && Trim(value) == FormatHhMm(minute)
  {
    var t := Trim(value);
    DigitsWrite(t[0], t[1]);
    DigitsWrite(t[3], t[4]);
    TimeParts(DigitValue(t[0]) * 10 + DigitValue(t[1]), DigitValue(t[3]) * 10 + DigitValue(t[4]));
    assert t == [t[0], t[1]] + ":" + [t[3], t[4]];
  }

  /** A text is read as a minute of the day exactly when, trimmed, it is that minute
      written with a two-digit hour, or with a one-digit hour before ten. */
  lemma ParseIff(value: string, minute: int)
    ensures ParseHhMm(value) == Some(minute) <==>
            0 <= minute < DAY_MINUTES
            && (Trim(value) == FormatHhMm(minute) || (minute < 600 && Trim(value) == FormatHMm(minute)))
  {
    if ParseHhMm(value) == Some(minute) {
      if |Trim(value)| == 4 {
        ReadShort(value, minute);
      } else {
        ReadLong(value, minute);
      }
    } else if 0 <= minute < DAY_MINUTES {
      FormatIsRead(minute);
    }
  }

  // ---- How long to wait ----

  function LocalMinute(now: int): (m: int)
    ensures 0 <= m < DAY_MINUTES
  {
    (now + OFFSET_MS) / MINUTE_MS % DAY_MINUTES
  }

  predicate InQuiet(start: int, end: int, minute: int) {
    if start < end then start <= minute < end else start <= minute || minute < end
  }

  /** Milliseconds to wait, given the two bounds in minutes of the day. */
  function DeferMs(start: int, end: int, now: int): int {
    if start == end || !InQuiet(start, end, LocalMinute(now)) then 0
    else
      var untilEnd := end - LocalMinute(now);
      (if untilEnd <= 0 then untilEnd + DAY_MINUTES else untilEnd) * MINUTE_MS
  }

  /** A bound as the preferences have it: missing, unreadable, or a minute of the day. */
  function Bound(text: Option<string>): Option<Minute> {
    if text.None? then None else ParseHhMm(text.value)
  }

  /** No wait when a bound is missing or cannot be read. */
  function WaitMs(start: Option<Minute>, end: Option<Minute>, now: int): int {
    if start.None? || end.None? then 0 else DeferMs(start.value, end.value, now)
  }

  function QuietHoursDeferMs(start: Option<string>, end: Option<string>, now: int): int {
    WaitMs(Bound(start), Bound(end), now)
  }

  // ---- The clock as a circle ----

  predicate IsMinute(m: int) {
    0 <= m < DAY_MINUTES
  }

  /** Minutes from a to b going forward round the clock. */
  function Ahead(a: int, b: int): (r: int)
    ensures IsMinute(r)
  {
    (b - a) % DAY_MINUTES
  }

  lemma AheadCases(a: int, b: int)
    requires IsMinute(a) && IsMinute(b)
    ensures Ahead(a, b) == if a <= b then b - a else b - a + DAY_MINUTES
  {
  }

  /** Quiet is the arc of the clock from start to end, over midnight or not, and the
      wait is the rest of that arc, in whole minutes. */
  lemma DeferIsRestOfTheArc(s: int, e: int, now: int)
    requires IsMinute(s) && IsMinute(e)
    ensures var gone, arc := Ahead(s, LocalMinute(now)), Ahead(s, e);
            DeferMs(s, e, now) == if gone < arc then (arc - gone) * MINUTE_MS else 0
  {
    AheadCases(s, e);
    AheadCases(s, LocalMinute(now));
  }

  lemma LaterMinute(s: int, now: int, x: int)
    requires 0 <= x && IsMinute(s)
    ensures var j := (now % MINUTE_MS + x) / MINUTE_MS;
            LocalMinute(now + x) == (LocalMinute(now) + j) % DAY_MINUTES
            && (Ahead(s, LocalMinute(now)) + j < DAY_MINUTES ==>
                  Ahead(s, LocalMinute(now + x)) == Ahead(s, LocalMinute(now)) + j)
  {
    var j := (now % MINUTE_MS + x) / MINUTE_MS;
    var minutes := (now + OFFSET_MS) / MINUTE_MS;
    assert (now + x + OFFSET_MS) / MINUTE_MS == minutes + j;
    var days := minutes / DAY_MINUTES;
    assert minutes == days * DAY_MINUTES + LocalMinute(now);
    assert (minutes + j) % DAY_MINUTES == (LocalMinute(now) + j) % DAY_MINUTES;
    AheadCases(s, LocalMinute(now));
    AheadCases(s, LocalMinute(now + x));
  }

  // ---- Main results ----

  /** The arithmetic of the wait: `gone` and `arc` minutes along the clock, r
      milliseconds into the minute. */
  lemma WaitArithmetic(gone: int, arc: int, r: int, x: int)
    requires 0 <= gone < arc < DAY_MINUTES && 0 <= r < MINUTE_MS && 0 <= x
    ensures var d, j := (arc - gone) * MINUTE_MS, (r + x) / MINUTE_MS;
            && d < DAY_MINUTES * MINUTE_MS && d % MINUTE_MS == 0 && 0 < d - r <= d < d - r + MINUTE_MS
            && (x < d - r ==> gone + j < arc)
            && (d - r <= x < d - r + (DAY_MINUTES - arc) * MINUTE_MS ==> arc <= gone + j < DAY_MINUTES)
  {
  }

  /** A message found in quiet hours waits less than a day, in whole minutes.  Every
      instant up to the end of quiet hours, and no instant from there until they start
      again, would make it wait; the wait ends within the first minute after them. */
  lemma WaitEndsWithQuietHours(s: int, e: int, now: int, x: int)
    requires IsMinute(s) && IsMinute(e) && 0 <= x
    requires 0 < DeferMs(s, e, now)
    ensures var d := DeferMs(s, e, now);
            var quietEnds := d - now % MINUTE_MS;
            && d < DAY_MINUTES * MINUTE_MS && d % MINUTE_MS == 0 && 0 < quietEnds <= d < quietEnds + MINUTE_MS
            && (x < quietEnds ==> 0 < DeferMs(s, e, now + x))
            && (quietEnds <= x < quietEnds + Ahead(e, s) * MINUTE_MS ==> DeferMs(s, e, now + x) == 0)
  {
    DeferIsRestOfTheArc(s, e, now);
    DeferIsRestOfTheArc(s, e, now + x);
    AheadCases(s, e);
    AheadCases(e, s);
    LaterMinute(s, now, x);
    WaitArithmetic(Ahead(s, LocalMinute(now)), Ahead(s, e), now % MINUTE_MS, x);
  }

  /** Looking again when the wait is over never makes the message wait again, nor does
      looking late, up to the length of the day outside quiet hours less one minute. */
  lemma WaitsOnce(s: int, e: int, now: int, lag: int)
    requires IsMinute(s) && IsMinute(e) && 0 < DeferMs(s, e, now)
    requires 0 <= lag <= (Ahead(e, s) - 1) * MINUTE_MS
    ensures DeferMs(s, e, now + DeferMs(s, e, now) + lag) == 0
  {
    WaitEndsWithQuietHours(s, e, now, DeferMs(s, e, now) + lag);
  }
}
