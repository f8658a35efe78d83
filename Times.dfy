/**
 * Instants, weekdays and "HH:MM" time-of-day labels, and the grid of
 * half-hour slots that the admin schedule is drawn on (App.js:34-56).
 *
 * An instant is a number of milliseconds of local wall-clock time since the
 * epoch, which fell on a Thursday; no time zone or daylight-saving shift is
 * applied, as the app compares and builds dates in one local frame.
 */
module Times {
  import opened Wrappers
  import opened Decimal

  const MINUTE_MS: nat := 60 * 1000
  const HOUR_MS: nat := 60 * MINUTE_MS
  const DAY_MS: nat := 24 * HOUR_MS
  const MINUTES_PER_DAY: nat := 24 * 60
  /** getDay() of the epoch's first day (a Thursday). */
  const EPOCH_WEEKDAY: nat := 4

  /** The local calendar day an instant falls on. */
  function DayNumber(t: int): int { t / DAY_MS }

  /** `Date.prototype.getDay()`: 0 is Sunday. */
  function Weekday(t: int): (w: nat)
    ensures w < 7
  {
    (DayNumber(t) + EPOCH_WEEKDAY) % 7
  }

  /** `getHours() * 60 + getMinutes()` */
  function MinuteOfDay(t: int): (m: nat)
    ensures m < MINUTES_PER_DAY
  {
    (t % DAY_MS) / MINUTE_MS
  }

  /** `WEEKDAYS` of the admin screen, indexed by `getDay()` (App.js:773). */
  const WEEKDAYS: seq<string> :=
    ["Sunday", "Monday", "Tuesday", "Wednesday", "Thursday", "Friday", "Saturday"]

  /** `DAY_NAME_TO_INDEX[name]` (App.js:34-42); `None` is `undefined`. */
  function DayIndex(name: string): (r: Option<nat>)
    ensures r.Some? ==> r.value < 7 && WEEKDAYS[r.value] == name
    ensures r.None? ==> name !in WEEKDAYS
  {
    if name == "Sunday" then Some(0)
    else if name == "Monday" then Some(1)
    else if name == "Tuesday" then Some(2)
    else if name == "Wednesday" then Some(3)
    else if name == "Thursday" then Some(4)
    else if name == "Friday" then Some(5)
    else if name == "Saturday" then Some(6)
    else None
  }

  /** The two lookup tables agree: every weekday name maps back to its index. */
  lemma DayIndexOfWeekday(k: nat)
    requires k < 7
    ensures DayIndex(WEEKDAYS[k]) == Some(k)
  {
  }

  /** A well-formed "HH:MM" label: two digits, a colon, two digits, on a 24-hour clock. */
  predicate WellFormedTime(s: string)
  {
    && |s| == 5
    && IsDigit(s[0]) && IsDigit(s[1]) && s[2] == ':' && IsDigit(s[3]) && IsDigit(s[4])
    && DigitValue(s[0]) * 10 + DigitValue(s[1]) < 24
    && DigitValue(s[3]) * 10 + DigitValue(s[4]) < 60
  }

  /** `Number(hourStr)` after `timeLabel.split(':')` */
  function LabelHour(s: string): (h: nat)
    requires WellFormedTime(s)
    ensures h < 24
  {
    DigitValue(s[0]) * 10 + DigitValue(s[1])
  }

  /** `Number(minuteStr)` after `timeLabel.split(':')` */
  function LabelMinute(s: string): (m: nat)
    requires WellFormedTime(s)
    ensures m < 60
  {
    DigitValue(s[3]) * 10 + DigitValue(s[4])
  }

  /** Minutes after midnight named by a label. */
  function ParseTime(s: string): (m: nat)
    requires WellFormedTime(s)
    ensures m < MINUTES_PER_DAY
  {
    LabelHour(s) * 60 + LabelMinute(s)
  }

  /** The zero-padded label of a minute of the day, as the slot loop and the schedule build it. */
  function TimeLabel(m: nat): (s: string)
    requires m < MINUTES_PER_DAY
    ensures WellFormedTime(s) && ParseTime(s) == m
  {
    Pad2(m / 60) + ":" + Pad2(m % 60)
  }

  /** Well-formed labels are canonical: parsing and re-rendering gives the label back. */
  lemma TimeLabelOfParse(s: string)
    requires WellFormedTime(s)
    ensures TimeLabel(ParseTime(s)) == s
  {
    var m := ParseTime(s);
    assert m / 60 == LabelHour(s) && m % 60 == LabelMinute(s);
    var r := TimeLabel(m);
    assert r[0] == s[0] && r[1] == s[1] && r[2] == s[2] && r[3] == s[3] && r[4] == s[4];
  }

  /** Two labels name the same minute only if they are the same label. */
  lemma ParseTimeInjective(s: string, u: string)
    requires WellFormedTime(s) && WellFormedTime(u)
    requires ParseTime(s) == ParseTime(u)
    ensures s == u
  {
    TimeLabelOfParse(s);
    TimeLabelOfParse(u);
  }

  const FIRST_SLOT: nat := 9 * 60
  const LAST_SLOT: nat := 18 * 60 + 30
  const SLOT_STEP: nat := 30
  const SLOT_COUNT: nat := 20

  /** A minute of the day that is one of the schedule's half-hour slots. */
  predicate OnSlotGrid(m: nat)
  {
    FIRST_SLOT <= m <= LAST_SLOT && (m - FIRST_SLOT) % SLOT_STEP == 0
  }

  /**
   * `HALF_HOUR_SLOTS` (App.js:43-56): the labels from 09:00 to 18:30 inclusive
   * in 30-minute steps, built by the same loop.
   */
  method HalfHourSlots() returns (slots: seq<string>)
    ensures |slots| == SLOT_COUNT
    ensures forall i | 0 <= i < |slots| ::
      WellFormedTime(slots[i]) && ParseTime(slots[i]) == FIRST_SLOT + SLOT_STEP * i
    ensures forall i, j | 0 <= i < j < |slots| :: ParseTime(slots[i]) < ParseTime(slots[j])
    ensures slots[0] == "09:00" && slots[SLOT_COUNT - 1] == "18:30"
    ensures forall s :: s in slots <==> WellFormedTime(s) && OnSlotGrid(ParseTime(s))
  {
    slots := [];
    var minutes := 9 * 60;
    var end := 18 * 60 + 30;
    ghost var count := 0;
    while minutes <= end
      invariant minutes == FIRST_SLOT + SLOT_STEP * count
      invariant 0 <= count <= SLOT_COUNT && |slots| == count
      invariant forall i | 0 <= i < |slots| :: slots[i] == TimeLabel(FIRST_SLOT + SLOT_STEP * i)
    {
      var hour := minutes / 60;
      var minute := minutes % 60;
      slots := slots + [Pad2(hour) + ":" + Pad2(minute)];
      minutes := minutes + 30;
      count := count + 1;
    }
    SlotGridFacts(slots);
  }

  lemma SlotGridFacts(slots: seq<string>)
    requires |slots| == SLOT_COUNT
    requires forall i | 0 <= i < |slots| :: slots[i] == TimeLabel(FIRST_SLOT + SLOT_STEP * i)
    ensures forall i | 0 <= i < |slots| ::
      WellFormedTime(slots[i]) && ParseTime(slots[i]) == FIRST_SLOT + SLOT_STEP * i
    ensures forall i, j | 0 <= i < j < |slots| :: ParseTime(slots[i]) < ParseTime(slots[j])
    ensures slots[0] == "09:00" && slots[SLOT_COUNT - 1] == "18:30"
    ensures forall s :: s in slots <==> WellFormedTime(s) && OnSlotGrid(ParseTime(s))
  {
    FirstSlotLabel();
    LastSlotLabel();
    forall s | WellFormedTime(s) && OnSlotGrid(ParseTime(s)) ensures s in slots {
      var i := (ParseTime(s) - FIRST_SLOT) / SLOT_STEP;
      assert ParseTime(slots[i]) == ParseTime(s);
      ParseTimeInjective(slots[i], s);
    }
  }

  lemma FirstSlotLabel()
    ensures TimeLabel(FIRST_SLOT) == "09:00"
  {
  }

  lemma LastSlotLabel()
    ensures TimeLabel(LAST_SLOT) == "18:30"
  {
  }
}
