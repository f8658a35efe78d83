/**
 * The next-occurrence resolver `getNextDateForSelection` (App.js:1992-2008):
 * the first instant after `now` that falls on a named weekday at an
 * "HH:MM" wall-clock time, with zero seconds and milliseconds.
 */
module Resolver {
  import opened Wrappers
  import opened Times

  /** `t` is on weekday `target` at minute `minute` of its day, with no seconds. */
  predicate Matches(target: nat, minute: nat, t: int)
  {
    Weekday(t) == target && t % DAY_MS == minute * MINUTE_MS
  }

  /** `t` is the earliest instant strictly after `now` that matches. */
  ghost predicate IsNextOccurrence(target: nat, minute: nat, now: int, t: int)
  {
    && t > now
    && Matches(target, minute, t)
    && forall u :: u > now && Matches(target, minute, u) ==> t <= u
  }

  /** There is at most one next occurrence. */
  lemma NextOccurrenceUnique(target: nat, minute: nat, now: int, t: int, u: int)
    requires IsNextOccurrence(target, minute, now, t) && IsNextOccurrence(target, minute, now, u)
    ensures t == u
  {
  }

  /**
   * `getNextDateForSelection(dayLabel, timeLabel)` with the clock reading
   * `now` passed in. `None` is the `null` it returns for an unknown day name
   * or an empty time label.
   */
  method NextDateForSelection(dayLabel: string, timeLabel: string, now: int) returns (r: Option<int>)
    requires timeLabel == "" || WellFormedTime(timeLabel)
    ensures r.None? <==> DayIndex(dayLabel).None? || timeLabel == ""
    ensures r.Some? ==> IsNextOccurrence(DayIndex(dayLabel).value, ParseTime(timeLabel), now, r.value)
    ensures r.Some? ==> r.value % MINUTE_MS == 0
    ensures r.Some? ==> r.value <= now + 7 * DAY_MS
    ensures r.Some? ==>
      var delta := (DayIndex(dayLabel).value - Weekday(now) + 7) % 7;
      var bumped := delta == 0 && ParseTime(timeLabel) * MINUTE_MS <= now % DAY_MS;
      DayNumber(r.value) == DayNumber(now) + delta + (if bumped then 7 else 0)
  {
    var targetDay := DayIndex(dayLabel);
    if targetDay.None? || timeLabel == "" {
      return None;
    }
    var hour := LabelHour(timeLabel);
    var minute := LabelMinute(timeLabel);
    var currentDay := Weekday(now);
    var delta := (targetDay.value - currentDay + 7) % 7;
    // result.setDate(now.getDate() + delta)
    var result := now + delta * DAY_MS;
    ShiftDays(now, delta);
    // result.setHours(hour, minute, 0, 0)
    result := DayNumber(result) * DAY_MS + hour * HOUR_MS + minute * MINUTE_MS;
    assert hour * HOUR_MS + minute * MINUTE_MS == ParseTime(timeLabel) * MINUTE_MS;
    if result <= now {
      // result.setDate(result.getDate() + 7)
      result := result + 7 * DAY_MS;
    }
    NextIsEarliest(targetDay.value, ParseTime(timeLabel), now, delta, result);
    return Some(result);
  }

  /** The resolver's arithmetic, on day numbers: its result is the next occurrence. */
  lemma NextIsEarliest(target: nat, minute: nat, now: int, delta: nat, result: int)
    requires target < 7 && minute < MINUTES_PER_DAY
    requires delta == (target - Weekday(now) + 7) % 7
    requires var candidate := (DayNumber(now) + delta) * DAY_MS + minute * MINUTE_MS;
      result == if candidate <= now then candidate + 7 * DAY_MS else candidate
    ensures IsNextOccurrence(target, minute, now, result)
    ensures result % MINUTE_MS == 0
    ensures result <= now + 7 * DAY_MS
    ensures DayNumber(result) == DayNumber(now) + delta
      + (if delta == 0 && minute * MINUTE_MS <= now % DAY_MS then 7 else 0)
  {
    var day := DayNumber(now);
    var ms := minute * MINUTE_MS;
    var candidate := (day + delta) * DAY_MS + ms;
    var bumped := delta == 0 && ms <= now % DAY_MS;
    var offset := if bumped then 7 else 0;
    CandidatePassed(day, now % DAY_MS, delta, ms);
    assert now == day * DAY_MS + now % DAY_MS;
    assert result == (day + delta + offset) * DAY_MS + ms;
    DayOfComposite(day + delta + offset, ms);
    WeekdayShift(day, delta + offset, target, Weekday(now));
    WholeMinutes(day + delta + offset, minute);
    forall u | u > now && Matches(target, minute, u) ensures result <= u {
      var du := DayNumber(u);
      assert u == du * DAY_MS + ms;
      DayAfter(day, now % DAY_MS, du, ms);
      SameWeekdayGap(du, day, target, Weekday(now), delta);
      LaterDay(day + delta + offset, du, ms);
    }
  }

  /** The un-bumped candidate is not after `now` exactly when it is today and its time has passed. */
  lemma CandidatePassed(day: int, rest: nat, delta: nat, ms: nat)
    requires rest < DAY_MS && ms < DAY_MS && delta < 7
    ensures var candidate := (day + delta) * DAY_MS + ms;
      var now := day * DAY_MS + rest;
      && (candidate <= now <==> delta == 0 && ms <= rest)
      && (candidate <= now ==> candidate + 7 * DAY_MS > now && candidate + 7 * DAY_MS <= now + 7 * DAY_MS)
      && (candidate > now ==> candidate <= now + 7 * DAY_MS)
  {
  }

  /** An instant after `now` at time of day `ms` is on `now`'s day or later. */
  lemma DayAfter(day: int, rest: nat, du: int, ms: nat)
    requires rest < DAY_MS && ms < DAY_MS
    requires du * DAY_MS + ms > day * DAY_MS + rest
    ensures du >= day
    ensures du == day ==> ms > rest
  {
  }

  /** At the same time of day, a later day number gives a later instant. */
  lemma LaterDay(d: int, du: int, ms: nat)
    requires d <= du
    ensures d * DAY_MS + ms <= du * DAY_MS + ms
  {
  }

  /** `setDate(getDate() + k)` keeps the time of day and moves the day number by `k`. */
  lemma ShiftDays(t: int, k: int)
    ensures DayNumber(t + k * DAY_MS) == DayNumber(t) + k
  {
    assert t + k * DAY_MS == (DayNumber(t) + k) * DAY_MS + t % DAY_MS;
    DayOfComposite(DayNumber(t) + k, t % DAY_MS);
  }

  /** An instant built from a day number and a time of day decomposes back into them. */
  lemma DayOfComposite(d: int, ms: nat)
    requires ms < DAY_MS
    ensures (d * DAY_MS + ms) / DAY_MS == d
    ensures (d * DAY_MS + ms) % DAY_MS == ms
  {
  }

  /** Midnight plus whole minutes is a whole number of minutes. */
  lemma WholeMinutes(d: int, minute: nat)
    ensures (d * DAY_MS + minute * MINUTE_MS) % MINUTE_MS == 0
  {
    assert d * DAY_MS + minute * MINUTE_MS == (d * MINUTES_PER_DAY + minute) * MINUTE_MS;
  }

  /** Moving `k` days on from a day with weekday `current` lands on `target`, when `k` is `delta` modulo 7. */
  lemma WeekdayShift(day: int, k: nat, target: nat, current: nat)
    requires target < 7 && (day + EPOCH_WEEKDAY) % 7 == current
    requires k % 7 == (target - current + 7) % 7
    ensures (day + k + EPOCH_WEEKDAY) % 7 == target
  {
  }

  /** Two days with weekdays `target` and `current` are `delta` days apart, modulo a week. */
  lemma SameWeekdayGap(du: int, day: int, target: nat, current: nat, delta: nat)
    requires du >= day
    requires (du + EPOCH_WEEKDAY) % 7 == target && (day + EPOCH_WEEKDAY) % 7 == current
    requires delta == (target - current + 7) % 7
    ensures du - day == delta || du - day >= delta + 7
  {
    assert (du - day) % 7 == delta;
  }

  /**
   * A Wednesday at 10:00 asking for "Wednesday" at "09:00" gets the next
   * week's Wednesday 09:00, seven days less one hour later. (Day 6 of the
   * epoch was a Wednesday.)
   */
  lemma WednesdayMorningAlreadyPassed()
    ensures var now := 6 * DAY_MS + 10 * HOUR_MS;
      Weekday(now) == 3 && IsNextOccurrence(3, 9 * 60, now, now + 7 * DAY_MS - HOUR_MS)
  {
    var now := 6 * DAY_MS + 10 * HOUR_MS;
    DayOfComposite(6, 10 * HOUR_MS);
    NextIsEarliest(3, 9 * 60, now, 0, now + 7 * DAY_MS - HOUR_MS);
  }
}
