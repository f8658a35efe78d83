/**
 * The admin schedule grid: one barber's bookings projected onto a
 * weekday-by-`HH:MM` map, with later bookings overwriting earlier ones in
 * the same cell.
 */
module Schedule {
  import opened Wrappers
  import opened Collections
  import opened Times
  import opened Resolver
  import opened AppState

  type Grid = map<string, map<string, Record<Reservation>>>

  /** The weekday name and zero-padded `HH:MM` label of an instant. */
  function Cell(t: int): (c: (string, string))
    ensures WellFormedTime(c.1) && ParseTime(c.1) == MinuteOfDay(t)
  {
    (WEEKDAYS[Weekday(t)], TimeLabel(MinuteOfDay(t)))
  }

  /** The day of a cell names the instant's weekday. */
  lemma CellDay(t: int)
    ensures DayIndex(Cell(t).0) == Some(Weekday(t))
  {
    DayIndexOfWeekday(Weekday(t));
  }

  /** `map[day][slot] = r` for a booking of the selected barber; other bookings are skipped. */
  function Place(m: Grid, r: Record<Reservation>, tab: string): Grid
  {
    if r.data.barber != tab then m
    else
      var (day, slot) := Cell(r.data.dateTime);
      var row := if day in m then m[day] else map[];
      m[day := row[slot := r]]
  }

  /** Reference definition: the bookings placed one after another, in list order. */
  function Lookup(rs: seq<Record<Reservation>>, tab: string): (m: Grid)
    ensures forall day | day in m :: |m[day]| > 0
    decreases |rs|
  {
    if rs == [] then map[] else Place(Lookup(rs[..|rs| - 1], tab), rs[|rs| - 1], tab)
  }

  /** `reservationLookup`: the `forEach` that fills the grid. */
  method ReservationLookup(rs: seq<Record<Reservation>>, tab: string) returns (m: Grid)
    ensures m == Lookup(rs, tab)
    ensures forall day, slot | day in m && slot in m[day] ::
      m[day][slot] in rs && m[day][slot].data.barber == tab && Cell(m[day][slot].data.dateTime) == (day, slot)
  {
    m := map[];
    for i := 0 to |rs|
      invariant m == Lookup(rs[..i], tab)
    {
      LookupStep(rs, i, tab);
      var r := rs[i];
      if r.data.barber != tab {
        continue;
      }
      ghost var before := m;
      var dt := r.data.dateTime;
      var day := WEEKDAYS[Weekday(dt)];
      var slot := TimeLabel(MinuteOfDay(dt));
      if day !in m {
        m := m[day := map[]];
      }
      m := m[day := m[day][slot := r]];
      assert m == Place(before, r, tab);
    }
    assert rs[..|rs|] == rs;
    LookupSound(rs, tab);
  }

  /** One more booking of the list is one more placement. */
  lemma LookupStep(rs: seq<Record<Reservation>>, i: nat, tab: string)
    requires i < |rs|
    ensures Lookup(rs[..i + 1], tab) == Place(Lookup(rs[..i], tab), rs[i], tab)
  {
    assert rs[..i + 1][..i] == rs[..i];
  }

  /** Every entry is a booking of the selected barber from the list, filed under its own cell. */
  lemma {:induction false} LookupSound(rs: seq<Record<Reservation>>, tab: string)
    ensures forall day, slot | day in Lookup(rs, tab) && slot in Lookup(rs, tab)[day] ::
      var r := Lookup(rs, tab)[day][slot];
      r in rs && r.data.barber == tab && Cell(r.data.dateTime) == (day, slot)
    decreases |rs|
  {
    if rs != [] {
      var init := rs[..|rs| - 1];
      LookupSound(init, tab);
      FiledInLonger(Lookup(init, tab), init, rs, tab);
      PlaceFiled(Lookup(init, tab), rs[|rs| - 1], rs, tab);
    }
  }

  /** Every entry of `m` is a booking of `tab` from `rs`, filed under its own cell. */
  predicate Filed(m: Grid, rs: seq<Record<Reservation>>, tab: string)
  {
    forall day, slot | day in m && slot in m[day] ::
      m[day][slot] in rs && m[day][slot].data.barber == tab && Cell(m[day][slot].data.dateTime) == (day, slot)
  }

  /** Entries filed from a prefix are filed from the whole list. */
  lemma FiledInLonger(m: Grid, init: seq<Record<Reservation>>, rs: seq<Record<Reservation>>, tab: string)
    requires Filed(m, init, tab) && |init| < |rs| && init == rs[..|init|]
    ensures Filed(m, rs, tab)
  {
    forall x | x in init ensures x in rs {
      var i :| 0 <= i < |init| && init[i] == x;
      assert rs[i] == x;
    }
  }

  /** Placing a booking from the list keeps every entry filed. */
  lemma PlaceFiled(m: Grid, r: Record<Reservation>, rs: seq<Record<Reservation>>, tab: string)
    requires Filed(m, rs, tab) && r in rs
    ensures Filed(Place(m, r, tab), rs, tab)
  {
  }

  /** Every booking of the selected barber has its cell filled. */
  lemma {:induction false} LookupComplete(rs: seq<Record<Reservation>>, tab: string, i: nat)
    requires i < |rs| && rs[i].data.barber == tab
    ensures Cell(rs[i].data.dateTime).0 in Lookup(rs, tab)
    ensures Cell(rs[i].data.dateTime).1 in Lookup(rs, tab)[Cell(rs[i].data.dateTime).0]
    decreases |rs|
  {
    var init := rs[..|rs| - 1];
    if i < |rs| - 1 {
      assert rs[i] == init[i];
      LookupComplete(init, tab, i);
    }
  }

  /** The entry of a cell is the last booking of the selected barber that falls in it. */
  lemma {:induction false} LookupLastWins(rs: seq<Record<Reservation>>, tab: string, i: nat)
    requires i < |rs| && rs[i].data.barber == tab
    requires forall j | i < j < |rs| :: rs[j].data.barber != tab || Cell(rs[j].data.dateTime) != Cell(rs[i].data.dateTime)
    ensures Cell(rs[i].data.dateTime).0 in Lookup(rs, tab)
    ensures Cell(rs[i].data.dateTime).1 in Lookup(rs, tab)[Cell(rs[i].data.dateTime).0]
    ensures Lookup(rs, tab)[Cell(rs[i].data.dateTime).0][Cell(rs[i].data.dateTime).1] == rs[i]
    decreases |rs|
  {
    var init := rs[..|rs| - 1];
    if i < |rs| - 1 {
      assert rs[i] == init[i];
      forall j | i < j < |init| ensures init[j].data.barber != tab || Cell(init[j].data.dateTime) != Cell(init[i].data.dateTime) {
        assert init[j] == rs[j];
      }
      LookupLastWins(init, tab, i);
      var (day, slot) := Cell(rs[i].data.dateTime);
      PlaceKeeps(Lookup(init, tab), rs[|rs| - 1], tab, day, slot);
    }
  }

  /** Placing a booking leaves every other cell as it was. */
  lemma PlaceKeeps(m: Grid, r: Record<Reservation>, tab: string, day: string, slot: string)
    requires day in m && slot in m[day]
    requires r.data.barber != tab || Cell(r.data.dateTime) != (day, slot)
    ensures day in Place(m, r, tab) && slot in Place(m, r, tab)[day]
    ensures Place(m, r, tab)[day][slot] == m[day][slot]
  {
  }

  /** Bookings of other barbers leave the grid as it is. */
  lemma {:induction false} LookupIgnoresOthers(rs: seq<Record<Reservation>>, tab: string, other: Record<Reservation>)
    requires other.data.barber != tab
    ensures Lookup(rs + [other], tab) == Lookup(rs, tab)
  {
    assert (rs + [other])[..|rs|] == rs;
  }

  /**
   * A booking the customer screen made for a day name and a time label
   * lands in the grid under exactly that day and label.
   */
  lemma ResolvedLandsInCell(day: string, time: string, now: int, t: int)
    requires DayIndex(day).Some? && WellFormedTime(time)
    requires IsNextOccurrence(DayIndex(day).value, ParseTime(time), now, t)
    ensures Cell(t) == (day, time)
  {
    var m := ParseTime(time);
    assert t % DAY_MS == m * MINUTE_MS;
    assert MinuteOfDay(t) == m;
    TimeLabelOfParse(time);
  }
}
