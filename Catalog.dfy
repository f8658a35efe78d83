/**
 * The customer screen's static catalog (services, barbers, their weekly
 * availability and the day list) and the filters that decide which
 * options each booking step offers.
 */
module Catalog {
  import opened Wrappers
  import opened Times
  import opened Collections

  /** Prices are whole currency units; durations are minutes. */
  datatype Service = Service(id: string, name: string, duration: nat, price: int, description: string)

  datatype Barber = Barber(id: string, name: string, specialties: seq<string>)

  const SERVICES: seq<Service> := [
    Service("classic", "Classic Cut", 30, 25, "Timeless scissor cut with detailed finish."),
    Service("fade", "Skin Fade", 45, 35, "Clean fade with razor finish."),
    Service("beard", "Beard Trim", 20, 18, "Sculpted beard trim with hot towel."),
    Service("groom", "Full Grooming", 60, 55, "Cut, beard, and hot towel treatment.")
  ]

  const FADI: Barber := Barber("fadi", "Fadi Salameh", ["classic", "fade", "groom"])
  const ISLAM: Barber := Barber("islam", "Islam", ["classic", "beard", "groom"])
  const BARBERS: seq<Barber> := [FADI, ISLAM]

  const FADI_MONDAY: seq<string> := ["09:00", "09:30", "10:00", "10:30", "13:00", "13:30", "16:00", "16:30"]
  const FADI_WEDNESDAY: seq<string> := ["10:00", "10:30", "12:00", "12:30", "15:00", "15:30"]
  const FADI_FRIDAY: seq<string> := ["09:00", "09:30", "14:00", "14:30", "17:00", "17:30"]
  const FADI_SATURDAY: seq<string> := ["10:00", "10:30", "12:00", "12:30", "14:00", "14:30"]
  const ISLAM_TUESDAY: seq<string> := ["09:30", "10:00", "11:30", "12:00", "14:30", "15:00", "16:30"]
  const ISLAM_THURSDAY: seq<string> := ["10:00", "10:30", "12:00", "12:30", "15:00", "15:30"]
  const ISLAM_SUNDAY: seq<string> := ["11:00", "11:30", "13:00", "13:30", "16:00", "16:30"]
  const ISLAM_SATURDAY: seq<string> := ["09:00", "09:30", "11:30", "12:00", "13:30", "14:00"]

  /** Barber id to weekday name to the offered `HH:MM` times. */
  const AVAILABILITY: map<string, map<string, seq<string>>> := map[
    "fadi" := map[
      "Monday" := FADI_MONDAY, "Wednesday" := FADI_WEDNESDAY,
      "Friday" := FADI_FRIDAY, "Saturday" := FADI_SATURDAY],
    "islam" := map[
      "Tuesday" := ISLAM_TUESDAY, "Thursday" := ISLAM_THURSDAY,
      "Sunday" := ISLAM_SUNDAY, "Saturday" := ISLAM_SATURDAY]
  ]

  /** The day step lists weekdays starting from Monday. */
  const DAY_OPTIONS: seq<string> := ["Monday", "Tuesday", "Wednesday", "Thursday", "Friday", "Saturday", "Sunday"]

  /** The times a barber offers on a day; empty when either is unknown. */
  function Slots(barberId: string, day: string): seq<string>
  {
    if barberId in AVAILABILITY && day in AVAILABILITY[barberId] then AVAILABILITY[barberId][day] else []
  }

  /**
   * Barbers offered at the barber step: everyone while no service is
   * chosen, otherwise those whose specialties include the service, in
   * catalog order.
   */
  function AvailableBarbers(service: Option<Service>): (r: seq<Barber>)
    ensures service.None? ==> r == BARBERS
    ensures service.Some? ==> forall b :: b in r <==> b in BARBERS && service.value.id in b.specialties
  {
    match service
    case None => BARBERS
    case Some(s) => Filter(BARBERS, (b: Barber) => s.id in b.specialties)
  }

  /** The day filter's test: the barber has at least one time that day. */
  function HasTimes(barberId: string): string -> bool
  {
    (d: string) => |Slots(barberId, d)| > 0
  }

  /**
   * Days offered at the day step: all seven while no barber is chosen,
   * otherwise the days on which that barber has at least one time, in
   * Monday-first order.
   */
  function AvailableDays(barber: Option<Barber>): (r: seq<string>)
    ensures barber.None? ==> r == DAY_OPTIONS
    ensures barber.Some? ==> forall d :: d in r <==> d in DAY_OPTIONS && |Slots(barber.value.id, d)| > 0
  {
    match barber
    case None => DAY_OPTIONS
    case Some(b) => Filter(DAY_OPTIONS, HasTimes(b.id))
  }

  /**
   * Times offered at the time step: the chosen barber's list for the
   * chosen day, or nothing when either is missing (an empty day name is
   * treated as missing, like any falsy value).
   */
  function SelectedAvailability(barber: Option<Barber>, day: Option<string>): (r: seq<string>)
    ensures barber.None? || day.None? || day.value == "" ==> r == []
    ensures barber.Some? && day.Some? ==> r == Slots(barber.value.id, day.value)
  {
    if barber.Some? && barber.value.id in AVAILABILITY && day.Some? && day.value != "" then
      Slots(barber.value.id, day.value)
    else []
  }

  /** A day is offered at the day step exactly when the time step would then offer some time. */
  lemma OfferedDayHasTimes(b: Barber, d: string)
    requires d in DAY_OPTIONS
    ensures d in AvailableDays(Some(b)) <==> |SelectedAvailability(Some(b), Some(d))| > 0
  {
  }

  /** Every name in the day list is a weekday the resolver knows. */
  lemma DayOptionsAreWeekdays()
    ensures forall d | d in DAY_OPTIONS :: DayIndex(d).Some?
  {
  }

  /** Every barber offered for a catalog service offers that service's id; both catalog barbers cover the cut. */
  lemma ClassicCutOffersBoth()
    ensures AvailableBarbers(Some(SERVICES[0])) == BARBERS
  {
    assert SERVICES[0].id in FADI.specialties;
    assert SERVICES[0].id in ISLAM.specialties;
  }

  /** Only Fadi cuts fades and only Islam trims beards. */
  lemma SpecialistsOnly()
    ensures AvailableBarbers(Some(SERVICES[1])) == [FADI]
    ensures AvailableBarbers(Some(SERVICES[2])) == [ISLAM]
  {
    assert "beard" !in FADI.specialties;
    assert "fade" !in ISLAM.specialties;
  }

  /** Both barbers offer full grooming, listed in catalog order. */
  lemma FullGroomingOffersBoth()
    ensures AvailableBarbers(Some(SERVICES[3])) == BARBERS
  {
    assert SERVICES[3].id in FADI.specialties;
    assert SERVICES[3].id in ISLAM.specialties;
  }

  /** Fadi's days, in the order the day step lists them. */
  lemma FadiDays()
    ensures AvailableDays(Some(FADI)) == ["Monday", "Wednesday", "Friday", "Saturday"]
  {
    FadiWeek();
    FilterByMask(DAY_OPTIONS, HasTimes("fadi"), [true, false, true, false, true, true, false]);
    FadiSelected();
  }

  /** Which of the seven day options Fadi works. */
  lemma FadiWeek()
    ensures forall i | 0 <= i < |DAY_OPTIONS| :: HasTimes("fadi")(DAY_OPTIONS[i]) == [true, false, true, false, true, true, false][i]
  {
    FadiWeekFacts();
  }

  /** The day test evaluated on each day option for Fadi. */
  lemma FadiWeekFacts()
    ensures var p, ds := HasTimes("fadi"), DAY_OPTIONS;
      p(ds[0]) && !p(ds[1]) && p(ds[2]) && !p(ds[3]) && p(ds[4]) && p(ds[5]) && !p(ds[6])
  {
  }

  /** The days kept by Fadi's mask. */
  lemma FadiSelected()
    ensures Select(DAY_OPTIONS, [true, false, true, false, true, true, false]) == ["Monday", "Wednesday", "Friday", "Saturday"]
  {
  }

  /** Islam's days, in the order the day step lists them: Saturday before Sunday. */
  lemma IslamDays()
    ensures AvailableDays(Some(ISLAM)) == ["Tuesday", "Thursday", "Saturday", "Sunday"]
  {
    IslamWeek();
    FilterByMask(DAY_OPTIONS, HasTimes("islam"), [false, true, false, true, false, true, true]);
    IslamSelected();
  }

  /** Which of the seven day options Islam works. */
  lemma IslamWeek()
    ensures forall i | 0 <= i < |DAY_OPTIONS| :: HasTimes("islam")(DAY_OPTIONS[i]) == [false, true, false, true, false, true, true][i]
  {
    IslamWeekFacts();
  }

  /** The day test evaluated on each day option for Islam. */
  lemma IslamWeekFacts()
    ensures var p, ds := HasTimes("islam"), DAY_OPTIONS;
      !p(ds[0]) && p(ds[1]) && !p(ds[2]) && p(ds[3]) && !p(ds[4]) && p(ds[5]) && p(ds[6])
  {
  }

  /** The days kept by Islam's mask. */
  lemma IslamSelected()
    ensures Select(DAY_OPTIONS, [false, true, false, true, false, true, true]) == ["Tuesday", "Thursday", "Saturday", "Sunday"]
  {
  }

  /** A barber outside the availability table is offered no day. */
  lemma UnknownBarberHasNoDays(b: Barber)
    requires b.id !in AVAILABILITY
    ensures AvailableDays(Some(b)) == []
  {
  }

  /** A time list of the catalog: well-formed, on the half-hour grid, strictly increasing. */
  predicate GoodTimes(ts: seq<string>)
  {
    (forall i | 0 <= i < |ts| :: WellFormedTime(ts[i]) && OnSlotGrid(ParseTime(ts[i]))) &&
    (forall i, j | 0 <= i < j < |ts| :: ParseTime(ts[i]) < ParseTime(ts[j]))
  }

  /** Adjacent times ascend. */
  predicate AdjacentAscending(ts: seq<string>)
    requires forall i | 0 <= i < |ts| :: WellFormedTime(ts[i])
  {
    forall i | 0 < i < |ts| :: ParseTime(ts[i - 1]) < ParseTime(ts[i])
  }

  /** Ascending neighbours make the whole list ascending. */
  lemma {:induction false} AdjacentToGood(ts: seq<string>)
    requires forall i | 0 <= i < |ts| :: WellFormedTime(ts[i]) && OnSlotGrid(ParseTime(ts[i]))
    requires AdjacentAscending(ts)
    ensures GoodTimes(ts)
    decreases |ts|
  {
    if |ts| > 1 {
      var init := ts[..|ts| - 1];
      AdjacentToGood(init);
      forall i, j | 0 <= i < j < |ts| ensures ParseTime(ts[i]) < ParseTime(ts[j]) {
        if j < |ts| - 1 {
          assert ts[i] == init[i] && ts[j] == init[j];
        } else if i < j - 1 {
          assert ts[i] == init[i] && ts[j - 1] == init[j - 1];
        }
      }
    }
  }

  /**
   * Every time the catalog offers is a well-formed `HH:MM` label on the
   * half-hour grid, each day's list ascends, and every day named in it is
   * one of the day step's options.
   */
  lemma AvailabilityWellFormed()
    ensures forall b, d | b in AVAILABILITY && d in AVAILABILITY[b] :: GoodTimes(AVAILABILITY[b][d]) && d in DAY_OPTIONS
  {
    FadiTimesGood();
    IslamTimesGood();
    forall b, d | b in AVAILABILITY && d in AVAILABILITY[b]
      ensures GoodTimes(AVAILABILITY[b][d]) && d in DAY_OPTIONS
    {
      assert b == "fadi" || b == "islam";
    }
  }

  lemma FadiTimesGood()
    ensures forall d | d in AVAILABILITY["fadi"] :: GoodTimes(AVAILABILITY["fadi"][d])
  {
    FadiMondayGood();
    FadiWednesdayGood();
    FadiFridayGood();
    FadiSaturdayGood();
  }

  lemma IslamTimesGood()
    ensures forall d | d in AVAILABILITY["islam"] :: GoodTimes(AVAILABILITY["islam"][d])
  {
    IslamTuesdayGood();
    IslamThursdayGood();
    IslamSundayGood();
    IslamSaturdayGood();
  }

  lemma FadiMondayGood()
    ensures GoodTimes(FADI_MONDAY)
  {
    AdjacentToGood(FADI_MONDAY);
  }

  lemma FadiWednesdayGood()
    ensures GoodTimes(FADI_WEDNESDAY)
  {
    AdjacentToGood(FADI_WEDNESDAY);
  }

  lemma FadiFridayGood()
    ensures GoodTimes(FADI_FRIDAY)
  {
    AdjacentToGood(FADI_FRIDAY);
  }

  lemma FadiSaturdayGood()
    ensures GoodTimes(FADI_SATURDAY)
  {
    AdjacentToGood(FADI_SATURDAY);
  }

  lemma IslamTuesdayGood()
    ensures GoodTimes(ISLAM_TUESDAY)
  {
    AdjacentToGood(ISLAM_TUESDAY);
  }

  lemma IslamThursdayGood()
    ensures GoodTimes(ISLAM_THURSDAY)
  {
    AdjacentToGood(ISLAM_THURSDAY);
  }

  lemma IslamSundayGood()
    ensures GoodTimes(ISLAM_SUNDAY)
  {
    AdjacentToGood(ISLAM_SUNDAY);
  }

  lemma IslamSaturdayGood()
    ensures GoodTimes(ISLAM_SATURDAY)
  {
    AdjacentToGood(ISLAM_SATURDAY);
  }

  /** Every barber has an availability entry and every specialty names a service. */
  lemma CatalogConsistent()
    ensures forall b | b in BARBERS :: b.id in AVAILABILITY
    ensures forall b, k | b in BARBERS && 0 <= k < |b.specialties| :: exists s | s in SERVICES :: s.id == b.specialties[k]
  {
    assert SERVICES[0].id == "classic" && SERVICES[1].id == "fade";
    assert SERVICES[2].id == "beard" && SERVICES[3].id == "groom";
  }

  /** Fadi's Monday offers eight times, from nine in the morning to half past four. */
  lemma FadiMondaySlots()
    ensures SelectedAvailability(Some(FADI), Some("Monday")) == FADI_MONDAY
    ensures |FADI_MONDAY| == 8 && FADI_MONDAY[0] == "09:00" && FADI_MONDAY[7] == "16:30"
  {
  }
}
