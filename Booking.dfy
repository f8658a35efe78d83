/**
 * The customer's booking wizard: a current step along
 * service, barber, day, time, summary and the four-field selection, with
 * the transitions the step screens trigger.
 */
module Booking {
  import opened Wrappers
  import opened Catalog

  datatype Step = ServiceStep | BarberStep | DayStep | TimeStep | SummaryStep

  /** The wizard's step order. */
  const STEPS: seq<Step> := [ServiceStep, BarberStep, DayStep, TimeStep, SummaryStep]

  /** Position of a step in the wizard order. */
  function StepIndex(s: Step): (i: nat)
    ensures i < |STEPS| && STEPS[i] == s
  {
    match s
    case ServiceStep => 0
    case BarberStep => 1
    case DayStep => 2
    case TimeStep => 3
    case SummaryStep => 4
  }

  /** What the customer has picked so far; `None` is a field still null. */
  datatype Selection = Selection(service: Option<Service>, barber: Option<Barber>, day: Option<string>, time: Option<string>)

  const EMPTY: Selection := Selection(None, None, None, None)

  datatype Wizard = Wizard(step: Step, selection: Selection)

  /** The wizard as it opens and after every restart. */
  const START: Wizard := Wizard(ServiceStep, EMPTY)

  /** Whether the selection field of step `k` (0 service, 1 barber, 2 day, 3 time) is set. */
  predicate FieldSet(sel: Selection, k: nat)
  {
    match k
    case 0 => sel.service.Some?
    case 1 => sel.barber.Some?
    case 2 => sel.day.Some?
    case 3 => sel.time.Some?
    case _ => false
  }

  /** Reference definition: the selection with only its first `n` fields kept. */
  function Keep(sel: Selection, n: nat): Selection
  {
    Selection(
      if n > 0 then sel.service else None,
      if n > 1 then sel.barber else None,
      if n > 2 then sel.day else None,
      if n > 3 then sel.time else None)
  }

  /** Keeping a prefix sets exactly the kept fields that were set. */
  lemma KeepFields(sel: Selection, n: nat, k: nat)
    ensures FieldSet(Keep(sel, n), k) <==> k < n && FieldSet(sel, k)
  {
  }

  /**
   * The wizard's invariant: the set fields are exactly those of the steps
   * before the current one.
   */
  predicate PrefixFilled(w: Wizard)
  {
    forall k: nat | k < 4 :: FieldSet(w.selection, k) <==> k < StepIndex(w.step)
  }

  /** Clears the field of the step `base` and of every later step. */
  function ResetSelection(sel: Selection, base: Step): (r: Selection)
    ensures r == Keep(sel, StepIndex(base))
  {
    match base
    case ServiceStep => EMPTY
    case BarberStep => sel.(barber := None, day := None, time := None)
    case DayStep => sel.(day := None, time := None)
    case TimeStep => sel.(time := None)
    case SummaryStep => sel
  }

  /** Choosing a service starts a fresh selection and moves to the barber step. */
  function SelectService(w: Wizard, s: Service): (r: Wizard)
    ensures r.step == BarberStep && r.selection.service == Some(s)
    ensures Keep(r.selection, 0) == Keep(w.selection, 0) && r.selection == Keep(r.selection, 1)
    ensures PrefixFilled(r)
  {
    Wizard(BarberStep, Selection(Some(s), None, None, None))
  }

  /** Choosing a barber keeps the service, clears day and time, moves to the day step. */
  function SelectBarber(w: Wizard, b: Barber): (r: Wizard)
    ensures r.step == DayStep && r.selection.barber == Some(b)
    ensures Keep(r.selection, 1) == Keep(w.selection, 1) && r.selection == Keep(r.selection, 2)
  {
    Wizard(DayStep, w.selection.(barber := Some(b), day := None, time := None))
  }

  /** Choosing a day keeps service and barber, clears the time, moves to the time step. */
  function SelectDay(w: Wizard, d: string): (r: Wizard)
    ensures r.step == TimeStep && r.selection.day == Some(d)
    ensures Keep(r.selection, 2) == Keep(w.selection, 2) && r.selection == Keep(r.selection, 3)
  {
    Wizard(TimeStep, w.selection.(day := Some(d), time := None))
  }

  /** Choosing a time keeps the rest and moves to the summary. */
  function SelectTime(w: Wizard, t: string): (r: Wizard)
    ensures r.step == SummaryStep && r.selection.time == Some(t)
    ensures Keep(r.selection, 3) == Keep(w.selection, 3)
  {
    Wizard(SummaryStep, w.selection.(time := Some(t)))
  }

  /** Restart from any step: back to the service step with nothing chosen. */
  function Restart(w: Wizard): (r: Wizard)
    ensures r.step == ServiceStep && r.selection == Keep(w.selection, 0)
    ensures PrefixFilled(r)
  {
    Wizard(ServiceStep, EMPTY)
  }

  /**
   * Back: nothing at the service step; otherwise the previous step, with
   * that step's field and every later one cleared.
   */
  function Back(w: Wizard): (r: Wizard)
    ensures w.step == ServiceStep ==> r == w
    ensures w.step != ServiceStep ==>
      StepIndex(r.step) + 1 == StepIndex(w.step) &&
      r.selection == Keep(w.selection, StepIndex(r.step))
  {
    var i := StepIndex(w.step);
    if i <= 0 then w
    else
      var prev := STEPS[i - 1];
      Wizard(prev, ResetSelection(w.selection, prev))
  }

  /** A select handler fired from its own step advances exactly one step. */
  lemma SelectAdvancesOneStep(w: Wizard, s: Service, b: Barber, d: string, t: string)
    ensures w.step == ServiceStep ==> StepIndex(SelectService(w, s).step) == StepIndex(w.step) + 1
    ensures w.step == BarberStep ==> StepIndex(SelectBarber(w, b).step) == StepIndex(w.step) + 1
    ensures w.step == DayStep ==> StepIndex(SelectDay(w, d).step) == StepIndex(w.step) + 1
    ensures w.step == TimeStep ==> StepIndex(SelectTime(w, t).step) == StepIndex(w.step) + 1
  {
  }

  /** The select handlers, fired from their own step, keep the wizard invariant. */
  lemma SelectKeepsPrefixFilled(w: Wizard, b: Barber, d: string, t: string)
    requires PrefixFilled(w)
    ensures w.step == BarberStep ==> PrefixFilled(SelectBarber(w, b))
    ensures w.step == DayStep ==> PrefixFilled(SelectDay(w, d))
    ensures w.step == TimeStep ==> PrefixFilled(SelectTime(w, t))
  {
    assert FieldSet(w.selection, 0) <==> 0 < StepIndex(w.step);
    assert FieldSet(w.selection, 1) <==> 1 < StepIndex(w.step);
    assert FieldSet(w.selection, 2) <==> 2 < StepIndex(w.step);
  }

  /** Going back keeps the wizard invariant. */
  lemma BackKeepsPrefixFilled(w: Wizard)
    requires PrefixFilled(w)
    ensures PrefixFilled(Back(w))
  {
    var r := Back(w);
    if w.step != ServiceStep {
      forall k: nat | k < 4 ensures FieldSet(r.selection, k) <==> k < StepIndex(r.step) {
        KeepFields(w.selection, StepIndex(r.step), k);
        assert FieldSet(w.selection, k) <==> k < StepIndex(w.step);
      }
    }
  }

  /** Back undoes a forward step taken from a state that satisfies the invariant. */
  lemma BackUndoesSelect(w: Wizard, s: Service, b: Barber, d: string, t: string)
    requires PrefixFilled(w)
    ensures w.step == BarberStep ==> Back(SelectBarber(w, b)) == w
    ensures w.step == DayStep ==> Back(SelectDay(w, d)) == w
    ensures w.step == TimeStep ==> Back(SelectTime(w, t)) == w
  {
    assert FieldSet(w.selection, 0) <==> 0 < StepIndex(w.step);
    assert FieldSet(w.selection, 1) <==> 1 < StepIndex(w.step);
    assert FieldSet(w.selection, 2) <==> 2 < StepIndex(w.step);
    assert FieldSet(w.selection, 3) <==> 3 < StepIndex(w.step);
  }

  /** From the service step, choosing a service and going back clears everything. */
  lemma BackFromBarberClearsAll(w: Wizard, s: Service)
    ensures Back(SelectService(w, s)) == START
  {
  }

  /** Back from the time step clears the day as well as the time. */
  lemma BackFromTimeClearsDay(w: Wizard)
    requires w.step == TimeStep
    ensures Back(w) == Wizard(DayStep, w.selection.(day := None, time := None))
  {
  }

  /** The events the step screens can fire. */
  datatype Event =
    | PickService(s: Service)
    | PickBarber(b: Barber)
    | PickDay(d: string)
    | PickTime(t: string)
    | GoBack
    | StartOver

  /** The events the current step's screen offers, given the catalog filters. */
  predicate Offered(w: Wizard, e: Event)
  {
    match e
    case PickService(s) => w.step == ServiceStep && s in SERVICES
    case PickBarber(b) => w.step == BarberStep && b in AvailableBarbers(w.selection.service)
    case PickDay(d) => w.step == DayStep && d in AvailableDays(w.selection.barber)
    case PickTime(t) => w.step == TimeStep && t in SelectedAvailability(w.selection.barber, w.selection.day)
    case GoBack => true
    case StartOver => true
  }

  function Apply(w: Wizard, e: Event): Wizard
  {
    match e
    case PickService(s) => SelectService(w, s)
    case PickBarber(b) => SelectBarber(w, b)
    case PickDay(d) => SelectDay(w, d)
    case PickTime(t) => SelectTime(w, t)
    case GoBack => Back(w)
    case StartOver => Restart(w)
  }

  /**
   * The selection agrees with the catalog: the barber offers the service,
   * the day has times for that barber, and the time is one of them.
   */
  predicate Consistent(sel: Selection)
  {
    (sel.service.Some? && sel.barber.Some? ==> sel.service.value.id in sel.barber.value.specialties) &&
    (sel.barber.Some? && sel.day.Some? ==> sel.day.value in AvailableDays(sel.barber)) &&
    (sel.time.Some? ==>
       sel.barber.Some? && sel.day.Some? && sel.time.value in SelectedAvailability(sel.barber, sel.day))
  }

  /** The wizard invariant together with catalog consistency. */
  predicate Reachable(w: Wizard)
  {
    PrefixFilled(w) && Consistent(w.selection)
  }

  /** Every offered event keeps the wizard invariant and catalog consistency. */
  lemma OfferedKeepsReachable(w: Wizard, e: Event)
    requires Reachable(w) && Offered(w, e)
    ensures Reachable(Apply(w, e))
  {
    var r := Apply(w, e);
    match e
    case PickService(s) =>
    case PickBarber(b) => SelectKeepsPrefixFilled(w, b, "", "");
    case PickDay(d) => SelectKeepsPrefixFilled(w, FADI, d, "");
    case PickTime(t) =>
      SelectKeepsPrefixFilled(w, FADI, "", t);
      assert FieldSet(w.selection, 1);
      assert FieldSet(w.selection, 2);
    case GoBack =>
      BackKeepsPrefixFilled(w);
    case StartOver =>
  }

  /** Every state reached from the start by offered events satisfies the invariants. */
  lemma {:induction false} RunKeepsReachable(w: Wizard, es: seq<Event>)
    requires Reachable(w)
    requires Valid(w, es)
    ensures Reachable(Run(w, es))
    decreases |es|
  {
    if es != [] {
      OfferedKeepsReachable(w, es[0]);
      RunKeepsReachable(Apply(w, es[0]), es[1..]);
    }
  }

  /** Each event is offered in the state it is applied to. */
  predicate Valid(w: Wizard, es: seq<Event>)
    decreases |es|
  {
    es == [] || (Offered(w, es[0]) && Valid(Apply(w, es[0]), es[1..]))
  }

  function Run(w: Wizard, es: seq<Event>): Wizard
    decreases |es|
  {
    if es == [] then w else Run(Apply(w, es[0]), es[1..])
  }

  /** At the summary, a reachable wizard has all four fields set and consistent with the catalog. */
  lemma SummaryIsComplete(w: Wizard)
    requires Reachable(w) && w.step == SummaryStep
    ensures w.selection.service.Some? && w.selection.barber.Some? && w.selection.day.Some? && w.selection.time.Some?
    ensures w.selection.time.value in Slots(w.selection.barber.value.id, w.selection.day.value)
  {
    assert FieldSet(w.selection, 0) && FieldSet(w.selection, 1);
    assert FieldSet(w.selection, 2) && FieldSet(w.selection, 3);
  }
}
