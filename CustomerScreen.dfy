/**
 * The customer's main screen: the booking wizard and the cart as state
 * of their own, the derived lists it shows, and the confirm and checkout
 * handlers that write to the app's store.
 */
module CustomerScreen {
  import opened Wrappers
  import opened Collections
  import opened Times
  import opened Resolver
  import opened Catalog
  import opened Booking
  import opened Cart
  import opened Accounts
  import opened AppState

  datatype Tab = HomeTab | AppointmentsTab | ShopTab | ProfileTab

  /** What the screen body shows. */
  datatype Content = PendingApproval | TabContent(tab: Tab)

  /** `currentUser?.fullName || name || 'Guest'`: the name bookings are made under. */
  function CustomerName(user: Option<User>, name: string): (r: string)
    ensures r != ""
    ensures user.Some? && OrEmpty(user.value.profile.fullName) != "" ==> r == user.value.profile.fullName.value
    ensures (user.None? || OrEmpty(user.value.profile.fullName) == "") && name != "" ==> r == name
    ensures (user.None? || OrEmpty(user.value.profile.fullName) == "") && name == "" ==> r == "Guest"
  {
    if user.Some? && OrEmpty(user.value.profile.fullName) != "" then user.value.profile.fullName.value
    else if name != "" then name
    else "Guest"
  }

  /** `usernameProp || currentUser?.username || 'guest'`: the username orders are filed under. */
  function CustomerUsername(active: Option<string>, user: Option<User>): (r: string)
    ensures r != ""
    ensures HasSession(active) ==> r == active.value
    ensures !HasSession(active) && user.Some? && user.value.username != "" ==> r == user.value.username
    ensures !HasSession(active) && (user.None? || user.value.username == "") ==> r == "guest"
  {
    if HasSession(active) then active.value
    else if user.Some? && user.value.username != "" then user.value.username
    else "guest"
  }

  function DateTimeKey(r: Record<Reservation>): int { r.data.dateTime }

  function CreatedAtKey(o: Record<Order>): int { o.data.createdAt }

  /**
   * `customerReservations`: the bookings made under this name, earliest
   * first, each exactly as often as the store holds it.
   */
  function CustomerReservations(rs: seq<Record<Reservation>>, client: string): (r: seq<Record<Reservation>>)
    ensures SortedBy(r, DateTimeKey)
    ensures multiset(r) == multiset(Filter(rs, (x: Record<Reservation>) => x.data.client == client))
    ensures forall x :: x in r <==> x in rs && x.data.client == client
  {
    var mine := Filter(rs, (x: Record<Reservation>) => x.data.client == client);
    var r := SortByKey(mine, DateTimeKey);
    assert forall x :: x in r <==> x in mine by {
      forall x ensures x in r <==> x in mine {
        assert x in r <==> x in multiset(r);
      }
    }
    r
  }

  /** `customerOrders`: the orders filed under this username, oldest first. */
  function CustomerOrders(os: seq<Record<Order>>, username: string): (r: seq<Record<Order>>)
    ensures SortedBy(r, CreatedAtKey)
    ensures multiset(r) == multiset(Filter(os, (x: Record<Order>) => x.data.username == username))
    ensures forall x :: x in r <==> x in os && x.data.username == username
  {
    var mine := Filter(os, (x: Record<Order>) => x.data.username == username);
    var r := SortByKey(mine, CreatedAtKey);
    assert forall x :: x in r <==> x in mine by {
      forall x ensures x in r <==> x in mine {
        assert x in r <==> x in multiset(r);
      }
    }
    r
  }

  /** `renderContent`: only the pending notice until the user is approved, otherwise the chosen tab. */
  function ContentFor(user: Option<User>, tab: Tab): (c: Content)
    ensures c == PendingApproval <==> !IsApproved(user)
    ensures c != PendingApproval ==> c == TabContent(tab)
  {
    if !IsApproved(user) then PendingApproval else TabContent(tab)
  }

  /** The selection is complete in the sense of the confirm handler: every field set and non-empty. */
  predicate Complete(sel: Selection)
  {
    sel.service.Some? && sel.barber.Some? && sel.day.Some? && sel.day.value != "" &&
    sel.time.Some? && sel.time.value != ""
  }

  /**
   * A wizard that reached the summary through the offered options can
   * always be confirmed: its selection is complete, its day is a weekday
   * name and its time a well-formed label.
   */
  lemma ReachableSummaryResolves(w: Wizard)
    requires Reachable(w) && w.step == SummaryStep
    ensures Complete(w.selection)
    ensures DayIndex(w.selection.day.value).Some? && WellFormedTime(w.selection.time.value)
  {
    SummaryIsComplete(w);
    AvailabilityWellFormed();
    DayOptionsAreWeekdays();
    var b := w.selection.barber.value.id;
    var d := w.selection.day.value;
    var ts := Slots(b, d);
    var k :| 0 <= k < |ts| && ts[k] == w.selection.time.value;
    assert WellFormedTime(ts[k]);
  }

  class MainScreen {
    const app: App
    var tab: Tab
    var step: Step
    var selection: Selection
    var cartItems: Lines

    function State(): Wizard
      reads this
    {
      Wizard(step, selection)
    }

    constructor (app: App)
      ensures this.app == app
      ensures tab == HomeTab && State() == START && cartItems == []
    {
      this.app := app;
      tab := HomeTab;
      step := ServiceStep;
      selection := EMPTY;
      cartItems := [];
    }

    /** What the screen shows for the app's current user. */
    function Content(): Content
      reads this, app
    {
      ContentFor(app.currentUser, tab)
    }

    method SelectTab(t: Tab)
      modifies this
      ensures tab == t && State() == old(State()) && cartItems == old(cartItems)
    {
      tab := t;
    }

    /** `handleServiceSelect` */
    method HandleServiceSelect(s: Service)
      modifies this
      ensures State() == SelectService(old(State()), s)
      ensures tab == old(tab) && cartItems == old(cartItems)
    {
      selection := Selection(Some(s), None, None, None);
      step := BarberStep;
    }

    /** `handleBarberSelect` */
    method HandleBarberSelect(b: Barber)
      modifies this
      ensures State() == SelectBarber(old(State()), b)
      ensures tab == old(tab) && cartItems == old(cartItems)
    {
      selection := selection.(barber := Some(b), day := None, time := None);
      step := DayStep;
    }

    /** `handleDaySelect` */
    method HandleDaySelect(d: string)
      modifies this
      ensures State() == SelectDay(old(State()), d)
      ensures tab == old(tab) && cartItems == old(cartItems)
    {
      selection := selection.(day := Some(d), time := None);
      step := TimeStep;
    }

    /** `handleTimeSelect` */
    method HandleTimeSelect(t: string)
      modifies this
      ensures State() == SelectTime(old(State()), t)
      ensures tab == old(tab) && cartItems == old(cartItems)
    {
      selection := selection.(time := Some(t));
      step := SummaryStep;
    }

    /** `handleBookingRestart` */
    method HandleBookingRestart()
      modifies this
      ensures State() == Restart(old(State()))
      ensures tab == old(tab) && cartItems == old(cartItems)
    {
      step := ServiceStep;
      selection := EMPTY;
    }

    /** `handleBack`: steps back one, resetting the selection from the step it returns to. */
    method HandleBack()
      modifies this
      ensures State() == Back(old(State()))
      ensures tab == old(tab) && cartItems == old(cartItems)
    {
      var currentIndex := StepIndex(step);
      if currentIndex <= 0 {
        return;
      }
      var prevStep := STEPS[currentIndex - 1];
      selection := ResetSelection(selection, prevStep);
      step := prevStep;
    }

    /**
     * `handleConfirmReservation`: an incomplete selection, or a day the
     * resolver does not know, changes nothing; otherwise one booking is
     * appended at the next occurrence of the chosen day and time, and the
     * wizard restarts.
     */
    method HandleConfirmReservation(now: int, id: string)
      modifies this, app
      requires app.Valid()
      requires selection.time.None? || selection.time.value == "" || WellFormedTime(selection.time.value)
      ensures app.Valid()
      ensures tab == old(tab) && cartItems == old(cartItems)
      ensures !Complete(old(selection)) || DayIndex(old(selection).day.value).None? ==>
        State() == old(State()) && app.View() == old(app.View())
      ensures Complete(old(selection)) && DayIndex(old(selection).day.value).Some? ==>
        var sel := old(selection);
        var n := |old(app.reservations)|;
        |app.reservations| == n + 1 && app.reservations[..n] == old(app.reservations) &&
        app.reservations[n].id == id &&
        app.reservations[n].data.client == CustomerName(old(app.currentUser), old(app.userName)) &&
        app.reservations[n].data.service == sel.service.value.name &&
        app.reservations[n].data.barber == sel.barber.value.name &&
        IsNextOccurrence(DayIndex(sel.day.value).value, ParseTime(sel.time.value), now, app.reservations[n].data.dateTime) &&
        app.View() == old(app.View()).(reservations := app.reservations) &&
        State() == START
    {
      if !Complete(selection) {
        return;
      }
      var nextDate := NextDateForSelection(selection.day.value, selection.time.value, now);
      if nextDate.None? {
        return;
      }
      var newReservation := Reservation(CustomerName(app.currentUser, app.userName),
                                        selection.service.value.name, selection.barber.value.name, nextDate.value);
      app.CreateReservation(newReservation, id);
      HandleBookingRestart();
    }

    /** `addToCart` */
    method AddItem(item: Record<ShopItem>)
      modifies this
      ensures cartItems == AddToCart(old(cartItems), item)
      ensures tab == old(tab) && State() == old(State())
    {
      cartItems := AddToCart(cartItems, item);
    }

    /** `updateCartQuantity` */
    method UpdateQuantity(itemId: string, quantity: int)
      modifies this
      ensures cartItems == UpdateCartQuantity(old(cartItems), itemId, quantity)
      ensures tab == old(tab) && State() == old(State())
    {
      if quantity <= 0 {
        RemoveFromCart(itemId);
        return;
      }
      cartItems := UpdateCartQuantity(cartItems, itemId, quantity);
    }

    /** `removeFromCart` */
    method RemoveFromCart(itemId: string)
      modifies this
      ensures cartItems == RemoveId(old(cartItems), itemId)
      ensures tab == old(tab) && State() == old(State())
    {
      cartItems := RemoveId(cartItems, itemId);
    }

    /**
     * `handleCheckout`: an empty cart changes nothing; otherwise one order
     * copying the cart lines and their total is filed, and the cart empties.
     */
    method HandleCheckout(now: int, id: string)
      modifies this, app
      requires app.Valid()
      ensures app.Valid()
      ensures tab == old(tab) && State() == old(State())
      ensures old(cartItems) == [] ==> cartItems == [] && app.View() == old(app.View())
      ensures old(cartItems) != [] ==>
        cartItems == [] &&
        app.View() == old(app.View()).(orders := old(app.orders) + [Record(id, Order(
          CustomerUsername(old(app.activeUsername), old(app.currentUser)),
          CustomerName(old(app.currentUser), old(app.userName)),
          old(cartItems), CartTotal(old(cartItems)), now))])
    {
      if |cartItems| == 0 {
        return;
      }
      var order := Order(CustomerUsername(app.activeUsername, app.currentUser),
                         CustomerName(app.currentUser, app.userName),
                         cartItems, CartTotal(cartItems), now);
      app.CreateOrder(order, id);
      cartItems := [];
    }

    /** `handleProfileSave`: sends name and email, and the new password only when one was typed. */
    method HandleProfileSave(fullName: string, email: string, newPassword: string)
      modifies app
      requires app.Valid()
      ensures app.Valid()
      ensures
        var updates := ProfileUpdate(Some(fullName), Some(email), if newPassword != "" then Some(newPassword) else None);
        var cu := old(app.currentUser);
        (cu.None? || cu.value.username == "" ==> app.View() == old(app.View())) &&
        (cu.Some? && cu.value.username != "" ==>
           app.View() == Settled(old(app.View()).(
             profiles := old(app.profiles)[cu.value.username := WithProfileUpdate(FetchUserProfile(old(app.profiles), cu.value.username), updates.fullName, updates.email, updates.password)],
             currentUser := Some(User(cu.value.username, cu.value.profile.(fullName := updates.fullName, email := updates.email))),
             userName := fullName), old(app.activeUsername), true))
    {
      var updates := ProfileUpdate(Some(fullName), Some(email), if newPassword != "" then Some(newPassword) else None);
      app.UpdateProfile(updates);
    }
  }
}
