/**
 * The top-level app state in local mode: the screen, the auth form, the
 * session, the profile map and the three record lists, with the
 * handlers that change them.
 */
module AppState {
  import opened Wrappers
  import opened Collections
  import opened Cart
  import opened Accounts

  datatype Screen = AuthScreen | MainView | AdminView

  /** A booking; `dateTime` is the instant the resolver chose. */
  datatype Reservation = Reservation(client: string, service: string, barber: string, dateTime: int)

  /** A checkout: who ordered, the lines copied from the cart, their total and when. */
  datatype Order = Order(username: string, customerName: string, items: Lines, total: int, createdAt: int)

  /** What the profile screens send: name and email always, a password only when one was typed. */
  datatype ProfileUpdate = ProfileUpdate(fullName: Option<string>, email: Option<string>, password: Option<string>)

  datatype FormField = FullNameField | UsernameField | EmailField | PasswordField

  /** A snapshot of every field of the app. */
  datatype AppView = AppView(
    screen: Screen,
    mode: Mode,
    form: Form,
    userName: string,
    currentUser: Option<User>,
    activeUsername: Option<string>,
    profiles: Profiles,
    pendingVerification: Option<string>,
    codeInput: string,
    verificationVisible: bool,
    reservations: seq<Record<Reservation>>,
    shopItems: seq<Record<ShopItem>>,
    orders: seq<Record<Order>>)

  function OrEmpty(s: Option<string>): string { if s.Some? then s.value else "" }

  /** The session's username when there is one; an empty name counts as none. */
  predicate HasSession(active: Option<string>) { active.Some? && active.value != "" }

  /**
   * The current-user effect in local mode: no session clears the user, a
   * session whose profile is stored loads it, and a session without a
   * stored profile leaves the user as it was.
   */
  function SyncedUser(current: Option<User>, active: Option<string>, profiles: Profiles): (r: Option<User>)
    ensures !HasSession(active) ==> r.None?
    ensures HasSession(active) && active.value in profiles ==> r == Some(User(active.value, profiles[active.value]))
    ensures HasSession(active) && active.value !in profiles ==> r == current
  {
    if !HasSession(active) then None
    else if active.value in profiles then Some(User(active.value, profiles[active.value]))
    else current
  }

  /** The same effect also shows the loaded profile's name. */
  function SyncedName(name: string, active: Option<string>, profiles: Profiles): string
  {
    if HasSession(active) && active.value in profiles then OrEmpty(profiles[active.value].fullName) else name
  }

  /**
   * The state after a handler, once the effect has run: it runs only when
   * the session username changed or the profile map was replaced.
   */
  function Settled(v: AppView, prevActive: Option<string>, profilesSet: bool): (r: AppView)
    ensures r.(currentUser := v.currentUser, userName := v.userName) == v
    ensures v.activeUsername == prevActive && !profilesSet ==> r == v
    ensures v.activeUsername != prevActive || profilesSet ==> SessionConsistent(r)
  {
    if v.activeUsername != prevActive || profilesSet then
      v.(currentUser := SyncedUser(v.currentUser, v.activeUsername, v.profiles),
         userName := SyncedName(v.userName, v.activeUsername, v.profiles))
    else v
  }

  /** The user agrees with the stored profile on everything but the password. */
  predicate SameAccount(u: User, username: string, p: Profile)
  {
    u.username == username && u.profile.fullName == p.fullName && u.profile.email == p.email &&
    u.profile.verification == p.verification
  }

  /**
   * The session invariant: no user without a session, and a session whose
   * profile is stored shows that profile.
   */
  predicate SessionConsistent(v: AppView)
  {
    (!HasSession(v.activeUsername) ==> v.currentUser.None?) &&
    (HasSession(v.activeUsername) && v.activeUsername.value in v.profiles ==>
       v.currentUser.Some? && SameAccount(v.currentUser.value, v.activeUsername.value, v.profiles[v.activeUsername.value]))
  }

  /** Running the effect always leaves the session consistent. */
  lemma SyncEstablishesConsistency(v: AppView)
    ensures SessionConsistent(v.(currentUser := SyncedUser(v.currentUser, v.activeUsername, v.profiles)))
  {
  }

  /** After the effect the session is consistent, unless the effect did not run on an inconsistent state. */
  lemma SettledConsistent(v: AppView, prevActive: Option<string>, profilesSet: bool)
    requires v.activeUsername != prevActive || profilesSet || SessionConsistent(v)
    ensures SessionConsistent(Settled(v, prevActive, profilesSet))
  {
  }

  /** Whether the signed-in user may see the app's content. */
  lemma GateFollowsStore(v: AppView)
    requires SessionConsistent(v) && HasSession(v.activeUsername) && v.activeUsername.value in v.profiles
    ensures Accounts.IsApproved(v.currentUser) <==>
      var p := v.profiles[v.activeUsername.value];
      p.verification.Some? && p.verification.value.adminApproved
  {
  }

  class App {
    var screen: Screen
    var mode: Mode
    var form: Form
    var userName: string
    var currentUser: Option<User>
    var activeUsername: Option<string>
    var profiles: Profiles
    var pendingVerification: Option<string>
    var codeInput: string
    var verificationVisible: bool
    var reservations: seq<Record<Reservation>>
    var shopItems: seq<Record<ShopItem>>
    var orders: seq<Record<Order>>

    function View(): AppView
      reads this
    {
      AppView(screen, mode, form, userName, currentUser, activeUsername, profiles,
              pendingVerification, codeInput, verificationVisible, reservations, shopItems, orders)
    }

    predicate Valid()
      reads this
    {
      SessionConsistent(View())
    }

    /** The state the app starts in. */
    constructor ()
      ensures View() == AppView(AuthScreen, Login, EMPTY_FORM, "", None, None, map[], None, "", false, [], [], [])
      ensures Valid()
    {
      screen := AuthScreen;
      mode := Login;
      form := EMPTY_FORM;
      userName := "";
      currentUser := None;
      activeUsername := None;
      profiles := map[];
      pendingVerification := None;
      codeInput := "";
      verificationVisible := false;
      reservations := [];
      shopItems := [];
      orders := [];
    }

    /** The current-user effect, run after a handler that touched its dependencies. */
    method Settle(prevActive: Option<string>, profilesSet: bool)
      modifies this
      ensures View() == Settled(old(View()), prevActive, profilesSet)
    {
      if activeUsername != prevActive || profilesSet {
        var n := SyncedName(userName, activeUsername, profiles);
        currentUser := SyncedUser(currentUser, activeUsername, profiles);
        userName := n;
      }
    }

    /** `handleChange`: edits one field of the auth form. */
    method HandleChange(field: FormField, value: string)
      modifies this
      requires Valid()
      ensures Valid()
      ensures View() == old(View()).(form :=
        match field
        case FullNameField => old(form).(fullName := value)
        case UsernameField => old(form).(username := value)
        case EmailField => old(form).(email := value)
        case PasswordField => old(form).(password := value))
    {
      match field
      case FullNameField => form := form.(fullName := value);
      case UsernameField => form := form.(username := value);
      case EmailField => form := form.(email := value);
      case PasswordField => form := form.(password := value);
    }

    /** `handleModeChange`. */
    method HandleModeChange(next: Mode)
      modifies this
      requires Valid()
      ensures Valid()
      ensures View() == old(View()).(mode := next)
    {
      mode := next;
    }

    /** Typing into the verification dialog. */
    method EnterCode(value: string)
      modifies this
      requires Valid()
      ensures Valid()
      ensures View() == old(View()).(codeInput := value)
    {
      codeInput := value;
    }

    /** `resetForm` */
    method ResetForm()
      modifies this
      ensures View() == old(View()).(form := EMPTY_FORM)
    {
      form := EMPTY_FORM;
    }

    /** `openVerificationForUser` */
    method OpenVerification(username: string)
      modifies this
      ensures View() == old(View()).(pendingVerification := Some(username), codeInput := "", verificationVisible := true)
    {
      pendingVerification := Some(username);
      codeInput := "";
      verificationVisible := true;
    }

    /**
     * `handleSubmit` in local mode, applying the decision: rejected forms
     * change nothing; the admin session, an unverified login, a started
     * session and a created account set what the source sets, and the
     * current-user effect then runs.
     */
    method Submit(now: int, random: real)
      modifies this
      requires 0.0 <= random < 1.0
      requires Valid()
      ensures Valid()
      ensures
        var o := DecideSubmit(old(mode), old(form), old(profiles), now, random);
        var v := old(View());
        match o
        case AdminSession =>
          View() == Settled(v.(userName := "Admin", activeUsername := Some(ADMIN_USERNAME),
                              form := EMPTY_FORM, screen := AdminView), v.activeUsername, false)
        case VerificationRequired(u) =>
          View() == Settled(v.(activeUsername := Some(u), pendingVerification := Some(u),
                              codeInput := "", verificationVisible := true), v.activeUsername, false)
        case SessionStarted(u, p) =>
          View() == Settled(v.(userName := OrEmpty(p.fullName),
                              currentUser := Some(User(u, p.(password := None))),
                              activeUsername := Some(u), form := EMPTY_FORM, screen := MainView), v.activeUsername, false)
        case AccountCreated(u, p) =>
          View() == v.(profiles := v.profiles[u := p], activeUsername := Some(u),
                       userName := OrEmpty(p.fullName), currentUser := Some(User(u, p)),
                       form := EMPTY_FORM, mode := Login, pendingVerification := Some(u),
                       codeInput := "", verificationVisible := true)
        case _ => View() == v
    {
      var o := DecideSubmit(mode, form, profiles, now, random);
      match o {
        case AdminSession => StartAdminSession();
        case VerificationRequired(u) => RequireVerification(u);
        case SessionStarted(u, p) => StartSession(u, p);
        case AccountCreated(u, p) => CreateAccount(u, p, Trim(form.fullName));
        case _ =>
      }
    }

    /** The admin branch of `handleSubmit`. */
    method StartAdminSession()
      modifies this
      requires Valid()
      ensures Valid()
      ensures View() == Settled(old(View()).(userName := "Admin", activeUsername := Some(ADMIN_USERNAME),
                                             form := EMPTY_FORM, screen := AdminView), old(activeUsername), false)
    {
      var prevActive := activeUsername;
      ResetForm();
      userName := "Admin";
      activeUsername := Some(ADMIN_USERNAME);
      screen := AdminView;
      SettledConsistent(View(), prevActive, false);
      Settle(prevActive, false);
    }

    /** The unverified-login branch of `handleSubmit`: reopens the dialog without issuing a code. */
    method RequireVerification(u: string)
      modifies this
      requires Valid()
      ensures Valid()
      ensures View() == Settled(old(View()).(activeUsername := Some(u), pendingVerification := Some(u),
                                             codeInput := "", verificationVisible := true), old(activeUsername), false)
    {
      var prevActive := activeUsername;
      activeUsername := Some(u);
      OpenVerification(u);
      SettledConsistent(View(), prevActive, false);
      Settle(prevActive, false);
    }

    /** The successful-login branch of `handleSubmit`. */
    method StartSession(u: string, p: Profile)
      modifies this
      requires Valid()
      requires u != "" && u in profiles && profiles[u] == p
      ensures Valid()
      ensures View() == Settled(old(View()).(userName := OrEmpty(p.fullName),
                                             currentUser := Some(User(u, p.(password := None))),
                                             activeUsername := Some(u), form := EMPTY_FORM, screen := MainView),
                                old(activeUsername), false)
    {
      var prevActive := activeUsername;
      ResetForm();
      userName := OrEmpty(p.fullName);
      currentUser := Some(User(u, p.(password := None)));
      activeUsername := Some(u);
      screen := MainView;
      SettledConsistent(View(), prevActive, false);
      Settle(prevActive, false);
    }

    /**
     * The signup branch of `handleSubmit`: stores the new record, opens
     * the code dialog, and the effect then loads the new user.
     */
    method CreateAccount(u: string, p: Profile, fullName: string)
      modifies this
      requires Valid()
      requires u != ""
      ensures Valid()
      ensures View() == old(View()).(profiles := old(profiles)[u := p], activeUsername := Some(u),
                                     userName := OrEmpty(p.fullName), currentUser := Some(User(u, p)),
                                     form := EMPTY_FORM, mode := Login, pendingVerification := Some(u),
                                     codeInput := "", verificationVisible := true)
    {
      var prevActive := activeUsername;
      OpenVerification(u);
      ResetForm();
      profiles := SaveUserProfile(profiles, u, p);
      activeUsername := Some(u);
      userName := fullName;
      currentUser := Some(User(u, p));
      mode := Login;
      Settle(prevActive, true);
    }

    /**
     * `verifyCodeForUser` in local mode: without a pending username nothing
     * happens; an expired or wrong code changes nothing; an accepted code
     * stores the verified record and closes the dialog.
     */
    method VerifyCode(now: int)
      modifies this
      requires Valid()
      ensures Valid()
      ensures !HasSession(old(pendingVerification)) ==> View() == old(View())
      ensures HasSession(old(pendingVerification)) ==>
        var u := old(pendingVerification).value;
        var check := CheckCode(FetchUserProfile(old(profiles), u), old(codeInput), now);
        (!check.CodeAccepted? ==> View() == old(View())) &&
        (check.CodeAccepted? ==>
           View() == Settled(old(View()).(profiles := old(profiles)[u := WithVerification(FetchUserProfile(old(profiles), u), check.next)],
                                          verificationVisible := false), old(activeUsername), true))
    {
      if !HasSession(pendingVerification) {
        return;
      }
      var u := pendingVerification.value;
      var check := CheckCode(FetchUserProfile(profiles, u), codeInput, now);
      if check.CodeAccepted? {
        var prevActive := activeUsername;
        profiles := profiles[u := WithVerification(FetchUserProfile(profiles, u), check.next)];
        verificationVisible := false;
        SettledConsistent(View(), prevActive, true);
      Settle(prevActive, true);
      }
    }

    /** `handleSignOut`: back to the login form with no session. */
    method SignOut()
      modifies this
      requires Valid()
      ensures Valid()
      ensures View() == old(View()).(form := EMPTY_FORM, mode := Login, currentUser := None,
                                     activeUsername := None, screen := AuthScreen)
    {
      ResetForm();
      mode := Login;
      currentUser := None;
      activeUsername := None;
      screen := AuthScreen;
    }

    /** `handleCreateReservation` in local mode: appends the booking under the given id. */
    method CreateReservation(r: Reservation, id: string)
      modifies this
      requires Valid()
      ensures Valid()
      ensures View() == old(View()).(reservations := old(reservations) + [Record(id, r)])
    {
      reservations := reservations + [Record(id, r)];
    }

    /** `handleCancelReservation` in local mode: an empty id is ignored, otherwise every booking with it goes. */
    method CancelReservation(id: string)
      modifies this
      requires Valid()
      ensures Valid()
      ensures View() == old(View()).(reservations := if id == "" then old(reservations) else RemoveId(old(reservations), id))
    {
      if id != "" {
        reservations := RemoveId(reservations, id);
      }
    }

    /** `handleShopItemAdd` in local mode: an item without a name is ignored. */
    method AddShopItem(item: ShopItem, id: string)
      modifies this
      requires Valid()
      ensures Valid()
      ensures View() == old(View()).(shopItems := if item.name == "" then old(shopItems) else old(shopItems) + [Record(id, item)])
    {
      if item.name != "" {
        shopItems := shopItems + [Record(id, item)];
      }
    }

    /** `handleShopItemRemove` in local mode. */
    method RemoveShopItem(id: string)
      modifies this
      requires Valid()
      ensures Valid()
      ensures View() == old(View()).(shopItems := if id == "" then old(shopItems) else RemoveId(old(shopItems), id))
    {
      if id != "" {
        shopItems := RemoveId(shopItems, id);
      }
    }

    /** `handleCreateOrder` in local mode. */
    method CreateOrder(o: Order, id: string)
      modifies this
      requires Valid()
      ensures Valid()
      ensures View() == old(View()).(orders := old(orders) + [Record(id, o)])
    {
      orders := orders + [Record(id, o)];
    }

    /**
     * `handleProfileUpdate` in local mode: without a signed-in username it
     * changes nothing; otherwise it merges the update into that user's
     * stored record and shown name, a missing name or email falling back
     * to the current user's.
     */
    method UpdateProfile(updates: ProfileUpdate)
      modifies this
      requires Valid()
      ensures Valid()
      ensures old(currentUser).None? || old(currentUser).value.username == "" ==> View() == old(View())
      ensures old(currentUser).Some? && old(currentUser).value.username != "" ==>
        var cu := old(currentUser).value;
        var name := if updates.fullName.Some? then updates.fullName else cu.profile.fullName;
        var email := if updates.email.Some? then updates.email else cu.profile.email;
        View() == Settled(old(View()).(
          profiles := old(profiles)[cu.username := WithProfileUpdate(FetchUserProfile(old(profiles), cu.username), name, email, updates.password)],
          currentUser := Some(User(cu.username, cu.profile.(fullName := name, email := email))),
          userName := OrEmpty(name)), old(activeUsername), true)
    {
      if currentUser.None? || currentUser.value.username == "" {
        return;
      }
      var cu := currentUser.value;
      var name := if updates.fullName.Some? then updates.fullName else cu.profile.fullName;
      var email := if updates.email.Some? then updates.email else cu.profile.email;
      var prevActive := activeUsername;
      profiles := profiles[cu.username := WithProfileUpdate(FetchUserProfile(profiles, cu.username), name, email, updates.password)];
      currentUser := Some(User(cu.username, cu.profile.(fullName := name, email := email)));
      userName := OrEmpty(name);
      SettledConsistent(View(), prevActive, true);
      Settle(prevActive, true);
    }

    /** `onApproveUser` in local mode: marks the user approved, creating the record if needed. */
    method ApproveUser(username: string)
      modifies this
      requires Valid()
      ensures Valid()
      ensures View() == Settled(old(View()).(profiles := old(profiles)[username :=
        WithApproval(if username in old(profiles) then Some(old(profiles)[username]) else None)]), old(activeUsername), true)
    {
      var prevActive := activeUsername;
      profiles := profiles[username := WithApproval(if username in profiles then Some(profiles[username]) else None)];
      SettledConsistent(View(), prevActive, true);
      Settle(prevActive, true);
    }
  }
}
