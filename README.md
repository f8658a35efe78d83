# Barbershop app — a verified model of its local-mode core

Barbershop is a React Native app. Customers use it to book haircuts with one
of two barbers (Fadi Salameh and Islam), buy shop products and manage their
profiles. An administrator approves accounts and watches a weekly schedule.
This project models the part of `App.js` that holds the app's logic, in the
mode the app runs in when no Firestore backend is configured:

- **Accounts** (`Accounts.dfy`):
  - the in-memory profile store (`saveUserProfile`, `fetchUserProfile`);
  - credential normalisation (`trim`, `toLowerCase`);
  - the login/signup decision of `handleSubmit`, including the built-in
    admin credentials;
  - six-digit verification codes with a 15-minute lifetime;
  - the profile merges of code verification, profile update and admin
    approval.
- **Session** (`AppState.dfy`):
  - class `App`, holding the top-level component's state;
  - one method per handler;
  - the current-user effect, which re-loads the signed-in user from the
    store whenever the session username or the profile map changes.
  - The invariant every handler keeps is `SessionConsistent`: a loaded
    current user is exactly the stored account of the session username,
    without its password.
- **Booking wizard** (`Booking.dfy`, `Catalog.dfy`):
  - the five steps service → barber → day → time → summary;
  - forward selections, back and restart, all as pure transitions;
  - the hard-coded services, barbers and weekly availability, and the
    filters over them.
- **Time** (`Times.dfy`, `Resolver.dfy`, `Decimal.dfy`):
  - day names and "HH:MM" labels;
  - the 20 half-hour schedule slots;
  - `getNextDateForSelection`, which turns a weekday and a time into the
    next such instant.
- **Customer screen** (`CustomerScreen.dfy`, `Cart.dfy`):
  - class `MainScreen`, holding the wizard state, the tab and the cart;
  - the cart operations and total;
  - the customer's own reservations and orders, sorted;
  - the approval gate on content.
- **Admin schedule grid** (`Schedule.dfy`): `reservationLookup`, which places
  each reservation of one barber in a (weekday, slot) cell. The last one
  placed wins.
- **Collections** (`Collections.dfy`):
  - `{ id, ...data }` records;
  - removal by id, the filter used throughout, and sorting by a key.

How the model represents things:

- **Instants.** An instant is an integer count of milliseconds of local wall
  time since the epoch. Day 0 is a Thursday.
- **External inputs.** The clock (`Date.now()`), `Math.random()` and record
  ids are parameters.

## Model

| member | source | states |
|---|---|---|
| `Decimal.NatToString` | App.js:820 | `String(n)`: at least one digit, only digits, and a leading `0` exactly when n is 0 |
| `Decimal.ParseNatToString` | App.js:820 | reading back the decimal digits of `String(n)` gives n |
| `Decimal.NatToStringLength` | App.js:187 | a number between 10^(k-1) and 10^k - 1 prints with exactly k digits |
| `Decimal.PadStart2` | App.js:820 | `padStart(2, '0')`: the result has length max(len, 2), ends with the input, and is zero-filled in front |
| `Decimal.Pad2IsPadStart` | App.js:820 | the digit-wise two-digit label equals `String(n).padStart(2, '0')` for n < 100 |
| `Times.Weekday` | App.js:819 | `getDay()` lies in 0..6 |
| `Times.MinuteOfDay` | App.js:820 | hours * 60 + minutes of an instant lies within one day |
| `Times.DayIndex` | App.js:34-42 | `DAY_NAME_TO_INDEX`: a found index names that day in `WEEKDAYS`; a name not in the week gives nothing |
| `Times.DayIndexOfWeekday` | App.js:34-42 | every weekday name maps back to its own `getDay()` index |
| `Times.ParseTime` | App.js:1997-2003 | the minutes after midnight named by a well-formed label, always below 1440 (its inverse is stated by `Times.TimeLabelOfParse`) |
| `Times.TimeLabel` | App.js:820 | the "HH:MM" label of a minute of the day is well formed and parses back to that minute |
| `Times.TimeLabelOfParse` | App.js:1997-2003 | parsing a well-formed label and printing it again gives the same label |
| `Times.ParseTimeInjective` | App.js:1997-2003 | two well-formed labels with the same parsed minute are equal |
| `Times.HalfHourSlots` | App.js:43-56 | the loop builds exactly 20 labels, "09:00" first and "18:30" last, strictly increasing; a label is among them iff it is well formed and on the half-hour grid from 09:00 to 18:30 |
| `Times.SlotGridFacts` | App.js:43-56 | the labels of grid minutes 540 + 30i are increasing and are exactly the labels on the grid |
| `Resolver.NextOccurrenceUnique` | App.js:1992-2008 | there is at most one next occurrence of a (weekday, minute) after a given instant |
| `Resolver.NextDateForSelection` | App.js:1992-2008 | no date iff the day name is unknown or the time is empty; otherwise it gives the earliest instant after `now` on that weekday at that minute, on a whole minute, at most seven days ahead, and in the same week unless that slot has already passed |
| `Resolver.WednesdayMorningAlreadyPassed` | App.js:2001-2006 | asking on Wednesday 10:00 for Wednesday 09:00 gives the next week's Wednesday |
| `Catalog.AvailableBarbers` | App.js:2150-2154 | with no service every barber is offered; with a service exactly the barbers listing it as a specialty |
| `Catalog.AvailableDays` | App.js:2180-2184 | with no barber every day option is offered; with a barber exactly the days on which that barber has times |
| `Catalog.SelectedAvailability` | App.js:2106-2111 | empty without a barber or with no or an empty day; otherwise that barber's times on that day |
| `Catalog.OfferedDayHasTimes` | App.js:2180-2184 | a day is offered for a barber iff its availability list is non-empty |
| `Catalog.DayOptionsAreWeekdays` | App.js:1860-1868 | every day option resolves to a weekday index |
| `Catalog.ClassicCutOffersBoth` | App.js:1842-1845 | both barbers offer the classic cut |
| `Catalog.SpecialistsOnly` | App.js:1842-1845 | only Fadi offers the skin fade and only Islam the beard trim |
| `Catalog.FullGroomingOffersBoth` | App.js:2150-2154 | for the full grooming service both barbers are offered, Fadi first |
| `Catalog.FadiDays` | App.js:2180-2184 | Fadi's days are offered as Monday, Wednesday, Friday, Saturday, in the order of the day options |
| `Catalog.IslamDays` | App.js:2180-2184 | Islam's days are offered as Tuesday, Thursday, Saturday, Sunday, in the order of the day options |
| `Catalog.UnknownBarberHasNoDays` | App.js:2180-2184 | a barber with no availability entry is offered no day |
| `Catalog.AdjacentToGood` | App.js:1846-1859 | a list of grid times whose neighbours ascend is strictly increasing throughout |
| `Catalog.AvailabilityWellFormed` | App.js:1846-1859 | every availability time is a schedule slot, the lists are strictly increasing, and every listed day is a day option |
| `Catalog.CatalogConsistent` | App.js:1812-1859 | every barber has an availability entry, and each specialty names a listed service |
| `Catalog.FadiMondaySlots` | App.js:1848 | Fadi's Monday has eight times, from 09:00 to 16:30 |
| `Booking.StepIndex` | App.js:1804 | each step has its position in `bookingSteps` |
| `Booking.KeepFields` | App.js:2027-2042 | keeping the first n fields keeps field k iff k < n and it was set |
| `Booking.ResetSelection` | App.js:2027-2042 | `resetSelection(base)` keeps exactly the fields before the base step |
| `Booking.SelectService` | App.js:2044-2047 | moves to the barber step with this service and clears every later field |
| `Booking.SelectBarber` | App.js:2049-2052 | moves to the day step with this barber, keeps the service and clears day and time |
| `Booking.SelectDay` | App.js:2054-2057 | moves to the time step with this day, keeps service and barber and clears the time |
| `Booking.SelectTime` | App.js:2059-2062 | moves to the summary with this time, keeping the earlier fields |
| `Booking.Restart` | App.js:2064-2067 | back to the service step with an empty selection |
| `Booking.Back` | App.js:2098-2104 | a no-op on the first step; otherwise one step back, with the fields from the new step onward cleared |
| `Booking.SelectAdvancesOneStep` | App.js:2044-2062 | each selection advances the wizard by exactly one step |
| `Booking.SelectKeepsPrefixFilled` | App.js:2049-2062 | selections keep every field before the current step filled |
| `Booking.BackKeepsPrefixFilled` | App.js:2098-2104 | going back keeps every field before the current step filled |
| `Booking.BackUndoesSelect` | App.js:2098-2104 | going back right after choosing a barber, day or time restores the previous wizard exactly |
| `Booking.BackFromBarberClearsAll` | App.js:2098-2104 | going back from the barber step returns to the initial wizard |
| `Booking.BackFromTimeClearsDay` | App.js:2098-2104 | going back from the time step clears both day and time |
| `Booking.OfferedKeepsReachable` | App.js:2140-2230 | choosing only what the screen offers keeps the selection consistent with the catalog |
| `Booking.RunKeepsReachable` | App.js:2140-2230 | any sequence of offered choices keeps the wizard reachable |
| `Booking.SummaryIsComplete` | App.js:2069-2073 | a reachable summary has all four fields, and its time is one of that barber's times on that day |
| `Collections.RemoveId` | App.js:409-421 | `filter(x => x.id !== id)`: keeps exactly the records with another id, in order; no-op when the id is absent |
| `Collections.RemoveIdAppend` | App.js:409-421 | removal distributes over concatenation |
| `Collections.RemoveIdIdempotent` | App.js:409-421 | removing twice is removing once |
| `Collections.RemoveIdCount` | App.js:409-421 | removal keeps the multiplicity of every other record |
| `Collections.RemoveIdKeepsUnique` | App.js:1934-1936 | removal keeps ids unique |
| `Collections.Filter` | App.js:1890-1898 | `filter`: the elements kept are exactly those satisfying the predicate |
| `Collections.FilterAppend` | App.js:1890-1898 | filtering distributes over concatenation |
| `Collections.InsertByKey` | App.js:1890-1898 | inserting into a key-sorted list keeps it sorted and adds exactly one element |
| `Collections.SortByKey` | App.js:1890-1898 | `sort((a, b) => key(a) - key(b))`: sorted by key and a permutation of the input |
| `Collections.InsertByKeyStable` | App.js:1890-1898 | an inserted element comes after every element of equal key already present |
| `Collections.SortByKeyStable` | App.js:1890-1898 | the sort is stable: the elements sharing a key keep their input order |
| `Cart.CartTotal` | App.js:1938-1941 | `cartTotal`, the sum of price × quantity over the lines: 0 for an empty cart, a single line's price × quantity |
| `Cart.CartTotalNonNegative` | App.js:1938-1941 | lines of non-negative price and quantity never total below zero |
| `Cart.CartTotalAppend` | App.js:1938-1941 | the cart total of a concatenation is the sum of the totals |
| `Cart.Retag` | App.js:1910-1922 | `map` over the cart that changes exactly the lines with the given id |
| `Cart.AddToCart` | App.js:1910-1922 | an existing item keeps the cart's length, ids and order, each line of that item gains one unit and every other line is unchanged; a new item is appended as a line of quantity 1 |
| `Cart.UpdateCartQuantity` | App.js:1924-1932 | a quantity of 0 or less removes the line; otherwise exactly that line's quantity is set |
| `Cart.AddToCartKeepsUnique` | App.js:1910-1922 | adding keeps ids unique |
| `Cart.UpdateKeepsUnique` | App.js:1924-1932 | updating a quantity keeps ids unique |
| `Cart.AddToCartQuantity` | App.js:1910-1922 | adding a present item raises its quantity by the number of its lines, a new item starts at 1, and other items are left alone |
| `Cart.IncrementQuantity` | App.js:1913-1917 | incrementing raises an item's quantity by the number of its lines and leaves others alone |
| `Cart.AddToCartTotal` | App.js:1938-1941 | adding an item raises the total by its price |
| `Cart.IncrementTotal` | App.js:1913-1917 | incrementing raises the total by the sum of that item's line prices |
| `Cart.UniqueLineSums` | App.js:1910-1922 | in a cart with unique ids, the per-id sums are that one line's values |
| `Cart.AbsentSums` | App.js:1910-1922 | an absent id contributes nothing |
| `Cart.AddExistingLine` | App.js:1913-1917 | adding an item already in a unique-id cart raises its quantity by one and the total by its price |
| `Cart.AddKeepsPositive` | App.js:1910-1922 | adding keeps all quantities positive |
| `Cart.RemoveKeepsPositive` | App.js:1934-1936 | removing keeps all quantities positive |
| `Cart.UpdateKeepsPositive` | App.js:1924-1932 | updating keeps all quantities positive, since a quantity of 0 or less removes the line |
| `Accounts.Lead` | App.js:280 | the whitespace prefix that `trim` removes |
| `Accounts.Trail` | App.js:280 | the whitespace suffix that `trim` removes |
| `Accounts.Trim` | App.js:280-284 | `trim()`: a substring with no whitespace at either end; empty iff the input is all whitespace |
| `Accounts.TrimIdempotent` | App.js:280-284 | trimming twice is trimming once |
| `Accounts.TrimPadded` | App.js:258 | trimming removes any whitespace padding around a word |
| `Accounts.LeadOfPadded` | App.js:258 | whitespace padding in front is exactly the leading run |
| `Accounts.TrailOfPadded` | App.js:258 | whitespace padding behind is exactly the trailing run |
| `Accounts.ToLower` | App.js:281 | `toLowerCase()` character by character, same length |
| `Accounts.ToLowerIdempotent` | App.js:281 | lower-casing is idempotent |
| `Accounts.SaveUserProfile` | App.js:177-185 | an empty username changes nothing; otherwise that one entry is replaced |
| `Accounts.FetchValue` | App.js:167-171 | `localProfiles[username] ?? null`: `null` for an empty username; the stored record iff one is stored; otherwise an inherited member exactly for `"constructor"` and `"__proto__"`, and `null` for every other name |
| `Accounts.FetchUserProfile` | App.js:167-171 | a profile record is found iff the username is non-empty and stored, and it is the stored one |
| `Accounts.SaveThenFetch` | App.js:167-185 | fetching right after saving returns what was saved, and other users are unaffected |
| `Accounts.GenerateVerificationCode` | App.js:187 | six decimal digits, no leading zero, value between 100000 and 999999 |
| `Accounts.NewAccount` | App.js:354-366 | a new account holds the given name, email and password and the code; it is neither verified nor approved, was sent at creation, has no verification time, and expires 15 minutes after creation |
| `Accounts.CheckCode` | App.js:247-266 | expired iff there is no code or it has expired; invalid iff a live code differs from the trimmed input; an accepted code marks the account verified at `now` and keeps everything else |
| `Accounts.ExpiredStaysExpired` | App.js:253-254 | an expired code stays expired later on |
| `Accounts.FreshCodeAccepted` | App.js:247-266 | the code of a new account, padded with whitespace, is accepted within its lifetime |
| `Accounts.WithVerification` | App.js:270-273 | the merge replaces the verification and keeps name, email and password |
| `Accounts.WithProfileUpdate` | App.js:490-498 | name and email are replaced, the password only when a non-empty one is given, and the verification is kept |
| `Accounts.WithApproval` | App.js:549-555 | approval sets `adminApproved` and keeps every other field; a missing profile becomes one with no name, email or password, and a missing verification record becomes the default one with only `adminApproved` set |
| `Accounts.ApprovalIdempotent` | App.js:549-555 | approving twice is approving once |
| `Accounts.IsApproved` | App.js:1796 | `Boolean(currentUser?.verification?.adminApproved)`: a missing user or a missing verification record reads as not approved |
| `Accounts.Normalize` | App.js:280-281 | the stored username is the trimmed, lower-cased input |
| `Accounts.DecideTrimmed` | App.js:286-317 | the same check order over the trimmed inputs and the lower-cased username |
| `Accounts.DecideSubmit` | App.js:279-382 | the order of the checks: missing credentials, then missing signup details, then admin login, then the reserved admin name; then the login or signup decision, which never yields an empty username |
| `Accounts.DecideLogin` | App.js:318-346 | fails iff the account is unknown or the password differs (an inherited member has no password, so it fails too); an unverified account must verify; a verified one starts the session |
| `Accounts.DecideSignup` | App.js:348-377 | refused iff the name is stored or is one of the inherited keys `"constructor"` and `"__proto__"`; otherwise creates the account with a fresh code |
| `Accounts.InheritedNameTaken` | App.js:348-352 | signing up as `"constructor"` or `"__proto__"` (after trimming and lower-casing) is refused as an existing account, and logging in with such a name fails unless it is stored |
| `Accounts.AdminBypass` | App.js:299-315 | the admin credentials open the admin session on login and are refused on signup |
| `Accounts.SignupCreates` | App.js:348-366 | a created account is stored under the normalised name and built from the trimmed fields |
| `Accounts.LoginWithStoredAccount` | App.js:318-346 | a verified stored account with the right password starts its session |
| `Accounts.AcceptThenApprove` | App.js:549-555 | an account whose code was accepted and that the admin then approved is verified, approved, and keeps its password |
| `Accounts.SignupVerifyApproveLogin` | App.js:279-562 | signing up, entering the code in time and being approved yields an account that logs in and passes the approval gate |
| `AppState.Settled` | App.js:139-165 | the effect runs only when the session username changed or the profile map was set; it changes only the current user and the displayed name, and afterwards the session is consistent |
| `AppState.SyncedUser` | App.js:139-165 | the effect: no session clears the user; a stored profile is loaded; otherwise the user is left as it was |
| `AppState.SyncEstablishesConsistency` | App.js:156-163 | after the effect has run, the session is consistent |
| `AppState.SettledConsistent` | App.js:139-165 | the effect, run when its dependencies change, restores consistency |
| `AppState.GateFollowsStore` | App.js:1796 | in a consistent session, the approval gate reads the stored account's approval |
| `AppState.App.constructor` | App.js:61-74 | the initial state: auth screen, login mode, empty form, no session and empty lists |
| `AppState.App.Settle` | App.js:139-165 | applies the effect to the current state |
| `AppState.App.HandleChange` | App.js:80-82 | sets exactly one form field |
| `AppState.App.HandleModeChange` | App.js:84-86 | sets the mode only |
| `AppState.App.EnterCode` | App.js:677-678 | sets the code input only |
| `AppState.App.ResetForm` | App.js:78 | clears the form only |
| `AppState.App.OpenVerification` | App.js:241-245 | opens the code dialog for a user with an empty input |
| `AppState.App.Submit` | App.js:279-382 | each outcome of the decision becomes its state change; the failing ones change nothing |
| `AppState.App.StartAdminSession` | App.js:299-310 | admin name, admin session, form cleared, admin screen |
| `AppState.App.RequireVerification` | App.js:326-331 | session user set and the code dialog opened |
| `AppState.App.StartSession` | App.js:335-345 | the user is loaded from the store, form cleared, main screen |
| `AppState.App.CreateAccount` | App.js:367-377 | the account is stored, the session starts, the form resets to login, and the code dialog opens |
| `AppState.App.VerifyCode` | App.js:247-277 | without a pending user nothing changes; an accepted code stores the verified account and closes the dialog |
| `AppState.App.SignOut` | App.js:384-390 | clears the form, the current user and the session username, resets the mode to login and returns to the auth screen; the displayed name and everything else are kept |
| `AppState.App.CreateReservation` | App.js:392-407 | appends one reservation record |
| `AppState.App.CancelReservation` | App.js:409-421 | an empty id changes nothing; otherwise that id's records are removed |
| `AppState.App.AddShopItem` | App.js:423-438 | an item without a name changes nothing; otherwise it is appended |
| `AppState.App.RemoveShopItem` | App.js:440-452 | an empty id changes nothing; otherwise that id's records are removed |
| `AppState.App.CreateOrder` | App.js:454-466 | appends one order record |
| `AppState.App.UpdateProfile` | App.js:468-516 | without a signed-in user nothing changes; otherwise the merged profile is stored and reloaded |
| `AppState.App.ApproveUser` | App.js:544-562 | stores the approved account and re-runs the effect |
| `CustomerScreen.CustomerName` | App.js:1871 | the profile's name, else the name prop, else "Guest"; never empty |
| `CustomerScreen.CustomerUsername` | App.js:1870 | the session name, else the user's name, else "guest", which is the result exactly when neither name is set; never empty |
| `CustomerScreen.CustomerReservations` | App.js:1890-1898 | exactly this customer's reservations, each as often as stored, earliest first |
| `CustomerScreen.CustomerOrders` | App.js:1900-1908 | exactly this customer's orders, each as often as stored, oldest first |
| `CustomerScreen.ContentFor` | App.js:2517-2531 | the pending-approval notice iff the user is not approved; otherwise the selected tab |
| `CustomerScreen.ReachableSummaryResolves` | App.js:2069-2096 | a reachable summary always resolves to a date |
| `CustomerScreen.MainScreen.constructor` | App.js:1803-1811 | the home tab, the initial wizard and an empty cart |
| `CustomerScreen.MainScreen.SelectTab` | App.js:1803 | sets the tab only |
| `CustomerScreen.MainScreen.HandleServiceSelect` | App.js:2044-2047 | the wizard becomes `SelectService` of the old one |
| `CustomerScreen.MainScreen.HandleBarberSelect` | App.js:2049-2052 | the wizard becomes `SelectBarber` of the old one |
| `CustomerScreen.MainScreen.HandleDaySelect` | App.js:2054-2057 | the wizard becomes `SelectDay` of the old one |
| `CustomerScreen.MainScreen.HandleTimeSelect` | App.js:2059-2062 | the wizard becomes `SelectTime` of the old one |
| `CustomerScreen.MainScreen.HandleBookingRestart` | App.js:2064-2067 | the wizard restarts |
| `CustomerScreen.MainScreen.HandleBack` | App.js:2098-2104 | the wizard becomes `Back` of the old one |
| `CustomerScreen.MainScreen.HandleConfirmReservation` | App.js:2069-2096 | an incomplete selection or an unknown day changes nothing; otherwise one reservation at the next occurrence is appended and the wizard restarts |
| `CustomerScreen.MainScreen.AddItem` | App.js:1910-1922 | the cart becomes `AddToCart` of the old one |
| `CustomerScreen.MainScreen.UpdateQuantity` | App.js:1924-1932 | the cart becomes `UpdateCartQuantity` of the old one |
| `CustomerScreen.MainScreen.RemoveFromCart` | App.js:1934-1936 | the line is removed from the cart |
| `CustomerScreen.MainScreen.HandleCheckout` | App.js:1943-1965 | an empty cart changes nothing; otherwise one order with the cart's lines and total is recorded and the cart is emptied |
| `CustomerScreen.MainScreen.HandleProfileSave` | App.js:1971-1982 | the form's name and email are passed to the profile update as typed, and the new password only when it is non-empty |
| `Schedule.Cell` | App.js:818-820 | the (day, slot) key of an instant: its weekday name and a well-formed slot label that parses back to its minute of the day |
| `Schedule.CellDay` | App.js:818-820 | the day of a cell names the instant's weekday |
| `Schedule.Lookup` | App.js:814-825 | reference definition: the barber's bookings placed one after another in list order, so the last placed entry per cell wins; no day row is empty |
| `Schedule.ReservationLookup` | App.js:814-825 | the loop computes the grid fold, and every placed reservation belongs to this barber and sits in its own cell |
| `Schedule.LookupSound` | App.js:814-825 | every grid entry is a reservation of this barber whose instant falls in that cell |
| `Schedule.LookupComplete` | App.js:814-825 | every reservation of this barber occupies its cell |
| `Schedule.LookupLastWins` | App.js:822 | a reservation not followed by another in the same cell is the one shown there |
| `Schedule.PlaceKeeps` | App.js:821-822 | placing a reservation keeps every other cell |
| `Schedule.LookupIgnoresOthers` | App.js:817 | another barber's reservation changes nothing |
| `Schedule.ResolvedLandsInCell` | App.js:2069-2096 | a booking made through the wizard lands in the grid cell of its own day and time |

## Left out

- The Firestore branches are not modelled: every `isFirebaseConfigured` path, the `onSnapshot` subscriptions and `setDoc`/`deleteDoc`. Only the in-memory mode is modelled.
- The admin handlers that exist only against Firestore are not modelled: working days (`handleAddDay`, `handleToggleDay`, `handleRemoveDay`) and `handleRemoveUser`.
- `sendVerificationEmail` is not modelled: it is network I/O, and its result does not affect the state.
- Rendering is not modelled: JSX, styles, `Alert.alert` and console logging. An alert path is modelled as "state unchanged".
- Prices and totals are integers. The admin screen's `parseFloat` of a typed price is not modelled, and neither is floating-point rounding.
- The clock and randomness are parameters:
  - `Date.now()` and `new Date()` become a `now` parameter.
  - `Math.random()` becomes a real in [0, 1).
  - The `local-${Date.now()}` ids are supplied by the caller.
- ISO timestamp strings (`toISOString`, `new Date(iso)`) are integer instants, and so are the reservation and order dates. `toLocaleString` and the display of dates are not modelled.
- Time zones and daylight-saving changes are not modelled: local time is a fixed offset from the epoch.
- `Resolver.NextDateForSelection`: requires the time label to be empty or a well-formed "HH:MM"; other labels are not modelled. The source passes `Number()` of each part to `setHours` (App.js:1997-2003), so numeric labels out of range or without padding ("24:00", "10:75", "9:30") roll over into valid dates, and a label with a missing or non-numeric part ("10", "ab:cd") gives an Invalid Date. The wizard never offers such labels.
- `CustomerScreen.MainScreen.HandleConfirmReservation`: requires the selected time to be empty or a well-formed "HH:MM". A reachable wizard only offers such times (`Booking.SummaryIsComplete`, `Catalog.AvailabilityWellFormed`).
- `Accounts.ToLower`: ASCII letters only. Other Unicode case mappings are not modelled.
- `DAY_NAME_TO_INDEX` lookups of inherited object keys such as `"constructor"` are not modelled. `Times.DayIndex` knows only the seven day names.
- `AppState.SyncedUser`: the effect's `localProfiles[activeUsername]` is not modelled for the inherited keys `"constructor"` and `"__proto__"`. No session can hold those names, because signup refuses them and login fails for them (`Accounts.InheritedNameTaken`).
- The `if (!newReservation)` and `if (!order)` guards cannot fail in the typed model. The model always passes a record.
- Not modelled because they are commented out or configuration: `AdminScreen`'s commented-out code and `firebaseConfig.js`.
- The profile-form editing state (`handleProfileFieldChange`) and the modal visibility flags of `MainScreen` are not modelled. They hold no logic beyond setting a field.
- The current-user effect runs right after each handler (`AppState.App.Settle`), not at a later render. Several `setState` calls of one handler are applied together.

### Behaviour worth noting

- **Barber filter.** The barber list falls back to every barber only while no service is chosen (App.js:2150-2154); with a service chosen it holds exactly that service's specialists (`Catalog.AvailableBarbers`).
- **Back from the time step.** Going back from the time step resets the selection from the day step, which clears both the day and the time (App.js:2098-2104 and App.js:2027-2042; `Booking.BackFromTimeClearsDay`).
- **Fadi's Monday.** Fadi's Monday has eight times, the last at 16:30 (App.js:1848; `Catalog.FadiMondaySlots`).
- **Admin login.** Logging in as admin sets only the displayed name, the session username, the form and the screen (App.js:299-310). The admin has no stored profile, so the current-user effect leaves any previous `currentUser` in place (App.js:159-163). The model keeps this behaviour.
