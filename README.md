# IntelliPark client logic, modelled in Dafny

IntelliPark is a parking-reservation web application: users browse parking complexes, view a
grid of spots with their status, and reserve a spot; administrators manage complexes, video
feeds and the spot regions marked on those feeds. Almost all of it is UI and calls to a hosted
backend. This project models the small pieces of client-side logic that can be stated exactly:

- the two mock spot-grid generators: the seeded one shared by the home page, and the
  randomised one of the reserve page (`ParkingData`, `Reserve`);
- the booking flow of the home and reserve pages as classes over the pages' state fields
  (`Home.HomePage`, `Reserve.ReservePage`);
- the reservation form: its mount-time state, its field handlers and its ordered submit checks
  (`ReservationModal`);
- the registration and login forms (`Register`, `Login`);
- the admin dashboard's statistics, as a pure function of the fetched spot and reservation
  lists (`AdminDashboard`);
- the complex manager's name check, the 20 default spots it inserts, and the per-complex spot
  count (`ComplexManager`);
- the video-feed manager: adding a feed, marking spot regions on the selected feed one click
  at a time, and the filtered definitions sent when monitoring starts (`VideoFeedManager`);
- the JavaScript string operations these rely on: `toString` of a non-negative integer,
  `padStart` and `trim` (`Text`).

Clocks, randomness and the backend become parameters. `now` stands for `new Date()` and
`stamp` for `Date.now().toString()`. A boolean stands for whether an insert succeeded.
`Math.random()` becomes a nondeterministic choice (`:|`) of an index in 0..2. Dates are
integer timestamps, and click coordinates are opaque `real` values.

The reservation form (`src/components/ReservationModal.tsx:56-75`) checks the vehicle plate,
then the date, then the duration. It has no time field and no check of the signed-in user. It
hands the data to the page, which keeps it in local state (`src/pages/Home.tsx:53-57`,
`src/pages/Reserve.tsx:66-70`). Nothing is written to the backend, and no spot's status is
updated.

## Model

| member | source | states |
|---|---|---|
| Text.DecimalString | src/utils/parkingData.ts:21 | `i.toString()` is a non-empty string of digits; it has one digit exactly when i < 10, and no leading zero when i ≥ 1 |
| Text.DecimalStringInjective | src/components/admin/ParkingComplexManager.tsx:66 | different numbers have different decimal spellings |
| Text.PadStart | src/utils/parkingData.ts:21 | `padStart(width, fill)` gives length max(\|s\|, width): `s` is kept whole at the end (no truncation) and only `fill` is added in front |
| Text.ZeroPaddedDecimalInjective | src/utils/parkingData.ts:21 | zero-padding decimal spellings to width 2 keeps different numbers different |
| Text.Trim | src/components/admin/ParkingComplexManager.tsx:57 | `trim()` never makes a string longer |
| Text.TrimEmptyIff | src/components/admin/ParkingComplexManager.tsx:57 | `!name.trim()` holds exactly when the name is empty or made only of ECMAScript whitespace and line terminators |
| ParkingData.SpotLabel | src/utils/parkingData.ts:21 | a spot id is `A` followed by the number zero-padded to two digits |
| ParkingData.SpotLabelInjective | src/utils/parkingData.ts:21 | different spot numbers give different ids |
| ParkingData.LabelledGridDistinct | src/utils/parkingData.ts:20-27 | a grid whose ids are the labels of 1..n in order has pairwise distinct ids |
| ParkingData.SeededGridDeterministic | src/utils/parkingData.ts:22-25 | two grids generated from the same (count, seed) are equal |
| ParkingData.SeededStatus | src/utils/parkingData.ts:24-25 | the status of spot i is always one of `statusOptions`, and `available` whenever i % 4 = 0 |
| ParkingData.GenerateParkingSpots | src/utils/parkingData.ts:16-30 | exactly `count` spots for i = 1..count in order; spot i has id `A` + padded i; status `available` when i % 4 = 0, whatever the seed, and `statusOptions[(i + seed) % 3]` otherwise; ids pairwise distinct |
| ParkingData.BuildParkingData | src/utils/parkingData.ts:33-36 | `parkingData` has exactly the two keys of `parkingComplexes`: 18 spots with seed 1 and 24 with seed 2 |
| Reserve.GenerateParkingSpots | src/pages/Reserve.tsx:18-30 | for any random draws: `count` spots in order with ids `A` + padded i; every third spot is `available`; every status is one of the three options; ids pairwise distinct |
| Reserve.BuildParkingData | src/pages/Reserve.tsx:33-36 | the page's own grid map has the two complexes, with 18 and 24 randomised spots |
| Reserve.ReservePage.constructor | src/pages/Reserve.tsx:39-43 | no complex, no spot, no reservation, both modals closed, so the reservation modal is not mounted |
| Reserve.ReservePage.ReservationModalMounted | src/pages/Reserve.tsx:129 | the modal is rendered only while a non-empty complex is selected; false at page load, true after a non-empty selection |
| Reserve.ReservePage.HandleComplexSelect | src/pages/Reserve.tsx:47-49 | only the selected complex changes; a non-empty choice mounts the reservation modal |
| Reserve.ReservePage.HandleSpotClick | src/pages/Reserve.tsx:51-64 | a logged-out click changes nothing; a logged-in click selects the spot and opens the reservation modal, whose `spotId` prop (`selectedSpot \|\| ''`, line 133) is then the clicked spot |
| Reserve.ReservePage.HandleReservationConfirm | src/pages/Reserve.tsx:66-70 | stores the data, closes the reservation modal and opens the confirmation modal; keeps the flow invariant (reservation modal open ⇒ logged in, a spot selected and the modal's `spotId` prop equal to it; confirmation open ⇒ a reservation stored) |
| Reserve.ReservePage.CloseReservationModal | src/pages/Reserve.tsx:132 | only the reservation modal's flag changes |
| Reserve.ReservePage.CloseConfirmationModal | src/pages/Reserve.tsx:142 | only the confirmation modal's flag changes |
| Home.HomePage.constructor | src/pages/Home.tsx:16-21 | first complex of `parkingComplexes` selected, grid hidden, no spot, both modals closed, no reservation; the modal's form is mounted with spot `''` and the first complex |
| Home.HomePage.HandleComplexSelect | src/pages/Home.tsx:25-28 | selects the complex and shows the grid; every handler keeps the grid visible once shown |
| Home.HomePage.HandleSpotClick | src/pages/Home.tsx:38-51 | a logged-out click changes nothing; a logged-in click selects the spot and opens the reservation modal, whose `spotId` prop (`selectedSpot \|\| ''`, line 309) is then the clicked spot |
| Home.HomePage.HandleReservationConfirm | src/pages/Home.tsx:53-57 | stores the reservation, closes the reservation modal and opens the confirmation modal, keeping the flow invariant |
| Home.HomePage.CloseReservationModal | src/pages/Home.tsx:308 | closing the reservation modal keeps the selected spot |
| Home.HomePage.CloseConfirmationModal | src/pages/Home.tsx:317 | only the confirmation modal's flag changes |
| Home.HomePage.SubmitReservation | src/pages/Home.tsx:306-312 | with the corrected submit, the open modal confirms exactly when a plate is entered; the stored reservation names the selected spot and complex |
| Home.MountTimeSpotIdCounterexample | src/pages/Home.tsx:306-312 | as written, a modal mounted with the page confirms spot `""` of the first complex while the available spot `A04` of the second is shown |
| ReservationModal.InitialFormData | src/components/ReservationModal.tsx:46-54 | the mount-time form: the props, the plate prop or `''`, date = now, duration `'1 hour'`, which is a listed duration |
| ReservationModal.DurationsWellFormed | src/components/ReservationModal.tsx:31-38 | the selectable durations are six distinct non-empty labels: `30 min`, `1 hour`, `2 hours`, `4 hours`, `8 hours`, `All day` |
| ReservationModal.SubmitForm | src/components/ReservationModal.tsx:56-75 | the checks run plate, then date, then duration, and only the first failure's message is produced; `onConfirm` gets the form exactly when all three are present |
| ReservationModal.SubmitFormWithProps | src/components/ReservationModal.tsx:56-75 | corrected submit: same checks and messages, but the confirmed data carries the current spot and complex props |
| ReservationModal.ReachableSubmitNeedsOnlyPlate | src/components/ReservationModal.tsx:59-72 | for any form the handlers can produce, an empty plate is rejected with the plate message, and a non-empty plate is confirmed |
| ReservationModal.DateDisabled | src/components/ReservationModal.tsx:138 | the calendar disables every date before now; `SelectDate` proves the stored date is then never before now |
| ReservationModal.ReservationForm.constructor | src/components/ReservationModal.tsx:48-54 | the form state is the mount-time form, which has a date and a listed duration |
| ReservationModal.ReservationForm.SetVehiclePlate | src/components/ReservationModal.tsx:112 | only the plate changes; spot and complex keep their mount-time values |
| ReservationModal.ReservationForm.SelectDate | src/components/ReservationModal.tsx:136-138 | a picked date is stored and a cleared one falls back to now; since the calendar disables days before now, the stored date is never before now; nothing else changes |
| ReservationModal.ReservationForm.SelectDuration | src/components/ReservationModal.tsx:150 | only the duration changes, to one of the listed durations |
| Register.Field | src/pages/Register.tsx:11-17 | the form has exactly the five keys name, email, password, confirmPassword, vehiclePlate |
| Register.WithField | src/pages/Register.tsx:23 | `{...prev, [id]: value}`: the field keyed `id` becomes `value`; every other field is unchanged |
| Register.HasEmptyFieldIff | src/pages/Register.tsx:30 | "some field is empty" is the disjunction of the five emptiness tests |
| Register.HandleSubmit | src/pages/Register.tsx:26-47 | an empty field gives "Please fill in all fields", ahead of the mismatch check; filled fields with different passwords give "Passwords do not match"; success exactly when all are filled and the passwords agree |
| Register.InitialFormRejected | src/pages/Register.tsx:11-17 | the initial form is rejected for empty fields |
| Register.RegisterPage.constructor | src/pages/Register.tsx:11-17 | all five fields start empty |
| Register.RegisterPage.HandleChange | src/pages/Register.tsx:21-24 | only the field whose key equals the input id changes |
| Login.CheckFields | src/pages/Login.tsx:23-26 | accepted exactly when email and password are both non-empty; no credentials are looked up |
| Login.Session.constructor | src/pages/Login.tsx:10-12 | the flag that the page's declared `setIsLoggedIn` prop writes, starting at whatever value the parent holds |
| Login.HandleSubmit | src/pages/Login.tsx:20-32 | a rejection leaves the flag alone, an acceptance sets it to true, and the flag is never set to false |
| AdminDashboard.CountStatus | src/components/admin/AdminDashboard.tsx:43-45 | counts exact status matches: at most the number of rows, and zero exactly when no row has that status |
| AdminDashboard.Statuses | src/components/admin/AdminDashboard.tsx:31-33 | the status column of the spot rows, in order |
| AdminDashboard.CountStatusIsMultiplicity | src/components/admin/AdminDashboard.tsx:43-45 | each status count equals that status's multiplicity in the multiset of statuses |
| AdminDashboard.CountActive | src/components/admin/AdminDashboard.tsx:46 | active reservations (`upcoming` or `live`) are at most all reservations, and zero exactly when none is active |
| AdminDashboard.Complexes | src/components/admin/AdminDashboard.tsx:41 | `new Set(...)` of the complex column: every row's complex is in it, and it is empty exactly when there are no rows |
| AdminDashboard.ComplexesBounded | src/components/admin/AdminDashboard.tsx:41 | there are never more distinct complexes than spot rows |
| AdminDashboard.StatusCountsBounded | src/components/admin/AdminDashboard.tsx:43-45 | available + reserved + occupied ≤ the number of spots, with equality when every status is one of the three |
| AdminDashboard.ComputeStats | src/components/admin/AdminDashboard.tsx:28-56 | the seven statistics: distinct complexes, totals and the three status counts; an absent list gives zeros; complexes ≤ spots; status sum ≤ spots, with equality when every status is known; active ≤ total reservations |
| AdminDashboard.NoDataGivesInitialStats | src/components/admin/AdminDashboard.tsx:17-25 | absent or empty data gives the all-zero initial statistics |
| ComplexManager.DefaultSpots | src/components/admin/ParkingComplexManager.tsx:63-68 | exactly 20 rows; row k has spot id `k+1` in decimal and status `available`, and carries the name exactly as typed |
| ComplexManager.DefaultSpotIdsDistinct | src/components/admin/ParkingComplexManager.tsx:66 | the default spot ids run from `"1"` to `"20"` and are pairwise distinct |
| ComplexManager.CountComplex | src/components/admin/ParkingComplexManager.tsx:33-36 | the rows carrying a complex name are at most all rows |
| ComplexManager.CountComplexAppend | src/components/admin/ParkingComplexManager.tsx:33-36 | counting a complex's rows distributes over concatenated tables |
| ComplexManager.CountComplexAll | src/components/admin/ParkingComplexManager.tsx:33-36 | when every row carries the name, the count is the number of rows |
| ComplexManager.SpotCount | src/components/admin/ParkingComplexManager.tsx:33-41 | `spotCount` is the number of rows carrying the complex name, and 0 when the query returns nothing |
| ComplexManager.AddedComplexCount | src/components/admin/ParkingComplexManager.tsx:63-72 | inserting a new complex's default rows raises its spot count by exactly 20 |
| ComplexManager.ComplexManagerPage.constructor | src/components/admin/ParkingComplexManager.tsx:19-20 | empty name, dialog closed |
| ComplexManager.ComplexManagerPage.SetNewComplexName | src/components/admin/ParkingComplexManager.tsx:132 | only the name changes |
| ComplexManager.ComplexManagerPage.SetDialogOpen | src/components/admin/ParkingComplexManager.tsx:118 | only the dialog flag changes |
| ComplexManager.ComplexManagerPage.AddComplex | src/components/admin/ParkingComplexManager.tsx:56-84 | a blank name is rejected with no rows and no state change; otherwise the 20 default rows are inserted, and only after a successful insert is the name reset to `''` and the dialog closed |
| VideoFeedManager.DefinitionsFor | src/components/admin/VideoFeedManager.tsx:106-108 | the filter keeps every definition of the complex and only those |
| VideoFeedManager.DefinitionsForAppend | src/components/admin/VideoFeedManager.tsx:106-108 | filtering distributes over concatenation, so the definitions keep their order |
| VideoFeedManager.AppendedDefinitionMonitored | src/components/admin/VideoFeedManager.tsx:94-108 | a definition appended for a complex is the last one sent for that complex, and is not sent for any other complex |
| VideoFeedManager.MonitoredDefinitions | src/components/admin/VideoFeedManager.tsx:106-108 | the definitions of the selected feed's complex; none when no feed is selected |
| VideoFeedManager.NewFeedComplete | src/components/admin/VideoFeedManager.tsx:56 | name, url and complex are all non-empty; `AddVideoFeed` inserts only then |
| VideoFeedManager.StartMonitoringEnabled | src/components/admin/VideoFeedManager.tsx:199 | Start Monitoring is enabled when a feed is selected and at least one definition exists; a defining click enables it |
| VideoFeedManager.DefineSpotEnabled | src/components/admin/VideoFeedManager.tsx:225 | Define Spot is enabled exactly when a spot id is entered |
| VideoFeedManager.VideoFeedManagerPage.ClickArmed | src/components/admin/VideoFeedManager.tsx:78 | a video click defines a spot exactly when defining mode is on, a spot id is entered and a feed is selected; `HandleVideoClick` appends exactly when it holds and clears it |
| VideoFeedManager.VideoFeedManagerPage.constructor | src/components/admin/VideoFeedManager.tsx:29-34 | no definitions, no feed selected, empty form, not defining, empty spot id |
| VideoFeedManager.VideoFeedManagerPage.SetNewFeed | src/components/admin/VideoFeedManager.tsx:154-168 | only the add-feed form changes |
| VideoFeedManager.VideoFeedManagerPage.SelectFeed | src/components/admin/VideoFeedManager.tsx:190 | only the selected feed changes |
| VideoFeedManager.VideoFeedManagerPage.SetCurrentSpotId | src/components/admin/VideoFeedManager.tsx:221 | only the current spot id changes |
| VideoFeedManager.VideoFeedManagerPage.PressDefineSpot | src/components/admin/VideoFeedManager.tsx:223-226 | Define Spot can only be pressed with a non-empty spot id; it turns defining mode on, which arms the next click when a feed is selected |
| VideoFeedManager.VideoFeedManagerPage.AddVideoFeed | src/components/admin/VideoFeedManager.tsx:55-75 | an empty name, url or complex is rejected and the form kept; a successful insert resets the form to all-empty |
| VideoFeedManager.VideoFeedManagerPage.HandleVideoClick | src/components/admin/VideoFeedManager.tsx:77-98 | a no-op unless defining mode is on, the spot id is non-empty and a feed is selected; otherwise it appends exactly one definition (current spot id, selected feed's complex, width 8, height 12), which becomes the last one monitored; afterwards the spot id is `''` and defining mode is off, so a second click is a no-op, and Start Monitoring is enabled |
| VideoFeedManager.VideoFeedManagerPage.StartMonitoring | src/components/admin/VideoFeedManager.tsx:100-118 | when the button is enabled, the request carries the clicked card's feed id and exactly the filtered definitions of the selected feed's complex, in their stored order |

## Findings

| source | as written | input that shows it | evidently intended | confidence | as-written member | corrected member |
|---|---|---|---|---|---|---|
| src/components/ReservationModal.tsx:48-54 with src/pages/Home.tsx:306-312 | `formData` is taken from `useState`'s initial value, which is read only on the first render. The home page mounts the modal at page load, when `selectedSpot` is null. So `onConfirm` gets spot id `''` and the first complex, whatever spot and complex are shown when the form is submitted. | with the home page rendered with `isLoggedIn = true`: choose "Demo Parking 2", click the available spot `A04`, enter plate `ABC123`, confirm: the reservation reads spot `""`, complex "Demo Parking 1" | the confirmed reservation names the spot and complex the modal shows | high (not executed) | ReservationModal.SubmitForm, Home.MountTimeSpotIdCounterexample | ReservationModal.SubmitFormWithProps, Home.HomePage.SubmitReservation |

## Left out

- Backend table operations are not modelled. This covers selects, inserts, updates, deletes and upserts, the fetch and delete parts of the complex manager and the dashboard, `saveSpotDefinitions`, and the two admin managers of spots and reservations. Their query semantics are not visible. Only the success of an insert enters the model, as a parameter.
- The frame-analysis function is not modelled: its "analysis" is random. `StartMonitoring` returns the request body instead of sending it.
- Reservation status derivation from date, time and duration is not modelled: no modelled file implements it.
- Rendering, toasts, navigation and the two-second redirect after registration are not modelled. They are presentation and I/O.
- Pixel-to-percentage arithmetic is not modelled. It is floating point, so the click position enters as opaque values.
- ParkingData.GenerateParkingSpots: models seeds ≥ 0 only, because JavaScript's `%` would give a negative index (and an undefined status) for negative seeds. `count` is a natural number; a non-integer count is not modelled.
- Register.WithField: an input id other than the five keys leaves the five fields unchanged. The extra key JavaScript adds to the object is not modelled, because nothing reads it.
- Home.HomePage.SubmitReservation: uses the corrected submit from the finding above. The stale-form behaviour as written is captured by `ReservationModal.SubmitForm` and `Home.MountTimeSpotIdCounterexample`.
- The reserve page's modal has the same mount-time issue: it is mounted when the first complex is chosen, before any spot is clicked. It is not composed with `Reserve.ReservePage`, whose `HandleReservationConfirm` takes the data as a parameter, as the source handler does.
- ReservationModal.ReservationForm.SelectDate: requires the picked day to be enabled, because the calendar does not offer disabled days. The clock reading behind `disabled` and the one behind the `new Date()` fallback are taken as the same `now`.
- ReservationModal.ReservationForm.SelectDuration: requires a value from `durations`, because the select offers no other value.
- VideoFeedManager.VideoFeedManagerPage.StartMonitoring: requires the button to be enabled, because a disabled button cannot be pressed. The request uses the clicked card's feed id but the selected feed's complex, as the source does.
- Text.Trim: its contract only bounds the length. The model uses only the emptiness of the trimmed name, which `Text.TrimEmptyIff` states.
- The home and reserve pages are modelled with their declared `isLoggedIn` prop (`src/pages/Home.tsx:15`, `src/pages/Reserve.tsx:38`), and the login page with its declared `setIsLoggedIn` prop (`src/pages/Login.tsx:10-14`). `src/App.tsx:28-32` renders all three without props. As wired there, `isLoggedIn` is `undefined`, so every spot click takes the logged-out branch, and `setIsLoggedIn(true)` throws before the success toast and the navigation.
- Home.HomePage and Reserve.ReservePage hold `isLoggedIn` fixed for the page's lifetime. A prop change while a modal is open is not modelled, and the invariant "reservation modal open ⇒ logged in" relies on this.
- ComplexManager.SpotCount: assumes the complexes query at `src/components/admin/ParkingComplexManager.tsx:23-27` succeeds. That query chains `.distinct()` onto the query builder. If the client library has no such method, `fetchComplexes` fails before any count is computed. The client library is not part of this model.
