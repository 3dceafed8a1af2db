# NawaBus booking flow in Dafny

This project models the booking flow of the NawaBus web app, a bus-ticket
shop. The flow is:

- the search form builds a search URL;
- the search page reads it, queries the trip table and lists the outbound
  and return trips;
- the booking page loads the chosen trips and the seats their tickets
  already hold;
- the seat map lets the passenger pick free seats and hands a draft to the
  checkout page;
- the checkout page signs the passenger in, inserts a pending ticket, asks
  the payment route for a reference, and names the downloaded PDF ticket.

The project also models the type-ahead combobox used for the city fields and
the server route that forwards payment requests.

The model does not run any remote service. Every answer of the database, the
identity provider and the payment service is a parameter of the operation
that receives it. What a page does to the outside world is appended to a log
field in order: navigations, alerts, inserts, deletes, calls and saved
files.

Pages whose state changes step by step are classes:

- `SeatSelector`
- `CheckoutPage`
- `SearchResults`
- `BookingPage`
- `SearchFormState`
- `ComboboxState`

Their methods carry `modifies` clauses and state the new state in terms of
pure specification functions. The properties are proved as lemmas about
those functions.

Modules, one per source file, plus shared helpers:

- `Text`: the JavaScript string operations the pages use: `trim`,
  `split(/\s+/)`, `join`, `split(c)`, digits, `padStart(2, '0')`, ASCII
  `toLowerCase` and `includes`.
- `Sorting`: an insertion sort by an integer key.
- `Query`: `URLSearchParams` writing and reading.
- `Entities`: the trip, user, ticket and draft records.
- The page modules: `SeatSelection`, `Checkout`, `SearchPage`, `Booking`,
  `SearchForm`, `Combobox` and `CreatePayment`.

## Model

| member | source | states |
|---|---|---|
| SeatSelection.GridSeats | components/seat-selection.js:35-56 | the seat cells of the grid are exactly seats 1..capacity in order, and none when the capacity is missing or not positive |
| SeatSelection.GridLength | components/seat-selection.js:37-54 | the grid has one aisle cell more for each of the seats 3, 7, 11, … |
| SeatSelection.GridAisleAdjacent | components/seat-selection.js:38-44 | every aisle cell sits right before its seat, and that seat has (i-1)%4 == 2; every such seat has its aisle cell right before it |
| SeatSelection.SeatSelector.RenderSeats | components/seat-selection.js:13-56 | the layout loop builds exactly the grid for `capacity or 0` seats |
| SeatSelection.Toggle | components/seat-selection.js:15-23 | an occupied seat leaves the selection alone; an unselected seat is appended; a selected seat is removed, and no other seat changes |
| SeatSelection.Without | components/seat-selection.js:20 | `filter(s => s !== seat)` removes every copy of the seat and keeps every other seat; a list without repeats stays without repeats and, when it held the seat, gets one shorter |
| SeatSelection.ToggleKeepsValid | components/seat-selection.js:15-23 | clicking keeps the selection free of repeats and of occupied seats |
| SeatSelection.ToggleTwice | components/seat-selection.js:18-22 | clicking a free seat twice gives back the same set of seats, and the very same list when the seat was not selected before |
| SeatSelection.WithoutAppended | components/seat-selection.js:19-21 | removing a seat just appended gives back the list it was appended to |
| SeatSelection.ToggleTotal | components/seat-selection.js:15-58 | a click changes the total price by exactly one seat price, up or down, or not at all for an occupied seat |
| SeatSelection.ToggleLook | components/seat-selection.js:25-33 | the look of a seat is occupied before selected before free; a click flips the clicked seat between free and selected and leaves every other seat's look alone |
| SeatSelection.SeatSelector.constructor | components/seat-selection.js:10-12 | the seat map starts with an empty selection |
| SeatSelection.SeatSelector.Click | components/seat-selection.js:15-23 | the new selection is Toggle of the old one, and the selection stays valid |
| SeatSelection.SeatSelector.SortSelection | components/seat-selection.js:103 | the summary's in-place sort leaves the selection ascending and a permutation of what it was, still valid |
| SeatSelection.PermutationKeepsValid | components/seat-selection.js:103 | reordering a selection without repeats or occupied seats keeps it so |
| SeatSelection.MultiplicityOfDistinct | components/seat-selection.js:18-22 | no seat occurs twice in a selection without repeats |
| SeatSelection.SeatSelector.PressCheckout | components/seat-selection.js:58-114 | nothing happens exactly when no seat is selected; otherwise the draft holds the trip, the selected seats as they stand and seats × price, stored under "bookingDetails", and the page moves to "/checkout"; CheckoutAfterRender states the seat order after a render |
| SeatSelection.SeatSelector.CheckoutAfterRender | components/seat-selection.js:58-114 | on a rendered page, whose summary has sorted the selection in place, the stored draft holds the selected seats ascending, the same seats as before, the trip and seats × price; nothing is stored exactly when no seat is selected |
| Sorting.InsertBy | app/search/page.js:63 | inserting into a list sorted by the key gives a sorted list with one more copy of the element |
| Sorting.SortBy | app/search/page.js:63 | the result is sorted by the key and is a permutation of the input |
| Entities.SeatListRoundTrip | app/checkout/page.js:70 | a non-empty seat list joined with "," reads back as the same list |
| Entities.ParseAllOfIntStrings | app/checkout/page.js:70 | every seat's decimal text parses back to the seat |
| Text.Trim | components/search-form.js:47-49 | the result has no white space at either end, and it is empty exactly when the input is all white space |
| Text.TrimOfTrimmed | app/search/page.js:23-26 | trimming a trimmed string changes nothing |
| Text.TrimKeeps | components/search-form.js:47-49 | trimming adds no character |
| Text.TrimPadded | app/checkout/page.js:143 | trimming a text with no white space at its ends, padded with white space on either side, gives back exactly that text |
| Text.SplitJoinSpaces | app/checkout/page.js:145-149 | words joined by single spaces split back at white space into the same words |
| Text.JoinRunsEnds | app/checkout/page.js:143-145 | words separated by non-empty runs of white space form a non-empty text with no white space at its ends |
| Text.SplitJoinRuns | app/checkout/page.js:145 | `split(/\s+/)` gives back the words whatever non-empty runs of white space separate them |
| Text.WordLenOf | app/checkout/page.js:145 | the word at the start of a text ends exactly at its first white space |
| Text.SpaceLenOf | app/checkout/page.js:145 | a run of white space at the start of a text ends exactly at its first other character |
| Text.JoinWordsEnds | app/checkout/page.js:149 | words joined by single spaces give a non-empty text with no white space at its ends |
| Text.SplitJoinOn | components/search-form.js:57 | pieces without the separator, joined with it, split back into the same pieces |
| Text.DigitsValueOfNatToString | app/checkout/page.js:317-318 | the decimal text of a number reads back as the number |
| Text.ParseIntOfIntToString | app/checkout/page.js:70 | the decimal text of an integer, sign included, parses back to it |
| Text.Pad2Value | app/checkout/page.js:317-318 | `padStart(2, '0')` of a number below 100 is two digits that read back as the number |
| Text.ContainsTrivial | components/ui/combobox.jsx:18-19 | every text contains the empty text and itself |
| Checkout.EnsureNamesShape | app/checkout/page.js:142-151 | the first name is one word, empty exactly when the name is all white space, and then the last name is empty too; the last name has no white space at its ends |
| Checkout.EnsureNamesOfText | app/checkout/page.js:145-150 | a trimmed, non-empty name splits into a first word and a rest that joins into a trimmed last name |
| Checkout.SplitTrimmedWords | app/checkout/page.js:145 | a trimmed, non-empty text splits at white space into words only |
| Checkout.EnsureNamesOfWords | app/checkout/page.js:142-151 | for words joined by single spaces, the first name is the first word and the last name is the other words joined by single spaces |
| Checkout.EnsureNamesOfRuns | app/checkout/page.js:142-151 | for words with any runs of white space between and around them, the first name is the first word and the last name is the other words joined by single spaces |
| Checkout.EnsureNames | app/checkout/page.js:142-151 | the names a full name splits into; what they are is stated by EnsureNamesShape and EnsureNamesOfRuns |
| Checkout.EnsureNamesExample | app/checkout/page.js:142-151 | "Maria Silva" gives first name "Maria" and last name "Silva" |
| Checkout.EnsureNamesSpacedExample | app/checkout/page.js:142-151 | "  Maria \t Silva  " gives first name "Maria" and last name "Silva" |
| Checkout.SignUpMetadataExample | app/checkout/page.js:169-179 | a signup as "Maria Silva" without a phone sends role "passenger", first name "Maria", last name "Silva" and a null phone |
| Checkout.InsertPayload | app/checkout/page.js:64-76 | the inserted row: the trip id, the user as passenger and booker, the draft's total, "pending", "referencia", "online", and the trip's seat class or "economy" |
| Checkout.InsertedSeatsReadBack | app/checkout/page.js:70 | the row's `seat_number` reads back as the draft's seats |
| Checkout.CheckoutRequestValidation | app/checkout/page.js:93-98 | the checkout's request passes the payment route's check exactly when the ticket id is non-empty and the total is positive; the route then forwards the four fields unchanged, and otherwise answers 400 |
| Checkout.AttemptOrder | app/checkout/page.js:57-116 | the insert comes first; the payment route is called right after it exactly when the insert succeeded; a reference is issued exactly when the call succeeded; the ticket is deleted after the alert exactly when it was created and no reference was issued |
| Checkout.Attempt | app/checkout/page.js:57-116 | one payment attempt with a draft: the effects in order and the reference shown; its order is stated by AttemptOrder |
| Checkout.SignInSteps | app/checkout/page.js:157-199 | the first request is the sign-in or the signup; the steps end in an alert exactly when the user did not get signed in; a failed login is the sign-in and its alert only; a signup without a session is followed by a sign-in |
| Checkout.AuthFlow | app/checkout/page.js:153-224 | the sign-in part of the auth submit: the user is refreshed exactly when signed in, and the payment proceeds as the session user exactly then; the rest is stated by AuthFlowOutcome |
| Checkout.AuthFlowOutcome | app/checkout/page.js:153-225 | the identity provider's steps come first and are all there is when they failed; the user is refreshed exactly when signed in; the payment proceeds exactly when a session user is then found, as that user; otherwise the steps end in an alert; a signup updates that user's profile |
| Checkout.Underscored | app/checkout/page.js:319 | `replace(/\s/g, '_')` keeps the length, leaves no white space and keeps every other character |
| Checkout.FourDigitYear | app/checkout/page.js:317 | a four-digit year is written with four digits that read back as the year |
| Checkout.StampParts | app/checkout/page.js:316-318 | the time stamp is twelve digits that read back as the year, the month counted from 1, the day, the hour and the minute |
| Checkout.PdfFileNameParts | app/checkout/page.js:319 | the file name is "nawabus-", the underscored ticket number, "-", the stamp and ".pdf", at fixed positions |
| Checkout.DownloadName | app/checkout/page.js:240-319 | no file exactly when the draft, the ticket number or the user is missing; otherwise the file name of the ticket number and the time |
| Checkout.CheckoutPage.constructor | app/checkout/page.js:24-55 | the stored draft is loaded, or the page goes home without one; the current user is the session's |
| Checkout.CheckoutPage.ToggleAuthMode | app/checkout/page.js:33 | the auth dialog switches between login and signup |
| Checkout.CheckoutPage.EnterCredentials | app/checkout/page.js:34-37 | typing into the auth form sets the e-mail, password, name and phone and nothing else |
| Checkout.CheckoutPage.ProceedWithPayment | app/checkout/page.js:57-116 | nothing without a draft; otherwise the effects and shown reference are those of one Attempt |
| Checkout.CheckoutPage.HandlePayment | app/checkout/page.js:118-140 | loading ends false; the dialog opens exactly when there is a draft and no user, and nothing is inserted then; with a user, one Attempt |
| Checkout.CheckoutPage.HandleAuthSubmit | app/checkout/page.js:153-234 | the effects are AuthFlow's then one Attempt as the user it proceeds as; the current user is refreshed as AuthFlow says; the dialog closes only when the payment proceeds; submitting ends false |
| Checkout.CheckoutPage.Authenticate | app/checkout/page.js:155-219 | the sign-in part: the submission starts, the effects and current user follow AuthFlow, and the user to proceed as is AuthFlow's |
| Checkout.CheckoutPage.ProceedAfterSignIn | app/checkout/page.js:221-232 | with a user to proceed as, the dialog closes and one Attempt runs with loading on then off; without one nothing else happens; submitting ends false |
| Checkout.CheckoutPage.HandleDownloadPdf | app/checkout/page.js:240-322 | an alert when something is missing; otherwise the PDF is saved under DownloadName and the page goes home |
| SearchPage.Matching | app/search/page.js:40-80 | the rows kept are exactly the rows of the table whose bus is present with its company, that are scheduled, have a free seat, match origin and destination and depart inside the day window |
| SearchPage.FetchTripsGuard | app/search/page.js:32 | an empty origin, destination or date gives the empty list without asking the store |
| SearchPage.FetchTrips | app/search/page.js:31-90 | the trips a search lists, or why it failed; its result is stated by FetchTripsGuard and FetchTripsResult |
| SearchPage.FetchTripsResult | app/search/page.js:31-90 | with all fields filled in, the fetch fails exactly when the date is invalid or the store fails; otherwise it lists exactly the matching trips (bus and company present, scheduled, a free seat, matching places, inside the day), each as often as it occurs, by ascending departure |
| SearchPage.ReadsFormSearch | components/search-form.js:44-58 | the search page reads back what the form submitted: the trimmed fields, the trip type or one way, and the return date only when the form sent one |
| SearchPage.ReadSearch | app/search/page.js:23-27 | the search the page reads from its URL; ReadsFormSearch and FormParamsRead state what it gives for the form's URL |
| SearchPage.FormQueryDecodes | components/search-form.js:46-57 | the query the form writes decodes back into the form's parameters |
| SearchPage.FormParamsRead | app/search/page.js:23-27 | the page's reading of the form's parameters gives the trimmed fields, the trip type or one way, and the return date only when sent |
| SearchPage.TranslateSeatClass | app/search/page.js:139-146 | economy, business and first get their Portuguese labels; a missing class stays missing |
| SearchPage.BookingUrlRead | app/search/page.js:154-160 | the booking page reads back the trip ids that the search page put into the booking link |
| SearchPage.BookingUrl | app/search/page.js:154-160 | the booking link for the chosen trips; BookingUrlRead states that the booking page reads the ids back |
| SearchPage.SearchResults.constructor | app/search/page.js:17-27 | the page opens on a given search, loading, with nothing listed; ReadSearch states how that search is read from the URL |
| SearchPage.SearchResults.LoadTrips | app/search/page.js:92-122 | with a field missing only loading ends; otherwise the outbound list and, for a round trip, the return list from destination to origin on the return date; any failure sets the error and empties both lists; loading ends false |
| SearchPage.SearchResults.SelectOutboundTrip | app/search/page.js:148-156 | a round trip only remembers the choice; one way navigates to the booking link of that trip |
| SearchPage.SearchResults.SelectReturnTrip | app/search/page.js:158-162 | navigates to the booking link of both trips once an outbound trip is chosen, and does nothing before |
| Booking.Single | app/booking/page.js:54-55 | `.single()` gives the row when exactly one has the id, and an error when none or several do |
| Booking.OccupiedSeatNumbers | app/booking/page.js:61-68 | the taken seats are exactly the `seat_number`s of the trip's tickets that are active or used |
| Booking.FetchRequests | app/booking/page.js:32-104 | a run sends the planned requests in order, at least the first, and none for a return trip when there is no return id |
| Booking.Fetch | app/booking/page.js:32-111 | the requests fetchTripData sends and what it obtains; stated by FetchRequests, FetchStopsAtFailure, FetchSuccess and FetchOutboundMissing |
| Booking.FetchLeg | app/booking/page.js:37-68 | one trip by id and its taken seats, stopping at the first failing request; stated through Fetch's lemmas |
| Booking.FetchStopsAtFailure | app/booking/page.js:35-110 | a run stops at the first request that fails: every earlier request succeeded, and the run failed exactly when its last request failed |
| Booking.BothLegsStop | app/booking/page.js:71-104 | the same for a run that reaches the return trip |
| Booking.FetchSuccess | app/booking/page.js:37-104 | a run without a failure sent every planned request and has both trips and their taken seats |
| Booking.FetchOutboundMissing | app/booking/page.js:57-58 | the outbound trip is missing exactly when its own request failed |
| Booking.NotFoundAfterMissingTrip | app/booking/page.js:54-133 | an outbound id with no single trip row fails after one request and leaves no trip |
| Booking.BookingPage.constructor | app/booking/page.js:13-21 | the page reads both ids from its URL and starts loading with nothing shown |
| Booking.BookingPage.LoadLeg | app/booking/page.js:37-68 | loading one trip and its taken seats sends and obtains what FetchLeg says |
| Booking.BookingPage.LoadOutbound | app/booking/page.js:37-68 | the outbound trip and its taken seats are set as far as they were obtained |
| Booking.BookingPage.LoadReturn | app/booking/page.js:71-103 | the return trip and its taken seats are set as far as they were obtained |
| Booking.BookingPage.FetchTripData | app/booking/page.js:23-114 | without an outbound id it goes home and asks nothing; otherwise it sends Fetch's requests, sets what was obtained, alerts exactly on failure, and loading ends false |
| Booking.BookingPage.OpenSeatMap | app/booking/page.js:116-161 | no seat map while loading or when no trip was found; otherwise a fresh seat map for the outbound trip with its booked seats blocked and nothing selected |
| Booking.NothingBlockedAsWritten | app/booking/page.js:68 | as written, no seat number among 1..capacity equals any `seat_number` string |
| Booking.OccupiedAsWritten | app/booking/page.js:68 | the seats the seat map blocks when handed the `seat_number` strings; NothingBlockedAsWritten states that there are none |
| Booking.DoubleBookingAsWritten | components/seat-selection.js:16 | as written, seat 3 of a 40-seat bus, held by an active ticket "3", can be selected again |
| Booking.OccupiedSeats | app/booking/page.js:68 | the corrected blocked seats are exactly the seats named by some `seat_number` read as a comma list |
| Booking.BookedSeatsBlocked | components/seat-selection.js:16 | every seat of a ticket written at checkout is blocked on the corrected seat map, and clicking it changes nothing |
| SearchForm.SearchParamsRead | components/search-form.js:46-55 | each field of the search is read back under its key, trimmed; the return date only for a round trip with a return date |
| SearchForm.Prefilled | components/search-form.js:28-32 | a URL value replaces a field exactly when it is present and not empty |
| SearchForm.SearchFormState.constructor | components/search-form.js:14-18 | empty places, today's date, no return date, one way |
| SearchForm.SearchFormState.Prefill | components/search-form.js:20-32 | each of the five fields takes its URL parameter when present and not empty, and keeps its value otherwise |
| SearchForm.SearchFormState.HandleSearch | components/search-form.js:44-58 | the form navigates to "/search?" followed by the encoded search parameters |
| Query.DecodeEncode | components/search-form.js:57 | pairs whose keys hold no '&' or '=' and whose values hold no '&' read back from their query string |
| Query.GetFirst | app/search/page.js:23-27 | `get` finds a value exactly when some pair has the key, and the value found is that of the first such pair |
| Query.QueryOfPath | components/search-form.js:57 | the query string after "path?" is read back |
| Query.PathQueryDecodes | components/search-form.js:57 | a query string written after a path without '?' reads back as its pairs |
| Combobox.Filtered | components/ui/combobox.jsx:17-20 | the options shown are exactly the options whose label contains the text, ignoring case |
| Combobox.FilteredCounts | components/ui/combobox.jsx:19 | each shown option is listed as often as it occurs in the options, the others never |
| Combobox.FilteredAppend | components/ui/combobox.jsx:19 | filtering keeps the options' order: filtering a concatenation is concatenating the filtered parts |
| Combobox.FilteredEmpty | components/ui/combobox.jsx:18-19 | an empty text shows every option |
| Combobox.MarkedIsShown | components/ui/combobox.jsx:67-75 | an option highlighted as equal to the text, ignoring case, is always among the options shown |
| Combobox.ComboboxState.constructor | components/ui/combobox.jsx:9-11 | the popup starts closed and the text starts as `value` or the empty text |
| Combobox.ComboboxState.SyncValue | components/ui/combobox.jsx:13-15 | a new value resets the text to `value` or the empty text |
| Combobox.ComboboxState.Select | components/ui/combobox.jsx:22-26 | the text becomes the option's label, the label is reported and the popup closes; the selected option is then shown and highlighted |
| Combobox.ComboboxState.Change | components/ui/combobox.jsx:28-33 | the text becomes what was typed, it is reported, and the popup is open |
| Combobox.ComboboxState.Focus | components/ui/combobox.jsx:48 | focusing opens the popup |
| CreatePayment.Forwarded | app/api/create-payment/route.js:6-27 | the forwarded body holds only the four fields, each present field unchanged, and no undefined value |
| CreatePayment.Post | app/api/create-payment/route.js:3-43 | a body that is not JSON or is null gives 500; a missing ticket id or amount, or an amount that compares as at most zero (arrays and number text read as JavaScript reads them), gives 400 and nothing is forwarded; otherwise the four fields are forwarded; an upstream exception, a reply that is not JSON, or a failing reply whose body is null gives 500 "Internal Server Error"; an ok reply gives 201 with its body; a failing reply gives its status with its error, or the default message when the body has none |
| CreatePayment.AtMostZeroOfIntText | app/api/create-payment/route.js:8 | an amount written as decimal text compares with 0 as the number does |
| CreatePayment.AtMostZeroOfSingleton | app/api/create-payment/route.js:8 | an array of one element compares with 0 as that element's text does |
| CreatePayment.AtMostZeroOfNumberInArray | app/api/create-payment/route.js:8 | an array holding one number compares with 0 as the number does |
| CreatePayment.AtMostZeroEmptyArray | app/api/create-payment/route.js:8 | an empty array counts as at most zero |
| CreatePayment.AtMostZeroPlusZeros | app/api/create-payment/route.js:8 | "+" followed by zeros counts as at most zero |
| CreatePayment.AtMostZeroPrefixedZeros | app/api/create-payment/route.js:8 | "0x", "0o" or "0b" followed by zeros counts as at most zero |
| CreatePayment.PrefixedPositive | app/api/create-payment/route.js:8 | "0x", "0o" or "0b" followed by digits of that base, not all zero, is above zero |
| CreatePayment.TextNumberOfIntText | app/api/create-payment/route.js:8 | the decimal text of an integer reads back as that integer |
| CreatePayment.PostRefusesZeroForms | app/api/create-payment/route.js:8-12 | a request whose amount is an empty array or "+" followed by zeros gets 400 and nothing is forwarded |
| CreatePayment.PostStatuses | app/api/create-payment/route.js:8-42 | every response is a 201 with the upstream body, or an error body with status 400, 500 or the upstream's failing status |

## Left out

- Remote services are parameters. The Supabase queries, the auth calls, the
  profile update, `fetch` and `PAYMENT_API_URL` are not modelled. Each call
  is only its outcome: success with data, or an error.
- The PDF drawing is left out: the jsPDF coordinates, the QR code image and
  the ticket layout (app/checkout/page.js:246-312), which are foreign
  rendering libraries. Only the guard and the file name are modelled.
- Every modelled trip has a route, so the inner join on routes
  (app/search/page.js:42-49) drops nothing. The inner joins on buses and
  companies are modelled by `Trip.busCompany`.
- Locale and time zone are left out. The day window of a search date is a
  parameter `dayOf` that gives None for an invalid date. The clock for the
  file name is a `LocalTime` value, and the form's "today" is a string
  parameter.
- `toLocaleString` output and `formatDuration` are left out.
- Prices and amounts are integers. `toFixed(2)` formatting and floating
  point are left out.
- Lower-casing covers ASCII letters only. JavaScript's full Unicode case
  mapping is not modelled.
- `URLSearchParams` percent-encoding is not modelled, nor the decoding of
  '+' as a space. The round-trip lemmas therefore require keys without '&'
  or '=' and values without '&'.
- PostgREST's `ilike` wildcards (`%`, `_`) and commas inside user text in
  the `.or(...)` filter are not modelled. The search needle is matched as a
  plain substring.
- The combobox's delayed close on blur (a `setTimeout`) is not modelled.
  Neither are React render cycles or double-submit races.
- The search form's mock list of city suggestions is not modelled.
- `localStorage` JSON serialisation is not modelled. The stored draft is a
  `Draft` value.
- The booking page passes `outboundTrip`, `returnTrip` and
  `outboundOccupiedSeats` to the seat map (app/booking/page.js:156-161).
  The seat map takes `tripDetails` and `occupiedSeats`
  (components/seat-selection.js:10). Each file is modelled by its own
  signature. `Booking.BookingPage.OpenSeatMap` models the intended hand-off
  of the outbound trip and its taken seats; the return trip's seat map is
  not modelled.
- The return-trip two-step selection on the seat map is not in the seat
  component and is not modelled.
- `translateSeatClass` looks the class up in a plain object, so inherited
  keys such as "constructor" would map to a function. `TranslateSeatClass`
  treats every other string as unknown.
- The two `getUser` calls in handleAuthSubmit (app/checkout/page.js:202,
  217) are modelled as one answer, `sessionUser`. The profile update and the
  signup metadata are recorded as the form they are built from
  (`ProfileForm`). `Checkout.SignUpMetadata` gives the fields sent; the
  profile update writes the same fields without the role.
- `handleDownloadPdf` also needs the draft. The page renders only with a
  draft (app/checkout/page.js:236-238), and the guard is modelled as
  written.
- The booking page's `console.log` calls and every `console.error` are left
  out.
- The checkout's `passenger_name` takes the user's `full_name` metadata or
  "N/A". Other metadata is not modelled.
- Checkout.CheckoutPage.HandlePayment: the page-wide loading flag is
  modelled, but the disabled state of the button it drives is not.
- SearchPage.SearchResults.LoadTrips: `fetchTrips`'s unused `isReturn` flag
  is not modelled.
- CreatePayment.Post: JSON numbers are integers. A fractional amount, a
  non-finite one ("Infinity"), and text with a fraction or an exponent
  ("0.5", "1e3") are not modelled. Text is read as JavaScript reads it
  otherwise: white space around it, "" as 0, an optional sign, and "0x",
  "0o" or "0b" prefixes. Arrays are read through their joined text.

## Findings

| source | as written | input that shows it | evidently intended | confidence | as-written member | corrected member |
|---|---|---|---|---|---|---|
| app/booking/page.js:68 with components/seat-selection.js:16 | The booking page keeps the taken seats as the tickets' `seat_number` strings. Checkout writes these as the seats joined with "," (app/checkout/page.js:70). The seat map tests a numeric seat with `occupiedSeats.includes(i)`, and strict equality never matches a number to a string. So no booked seat is ever blocked. This assumes the seat map is handed the booking page's seats, as the two files evidently mean. | a 40-seat trip with one active ticket whose `seat_number` is "3": clicking seat 3 selects it again | the seats named by each `seat_number`, read as a comma list of numbers, are blocked | high; not executed | Booking.OccupiedAsWritten, Booking.NothingBlockedAsWritten, Booking.DoubleBookingAsWritten | Booking.OccupiedSeats, Booking.BookedSeatsBlocked, Booking.BookingPage.OpenSeatMap |
