# Holidaze venue booking front end: a verified model of its core components

This project models six React components of a venue booking front end. Each
component's `useState` variables become the fields of a class. Its event handlers
become methods on that class. The pure parts of each handler become functions,
and lemmas state the properties those functions have.

- **Venue page booking panel** (`Bookings`): the guest-count clamp and the
  date-range check. The overlap test against the venue's existing bookings. The
  ordered validation that decides whether a booking request is sent.
- **Booking form** (`CreateBooking`): the number of nights, rounded up, and the
  total cost. The days the date pickers disable, built by a day-stepping loop.
  The start-date handler that clears an earlier end date. The guard and the
  submission through the `onSubmitBooking` callback.
- **Venue list** (`Venues`): a case-insensitive search over all venues. The
  search page count and the 20-item page slices. The Previous and Next
  handlers.
- **Registration** (`Register`): the name, email, password and avatar checks,
  each regular expression restated over characters. The error map those checks
  build, and the submission they gate.
- **Venue editor** (`EditVenue`): normalising the loaded record. The change
  handlers. The media list operations. The guard that refuses an unchanged
  form. The shape of the PUT body.
- **Venue creation** (`CreateVenue`): the initial form, the same handlers, and
  the shape of the POST body.

Modules:

- `Js` (js.dfy): the JavaScript semantics the components rely on:
  - values and truthiness, `||`
  - `trim()` with the ECMAScript white space set
  - `toLowerCase()` on ASCII letters, `includes`, `slice`
  - template-literal text
- `Calendar` (calendar.dfy): dates as millisecond timestamps, and the length
  of a day.
- `Bookings`, `CreateBooking`, `Venues`, `Register`, `EditVenue`,
  `CreateVenue`: one module per component.
- `VenueForms` (venue_forms.dfy): the handlers that the editor and the
  creation form write with identical code.

Outside calls are parameters:

- A network request is replaced by its outcome (`PostOutcome`,
  `SubmitOutcome`, `RegisterOutcome`), or by the data it delivered
  (`BookingsLoaded`, `AllVenuesLoaded`, `ServerPageLoaded`, `LoadSucceeded`).
- `new URL(url)` is a predicate `parses`, which every lemma quantifies over.
- `Number(value)` of an input is the number carried by the change event.

## Model

| member | source | states |
|---|---|---|
| Js.TrimEmptyIffBlank | src/components/EditVenue/index.jsx:152 | `trim()` yields the empty string exactly when every character is white space |
| Js.SliceBackFromEnd | src/components/Venues/index.jsx:122-125 | a negative `slice` bound counts back from the end of the sequence |
| Js.SliceInRange | src/components/Venues/index.jsx:122-125 | ordered bounds that are not negative select the run between them, cut off at the end |
| Js.SliceEmpty | src/components/Venues/index.jsx:122-125 | bounds out of order, or a start at or past the end, select nothing |
| Js.FilterSeqConcat | src/components/Venues/index.jsx:104-114 | `filter` distributes over concatenation, so it keeps the order of the elements |
| Js.FilterSeqMembers | src/components/Venues/index.jsx:104-114 | an element is in the result of `filter` exactly when it is in the input and the callback keeps it |
| Js.FilterSeqShorter | src/components/Venues/index.jsx:104-114 | `filter` never adds elements |
| Bookings.IsOverlapping | src/components/Bookings/index.jsx:47-57 | `bookings.some(...)` holds exactly when some existing booking meets one of the three clauses |
| Bookings.NoBookingsNoOverlap | src/components/Bookings/index.jsx:47-57 | without existing bookings nothing overlaps |
| Bookings.BoundaryContactOverlaps | src/components/Bookings/index.jsx:51-55 | a stay starting on the day a booking ends is an overlap, because both ends are inclusive |
| Bookings.ClashesIffIntervalsMeet | src/components/Bookings/index.jsx:51-55 | for ordered ranges the three clauses are the closed-interval intersection test |
| Bookings.ClashesIffSharedInstant | src/components/Bookings/index.jsx:51-55 | for ordered ranges the three clauses hold exactly when the ranges share an instant |
| Bookings.Admission | src/components/Bookings/index.jsx:74-91 | a request is sent exactly when the guests are within 1..maxGuests, both dates are set and ordered, and no existing booking clashes |
| Bookings.RefusalOrder | src/components/Bookings/index.jsx:76-91 | each refusal is reported exactly when its check fails and all earlier checks pass |
| Bookings.SharedInstantIsRefused | src/components/Bookings/index.jsx:88-91 | a stay sharing an instant with a well-formed existing booking is never sent |
| Bookings.BookingPanel.constructor | src/components/Bookings/index.jsx:9-15 | no dates, one guest, confirmation closed, no bookings, no notice |
| Bookings.BookingPanel.BookingsLoaded | src/components/Bookings/index.jsx:31-34 | the venue's bookings replace the list and nothing else changes |
| Bookings.BookingPanel.SelectDateFrom | src/components/Bookings/index.jsx:140 | only the start date changes |
| Bookings.BookingPanel.SelectDateTo | src/components/Bookings/index.jsx:157 | only the end date changes |
| Bookings.BookingPanel.HandleGuestChange | src/components/Bookings/index.jsx:60-72 | below 1 becomes 1; above the maximum becomes the maximum, with the notice; with a maximum of at least 1 the count is always in range |
| Bookings.BookingPanel.OpenConfirm | src/components/Bookings/index.jsx:209 | opens the confirmation and changes nothing else |
| Bookings.BookingPanel.CancelConfirm | src/components/Bookings/index.jsx:201 | closes the confirmation and changes nothing else |
| Bookings.BookingPanel.HandleBooking | src/components/Bookings/index.jsx:74-127 | a refused request changes no state and reports the refusal `Admission` gives; a sent one ends with the spinner and the confirmation off; a created booking resets the dates, the guests and the notice |
| CreateBooking.CeilDays | src/components/CreateBooking/index.jsx:58 | the result is the ceiling of a millisecond difference in days |
| CreateBooking.Nights | src/components/CreateBooking/index.jsx:56-59 | 0 without both dates, otherwise the smallest whole number of days covering the stay |
| CreateBooking.WholeDayStay | src/components/CreateBooking/index.jsx:56-59 | a stay of exactly k days counts k nights |
| CreateBooking.PartDayRoundsUp | src/components/CreateBooking/index.jsx:56-59 | a started day counts as a night |
| CreateBooking.TotalCostShownIffForwardStay | src/components/CreateBooking/index.jsx:132-136 | the total is shown exactly when both dates are set and the end is after the start, and it is nights times price |
| CreateBooking.FourNightExample | src/components/CreateBooking/index.jsx:56-59 | 2025-06-01 to 2025-06-05 is four nights, and 400 at 100 a night |
| CreateBooking.DaysOfShape | src/components/CreateBooking/index.jsx:67-77 | a booking's disabled days start on its start date, go up one day at a time, never pass its end, and stop only once the next day would pass it; a reversed booking disables none |
| CreateBooking.DaysOfWholeDays | src/components/CreateBooking/index.jsx:67-77 | a booking spanning k whole days disables k + 1 days |
| CreateBooking.DaysOfBooking | src/components/CreateBooking/index.jsx:68-76 | the `while (current <= end)` loop yields exactly the days `DaysOf` describes |
| CreateBooking.DisabledDaysAppend | src/components/CreateBooking/index.jsx:67-77 | the `flatMap` of a list extended by one booking is the old result followed by that booking's days |
| CreateBooking.DisabledDaysMembers | src/components/CreateBooking/index.jsx:67-77 | a day is disabled exactly when it is a day of some booking |
| CreateBooking.DisabledDates | src/components/CreateBooking/index.jsx:67-77 | the loop over the bookings yields exactly `DisabledDays` |
| CreateBooking.GuardWeakerThanAdmission | src/components/CreateBooking/index.jsx:100-103 | everything the venue panel would send passes this form's guard; a reversed range passes it but is refused by the panel |
| CreateBooking.BookingForm.constructor | src/components/CreateBooking/index.jsx:42-48 | no dates, one guest, no message, not successful, confirmation closed |
| CreateBooking.BookingForm.SelectDateFrom | src/components/CreateBooking/index.jsx:152-157 | a start after the chosen end clears the end, so two chosen dates are never out of order afterwards |
| CreateBooking.BookingForm.SelectDateTo | src/components/CreateBooking/index.jsx:182 | only the end date changes |
| CreateBooking.BookingForm.HandleGuestChange | src/components/CreateBooking/index.jsx:86-89 | the value is capped at the maximum and kept otherwise, not raised to 1 |
| CreateBooking.BookingForm.OpenConfirm | src/components/CreateBooking/index.jsx:248 | opens the confirmation and changes nothing else |
| CreateBooking.BookingForm.CancelConfirm | src/components/CreateBooking/index.jsx:240 | closes the confirmation and changes nothing else |
| CreateBooking.BookingForm.HandleBooking | src/components/CreateBooking/index.jsx:99-123 | submits exactly when both dates are set and the guests are in range; a failed guard sets the fill-in message; a submission ends with the spinner off, marking success or setting the error message |
| Venues.PageCount | src/components/Venues/index.jsx:119 | the ceiling of the result count over 20 |
| Venues.FilterConcat | src/components/Venues/index.jsx:103-115 | the search distributes over concatenation, so it keeps the order of the venues |
| Venues.FilterOne | src/components/Venues/index.jsx:103-115 | a single venue is kept exactly when its text contains the query, ignoring case |
| Venues.FilterMembers | src/components/Venues/index.jsx:103-115 | the results are exactly the venues whose text contains the query |
| Venues.FilteredVenuesMeaning | src/components/Venues/index.jsx:103-115 | an empty query gives no results; otherwise the results are the matching venues, never more than all venues |
| Venues.PageWindow | src/components/Venues/index.jsx:121-125 | page p from 1 on is the run of at most 20 results starting at (p - 1) * 20, and pages up to the count are not empty |
| Venues.PageZeroEmpty | src/components/Venues/index.jsx:121-125 | page 0 shows nothing |
| Venues.PagesPrefix | src/components/Venues/index.jsx:121-125 | pages 1..n together are the first n * 20 results |
| Venues.PagesCoverResults | src/components/Venues/index.jsx:119-125 | pages 1 to the search page count list every result once, in order |
| Venues.PaginatedVenuesMeaning | src/components/Venues/index.jsx:117-126 | without a query the server's page is shown as it is; with one, a page from 1 on shows at most 20 venues, each from the full list and matching the query |
| Venues.VenueList.Shown | src/components/Venues/index.jsx:117-126 | the list on screen is the server's page without a query, and otherwise at most 20 matching venues from the full list |
| Venues.VenueList.constructor | src/components/Venues/index.jsx:38-44 | no venues, empty query, page 1 of 1 |
| Venues.VenueList.AllVenuesLoaded | src/components/Venues/index.jsx:65 | stores the full list for searching and nothing else |
| Venues.VenueList.ServerPageLoaded | src/components/Venues/index.jsx:90-91 | stores the page and its page count, 1 when the count is missing or 0 |
| Venues.VenueList.SetQuery | src/components/Venues/index.jsx:138-141 | stores the query and returns to page 1 |
| Venues.VenueList.Previous | src/components/Venues/index.jsx:155 | one page back, never below 1 |
| Venues.VenueList.Next | src/components/Venues/index.jsx:166-168 | one page on, never past the page count shown |
| Register.EmailSplit | src/components/Register/index.jsx:26 | a local part followed by `@stud.noroff.no` passes exactly when it is a non-empty run of `[\w.-]` |
| Register.EmailForm | src/components/Register/index.jsx:26 | every address that passes is a non-empty run of `[\w.-]` followed by `@stud.noroff.no` |
| Register.EmailHasOneAt | src/components/Register/index.jsx:26 | an accepted address has exactly one `@`, the one that starts the domain |
| Register.AvatarAcceptedExamples | src/components/Register/index.jsx:35-38 | the empty avatar and an https address pass |
| Register.AvatarRejectedExamples | src/components/Register/index.jsx:35-38 | another scheme, a host without a dot, and an address containing a space all fail |
| Register.FieldErrors | src/components/Register/index.jsx:16-41 | an error map exists: one key for each field that fails its own check, holding that field's message |
| Register.ErrorMapUnique | src/components/Register/index.jsx:16-41 | the four checks fix the error map: two maps that both satisfy them are equal |
| Register.ErrorMapEmpty | src/components/Register/index.jsx:16-41 | the error map is empty exactly when all four fields pass |
| Register.RegisterForm.constructor | src/components/Register/index.jsx:6-14 | empty fields, no messages, not a venue manager |
| Register.RegisterForm.ValidateForm | src/components/Register/index.jsx:16-42 | the stored map is the error map of the current fields, and the result says whether it is empty |
| Register.RegisterForm.HandleSubmit | src/components/Register/index.jsx:44-72 | an invalid form stops before registering; a registration clears the four fields; a failure shows its message or "Registration failed"; the venue-manager flag is kept |
| VenueForms.ApplyChangeWritesOneTarget | src/components/EditVenue/index.jsx:92-117 | a change writes one key, into the amenities, the location or the top level, and leaves every other key and section unchanged |
| VenueForms.UpdateMediaChangesOneField | src/components/CreateVenue/index.jsx:52-56 | a media edit changes only the chosen field of the chosen entry |
| VenueForms.DropIndexSlices | src/components/EditVenue/index.jsx:135 | the index filter drops exactly the entry at that index |
| VenueForms.RemoveAtMeaning | src/components/EditVenue/index.jsx:132-137 | removing drops exactly that entry and keeps the order; any other index leaves the list unchanged |
| VenueForms.RemoveOfferedKeepsAnEntry | src/components/EditVenue/index.jsx:279-282 | removing through the control shown for more than one entry never empties the list |
| VenueForms.FilterMediaMembers | src/components/EditVenue/index.jsx:150-158 | the submitted media are exactly the entries whose URL is not blank and parses |
| VenueForms.FilterMediaConcat | src/components/CreateVenue/index.jsx:68-76 | the media filter keeps the order of the entries |
| VenueForms.NumbersOfFormValues | src/components/EditVenue/index.jsx:163-165 | an empty field is sent as 0, a number input as its number, and an empty or zero rating as 0 |
| EditVenue.NormaliseMediaRule | src/components/EditVenue/index.jsx:47-50 | media that are not an array, or an empty one, become one blank entry; others are kept |
| EditVenue.NormaliseKeys | src/components/EditVenue/index.jsx:52-74 | the loaded form has the five top-level fields, the four amenities and the seven location keys |
| EditVenue.NormaliseTextDefaults | src/components/EditVenue/index.jsx:53-57 | a falsy top-level value becomes "" and a truthy one is kept |
| EditVenue.NormaliseMetaDefaults | src/components/EditVenue/index.jsx:59-64 | a missing or falsy amenity becomes false |
| EditVenue.NormaliseLocationDefaults | src/components/EditVenue/index.jsx:65-73 | a location key that is missing or falsy, with or without a location, becomes "" or 0 for a coordinate; truthy values are kept |
| EditVenue.EditPayloadShape | src/components/EditVenue/index.jsx:160-169 | the body copies only name and description, filters the media, sends an empty rating as 0, and passes the amenities and location unchanged |
| EditVenue.UnchangedFormNotSubmitted | src/components/EditVenue/index.jsx:140-148 | the form is sent exactly when it differs from the loaded record |
| EditVenue.MediaEditIsDetected | src/components/EditVenue/index.jsx:119-148 | editing an image of a freshly loaded venue to a new value gets the venue sent |
| EditVenue.EditVenueForm.constructor | src/components/EditVenue/index.jsx:9-35 | the placeholder form with one blank image, no original, loading |
| EditVenue.EditVenueForm.LoadSucceeded | src/components/EditVenue/index.jsx:76-78 | the normalised record becomes both the form and the original, and loading ends |
| EditVenue.EditVenueForm.HandleChange | src/components/EditVenue/index.jsx:92-117 | the form becomes `ApplyChange` of the event |
| EditVenue.EditVenueForm.HandleMediaChange | src/components/EditVenue/index.jsx:119-123 | the media become `UpdateMedia` of the edit, as a new value |
| EditVenue.EditVenueForm.AddMediaField | src/components/EditVenue/index.jsx:125-130 | one blank entry is appended and the rest is unchanged |
| EditVenue.EditVenueForm.RemoveMediaField | src/components/EditVenue/index.jsx:132-137 | the media become `RemoveAt` of the index |
| EditVenue.EditVenueForm.HandleSubmit | src/components/EditVenue/index.jsx:142-169 | refuses exactly when the form equals the original, and otherwise yields the shaped body |
| EditVenue.MediaObject.constructor | src/components/EditVenue/index.jsx:47-50 | an entry object holds the loaded URL and text |
| EditVenue.SnapshotAt | src/components/EditVenue/index.jsx:140 | what `JSON.stringify` sees of entry i is that object's current URL and text |
| EditVenue.MakeObjects | src/components/EditVenue/index.jsx:47-50 | one fresh object per loaded entry, with the same values |
| EditVenue.SharedMediaEdit | src/components/EditVenue/index.jsx:119-123 | as written: the copied array is the same list of objects, and the edit lands in the shared object |
| EditVenue.MediaEditGoesUnnoticed | src/components/EditVenue/index.jsx:119-148 | as written: after a media edit the guard reports no change although the edited image differs from the loaded one |
| CreateVenue.InitialFormShape | src/components/CreateVenue/index.jsx:6-23 | one blank image, four amenities all false, a location of only city and country, empty top-level fields |
| CreateVenue.CreatePayloadShape | src/components/CreateVenue/index.jsx:78-84 | every top-level field but price, maxGuests and rating is copied unchanged; those three are converted, an empty rating is 0, and the media are filtered |
| CreateVenue.UntouchedFormPayload | src/components/CreateVenue/index.jsx:65-84 | submitting the untouched form sends empty text, 0 for each number, and no image |
| CreateVenue.CreateVenueForm.constructor | src/components/CreateVenue/index.jsx:6-23 | the form starts as `InitialForm` |
| CreateVenue.CreateVenueForm.HandleChange | src/components/CreateVenue/index.jsx:25-50 | the form becomes `ApplyChange` of the event |
| CreateVenue.CreateVenueForm.HandleMediaChange | src/components/CreateVenue/index.jsx:52-56 | the media become `UpdateMedia` of the edit |
| CreateVenue.CreateVenueForm.AddMediaField | src/components/CreateVenue/index.jsx:58-63 | one blank entry is appended and the rest is unchanged |
| CreateVenue.CreateVenueForm.HandleSubmit | src/components/CreateVenue/index.jsx:65-84 | yields `CreatePayload` of the form, with no more images than the form has |

## Left out

- Network requests, `localStorage`, `alert`, `console`, navigation and timers are not modelled. Each request is replaced by its outcome or by the data it delivered.
- The venue-id filter applied to the fetched bookings (src/components/Bookings/index.jsx:31-33) is not modelled: `BookingsLoaded` receives the venue's bookings.
- The paged fetch loop that gathers all venues (src/components/Venues/index.jsx:47-69) is not modelled: `AllVenuesLoaded` receives its result.
- The venue list's `isLoading` and `isError` flags (src/components/Venues/index.jsx:41-42), the editor's `error` message (src/components/EditVenue/index.jsx:36) and the rendering are not modelled.
- The date pickers' `minDate`, `excludeDates` and `disabled` props are not modelled. The pickers may deliver any timestamp, or `null`.
- Dates are UTC millisecond timestamps. `setDate(getDate() + 1)` is a step of exactly one day, so local time zones and daylight-saving changes are not modelled.
- `Number(...)` and `parseInt(...)` of input text are not modelled, and neither is NaN. A change event carries the number it parsed to. `ToNumber` of a non-blank string is `None`, which stands for "some number the model does not compute".
- Floating-point prices, ratings and coordinates are not modelled: all numbers are integers.
- `new URL(url)` is a predicate parameter `parses`. Its acceptance rules are not modelled.
- `toLowerCase()` lowers only ASCII letters. String lengths count code points, not UTF-16 units.
- The `in` operator of `handleChange` sees only the form's own keys. Inherited names such as `toString` are not modelled.
- The location branch of `handleChange` stores the raw text, so a changed `lat` or `lng` becomes a string. The model keeps that behaviour.
- The `onChange` handlers of the registration inputs only assign a field, so they are plain field writes.
- `handleRegister` is not modelled. `RegisterOutcome` stands for its result.
- The editor's error display for a failed load is not modelled. `LoadSucceeded` covers only the successful load.
- CreateVenue.CreateVenueForm.HandleMediaChange: writes a new value where the source writes into the entry object. No other state holds that object, so the resulting form is the same.
- EditVenue.EditVenueForm.HandleMediaChange: writes a new value. This is the corrected behaviour; `SharedMediaEdit` models the code as written.

## Findings

| source | as written | input that shows it | evidently intended | confidence | as-written member | corrected member |
|---|---|---|---|---|---|---|
| src/components/EditVenue/index.jsx:76-77, 119-123, 145-148 | the loaded record is stored as both `formData` and `originalVenue`. `handleMediaChange` copies the array but writes into the shared entry object, so the edit also changes `originalVenue` | load a venue with one image `{url: "https://a.example/x.png", alt: ""}`, set its alt text to "pool", submit: the form equals the original and "No changes made to venue" is shown | a changed image is a change, and the venue is sent | not executed | EditVenue.MediaEditGoesUnnoticed | EditVenue.MediaEditIsDetected |
