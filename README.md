# Booking-flow rules of the tourist-site ticketing web app

This project models the booking rules of a mobile web flow for buying
entry tickets to tourist sites, and proves properties of them in Dafny.
The flow has four steps: choose ticket quantities, sign in with a
one-time passcode, confirm a summary, and go to the eMitra payment
gateway. The model covers:

- **Ticket-type normalisation** (`BookingApi`). The pricing backend's
  payload becomes a list of `{id, name, price, category}`. Records are
  kept only when they are active, not deleted and priced above zero.
  The category comes from the lower-cased name: INDIAN before
  FOREIGNER before OTHER. Before this, one `result` envelope is removed.
- **Payment-gateway helpers** (`Emitra`). The gateway URL is chosen by
  deployment environment, and a confirmation response is checked for
  the three encrypted-payload fields.
- **Ticket counter rows** (`TicketRow`). The minus button stops at 0 and
  the plus button has no cap. A 150 ms debounce keeps its
  last-accepted timestamp in a mutable field: the class `RowState`.
- **Ticket selection** (`TicketSelector`). There are two fixed categories
  at 50 and 200 rupees, starting at counts 1 and 0. The screen shows the
  total, gates the NEXT button on the total being non-zero, and builds
  the `{indian, foreigner, total}` draft. The stateful screen is the
  class `Selector`.
- **Confirmation summary** (`BookingConfirmModal`). This is a pure function
  from the sheet's props to what it shows.
- **Guest sign-in** (`GuestAuthApi`). It builds the form posts for the
  mobile and email channels and lifts the session token out of the
  verification response.

`JsValues` gives the JavaScript meaning the code depends on. Parsed JSON
values are modelled, with `undefined` as `None`. The module also covers
optional-chaining property access, truthiness, `typeof … === 'object'`,
`||`, `toLowerCase` and `includes`.

Environment variables, the clock (`Date.now()`) and HTTP response bodies
are parameters. Session-storage writes and page navigation are left
out: the draft is returned as a value.

The model follows the code as written, including these behaviours:

- There is no fallback to default prices when the pricing fetch fails.
- Exactly one `result` level is unwrapped, not an arbitrary number:
  `BookingApi.TwoLevelsNotUnwrapped`.
- The `bookable` prop is never read by the selection screen.
- The confirmation sheet shows the stored total and does not recompute
  it: `BookingConfirmModal.StaleTotalShownVerbatim`.
- The delete test is `delete !== true`, so a record with no `delete`
  field is kept.
- The selection screen has exactly two fixed categories, not a list
  built from the fetched ticket types.

The code throws a TypeError in these cases, and the model returns
`Failure(TypeError(…))` for each:

- In `normalizeTicketResponse`, a `null` entry in `ticketTypeDtos`.
- In `normalizeTicketResponse`, an entry whose `masterTicketTypeName` or
  `amount` is an object with its own `toString` property (or an array
  holding one). The filter's log line converts both to strings.
- In `normalizeTicketResponse`, a kept record whose
  `masterTicketTypeName` is not a string.
- In `getBookingTickets`, a `ticketTypeDtos` that is present, not null
  and not an array, such as `5`, `{}` or `false`. The log argument at
  lib/api/bookingApi.ts:159 calls `map` on it before normalising. The
  normaliser on its own would return the empty list.

The same `result || data` unwrap appears in lib/api/placeApi.ts:19 for
the backend place lookup. `BookingApi.UnwrapResult` models it as well.

## Model

| member | source | states |
|---|---|---|
| `BookingApi.IsActive` | lib/api/bookingApi.ts:107 | active iff the record is an object whose `active` is the boolean `true`; truthy values such as `1` or `"true"` do not count |
| `BookingApi.IsNotDeleted` | lib/api/bookingApi.ts:108 | a record is dropped as deleted iff it is an object whose `delete` is the boolean `true`; an absent or non-boolean `delete` keeps it |
| `BookingApi.HasPriceSet` | lib/api/bookingApi.ts:109 | priced iff `amount` is a number above 0; a string amount such as `"50"` never counts |
| `BookingApi.Passes` | lib/api/bookingApi.ts:107-113 | a record passes iff it is an object with `active` exactly `true`, no `delete` equal to `true`, and a numeric `amount` above 0 |
| `BookingApi.FilterTickets` | lib/api/bookingApi.ts:106-114 | fails iff some element makes the callback throw: a null (reading `active`), or a name or amount that cannot be converted to a string (the log template at line 111); otherwise the output is no longer than the input and holds exactly the input records that pass `active === true`, `delete !== true` and a numeric `amount > 0` |
| `BookingApi.FilterSingle` | lib/api/bookingApi.ts:106-114 | one record on which the callback does not throw is kept iff it passes the three checks |
| `BookingApi.UnprintableNameRejected` | lib/api/bookingApi.ts:111 | a record whose name is `{"toString": 0}` makes the filter throw rather than be dropped |
| `BookingApi.FilterConcat` | lib/api/bookingApi.ts:106-114 | filtering distributes over concatenation, so together with `FilterSingle` the survivors appear in input order |
| `BookingApi.PassesExamples` | lib/api/bookingApi.ts:107-113 | inactive, deleted, zero-priced and string-priced records fail; an active priced record passes with `delete: false` and with `delete` absent |
| `BookingApi.Classify` | lib/api/bookingApi.ts:120-127 | the category is INDIAN iff the lower-cased name includes "indian" |
| `BookingApi.ClassifyPrecedence` | lib/api/bookingApi.ts:120-127 | FOREIGNER iff the name does not include "indian" but includes "foreign"; OTHER iff neither (so a name with both is INDIAN) |
| `BookingApi.ForeignerTestRedundant` | lib/api/bookingApi.ts:125 | the `includes('foreigner')` disjunct never changes the outcome: it implies `includes('foreign')` |
| `BookingApi.ClassifyIgnoresCase` | lib/api/bookingApi.ts:121 | names equal after lower-casing get the same category |
| `BookingApi.ClassifyIndianCitizen` | lib/api/bookingApi.ts:123-124 | "Indian Citizen" is INDIAN |
| `BookingApi.ClassifyForeignTourist` | lib/api/bookingApi.ts:125-126 | "Foreign Tourist" is FOREIGNER |
| `BookingApi.ClassifyStudent` | lib/api/bookingApi.ts:120 | "Student" stays OTHER |
| `BookingApi.ClassifyBoth` | lib/api/bookingApi.ts:123-127 | "Indian and Foreigner" resolves to INDIAN |
| `BookingApi.CategoryCode` | lib/api/bookingApi.ts:120-126 | the stored `type` is "INDIAN" exactly for Indian, "FOREIGNER" exactly for Foreigner and "OTHER" exactly for Other |
| `BookingApi.ToTicket` | lib/api/bookingApi.ts:118-135 | fails iff `masterTicketTypeName` is not a string (`toLowerCase` is missing); otherwise copies `id`, the original-case name and `price = amount` unchanged, the price is positive and the category is `Classify(name)` |
| `BookingApi.MapTickets` | lib/api/bookingApi.ts:118-135 | fails iff some kept record has a non-string name; otherwise one ticket per kept record, position by position |
| `BookingApi.NormalizeTicketResponse` | lib/api/bookingApi.ts:88-136 | a falsy or non-object response, or a missing, falsy or non-array `ticketTypeDtos`, gives the empty list; every output price is positive |
| `BookingApi.NormalizeUnfolds` | lib/api/bookingApi.ts:97-118 | for a payload carrying a `ticketTypeDtos` array, normalisation fails when the filter fails and is otherwise the map over the kept records |
| `BookingApi.PipelineSucceedsIff` | lib/api/bookingApi.ts:106-135 | the filter and the map together succeed iff no element makes the filter callback throw and every passing record has a string name |
| `BookingApi.PipelineShape` | lib/api/bookingApi.ts:106-135 | after a successful filter and map, there are no more tickets than records, every ticket converts a passing record, and every passing record yields a ticket |
| `BookingApi.NormalizeKeepsExactlyPassing` | lib/api/bookingApi.ts:97-135 | for a payload carrying a `ticketTypeDtos` array: success iff the filter callback throws on no element and every passing record has a string name; on success the output is the map over the filtered records (in order, by `FilterConcat`), no longer than the input, every ticket comes from a passing record, and every passing record is represented |
| `BookingApi.UnwrapResult` | lib/api/bookingApi.ts:156 | the normaliser's input is `data.result` when that is truthy, otherwise `data` itself |
| `BookingApi.PreviewError` | lib/api/bookingApi.ts:159 | the log argument throws iff `ticketTypeDtos` is present and neither null nor an array (no `map`), or is an array holding null (`t.id` of null) |
| `BookingApi.GetBookingTickets` | lib/api/bookingApi.ts:155-168 | fails when the unwrapped `ticketTypeDtos` is present, not null and not an array; gives the empty list with the body as `raw` when it is absent or null; for an array, succeeds iff normalisation succeeds; a success carries the normalised tickets and the unprocessed body as `raw` |
| `BookingApi.NonArrayDtosRejected` | lib/api/bookingApi.ts:155-161 | a non-null, non-array `ticketTypeDtos` makes `getBookingTickets` fail, although `normalizeTicketResponse` alone returns the empty list |
| `BookingApi.NullElementFailsBoth` | lib/api/bookingApi.ts:155-161 | a null element in the array makes both `getBookingTickets` and `normalizeTicketResponse` fail |
| `BookingApi.WrappedOnceSameAsDirect` | lib/api/bookingApi.ts:155-156 | a payload without a truthy `result` gives the same tickets whether it is sent directly or wrapped once |
| `BookingApi.TwoLevelsNotUnwrapped` | lib/api/bookingApi.ts:156-161 | a doubly wrapped payload is unwrapped once only and yields the empty list |
| `Emitra.EffectiveEnvironment` | lib/utils/emitra.ts:10 | the environment is 'production' iff the variable is unset, empty or 'production'; any other value is used as given |
| `Emitra.GetEmiraUrl` | lib/utils/emitra.ts:9-27 | in 'stage' it returns the stage URL, or fails with the stage message iff that URL is unset or empty; in any other environment the same holds for the production URL; a returned URL is never empty |
| `Emitra.UnsetEnvironmentIsProduction` | lib/utils/emitra.ts:10 | an unset or empty environment behaves exactly as 'production' |
| `Emitra.UnusedUrlIrrelevant` | lib/utils/emitra.ts:12-26 | outside 'stage' the stage URL is never consulted, and in 'stage' the production URL is not |
| `Emitra.IsValidPaymentData` | lib/utils/emitra.ts:63-75 | true iff ENCDATA, MERCHANTCODE and SERVICEID are all truthy at the top level, or all truthy inside `result` |
| `Emitra.LevelsNotMixed` | lib/utils/emitra.ts:63-75 | if one required field is missing at the top and one is missing in `result`, the data is rejected |
| `Emitra.SplitPayloadRejected` | lib/utils/emitra.ts:65-72 | ENCDATA at the top with the other two under `result` is rejected |
| `Emitra.NothingIsInvalid` | lib/utils/emitra.ts:63-75 | undefined, null and `{}` are rejected |
| `Emitra.PaymentDataExamples` | lib/utils/emitra.ts:65-74 | one field only is rejected; all three at the top or all three under `result` are accepted; an empty ENCDATA string is rejected |
| `TicketRow.Decrement` | components/booking/TicketRow.tsx:40 | the minus result is never negative: `count - 1` from a count of at least 1, and 0 otherwise |
| `TicketRow.Increment` | components/booking/TicketRow.tsx:50 | the plus result is larger than the count |
| `TicketRow.Apply` | components/booking/TicketRow.tsx:40-50 | either button keeps a non-negative count non-negative |
| `TicketRow.DecrementUndoesIncrement` | components/booking/TicketRow.tsx:40-50 | plus then minus restores any non-negative count |
| `TicketRow.IncrementUndoesDecrement` | components/booking/TicketRow.tsx:40-50 | minus then plus restores a positive count; minus at 0 stays at 0 |
| `TicketRow.NoUpperBound` | components/booking/TicketRow.tsx:50 | n accepted plus presses add exactly n, so every larger count is reachable |
| `TicketRow.AcceptedSpaced` | components/booking/TicketRow.tsx:18-27 | for any sequence of clock readings, each accepted click is at least 150 ms after the initial timestamp, any two accepted clicks are at least 150 ms apart, and the stored timestamp is the last accepted one; the clock need not be monotone |
| `TicketRow.AcceptedAreReadings` | components/booking/TicketRow.tsx:22-25 | accepted timestamps are clock readings, never more of them than clicks |
| `TicketRow.EarlyFirstClickIgnored` | components/booking/TicketRow.tsx:18-23 | since the timestamp starts at 0, a first click at a reading below 150 is ignored |
| `TicketRow.RowState.constructor` | components/booking/TicketRow.tsx:18 | the last-accepted timestamp starts at 0 |
| `TicketRow.RowState.HandleClick` | components/booking/TicketRow.tsx:21-27 | the action runs (the changed count is returned) iff `now - lastClick >= 150`; when it runs `lastClick := now`, otherwise `lastClick` is unchanged; the accepted timestamps grow by `now` exactly when it runs |
| `TicketSelector.Total` | components/booking/TicketSelector.tsx:17 | for non-negative counts, the total is at least 50 per Indian and at least 200 per foreign ticket |
| `TicketSelector.NextDisabled` | components/booking/TicketSelector.tsx:51 | NEXT is disabled iff the total is 0; `bookable` is not an input |
| `TicketSelector.TotalExample` | components/booking/TicketSelector.tsx:17 | two Indian and one foreign ticket cost 300 |
| `TicketSelector.Rows` | components/booking/TicketSelector.tsx:29-41 | the rows are "Indian Citizen" at 50 and "Foreign Citizen" at 200, with the current counts |
| `TicketSelector.RowPricesMatchTotal` | components/booking/TicketSelector.tsx:17 | the sum of row price × count equals the total, so the row prices are the total's multipliers |
| `TicketSelector.NextDisabledIffNoTickets` | components/booking/TicketSelector.tsx:51 | with non-negative counts, NEXT is disabled iff both counts are 0 |
| `TicketSelector.TotalAfterClick` | components/booking/TicketSelector.tsx:17 | each plus adds the row's unit price to the total, each minus from a positive count subtracts it, and a minus at 0 leaves the total unchanged |
| `TicketSelector.Selector.CurrentTotal` | components/booking/TicketSelector.tsx:17-46 | the "Total Amount" shown equals the sum of price × count that the two rows display |
| `TicketSelector.Selector.constructor` | components/booking/TicketSelector.tsx:14-15 | counts start at 1 Indian and 0 foreign, with fresh row state |
| `TicketSelector.Selector.ClickIndian` | components/booking/TicketSelector.tsx:29-34 | an accepted click on the Indian row sets its count to the button's value; the foreign count and row do not change; counts stay non-negative |
| `TicketSelector.Selector.ClickForeigner` | components/booking/TicketSelector.tsx:36-41 | the same for the foreign row |
| `TicketSelector.Selector.ClickNext` | components/booking/TicketSelector.tsx:50-58 | no draft iff the total is 0 (the `bookable` prop is not consulted); otherwise the draft is exactly `{indian, foreigner, total}`, its total agrees with the formula and is positive |
| `TicketSelector.InitialScreen` | components/booking/TicketSelector.tsx:14-17 | on first render the total is 50 and NEXT yields the draft `{1, 0, 50}` |
| `BookingConfirmModal.Noun` | components/booking/BookingConfirmModal.tsx:74 | the label is "tickets" iff the count exceeds 1, otherwise "ticket" |
| `BookingConfirmModal.LineIfAny` | components/booking/BookingConfirmModal.tsx:70-78 | a line appears iff the count is positive, with subtotal count × unit price |
| `BookingConfirmModal.Render` | components/booking/BookingConfirmModal.tsx:34-128 | nothing is rendered iff the sheet is closed or has no booking data; the total shown is the stored `total` verbatim, and the place and contact are passed through |
| `BookingConfirmModal.ShownLines` | components/booking/BookingConfirmModal.tsx:70-87 | the Indian line is present iff `indian > 0`, first, with subtotal `indian*50`; the foreign line is present iff `foreigner > 0`, last, with subtotal `foreigner*200`; no other lines appear |
| `BookingConfirmModal.TotalMatchesLinesForDraft` | components/booking/BookingConfirmModal.tsx:104 | for non-negative counts whose stored total follows the selection formula, the shown total equals the sum of the shown subtotals |
| `BookingConfirmModal.StaleTotalShownVerbatim` | components/booking/BookingConfirmModal.tsx:104 | a stored total that disagrees with the counts is shown as stored |
| `BookingConfirmModal.LabelAndButtons` | components/booking/BookingConfirmModal.tsx:94-128 | the contact label is "Email" iff the sign-in was by email, else "Mobile Number"; the confirmation channel is "your email" or "SMS"; both buttons are disabled iff `isLoading` is true, and not when it is omitted |
| `GuestAuthApi.ContactField` | lib/api/guestAuthApi.ts:42-57 | the contact goes in `email` iff the channel is email, otherwise in `mobileNo` |
| `GuestAuthApi.LoginWithMobile` | lib/api/guestAuthApi.ts:40-51 | posts `[mobileNo]` to `/guest/login` with `isEmailVerify=false`, form-encoded |
| `GuestAuthApi.LoginWithEmail` | lib/api/guestAuthApi.ts:56-67 | posts `[email]` to `/guest/login` with `isEmailVerify=true`, form-encoded |
| `GuestAuthApi.VerifyOtpForMobile` | lib/api/guestAuthApi.ts:73-85 | posts `[mobileNo, otp]` to `/guest/verify` with `isEmailVerify=false` |
| `GuestAuthApi.VerifyOtpForEmail` | lib/api/guestAuthApi.ts:101-113 | posts `[email, otp]` to `/guest/verify` with `isEmailVerify=true` |
| `GuestAuthApi.ChannelsConsistent` | lib/api/guestAuthApi.ts:40-113 | per channel, the flag is set iff the contact is sent as `email`; verification repeats the login form plus `otp` under the same flag |
| `GuestAuthApi.LoginUrlsAsPosted` | lib/api/guestAuthApi.ts:44-60 | the login URLs are `/guest/login?isEmailVerify=false` and `…=true` |
| `GuestAuthApi.VerifyUrlsAsPosted` | lib/api/guestAuthApi.ts:81-109 | the verify URLs are `/guest/verify?isEmailVerify=false` and `…=true` |
| `GuestAuthApi.LiftToken` | lib/api/guestAuthApi.ts:87-94 | when `result.token` is truthy, the top-level `token` becomes it and every other property keeps its value; otherwise the response is returned unchanged |
| `GuestAuthApi.LiftTokenIdempotent` | lib/api/guestAuthApi.ts:90-92 | lifting twice is the same as lifting once |
| `GuestAuthApi.LiftedTokenAgrees` | lib/api/guestAuthApi.ts:118-120 | after a lift, the top-level token is truthy and equals the nested one |
| `GuestAuthApi.NoTokenUnchanged` | lib/api/guestAuthApi.ts:115-122 | a response with no `result`, with an empty token, or undefined is returned as it came |
| `JsValues.IncludesAt` | lib/api/bookingApi.ts:123 | the recursive `includes` agrees with "the substring occurs at some position" |
| `JsValues.ToLower` | lib/api/bookingApi.ts:121 | lower-casing keeps the length and maps each ASCII capital to its small letter |

## Left out

- HTTP and the axios client are left out: base URL, timeouts, headers
  and network errors. Requests are descriptors and responses are
  parameters.
- `openPostPage` is left out. It is DOM code that builds and submits a
  hidden form.
- Session-storage writes and the navigation to `/verify` are left out.
  `ClickNext` returns the draft instead.
- The output of `console.log`, `console.warn` and `console.error` is
  left out. The arguments of the log calls in `bookingApi.ts` are still
  evaluated in the model wherever that evaluation can throw.
- Formatting the booking date with `toLocaleDateString` is left out. The
  summary carries the raw date string.
- `placeName.toUpperCase()` in the selection heading and the static
  markup of all three components are left out.
- JSON numbers are modelled as exact reals. Double-precision rounding
  is not modelled. Neither is overflow to Infinity (`1e400`) nor
  underflow to 0 (`1e-400`). So an `amount` of `1e-400` passes the
  model's `amount > 0` test, although the code reads it as 0 and drops
  the record.
- `JsValues.ToLower`: it folds ASCII letters only. JavaScript's full
  Unicode case mapping is not modelled.
- React rendering is left out. Each click is modelled as seeing the
  counts of the previous accepted click, as after a re-render. Stale
  closure values between renders are not modelled.
- `GuestAuthApi.LiftToken`: the source assigns `data.token` in place on
  the response object. The model returns the updated value, so aliasing
  of that object is not modelled. The response is a freshly parsed
  body that nothing else holds.
- `GuestAuthApi.LoginWithMobile`, `LoginWithEmail`, `VerifyOtpForMobile`,
  `VerifyOtpForEmail`: only the request is modelled. The server's reply
  is a parameter of `LiftToken`.
- `BookingApi.TicketType`: `id` is kept as the raw value that was
  copied. The TypeScript type says `string`, but the code does not check
  it.
- The other repository files are not part of this model. `lib/http.ts`,
  `lib/graphql.ts`, `lib/placeApi.ts` and `lib/api/ticketApi.ts` are
  request plumbing. The store setter, the place pages and the verify
  page stub contain no booking rules.
- `VisitDateSelector`'s date range is left out. It depends on the clock
  and the time zone.
