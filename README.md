# Booking transformation layer of the v2 bookings API (2024-08-13), in Dafny

This project models the two services that sit between the HTTP boundary and the booking store of
the v2 bookings API:

- the **input service** turns a create, recurring-create, reschedule, cancel or mark-absent request
  into the record the booking handlers persist, turns the bookings query into repository filters
  and a sort, and enriches each request with the platform parameters of its OAuth client and the
  `noEmail` flag derived from them;
- the **output service** validates a stored booking's responses blob, finds the booker among its
  attendees and builds one of three views (simple, rescheduled, recurring), or a list of recurring
  views re-fetched in input order.

Repositories are Dafny maps (event types by id, bookings by uid and by id, recurring groups by
group uid, OAuth clients by id). Thrown exceptions are a `Result` whose error says which
exception was thrown: a `NotFound` naming what is missing, a plain `Error` with its message, or a
schema failure naming the zod schema. Instants are integer milliseconds since the epoch with the
zone as an opaque label: `setZone` keeps the instant, `plus({ minutes })` adds 60000 ms per
minute, and year, month and week addition come from a `Calendar` value the caller supplies.

The shared `DEFAULT_PLATFORM_PARAMS` object is a class (`PlatformParams`) whose fields the client
lookup overwrites in place. The lookup returns that same object, so a request that names a known
client changes the parameters every later request without a client id receives.
`SharedDefaultsAfterClientLookup` proves this for two consecutive requests.

Modules: `Wrappers` (Option, Result), `Json` (JSON values and truthiness), `Time`, `Bookings`
(stored entities, errors, the attendee search), `Responses` (the responses schema),
`InputTransforms`, `BookingRequests` (the request builders and the shared parameters),
`OutputBookings`, and `BookingProperties` (lemmas that relate the services and the views).

Behaviours of the source worth knowing:

- A recurring rule with a negative `count` passes the "repeats times" check, the loop never runs,
  and the result is an empty list with no error, even when the frequency is unsupported.
- A rule without an `interval` does not move the start, because luxon skips an undefined amount,
  so all occurrences start at the same time.
- An unsupported frequency raises a plain `Error`, not a validation error.
- Reschedule carries over the *parsed* responses, and zod drops every key outside the four schema
  keys, so the responses are not carried over unchanged.
- A request without a client id does not get all-default parameters. It gets whatever the shared
  object holds, which is the last client found.

## Model

| member | source | states |
|---|---|---|
| Time.InZone | apps/api/v2/src/ee/bookings/2024-08-13/services/input.service.ts:103-105 | reading the start as UTC and re-expressing it in the attendee's zone keeps the instant and sets the zone |
| Time.PlusMinutes | apps/api/v2/src/ee/bookings/2024-08-13/services/input.service.ts:106 | adding minutes moves the instant by exactly 60000 ms per minute and keeps the zone |
| Time.DiffMinutes | apps/api/v2/src/ee/bookings/2024-08-13/services/output.service.ts:32-34 | the duration in minutes times 60000 is exactly end minus start |
| Bookings.FindAttendee | apps/api/v2/src/ee/bookings/2024-08-13/services/output.service.ts:37 | the result is the first attendee whose email equals the given one; none is found exactly when no attendee's email matches |
| Bookings.OrUndefined | apps/api/v2/src/ee/bookings/2024-08-13/services/output.service.ts:51-53 | a null or empty string is reported as absent; any other string is kept |
| Bookings.Coerce | apps/api/v2/src/ee/bookings/2024-08-13/services/output.service.ts:63 | a nullable boolean is true exactly when it is true (null gives false) |
| Responses.ParseBookingResponses | apps/api/v2/src/ee/bookings/2024-08-13/services/output.service.ts:10-15 | parsing succeeds exactly when the blob is an object with string email and name, an optional all-string guests array and an optional string rescheduledReason; it then returns those values, and otherwise a schema error |
| Responses.ParseResponsesToJson | apps/api/v2/src/ee/bookings/2024-08-13/services/output.service.ts:10-15 | serialising parsed responses and parsing them again gives them back |
| Responses.ResponsesStripUnknownKeys | apps/api/v2/src/ee/bookings/2024-08-13/services/output.service.ts:10-15 | parsing and re-serialising a conforming blob keeps exactly its four schema keys and drops the rest |
| InputTransforms.OwningUser | apps/api/v2/src/ee/bookings/2024-08-13/services/input.service.ts:125 | the user is the owner's username when there is an owner, else the team's slug, else absent |
| InputTransforms.LanguageOrDefault | apps/api/v2/src/ee/bookings/2024-08-13/services/input.service.ts:114 | the language is the attendee's when non-empty, otherwise "en"; it is never empty |
| InputTransforms.MergedResponses | apps/api/v2/src/ee/bookings/2024-08-13/services/input.service.ts:118-124 | the responses hold the caller's keys plus name and email; name and email are the attendee's and override same-named keys, and every other key keeps its value |
| InputTransforms.TransformInputCreateBooking | apps/api/v2/src/ee/bookings/2024-08-13/services/input.service.ts:95-127 | create fails with NotFound exactly when the event type is missing; otherwise start is the requested instant in the attendee's zone, end is length minutes later, language defaults to "en", metadata to {}, and slug, user, guests and merged responses are as the event type and input give them |
| InputTransforms.OptionalFrequency | apps/api/v2/src/ee/bookings/2024-08-13/services/input.service.ts:45-59 | an absent key is Absent; the value is Present exactly when it is an integral number from 0 to 6 (the seven enum values), and then it is that number; anything else is a mismatch |
| InputTransforms.ParseRecurringEvent | apps/api/v2/src/ee/bookings/2024-08-13/services/input.service.ts:55-61 | a non-object is rejected; an accepted rule's count, interval and freq are present exactly when their keys are, equal the integer values stored there, and freq is an enum value |
| InputTransforms.PlanRecurrence | apps/api/v2/src/ee/bookings/2024-08-13/services/input.service.ts:155-173 | the recurring create fails, in this order, with NotFound for a missing event type, NotFound for a falsy recurrence rule, a schema error for a malformed rule, and "Repeats times is required" for a missing or zero count; otherwise it yields the event type, its rule and the non-zero count |
| InputTransforms.Advance | apps/api/v2/src/ee/bookings/2024-08-13/services/input.service.ts:207-219 | the next start exists exactly for frequencies 0, 1 and 2 and keeps the zone; with an interval, frequency 0 adds that many years, 1 that many months and 2 that many weeks through the calendar; without an interval the start stays where it is |
| InputTransforms.TransformInputCreateRecurringBooking | apps/api/v2/src/ee/bookings/2024-08-13/services/input.service.ts:154-223 | the loop returns exactly the expansion: count records; all share the generated group id and the event type's scheduling type; each ends length minutes after its start; the first starts at the requested instant; each next start is the previous one advanced by the rule |
| InputTransforms.ExpandedRecordsShape | apps/api/v2/src/ee/bookings/2024-08-13/services/input.service.ts:182-219 | every expanded record carries the group id and the event type's scheduling type and ends length minutes after it starts; the first starts at the requested time in the attendee's zone; each later one starts where the rule advances the previous start |
| InputTransforms.TransformInputRescheduleBooking | apps/api/v2/src/ee/bookings/2024-08-13/services/input.service.ts:247-285 | reschedule fails with NotFound for a missing booking, a missing or zero event type id or a missing event type; with the responses-schema error when the stored responses do not match the schema; and with NotFound when no attendee has the responses' email; otherwise the zone and language come from that attendee, end is length minutes after start in the same zone, guests and responses come from the parsed stored responses, and the record carries no recurring group id and no scheduling type |
| InputTransforms.RescheduleBookingLocation | apps/api/v2/src/ee/bookings/2024-08-13/services/input.service.ts:287-293 | the location is the stored booking's location, and a missing booking is NotFound |
| InputTransforms.TransformInputCancelBooking | apps/api/v2/src/ee/bookings/2024-08-13/services/input.service.ts:369-386 | the whole series is cancelled exactly when the group lookup is non-empty, and the uid is then the group's first booking's uid; otherwise the uid is the given one; the reason passes through |
| InputTransforms.TransformInputMarkAbsentBooking | apps/api/v2/src/ee/bookings/2024-08-13/services/input.service.ts:388-393 | noShowHost equals host; the attendee list is absent exactly when the emails are, and otherwise has the emails in the same order, each with noShow true |
| InputTransforms.IdsOrSingle | apps/api/v2/src/ee/bookings/2024-08-13/services/input.service.ts:330-332 | a given id list wins; otherwise a non-zero single id becomes a one-element list; otherwise the filter is absent |
| InputTransforms.TransformGetBookingsFilters | apps/api/v2/src/ee/bookings/2024-08-13/services/input.service.ts:324-334 | attendee and date filters pass through; team and event-type ids follow the list-or-single-id rule |
| InputTransforms.TransformGetBookingsSort | apps/api/v2/src/ee/bookings/2024-08-13/services/input.service.ts:336-346 | the sort is absent exactly when no sort key is given, and otherwise carries the three keys unchanged |
| BookingRequests.OrEmpty | apps/api/v2/src/ee/bookings/2024-08-13/services/input.service.ts:312-314 | a missing redirect URL becomes the empty string |
| BookingRequests.WithClient | apps/api/v2/src/ee/bookings/2024-08-13/services/input.service.ts:310-316 | a found client sets the client id, the three redirect URLs (empty when unset) and the emails flag (false when unset), and leaves the booking location alone |
| BookingRequests.ParamsAfterLookup | apps/api/v2/src/ee/bookings/2024-08-13/services/input.service.ts:83-85 | a request gets the client's values written over the current shared parameters when its header names a known client, and the current shared parameters unchanged otherwise |
| BookingRequests.PlatformParams.constructor | apps/api/v2/src/ee/bookings/2024-08-13/services/input.service.ts:27-34 | the shared parameters start with empty URLs and client id, emails disabled and no location |
| BookingRequests.InputBookingsService.CreateBookingRequestOAuthClientParams | apps/api/v2/src/ee/bookings/2024-08-13/services/input.service.ts:306-322 | the result is the shared object itself; a found client overwrites its fields, and a missing one leaves it unchanged |
| BookingRequests.InputBookingsService.ResolvePlatformParams | apps/api/v2/src/ee/bookings/2024-08-13/services/input.service.ts:83-85 | the request's parameters are the shared object's values after the lookup, which are the parameters after the lookup |
| BookingRequests.InputBookingsService.CreateBookingRequest | apps/api/v2/src/ee/bookings/2024-08-13/services/input.service.ts:74-93 | a failed transform fails the request and leaves the shared parameters untouched; otherwise the body is the create record, noEmail is the negation of the emails flag, and the location is the body's meeting URL |
| BookingRequests.InputBookingsService.CreateRecurringBookingRequest | apps/api/v2/src/ee/bookings/2024-08-13/services/input.service.ts:129-152 | a failed expansion fails the request and leaves the shared parameters untouched; otherwise every expanded record, in order, carries noEmail equal to the negation of the emails flag |
| BookingRequests.InputBookingsService.CreateRescheduleBookingRequest | apps/api/v2/src/ee/bookings/2024-08-13/services/input.service.ts:225-245 | a failed transform fails the request and leaves the shared parameters untouched; otherwise the body is the reschedule record with noEmail, and the location is that of the booking being rescheduled |
| BookingRequests.InputBookingsService.CreateCancelBookingRequest | apps/api/v2/src/ee/bookings/2024-08-13/services/input.service.ts:348-367 | the body is the cancellation with noEmail equal to the negation of the emails flag, and the location stays the one in the shared parameters |
| BookingRequests.SharedDefaultsAfterClientLookup | apps/api/v2/src/ee/bookings/2024-08-13/services/input.service.ts:306-317 | after a request with a known client, a request without a client id receives that client's id and emails flag, not the initial defaults |
| OutputBookings.ToLowerCase | apps/api/v2/src/ee/bookings/2024-08-13/services/output.service.ts:50 | the result has the input's length and lower-cases each ASCII letter |
| OutputBookings.ToLowerCaseNormalises | apps/api/v2/src/ee/bookings/2024-08-13/services/output.service.ts:50 | lower-casing leaves no upper-case letter, is idempotent and changes nothing already lower-case |
| OutputBookings.OutputStatus | apps/api/v2/src/ee/bookings/2024-08-13/services/output.service.ts:47-50 | the status is "rescheduled" when the booking was rescheduled and has no (or an empty) cancellation reason, and the lower-cased stored status otherwise |
| OutputBookings.ViewOfAttendee | apps/api/v2/src/ee/bookings/2024-08-13/services/output.service.ts:58-64 | the attendee view copies name, email, zone and locale, and absent is true exactly when noShow is true |
| OutputBookings.ResponsesAndAttendee | apps/api/v2/src/ee/bookings/2024-08-13/services/output.service.ts:36-41 | a non-conforming responses blob is a schema error; a conforming one with no matching attendee is "Attendee not found"; otherwise the parsed responses and the first matching attendee |
| OutputBookings.GetOutputBooking | apps/api/v2/src/ee/bookings/2024-08-13/services/output.service.ts:21-71 | the view fails exactly as the responses and attendee lookup fails; otherwise it has the status rule, the duration in minutes of end minus start, the coerced reasons and absence flags, and the found attendee whose email is the responses' email |
| OutputBookings.GetOutputRescheduledBooking | apps/api/v2/src/ee/bookings/2024-08-13/services/output.service.ts:73-136 | the view fails when either responses blob is non-conforming, or with "Attendee not found"; otherwise every field comes from the old booking except the rescheduling reason, from the new booking's responses, and rescheduledToUid, the new booking's uid |
| OutputBookings.GetOutputRecurringBooking | apps/api/v2/src/ee/bookings/2024-08-13/services/output.service.ts:167-213 | the view fails as the simple view does; otherwise the status is always the lower-cased stored status, recurringBookingUid is the group id and guests come from the parsed responses |
| OutputBookings.RecurringViewOfCreated | apps/api/v2/src/ee/bookings/2024-08-13/services/output.service.ts:152-161 | a missing or zero id is "Booking was not created", an id missing from the store is "not found in the database", and otherwise the booking's recurring view |
| OutputBookings.GetOutputRecurringBookings | apps/api/v2/src/ee/bookings/2024-08-13/services/output.service.ts:138-165 | the batch succeeds exactly when every element does, and then has one view per input in input order; otherwise it fails with the error of the first failing element |
| BookingProperties.CreatedResponsesConform | apps/api/v2/src/ee/bookings/2024-08-13/services/input.service.ts:118-124 | the responses a create builds pass the responses schema and parse back to the attendee's name and email, as long as the caller's guests and rescheduledReason are well-typed |
| BookingProperties.CreatedBookingViewRoundTrip | apps/api/v2/src/ee/bookings/2024-08-13/services/input.service.ts:103-124 | a created booking stored with its record's times and responses, booker first, is viewed with the requested start, end, the event-type length as duration, and the booker's name, email and zone |
| BookingProperties.OutputStatusIsLowerCase | apps/api/v2/src/ee/bookings/2024-08-13/services/output.service.ts:47-50 | every status of the simple and rescheduled views is lower-case |
| BookingProperties.RecurringViewAgreesWithSimple | apps/api/v2/src/ee/bookings/2024-08-13/services/output.service.ts:189-210 | the recurring and simple views succeed together and agree on attendee, guests, duration and reason; their statuses differ only where the simple view reports "rescheduled" |
| BookingProperties.RescheduledViewAgreesWithOld | apps/api/v2/src/ee/bookings/2024-08-13/services/output.service.ts:107-133 | the rescheduled view is the old booking's simple view field for field, plus the new booking's reason and uid |
| BookingProperties.RecurringExpansionOutcome | apps/api/v2/src/ee/bookings/2024-08-13/services/input.service.ts:171-219 | the expansion fails with the plan's error, fails with "Unsupported timeBetween value" when a positive count meets an unsupported frequency, is empty for a negative count, and otherwise has exactly count records |
| BookingProperties.EveryTwoWeeksThreeTimes | apps/api/v2/src/ee/bookings/2024-08-13/services/input.service.ts:182-219 | a weekly rule with interval 2 and count 3 gives three records starting at T, T advanced by two weeks, and that advanced by two weeks again, all in one group |

## Left out

- The NestJS and Express plumbing: request cloning, `Object.assign` onto the request, reading the client-id header and the body's meeting URL. The header and the meeting URL are parameters of the builders.
- `createBookingRequestOwnerId`: resolving the bearer token through `OAuthFlowService.getOwnerId` is a foreign call. Each builder receives the resolved owner id as a parameter. Only a synchronous throw is caught and logged. The promise from `getOwnerId` is returned without `await` inside the `try`, so a rejected lookup escapes the catch and fails the whole builder where it awaits the owner id. The model's `userId` parameter does not capture that failure.
- The try/catch around `getOAuthClient`: a repository that throws leaves the shared parameters unchanged, exactly as a missing client does. The model has only the map lookup, which covers both.
- Interleaving of concurrent requests: between the awaits of one builder, another request could overwrite the shared parameters. Each builder is modelled as running without interruption.
- luxon's ISO parsing and formatting (`fromISO`, `toISO`), invalid zones (which make `toISO` return null), and the zone database. Year, month and week addition is the caller-supplied `Calendar`.
- `uuidv4`: the recurring group id is a parameter.
- `plainToClass` with `excludeAll`: the views hold every field the services build. Which of them the DTO exposes is not modelled.
- `CreateInstantBookingInput`: it goes through the same create transform, and its extra fields are not read there.
- Time.DiffMinutes: the duration is an exact rational number of minutes. luxon's `diff(..., "minutes").minutes` is a double, and the two agree only when the difference is a whole number of minutes.
- `toLowerCase` is modelled on ASCII letters only, which is enough for the stored status names.
- JSON `null` and `undefined` are both `None` in nullable fields (owner username, team slug, locale, scheduling type). A stored booking's metadata is an object or absent.
- ParseRecurringEvent: the contract states what an accepted rule holds and that a non-object is rejected. It does not state the full condition under which the rule is accepted, and `dtstart` and `until` are parsed but unused.
- The context files (React components, the organizations event-types repository, the endpoints module, the create-booking output DTO, the Stripe schemas, the location options helper) are not part of this model.
