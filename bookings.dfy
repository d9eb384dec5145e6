/** The stored entities both booking services read, the errors they throw, and the attendee search they share. */
module Bookings {
  import opened Wrappers
  import opened Json

  /** What a NotFoundException names as missing. */
  datatype Missing =
    | EventTypeId(id: int)                      // "Event type with id=… not found"
    | NotRecurringEventType(id: int)            // "Event type with id=… is not a recurring event"
    | BookingUid(uid: string)                   // "Booking with uid=… not found"
    | BookingEventType(uid: string)             // "Booking with uid=… is missing event type"
    | BookingAttendee(email: string, uid: string) // "Attendee with e-mail … for booking with uid=… not found"

  /** The message of a plain `Error`. */
  datatype Cause =
    | RepeatsTimesRequired       // "Repeats times is required"
    | UnsupportedTimeBetween     // "Unsupported timeBetween value"
    | AttendeeNotFound           // "Attendee not found"
    | BookingNotCreated          // "Booking was not created"
    | BookingNotInDatabase(id: int) // "Booking with id=… was not found in the database"

  /** The zod schema whose `parse` failed. */
  datatype Schema = BookingResponsesSchema | RecurringEventSchema

  /** Everything the transforms throw: NestJS NotFoundException, a plain Error, or a ZodError. */
  datatype Failure =
    | NotFound(missing: Missing)
    | Error(cause: Cause)
    | InvalidShape(schema: Schema)

  type Outcome<T> = Result<T, Failure>

  datatype SchedulingType = RoundRobin | Collective | Managed

  datatype Owner = Owner(username: Option<string>)
  datatype Team = Team(slug: Option<string>)

  /** An event type with its owner and team, as the event-types repository returns it. */
  datatype EventType = EventType(
    id: int,
    length: int,                 // duration in minutes
    slug: string,
    owner: Option<Owner>,
    team: Option<Team>,
    recurringEvent: Json,        // JSON column; JNull when the event type does not recur
    schedulingType: Option<SchedulingType>)

  datatype Attendee = Attendee(
    name: string,
    email: string,
    timeZone: string,
    locale: Option<string>,
    noShow: Option<bool>)

  /** A booking row with its attendees. Times are instants in milliseconds since the epoch. */
  datatype StoredBooking = StoredBooking(
    id: int,
    uid: string,
    userId: Option<int>,
    status: string,
    rescheduled: Option<bool>,
    cancellationReason: Option<string>,
    fromReschedule: Option<string>,
    startTime: int,
    endTime: int,
    eventTypeId: Option<int>,
    responses: Json,
    metadata: Option<map<string, Json>>,
    location: Option<string>,
    noShowHost: Option<bool>,
    recurringEventId: Option<string>,
    attendees: seq<Attendee>)

  /** An OAuth client row, as far as the platform parameters read it. */
  datatype OAuthClient = OAuthClient(
    bookingCancelRedirectUri: Option<string>,
    bookingRescheduleRedirectUri: Option<string>,
    bookingRedirectUri: Option<string>,
    areEmailsEnabled: Option<bool>)

  /** `s || undefined` for a nullable string: the empty string is reported as absent. */
  function OrUndefined(s: Option<string>): (r: Option<string>)
    ensures r.Some? <==> s.Some? && s.value != ""
    ensures r.Some? ==> r == s
  {
    if s == Some("") then None else s
  }

  /** `!!b` for a nullable boolean: only `true` is truthy. */
  function Coerce(b: Option<bool>): (r: bool)
    ensures r <==> b == Some(true)
  {
    match b
    case Some(v) => v
    case None => false
  }

  /**
   * `attendees.find(a => a.email === email)`, reported as the position of the attendee found:
   * the first attendee whose email matches, or None when none matches.
   */
  function FindAttendee(attendees: seq<Attendee>, email: string): (r: Option<nat>)
    ensures r.Some? ==> r.value < |attendees| && attendees[r.value].email == email
    ensures r.Some? ==> forall k | 0 <= k < r.value :: attendees[k].email != email
    ensures r.None? <==> forall k | 0 <= k < |attendees| :: attendees[k].email != email
    decreases |attendees|
  {
    if |attendees| == 0 then None
    else if attendees[0].email == email then Some(0)
    else
      match FindAttendee(attendees[1..], email)
      case None => None
      case Some(k) => Some(k + 1)
  }
}
