/** The bookings output service: a stored booking with its attendees becomes the view the API returns. */
module OutputBookings {
  import opened Wrappers
  import opened Time
  import opened Bookings
  import opened Responses

  datatype AttendeeView = AttendeeView(
    name: string,
    email: string,
    timeZone: string,
    language: Option<string>,
    absent: bool)

  datatype BookingView = BookingView(
    id: int,
    uid: string,
    hostId: Option<int>,
    status: string,
    cancellationReason: Option<string>,
    reschedulingReason: Option<string>,
    rescheduledFromUid: Option<string>,
    start: int,
    end: int,
    duration: real,
    eventTypeId: Option<int>,
    attendee: AttendeeView,
    guests: Option<seq<string>>,
    meetingUrl: Option<string>,
    absentHost: bool)

  datatype RescheduledBookingView = RescheduledBookingView(
    id: int,
    uid: string,
    hostId: Option<int>,
    status: string,
    cancellationReason: Option<string>,
    reschedulingReason: Option<string>,
    rescheduledFromUid: Option<string>,
    rescheduledToUid: string,
    start: int,
    end: int,
    duration: real,
    eventTypeId: Option<int>,
    attendee: AttendeeView,
    guests: Option<seq<string>>,
    meetingUrl: Option<string>,
    absentHost: bool)

  datatype RecurringBookingView = RecurringBookingView(
    id: int,
    uid: string,
    hostId: Option<int>,
    status: string,
    cancellationReason: Option<string>,
    start: int,
    end: int,
    duration: real,
    eventTypeId: Option<int>,
    attendee: AttendeeView,
    guests: Option<seq<string>>,
    meetingUrl: Option<string>,
    recurringBookingUid: Option<string>,
    absentHost: bool)

  // ---------------------------------------------------------------- shared derivations

  predicate IsUpper(c: char) {
    'A' <= c <= 'Z'
  }

  function LowerChar(c: char): char {
    if IsUpper(c) then (c as int + 32) as char else c
  }

  /** `String.prototype.toLowerCase`, on the ASCII letters the stored status names use. */
  function ToLowerCase(s: string): (r: string)
    ensures |r| == |s|
    ensures forall k | 0 <= k < |s| :: r[k] == LowerChar(s[k])
  {
    seq(|s|, k requires 0 <= k < |s| => LowerChar(s[k]))
  }

  predicate IsLowerCase(s: string) {
    forall k | 0 <= k < |s| :: !IsUpper(s[k])
  }

  /** Lower-casing leaves no upper-case letter and changes nothing already lower-case. */
  lemma ToLowerCaseNormalises(s: string)
    ensures IsLowerCase(ToLowerCase(s))
    ensures ToLowerCase(ToLowerCase(s)) == ToLowerCase(s)
    ensures IsLowerCase(s) ==> ToLowerCase(s) == s
  {
  }

  /** The status of the simple and rescheduled views: "rescheduled" overrides the stored status unless there is a cancellation reason. */
  function OutputStatus(b: StoredBooking): (s: string)
    ensures b.rescheduled == Some(true) && OrUndefined(b.cancellationReason).None? ==> s == "rescheduled"
    ensures !(b.rescheduled == Some(true) && OrUndefined(b.cancellationReason).None?) ==> s == ToLowerCase(b.status)
  {
    if Coerce(b.rescheduled) && OrUndefined(b.cancellationReason).None? then "rescheduled" else ToLowerCase(b.status)
  }

  /** The view of the attendee found for the responses' email. */
  function ViewOfAttendee(a: Attendee): (v: AttendeeView)
    ensures v.name == a.name && v.email == a.email && v.timeZone == a.timeZone && v.language == a.locale
    ensures v.absent <==> a.noShow == Some(true)
  {
    AttendeeView(a.name, a.email, a.timeZone, a.locale, Coerce(a.noShow))
  }

  /** The booker's responses and attendee, or the error the view throws before building anything. */
  function ResponsesAndAttendee(b: StoredBooking): (r: Outcome<(BookingResponses, Attendee)>)
    ensures !MatchesResponsesSchema(b.responses) ==> r == Err(InvalidShape(BookingResponsesSchema))
    ensures MatchesResponsesSchema(b.responses) ==>
      var email := ParseBookingResponses(b.responses).value.email;
      && (FindAttendee(b.attendees, email).None? ==> r == Err(Error(AttendeeNotFound)))
      && (FindAttendee(b.attendees, email).Some? ==>
            r == Ok((ParseBookingResponses(b.responses).value, b.attendees[FindAttendee(b.attendees, email).value])))
  {
    var responses :- ParseBookingResponses(b.responses);
    match FindAttendee(b.attendees, responses.email)
    case None => Err(Error(AttendeeNotFound))
    case Some(k) => Ok((responses, b.attendees[k]))
  }

  // ---------------------------------------------------------------- the three views

  /** `getOutputBooking` */
  function GetOutputBooking(b: StoredBooking): (r: Outcome<BookingView>)
    ensures r.Ok? <==> ResponsesAndAttendee(b).Ok?
    ensures r.Err? ==> r.error == ResponsesAndAttendee(b).error
    ensures r.Ok? ==>
      var (responses, attendee) := ResponsesAndAttendee(b).value;
      && r.value.id == b.id && r.value.uid == b.uid && r.value.hostId == b.userId
      && r.value.status == OutputStatus(b)
      && r.value.cancellationReason == OrUndefined(b.cancellationReason)
      && r.value.reschedulingReason == responses.rescheduledReason
      && r.value.rescheduledFromUid == OrUndefined(b.fromReschedule)
      && r.value.start == b.startTime && r.value.end == b.endTime
      && r.value.duration * (MillisPerMinute as real) == (b.endTime - b.startTime) as real
      && r.value.eventTypeId == b.eventTypeId
      && r.value.attendee == ViewOfAttendee(attendee)
      && r.value.attendee.email == responses.email
      && r.value.guests == responses.guests
      && r.value.meetingUrl == b.location
      && (r.value.absentHost <==> b.noShowHost == Some(true))
  {
    var (responses, attendee) :- ResponsesAndAttendee(b);
    Ok(BookingView(
      id := b.id,
      uid := b.uid,
      hostId := b.userId,
      status := OutputStatus(b),
      cancellationReason := OrUndefined(b.cancellationReason),
      reschedulingReason := responses.rescheduledReason,
      rescheduledFromUid := OrUndefined(b.fromReschedule),
      start := b.startTime,
      end := b.endTime,
      duration := DiffMinutes(b.startTime, b.endTime),
      eventTypeId := b.eventTypeId,
      attendee := ViewOfAttendee(attendee),
      guests := responses.guests,
      meetingUrl := b.location,
      absentHost := Coerce(b.noShowHost)))
  }

  /** `getOutputRescheduledBooking`: the old booking's view, with the new booking's rescheduling reason and uid. */
  function GetOutputRescheduledBooking(oldBooking: StoredBooking, newBooking: StoredBooking): (r: Outcome<RescheduledBookingView>)
    ensures r.Ok? <==> ResponsesAndAttendee(oldBooking).Ok? && MatchesResponsesSchema(newBooking.responses)
    ensures (!MatchesResponsesSchema(oldBooking.responses) || !MatchesResponsesSchema(newBooking.responses))
      ==> r == Err(InvalidShape(BookingResponsesSchema))
    ensures (MatchesResponsesSchema(oldBooking.responses) && MatchesResponsesSchema(newBooking.responses) && r.Err?)
      ==> r.error == Error(AttendeeNotFound)
    ensures r.Ok? ==>
      var (responses, attendee) := ResponsesAndAttendee(oldBooking).value;
      && r.value.id == oldBooking.id && r.value.uid == oldBooking.uid && r.value.hostId == oldBooking.userId
      && r.value.status == OutputStatus(oldBooking)
      && r.value.cancellationReason == OrUndefined(oldBooking.cancellationReason)
      && r.value.reschedulingReason == ParseBookingResponses(newBooking.responses).value.rescheduledReason
      && r.value.rescheduledFromUid == OrUndefined(oldBooking.fromReschedule)
      && r.value.rescheduledToUid == newBooking.uid
      && r.value.start == oldBooking.startTime && r.value.end == oldBooking.endTime
      && r.value.duration * (MillisPerMinute as real) == (oldBooking.endTime - oldBooking.startTime) as real
      && r.value.eventTypeId == oldBooking.eventTypeId
      && r.value.attendee == ViewOfAttendee(attendee)
      && r.value.guests == responses.guests
      && r.value.meetingUrl == oldBooking.location
      && (r.value.absentHost <==> oldBooking.noShowHost == Some(true))
  {
    var responses :- ParseBookingResponses(oldBooking.responses);
    var responsesNew :- ParseBookingResponses(newBooking.responses);
    match FindAttendee(oldBooking.attendees, responses.email)
    case None => Err(Error(AttendeeNotFound))
    case Some(k) =>
      Ok(RescheduledBookingView(
        id := oldBooking.id,
        uid := oldBooking.uid,
        hostId := oldBooking.userId,
        status := OutputStatus(oldBooking),
        cancellationReason := OrUndefined(oldBooking.cancellationReason),
        reschedulingReason := responsesNew.rescheduledReason,
        rescheduledFromUid := OrUndefined(oldBooking.fromReschedule),
        rescheduledToUid := newBooking.uid,
        start := oldBooking.startTime,
        end := oldBooking.endTime,
        duration := DiffMinutes(oldBooking.startTime, oldBooking.endTime),
        eventTypeId := oldBooking.eventTypeId,
        attendee := ViewOfAttendee(oldBooking.attendees[k]),
        guests := responses.guests,
        meetingUrl := oldBooking.location,
        absentHost := Coerce(oldBooking.noShowHost)))
  }

  /** `getOutputRecurringBooking`: the status is always the lower-cased stored status. */
  function GetOutputRecurringBooking(b: StoredBooking): (r: Outcome<RecurringBookingView>)
    ensures r.Ok? <==> ResponsesAndAttendee(b).Ok?
    ensures r.Err? ==> r.error == ResponsesAndAttendee(b).error
    ensures r.Ok? ==>
      var (responses, attendee) := ResponsesAndAttendee(b).value;
      && r.value.id == b.id && r.value.uid == b.uid && r.value.hostId == b.userId
      && r.value.status == ToLowerCase(b.status)
      && r.value.cancellationReason == OrUndefined(b.cancellationReason)
      && r.value.start == b.startTime && r.value.end == b.endTime
      && r.value.duration * (MillisPerMinute as real) == (b.endTime - b.startTime) as real
      && r.value.eventTypeId == b.eventTypeId
      && r.value.attendee == ViewOfAttendee(attendee)
      && r.value.guests == responses.guests
      && r.value.meetingUrl == b.location
      && r.value.recurringBookingUid == b.recurringEventId
      && (r.value.absentHost <==> b.noShowHost == Some(true))
  {
    var (responses, attendee) :- ResponsesAndAttendee(b);
    Ok(RecurringBookingView(
      id := b.id,
      uid := b.uid,
      hostId := b.userId,
      status := ToLowerCase(b.status),
      cancellationReason := OrUndefined(b.cancellationReason),
      start := b.startTime,
      end := b.endTime,
      duration := DiffMinutes(b.startTime, b.endTime),
      eventTypeId := b.eventTypeId,
      attendee := ViewOfAttendee(attendee),
      guests := responses.guests,
      meetingUrl := b.location,
      recurringBookingUid := b.recurringEventId,
      absentHost := Coerce(b.noShowHost)))
  }

  // ---------------------------------------------------------------- batch

  /** One iteration of `getOutputRecurringBookings`: check the id, re-fetch the booking, build its recurring view. */
  function RecurringViewOfCreated(bookingsById: map<int, StoredBooking>, id: Option<int>): (r: Outcome<RecurringBookingView>)
    ensures id.None? || id.value == 0 ==> r == Err(Error(BookingNotCreated))
    ensures id.Some? && id.value != 0 && id.value !in bookingsById ==> r == Err(Error(BookingNotInDatabase(id.value)))
    ensures id.Some? && id.value != 0 && id.value in bookingsById ==> r == GetOutputRecurringBooking(bookingsById[id.value])
  {
    if id.None? || id.value == 0 then Err(Error(BookingNotCreated))
    else if id.value !in bookingsById then Err(Error(BookingNotInDatabase(id.value)))
    else GetOutputRecurringBooking(bookingsById[id.value])
  }

  /**
   * `getOutputRecurringBookings`, given the ids of the created bookings: one view per booking in
   * input order, or the error of the first booking that fails.
   */
  method GetOutputRecurringBookings(bookingsById: map<int, StoredBooking>, createdIds: seq<Option<int>>)
    returns (r: Outcome<seq<RecurringBookingView>>)
    ensures r.Ok? <==> forall k | 0 <= k < |createdIds| :: RecurringViewOfCreated(bookingsById, createdIds[k]).Ok?
    ensures r.Ok? ==> |r.value| == |createdIds|
    ensures r.Ok? ==> forall k | 0 <= k < |createdIds| ::
      r.value[k] == RecurringViewOfCreated(bookingsById, createdIds[k]).value
    ensures r.Err? ==> exists k | 0 <= k < |createdIds| ::
      && RecurringViewOfCreated(bookingsById, createdIds[k]) == Err(r.error)
      && forall j | 0 <= j < k :: RecurringViewOfCreated(bookingsById, createdIds[j]).Ok?
  {
    var transformed: seq<RecurringBookingView> := [];
    var i := 0;
    while i < |createdIds|
      invariant 0 <= i <= |createdIds|
      invariant |transformed| == i
      invariant forall k | 0 <= k < i :: RecurringViewOfCreated(bookingsById, createdIds[k]).Ok?
      invariant forall k | 0 <= k < i :: transformed[k] == RecurringViewOfCreated(bookingsById, createdIds[k]).value
    {
      var id := createdIds[i];
      if id.None? || id.value == 0 {
        return Err(Error(BookingNotCreated));
      }
      if id.value !in bookingsById {
        return Err(Error(BookingNotInDatabase(id.value)));
      }
      var view := GetOutputRecurringBooking(bookingsById[id.value]);
      if view.Err? {
        return Err(view.error);
      }
      transformed := transformed + [view.value];
      i := i + 1;
    }
    r := Ok(transformed);
  }
}
