/**
 * The body transforms of the bookings input service: a create, recurring-create, reschedule,
 * cancel or mark-absent request becomes the record the booking handlers persist, and the
 * bookings query becomes repository filters and a sort.
 */
module InputTransforms {
  import opened Wrappers
  import opened Json
  import opened Time
  import opened Bookings
  import opened Responses

  datatype AttendeeInput = AttendeeInput(
    name: string,
    email: string,
    timeZone: string,
    language: Option<string>)

  /** The body of a create (and of a recurring create) request. `start` is the instant of the ISO start time read as UTC. */
  datatype CreateBookingInput = CreateBookingInput(
    eventTypeId: int,
    start: int,
    attendee: AttendeeInput,
    guests: Option<seq<string>>,
    metadata: Option<map<string, Json>>,
    bookingFieldsResponses: Option<map<string, Json>>)

  /** The record handed to the booking handlers. Recurring records also carry a group id and a scheduling type. */
  datatype BookingRecord = BookingRecord(
    start: DateTime,
    end: DateTime,
    eventTypeId: int,
    eventTypeSlug: string,
    timeZone: string,
    language: Option<string>,
    metadata: map<string, Json>,
    hasHashedBookingLink: bool,
    guests: Option<seq<string>>,
    responses: map<string, Json>,
    user: Option<string>,
    recurringEventId: Option<string>,
    schedulingType: Option<SchedulingType>)

  // ---------------------------------------------------------------- create

  /** `eventType.owner ? eventType.owner.username : eventType.team?.slug` */
  function OwningUser(eventType: EventType): (u: Option<string>)
    ensures eventType.owner.Some? ==> u == eventType.owner.value.username
    ensures eventType.owner.None? && eventType.team.Some? ==> u == eventType.team.value.slug
    ensures eventType.owner.None? && eventType.team.None? ==> u.None?
  {
    match eventType.owner
    case Some(owner) => owner.username
    case None => if eventType.team.Some? then eventType.team.value.slug else None
  }

  /** `language || "en"` */
  function LanguageOrDefault(language: Option<string>): (l: string)
    ensures l != ""
    ensures language.Some? && language.value != "" ==> l == language.value
    ensures language.None? || language.value == "" ==> l == "en"
  {
    if language.Some? && language.value != "" then language.value else "en"
  }

  /** `{ ...bookingFieldsResponses, name, email }`: the attendee's name and email win over same-named responses. */
  function MergedResponses(fields: Option<map<string, Json>>, name: string, email: string): (m: map<string, Json>)
    ensures m.Keys == (if fields.Some? then fields.value.Keys else {}) + {"name", "email"}
    ensures m["name"] == JString(name) && m["email"] == JString(email)
    ensures fields.Some? ==> forall k | k in fields.value && k != "name" && k != "email" :: m[k] == fields.value[k]
  {
    var base := if fields.Some? then fields.value else map[];
    base["name" := JString(name)]["email" := JString(email)]
  }

  /** The record the create paths build for an event type, an input and a start time. */
  function CreatedRecord(eventType: EventType, input: CreateBookingInput, start: DateTime): BookingRecord {
    BookingRecord(
      start := start,
      end := PlusMinutes(start, eventType.length),
      eventTypeId := input.eventTypeId,
      eventTypeSlug := eventType.slug,
      timeZone := input.attendee.timeZone,
      language := Some(LanguageOrDefault(input.attendee.language)),
      metadata := if input.metadata.Some? then input.metadata.value else map[],
      hasHashedBookingLink := false,
      guests := input.guests,
      responses := MergedResponses(input.bookingFieldsResponses, input.attendee.name, input.attendee.email),
      user := OwningUser(eventType),
      recurringEventId := None,
      schedulingType := None)
  }

  /** `transformInputCreateBooking` */
  function TransformInputCreateBooking(eventTypes: map<int, EventType>, input: CreateBookingInput): (r: Outcome<BookingRecord>)
    ensures r.Err? <==> input.eventTypeId !in eventTypes
    ensures r.Err? ==> r.error == NotFound(EventTypeId(input.eventTypeId))
    ensures r.Ok? ==>
      var eventType := eventTypes[input.eventTypeId];
      && r.value.start == InZone(input.start, input.attendee.timeZone)
      && r.value.end.zone == r.value.start.zone
      && r.value.end.epochMillis == r.value.start.epochMillis + eventType.length * MillisPerMinute
      && r.value.eventTypeId == input.eventTypeId
      && r.value.eventTypeSlug == eventType.slug
      && r.value.timeZone == input.attendee.timeZone
      && r.value.user == OwningUser(eventType)
      && r.value.guests == input.guests
      && r.value.responses == MergedResponses(input.bookingFieldsResponses, input.attendee.name, input.attendee.email)
      && r.value.language == Some(LanguageOrDefault(input.attendee.language))
      && (input.metadata.None? ==> r.value.metadata == map[])
      && (input.metadata.Some? ==> r.value.metadata == input.metadata.value)
      && !r.value.hasHashedBookingLink
      && r.value.recurringEventId.None? && r.value.schedulingType.None?
  {
    if input.eventTypeId !in eventTypes then Err(NotFound(EventTypeId(input.eventTypeId)))
    else Ok(CreatedRecord(eventTypes[input.eventTypeId], input, InZone(input.start, input.attendee.timeZone)))
  }

  // ---------------------------------------------------------------- recurring create

  /** `recurringEventSchema.parse(...)`; `freq` holds the numeric value of the `Frequency` enum. */
  datatype RecurrenceRule = RecurrenceRule(
    dtstart: Option<string>,
    interval: Option<int>,
    count: Option<int>,
    freq: Option<int>,
    until: Option<string>)

  const YEARLY: int := 0
  const MONTHLY: int := 1
  const WEEKLY: int := 2
  const SECONDLY: int := 6

  /** `z.nativeEnum(Frequency).optional()` applied to `fields[key]`: one of the seven enum values 0 to 6. */
  function OptionalFrequency(fields: map<string, Json>, key: string): (p: Parsed<int>)
    ensures p.Absent? <==> key !in fields
    ensures p.Present? <==>
      (&& key in fields && fields[key].JNumber? && IsInteger(fields[key].n)
       && YEARLY <= fields[key].n.Floor <= SECONDLY)
    ensures p.Present? ==> YEARLY <= p.value <= SECONDLY && fields[key] == JNumber(p.value as real)
  {
    var n := OptionalInteger(fields, key);
    if n.Present? && !(YEARLY <= n.value <= SECONDLY) then Mismatch else n
  }

  /** `recurringEventSchema.parse(j)`: an object whose five keys are each absent or of the declared type. */
  function ParseRecurringEvent(j: Json): (r: Outcome<RecurrenceRule>)
    ensures !j.JObject? ==> r.Err?
    ensures r.Err? ==> r.error == InvalidShape(RecurringEventSchema)
    ensures r.Ok? ==> (r.value.count.Some? <==> "count" in j.fields)
    ensures r.Ok? && r.value.count.Some? ==> j.fields["count"] == JNumber(r.value.count.value as real)
    ensures r.Ok? ==> (r.value.interval.Some? <==> "interval" in j.fields)
    ensures r.Ok? && r.value.interval.Some? ==> j.fields["interval"] == JNumber(r.value.interval.value as real)
    ensures r.Ok? ==> (r.value.freq.Some? <==> "freq" in j.fields)
    ensures r.Ok? && r.value.freq.Some? ==>
      YEARLY <= r.value.freq.value <= SECONDLY && j.fields["freq"] == JNumber(r.value.freq.value as real)
  {
    if !j.JObject? then Err(InvalidShape(RecurringEventSchema))
    else
      var dtstart := OptionalString(j.fields, "dtstart");
      var interval := OptionalInteger(j.fields, "interval");
      var count := OptionalInteger(j.fields, "count");
      var freq := OptionalFrequency(j.fields, "freq");
      var until := OptionalString(j.fields, "until");
      if dtstart.Mismatch? || interval.Mismatch? || count.Mismatch? || freq.Mismatch? || until.Mismatch? then
        Err(InvalidShape(RecurringEventSchema))
      else
        Ok(RecurrenceRule(AsOption(dtstart), AsOption(interval), AsOption(count), AsOption(freq), AsOption(until)))
  }

  /** What the recurring create has established before its loop: the event type, its rule and a truthy count. */
  datatype RecurringPlan = RecurringPlan(eventType: EventType, rule: RecurrenceRule, count: int)

  /** The checks of the recurring create that precede its loop, in the source's order. */
  function PlanRecurrence(eventTypes: map<int, EventType>, input: CreateBookingInput): (r: Outcome<RecurringPlan>)
    ensures input.eventTypeId !in eventTypes ==> r == Err(NotFound(EventTypeId(input.eventTypeId)))
    ensures (input.eventTypeId in eventTypes && !Truthy(eventTypes[input.eventTypeId].recurringEvent))
      ==> r == Err(NotFound(NotRecurringEventType(input.eventTypeId)))
    ensures (&& input.eventTypeId in eventTypes && Truthy(eventTypes[input.eventTypeId].recurringEvent)
             && ParseRecurringEvent(eventTypes[input.eventTypeId].recurringEvent).Err?)
      ==> r == Err(InvalidShape(RecurringEventSchema))
    ensures r.Ok? ==>
      && input.eventTypeId in eventTypes
      && r.value.eventType == eventTypes[input.eventTypeId]
      && ParseRecurringEvent(r.value.eventType.recurringEvent) == Ok(r.value.rule)
      && r.value.rule.count == Some(r.value.count)
      && r.value.count != 0
    ensures (&& input.eventTypeId in eventTypes && Truthy(eventTypes[input.eventTypeId].recurringEvent)
             && ParseRecurringEvent(eventTypes[input.eventTypeId].recurringEvent).Ok?)
      ==> var rule := ParseRecurringEvent(eventTypes[input.eventTypeId].recurringEvent).value;
                  (r.Ok? <==> rule.count.Some? && rule.count.value != 0)
                  && (r.Err? ==> r.error == Error(RepeatsTimesRequired))
  {
    if input.eventTypeId !in eventTypes then Err(NotFound(EventTypeId(input.eventTypeId)))
    else
      var eventType := eventTypes[input.eventTypeId];
      if !Truthy(eventType.recurringEvent) then Err(NotFound(NotRecurringEventType(input.eventTypeId)))
      else
        var rule :- ParseRecurringEvent(eventType.recurringEvent);
        if rule.count.None? || rule.count.value == 0 then Err(Error(RepeatsTimesRequired))
        else Ok(RecurringPlan(eventType, rule, rule.count.value))
  }

  /** The frequencies the loop's switch handles: yearly, monthly and weekly. */
  predicate SupportedFrequency(freq: Option<int>) {
    freq == Some(YEARLY) || freq == Some(MONTHLY) || freq == Some(WEEKLY)
  }

  /**
   * The switch at the end of each iteration: `startTime.plus({ years | months | weeks: interval })`,
   * or None for "Unsupported timeBetween value". luxon skips an undefined amount, so a rule
   * without an interval leaves the start where it is.
   */
  function Advance(calendar: Calendar, rule: RecurrenceRule, t: DateTime): (r: Option<DateTime>)
    ensures r.Some? <==> SupportedFrequency(rule.freq)
    ensures r.Some? ==> r.value.zone == t.zone
    ensures r.Some? && rule.interval.None? ==> r.value == t
    ensures rule.interval.Some? && rule.freq == Some(YEARLY) ==>
      r == Some(DateTime(calendar.plusYears(t.epochMillis, t.zone, rule.interval.value), t.zone))
    ensures rule.interval.Some? && rule.freq == Some(MONTHLY) ==>
      r == Some(DateTime(calendar.plusMonths(t.epochMillis, t.zone, rule.interval.value), t.zone))
    ensures rule.interval.Some? && rule.freq == Some(WEEKLY) ==>
      r == Some(DateTime(calendar.plusWeeks(t.epochMillis, t.zone, rule.interval.value), t.zone))
  {
    if rule.interval.None? then (if SupportedFrequency(rule.freq) then Some(t) else None)
    else
      var n := rule.interval.value;
      if rule.freq == Some(YEARLY) then Some(DateTime(calendar.plusYears(t.epochMillis, t.zone, n), t.zone))
      else if rule.freq == Some(MONTHLY) then Some(DateTime(calendar.plusMonths(t.epochMillis, t.zone, n), t.zone))
      else if rule.freq == Some(WEEKLY) then Some(DateTime(calendar.plusWeeks(t.epochMillis, t.zone, n), t.zone))
      else None
  }

  /** The start of the k-th occurrence: the first start advanced k times. */
  function OccurrenceStart(calendar: Calendar, rule: RecurrenceRule, first: DateTime, k: nat): DateTime
    requires k == 0 || SupportedFrequency(rule.freq)
  {
    if k == 0 then first else Advance(calendar, rule, OccurrenceStart(calendar, rule, first, k - 1)).value
  }

  /** The record of one occurrence: the create record plus the shared group id and the scheduling type. */
  function Occurrence(plan: RecurringPlan, input: CreateBookingInput, recurringEventId: string, start: DateTime): BookingRecord {
    CreatedRecord(plan.eventType, input, start).(
      recurringEventId := Some(recurringEventId),
      schedulingType := plan.eventType.schedulingType)
  }

  /** What `transformInputCreateRecurringBooking` returns or throws, for the group id `uuidv4()` produced. */
  ghost function ExpandRecurring(eventTypes: map<int, EventType>, calendar: Calendar, input: CreateBookingInput, recurringEventId: string): Outcome<seq<BookingRecord>> {
    match PlanRecurrence(eventTypes, input)
    case Err(e) => Err(e)
    case Ok(plan) =>
      if plan.count < 0 then Ok([])
      else if !SupportedFrequency(plan.rule.freq) then Err(Error(UnsupportedTimeBetween))
      else
        var first := InZone(input.start, input.attendee.timeZone);
        Ok(seq(plan.count, k requires 0 <= k < plan.count =>
          Occurrence(plan, input, recurringEventId, OccurrenceStart(calendar, plan.rule, first, k))))
  }

  /**
   * Every expanded record carries the group id and the event type's scheduling type, ends `length`
   * minutes after it starts, the first starts at the requested time in the attendee's zone, and each
   * later one starts where the rule advances the previous start.
   */
  lemma ExpandedRecordsShape(eventTypes: map<int, EventType>, calendar: Calendar, input: CreateBookingInput, recurringEventId: string)
    ensures var r := ExpandRecurring(eventTypes, calendar, input, recurringEventId);
      r.Ok? ==>
        && input.eventTypeId in eventTypes
        && (forall k | 0 <= k < |r.value| ::
              && r.value[k].recurringEventId == Some(recurringEventId)
              && r.value[k].schedulingType == eventTypes[input.eventTypeId].schedulingType
              && r.value[k].end == PlusMinutes(r.value[k].start, eventTypes[input.eventTypeId].length))
        && (|r.value| > 0 ==> r.value[0].start == InZone(input.start, input.attendee.timeZone))
        && (forall k | 0 <= k < |r.value| - 1 ::
              var rule := ParseRecurringEvent(eventTypes[input.eventTypeId].recurringEvent).value;
              Advance(calendar, rule, r.value[k].start) == Some(r.value[k + 1].start))
  {
  }

  /** `transformInputCreateRecurringBooking`, with the generated group id passed in. */
  method TransformInputCreateRecurringBooking(eventTypes: map<int, EventType>, calendar: Calendar, input: CreateBookingInput, recurringEventId: string)
    returns (r: Outcome<seq<BookingRecord>>)
    ensures r == ExpandRecurring(eventTypes, calendar, input, recurringEventId)
    ensures r.Ok? ==> input.eventTypeId in eventTypes
    ensures r.Ok? ==> forall k | 0 <= k < |r.value| ::
      && r.value[k].recurringEventId == Some(recurringEventId)
      && r.value[k].schedulingType == eventTypes[input.eventTypeId].schedulingType
      && r.value[k].end == PlusMinutes(r.value[k].start, eventTypes[input.eventTypeId].length)
    ensures r.Ok? && |r.value| > 0 ==> r.value[0].start == InZone(input.start, input.attendee.timeZone)
    ensures r.Ok? ==> forall k | 0 <= k < |r.value| - 1 ::
      var rule := ParseRecurringEvent(eventTypes[input.eventTypeId].recurringEvent).value;
      Advance(calendar, rule, r.value[k].start) == Some(r.value[k + 1].start)
  {
    var planned := PlanRecurrence(eventTypes, input);
    if planned.Err? {
      return Err(planned.error);
    }
    var plan := planned.value;
    var first := InZone(input.start, input.attendee.timeZone);
    var events: seq<BookingRecord> := [];
    var startTime := first;
    var i := 0;
    while i < plan.count
      invariant 0 <= i
      invariant plan.count > 0 ==> i <= plan.count
      invariant plan.count <= 0 ==> i == 0
      invariant i == 0 || SupportedFrequency(plan.rule.freq)
      invariant startTime == OccurrenceStart(calendar, plan.rule, first, i)
      invariant |events| == i
      invariant forall k | 0 <= k < i ::
        events[k] == Occurrence(plan, input, recurringEventId, OccurrenceStart(calendar, plan.rule, first, k))
    {
      events := events + [Occurrence(plan, input, recurringEventId, startTime)];
      var next := Advance(calendar, plan.rule, startTime);
      if next.None? {
        return Err(Error(UnsupportedTimeBetween));
      }
      startTime := next.value;
      i := i + 1;
    }
    if plan.count > 0 {
      assert events == seq(plan.count, k requires 0 <= k < plan.count =>
        Occurrence(plan, input, recurringEventId, OccurrenceStart(calendar, plan.rule, first, k)));
    }
    r := Ok(events);
    ExpandedRecordsShape(eventTypes, calendar, input, recurringEventId);
  }

  // ---------------------------------------------------------------- reschedule

  /** The body of a reschedule request: the instant of the new ISO start time, read as UTC. */
  datatype RescheduleBookingInput = RescheduleBookingInput(start: int)

  /** `transformInputRescheduleBooking` */
  function TransformInputRescheduleBooking(
    bookingsByUid: map<string, StoredBooking>, eventTypes: map<int, EventType>,
    bookingUid: string, input: RescheduleBookingInput): (r: Outcome<BookingRecord>)
    ensures bookingUid !in bookingsByUid ==> r == Err(NotFound(BookingUid(bookingUid)))
    ensures bookingUid in bookingsByUid ==>
      var booking := bookingsByUid[bookingUid];
      && (booking.eventTypeId.None? || booking.eventTypeId.value == 0 ==> r == Err(NotFound(BookingEventType(bookingUid))))
      && ((booking.eventTypeId.Some? && booking.eventTypeId.value != 0 && booking.eventTypeId.value !in eventTypes)
          ==> r == Err(NotFound(EventTypeId(booking.eventTypeId.value))))
    ensures r.Ok? ==>
      && bookingUid in bookingsByUid
      && bookingsByUid[bookingUid].eventTypeId.Some? && bookingsByUid[bookingUid].eventTypeId.value in eventTypes
      && MatchesResponsesSchema(bookingsByUid[bookingUid].responses)
    ensures r.Ok? ==>
      var booking := bookingsByUid[bookingUid];
      var eventType := eventTypes[booking.eventTypeId.value];
      var responses := ParseBookingResponses(booking.responses).value;
      var k := FindAttendee(booking.attendees, responses.email);
      && k.Some?
      && r.value.start == InZone(input.start, booking.attendees[k.value].timeZone)
      && r.value.end == PlusMinutes(r.value.start, eventType.length)
      && r.value.end.epochMillis == input.start + eventType.length * MillisPerMinute
      && r.value.timeZone == booking.attendees[k.value].timeZone
      && r.value.language == booking.attendees[k.value].locale
      && r.value.eventTypeId == eventType.id
      && r.value.eventTypeSlug == eventType.slug
      && r.value.metadata == (if booking.metadata.Some? then booking.metadata.value else map[])
      && !r.value.hasHashedBookingLink
      && r.value.guests == responses.guests
      && r.value.responses == ResponsesToJson(responses).fields
      && r.value.user == OwningUser(eventType)
      && r.value.recurringEventId.None?
      && r.value.schedulingType.None?
    ensures (&& bookingUid in bookingsByUid
             && bookingsByUid[bookingUid].eventTypeId.Some? && bookingsByUid[bookingUid].eventTypeId.value != 0
             && bookingsByUid[bookingUid].eventTypeId.value in eventTypes
             && !MatchesResponsesSchema(bookingsByUid[bookingUid].responses))
      ==> r == Err(InvalidShape(BookingResponsesSchema))
    ensures (&& r.Err? && bookingUid in bookingsByUid
             && bookingsByUid[bookingUid].eventTypeId.Some? && bookingsByUid[bookingUid].eventTypeId.value != 0
             && bookingsByUid[bookingUid].eventTypeId.value in eventTypes
             && MatchesResponsesSchema(bookingsByUid[bookingUid].responses))
      ==> var email := ParseBookingResponses(bookingsByUid[bookingUid].responses).value.email;
                r == Err(NotFound(BookingAttendee(email, bookingUid)))
                && FindAttendee(bookingsByUid[bookingUid].attendees, email).None?
  {
    if bookingUid !in bookingsByUid then Err(NotFound(BookingUid(bookingUid)))
    else
      var booking := bookingsByUid[bookingUid];
      if booking.eventTypeId.None? || booking.eventTypeId.value == 0 then Err(NotFound(BookingEventType(bookingUid)))
      else if booking.eventTypeId.value !in eventTypes then Err(NotFound(EventTypeId(booking.eventTypeId.value)))
      else
        var eventType := eventTypes[booking.eventTypeId.value];
        var responses :- ParseBookingResponses(booking.responses);
        match FindAttendee(booking.attendees, responses.email)
        case None => Err(NotFound(BookingAttendee(responses.email, bookingUid)))
        case Some(k) =>
          var attendee := booking.attendees[k];
          var start := InZone(input.start, attendee.timeZone);
          Ok(BookingRecord(
            start := start,
            end := PlusMinutes(start, eventType.length),
            eventTypeId := eventType.id,
            eventTypeSlug := eventType.slug,
            timeZone := attendee.timeZone,
            language := attendee.locale,
            metadata := if booking.metadata.Some? then booking.metadata.value else map[],
            hasHashedBookingLink := false,
            guests := responses.guests,
            responses := ResponsesToJson(responses).fields,
            user := OwningUser(eventType),
            recurringEventId := None,
            schedulingType := None))
  }

  /** `getRescheduleBookingLocation`: the stored location of the booking being rescheduled. */
  function RescheduleBookingLocation(bookingsByUid: map<string, StoredBooking>, bookingUid: string): (r: Outcome<Option<string>>)
    ensures r.Ok? <==> bookingUid in bookingsByUid
    ensures r.Ok? ==> r.value == bookingsByUid[bookingUid].location
    ensures r.Err? ==> r.error == NotFound(BookingUid(bookingUid))
  {
    if bookingUid in bookingsByUid then Ok(bookingsByUid[bookingUid].location)
    else Err(NotFound(BookingUid(bookingUid)))
  }

  // ---------------------------------------------------------------- cancel

  datatype CancelBookingInput = CancelBookingInput(cancellationReason: Option<string>)

  datatype CancelBooking = CancelBooking(uid: string, cancellationReason: Option<string>, allRemainingBookings: bool)

  /** `getRecurringByUidWithAttendees`: the bookings whose group id is `uid`, empty when there are none. */
  function RecurringGroup(recurringByUid: map<string, seq<StoredBooking>>, uid: string): seq<StoredBooking> {
    if uid in recurringByUid then recurringByUid[uid] else []
  }

  /** `transformInputCancelBooking`: a group id cancels the whole series through its first booking. */
  method TransformInputCancelBooking(recurringByUid: map<string, seq<StoredBooking>>, bookingUid: string, input: CancelBookingInput)
    returns (c: CancelBooking)
    ensures c.cancellationReason == input.cancellationReason
    ensures c.allRemainingBookings <==> |RecurringGroup(recurringByUid, bookingUid)| > 0
    ensures c.allRemainingBookings ==> c.uid == RecurringGroup(recurringByUid, bookingUid)[0].uid
    ensures !c.allRemainingBookings ==> c.uid == bookingUid
  {
    var allRemainingBookings := false;
    var uid := bookingUid;
    var recurringBooking := RecurringGroup(recurringByUid, bookingUid);
    if |recurringBooking| > 0 {
      allRemainingBookings := true;
      uid := recurringBooking[0].uid;
    }
    c := CancelBooking(uid, input.cancellationReason, allRemainingBookings);
  }

  // ---------------------------------------------------------------- mark absent

  datatype MarkAbsentInput = MarkAbsentInput(host: Option<bool>, attendees: Option<seq<string>>)

  datatype AbsentAttendee = AbsentAttendee(email: string, noShow: bool)

  datatype MarkAbsent = MarkAbsent(noShowHost: Option<bool>, attendees: Option<seq<AbsentAttendee>>)

  /** `transformInputMarkAbsentBooking` */
  function TransformInputMarkAbsentBooking(input: MarkAbsentInput): (r: MarkAbsent)
    ensures r.noShowHost == input.host
    ensures r.attendees.Some? <==> input.attendees.Some?
    ensures input.attendees.Some? ==>
      && |r.attendees.value| == |input.attendees.value|
      && forall k | 0 <= k < |input.attendees.value| ::
           r.attendees.value[k].email == input.attendees.value[k] && r.attendees.value[k].noShow
  {
    MarkAbsent(
      input.host,
      match input.attendees
      case None => None
      case Some(emails) => Some(seq(|emails|, k requires 0 <= k < |emails| => AbsentAttendee(emails[k], true))))
  }

  // ---------------------------------------------------------------- query filters and sort

  datatype SortOrder = Asc | Desc

  /** The query of the bookings listing, as far as the transforms read it. */
  datatype GetBookingsInput = GetBookingsInput(
    attendeeEmail: Option<string>,
    attendeeName: Option<string>,
    afterStart: Option<string>,
    beforeEnd: Option<string>,
    teamsIds: Option<seq<int>>,
    teamId: Option<int>,
    eventTypeIds: Option<seq<int>>,
    eventTypeId: Option<int>,
    sortStart: Option<SortOrder>,
    sortEnd: Option<SortOrder>,
    sortCreated: Option<SortOrder>)

  datatype BookingsFilters = BookingsFilters(
    attendeeEmail: Option<string>,
    attendeeName: Option<string>,
    afterStartDate: Option<string>,
    beforeEndDate: Option<string>,
    teamIds: Option<seq<int>>,
    eventTypeIds: Option<seq<int>>)

  datatype BookingsSort = BookingsSort(
    sortStart: Option<SortOrder>,
    sortEnd: Option<SortOrder>,
    sortCreated: Option<SortOrder>)

  /** `ids || (id ? [id] : undefined)`: an array is always truthy, an id only when it is not 0. */
  function IdsOrSingle(ids: Option<seq<int>>, id: Option<int>): (r: Option<seq<int>>)
    ensures ids.Some? ==> r == ids
    ensures ids.None? && id.Some? && id.value != 0 ==> r == Some([id.value])
    ensures r.None? <==> ids.None? && (id.None? || id.value == 0)
  {
    if ids.Some? then ids
    else if id.Some? && id.value != 0 then Some([id.value])
    else None
  }

  /** `transformGetBookingsFilters` */
  function TransformGetBookingsFilters(query: GetBookingsInput): (f: BookingsFilters)
    ensures f.attendeeEmail == query.attendeeEmail && f.attendeeName == query.attendeeName
    ensures f.afterStartDate == query.afterStart && f.beforeEndDate == query.beforeEnd
    ensures f.teamIds == IdsOrSingle(query.teamsIds, query.teamId)
    ensures f.eventTypeIds == IdsOrSingle(query.eventTypeIds, query.eventTypeId)
  {
    BookingsFilters(
      query.attendeeEmail, query.attendeeName, query.afterStart, query.beforeEnd,
      IdsOrSingle(query.teamsIds, query.teamId),
      IdsOrSingle(query.eventTypeIds, query.eventTypeId))
  }

  /** `transformGetBookingsSort`: no sort object unless at least one sort key is given. */
  function TransformGetBookingsSort(query: GetBookingsInput): (s: Option<BookingsSort>)
    ensures s.None? <==> query.sortStart.None? && query.sortEnd.None? && query.sortCreated.None?
    ensures s.Some? ==> s.value.sortStart == query.sortStart && s.value.sortEnd == query.sortEnd
                        && s.value.sortCreated == query.sortCreated
  {
    if query.sortStart.None? && query.sortEnd.None? && query.sortCreated.None? then None
    else Some(BookingsSort(query.sortStart, query.sortEnd, query.sortCreated))
  }
}
