/** Properties that relate the input and output services and the three output views. */
module BookingProperties {
  import opened Wrappers
  import opened Json
  import opened Time
  import opened Bookings
  import opened Responses
  import opened InputTransforms
  import opened OutputBookings

  /** Caller-supplied responses that do not break the responses schema once name and email are merged in. */
  predicate ExtrasConform(fields: Option<map<string, Json>>) {
    fields.Some? ==>
      && ("guests" in fields.value ==> IsStringArray(fields.value["guests"]))
      && ("rescheduledReason" in fields.value ==> fields.value["rescheduledReason"].JString?)
  }

  /** The responses a create builds always pass the responses schema, and parse back to the attendee's name and email. */
  lemma CreatedResponsesConform(fields: Option<map<string, Json>>, name: string, email: string)
    requires ExtrasConform(fields)
    ensures MatchesResponsesSchema(JObject(MergedResponses(fields, name, email)))
    ensures ParseBookingResponses(JObject(MergedResponses(fields, name, email))).value.email == email
    ensures ParseBookingResponses(JObject(MergedResponses(fields, name, email))).value.name == name
  {
  }

  /**
   * A created booking read back: when the stored row keeps the record's times and responses and
   * its first attendee is the booker, the simple view reports the requested start, the end one
   * event-type length later, that length as the duration, and the booker's name, email and zone.
   */
  lemma CreatedBookingViewRoundTrip(eventTypes: map<int, EventType>, input: CreateBookingInput, b: StoredBooking)
    requires input.eventTypeId in eventTypes
    requires ExtrasConform(input.bookingFieldsResponses)
    requires b.startTime == input.start
    requires b.endTime == input.start + eventTypes[input.eventTypeId].length * MillisPerMinute
    requires b.responses == JObject(MergedResponses(input.bookingFieldsResponses, input.attendee.name, input.attendee.email))
    requires |b.attendees| > 0
    requires b.attendees[0].email == input.attendee.email && b.attendees[0].name == input.attendee.name
    requires b.attendees[0].timeZone == input.attendee.timeZone
    ensures TransformInputCreateBooking(eventTypes, input).Ok?
    ensures GetOutputBooking(b).Ok?
    ensures GetOutputBooking(b).value.start == TransformInputCreateBooking(eventTypes, input).value.start.epochMillis
    ensures GetOutputBooking(b).value.end == TransformInputCreateBooking(eventTypes, input).value.end.epochMillis
    ensures GetOutputBooking(b).value.duration == eventTypes[input.eventTypeId].length as real
    ensures GetOutputBooking(b).value.attendee.email == input.attendee.email
    ensures GetOutputBooking(b).value.attendee.name == input.attendee.name
    ensures GetOutputBooking(b).value.attendee.timeZone == TransformInputCreateBooking(eventTypes, input).value.timeZone
  {
  }

  /** Every status the simple and rescheduled views report is lower-case. */
  lemma OutputStatusIsLowerCase(b: StoredBooking)
    ensures IsLowerCase(OutputStatus(b))
  {
  }

  /** The simple and recurring views differ only in status, and only when "rescheduled" overrides it. */
  lemma RecurringViewAgreesWithSimple(b: StoredBooking)
    ensures GetOutputRecurringBooking(b).Ok? <==> GetOutputBooking(b).Ok?
    ensures GetOutputBooking(b).Ok? ==>
      var simple := GetOutputBooking(b).value;
      var recurring := GetOutputRecurringBooking(b).value;
      && recurring.attendee == simple.attendee && recurring.guests == simple.guests
      && recurring.duration == simple.duration && recurring.cancellationReason == simple.cancellationReason
      && (recurring.status == simple.status <==> simple.status == ToLowerCase(b.status))
      && (recurring.status != simple.status ==> simple.status == "rescheduled")
  {
  }

  /** The rescheduled view is the old booking's simple view, with the reason from the new booking and a link to it. */
  lemma RescheduledViewAgreesWithOld(oldBooking: StoredBooking, newBooking: StoredBooking)
    ensures GetOutputRescheduledBooking(oldBooking, newBooking).Ok? ==> GetOutputBooking(oldBooking).Ok?
    ensures GetOutputRescheduledBooking(oldBooking, newBooking).Ok? ==>
      var v := GetOutputRescheduledBooking(oldBooking, newBooking).value;
      var s := GetOutputBooking(oldBooking).value;
      && v.id == s.id && v.uid == s.uid && v.hostId == s.hostId && v.status == s.status
      && v.cancellationReason == s.cancellationReason && v.rescheduledFromUid == s.rescheduledFromUid
      && v.start == s.start && v.end == s.end && v.duration == s.duration && v.eventTypeId == s.eventTypeId
      && v.attendee == s.attendee && v.guests == s.guests && v.meetingUrl == s.meetingUrl && v.absentHost == s.absentHost
      && v.reschedulingReason == ParseBookingResponses(newBooking.responses).value.rescheduledReason
      && v.rescheduledToUid == newBooking.uid
  {
  }

  /**
   * The outcome of a recurring create: the plan's error, the unsupported-frequency error when the
   * loop runs at least once, and otherwise exactly `count` records (none for a negative count).
   */
  lemma RecurringExpansionOutcome(eventTypes: map<int, EventType>, calendar: Calendar, input: CreateBookingInput, recurringEventId: string)
    ensures PlanRecurrence(eventTypes, input).Err? ==>
      ExpandRecurring(eventTypes, calendar, input, recurringEventId) == Err(PlanRecurrence(eventTypes, input).error)
    ensures PlanRecurrence(eventTypes, input).Ok? ==>
      var plan := PlanRecurrence(eventTypes, input).value;
      var r := ExpandRecurring(eventTypes, calendar, input, recurringEventId);
      && (plan.count > 0 && !SupportedFrequency(plan.rule.freq) ==> r == Err(Error(UnsupportedTimeBetween)))
      && (plan.count < 0 ==> r == Ok([]))
      && (plan.count > 0 && SupportedFrequency(plan.rule.freq) ==> r.Ok? && |r.value| == plan.count)
  {
  }

  /** A weekly rule with interval 2 and count 3: three records starting at T, T advanced by two weeks, and that advanced by two weeks again, in one group. */
  lemma EveryTwoWeeksThreeTimes(eventTypes: map<int, EventType>, calendar: Calendar, input: CreateBookingInput, recurringEventId: string)
    requires input.eventTypeId in eventTypes
    requires eventTypes[input.eventTypeId].recurringEvent
      == JObject(map["freq" := JNumber(2.0), "interval" := JNumber(2.0), "count" := JNumber(3.0)])
    ensures
      var r := ExpandRecurring(eventTypes, calendar, input, recurringEventId);
      var zone := input.attendee.timeZone;
      var twoWeeksLater := calendar.plusWeeks(input.start, zone, 2);
      && r.Ok? && |r.value| == 3
      && r.value[0].start == DateTime(input.start, zone)
      && r.value[1].start == DateTime(twoWeeksLater, zone)
      && r.value[2].start == DateTime(calendar.plusWeeks(twoWeeksLater, zone, 2), zone)
      && r.value[0].recurringEventId == r.value[1].recurringEventId == r.value[2].recurringEventId == Some(recurringEventId)
  {
  }
}
