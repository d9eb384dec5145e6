/** `bookingResponsesSchema`: the validated shape of a booking's stored responses blob. */
module Responses {
  import opened Wrappers
  import opened Json
  import opened Bookings

  /** What `bookingResponsesSchema.parse` returns; unknown keys are stripped. */
  datatype BookingResponses = BookingResponses(
    email: string,
    name: string,
    guests: Option<seq<string>>,
    rescheduledReason: Option<string>)

  const SchemaKeys: set<string> := {"email", "name", "guests", "rescheduledReason"}

  /** The schema stated declaratively: an object with string email and name, optional string-list guests and optional string rescheduledReason. */
  ghost predicate MatchesResponsesSchema(j: Json) {
    && j.JObject?
    && "email" in j.fields && j.fields["email"].JString?
    && "name" in j.fields && j.fields["name"].JString?
    && ("guests" in j.fields ==>
          j.fields["guests"].JArray? && forall g | g in j.fields["guests"].items :: g.JString?)
    && ("rescheduledReason" in j.fields ==> j.fields["rescheduledReason"].JString?)
  }

  function AsOption<T>(p: Parsed<T>): Option<T> {
    if p.Present? then Some(p.value) else None
  }

  /** `bookingResponsesSchema.parse(j)`: a ZodError unless the blob conforms. */
  function ParseBookingResponses(j: Json): (r: Outcome<BookingResponses>)
    ensures r.Ok? <==> MatchesResponsesSchema(j)
    ensures r.Err? ==> r.error == InvalidShape(BookingResponsesSchema)
    ensures r.Ok? ==> JString(r.value.email) == j.fields["email"] && JString(r.value.name) == j.fields["name"]
    ensures r.Ok? ==> (r.value.guests.Some? <==> "guests" in j.fields)
    ensures r.Ok? && r.value.guests.Some? ==> StringArray(r.value.guests.value) == j.fields["guests"]
    ensures r.Ok? ==> (r.value.rescheduledReason.Some? <==> "rescheduledReason" in j.fields)
    ensures r.Ok? && r.value.rescheduledReason.Some? ==> JString(r.value.rescheduledReason.value) == j.fields["rescheduledReason"]
  {
    if !j.JObject? then Err(InvalidShape(BookingResponsesSchema))
    else
      var email := OptionalString(j.fields, "email");
      var name := OptionalString(j.fields, "name");
      var guests := OptionalStringArray(j.fields, "guests");
      var reason := OptionalString(j.fields, "rescheduledReason");
      if email.Present? && name.Present? && !guests.Mismatch? && !reason.Mismatch? then
        var r := BookingResponses(email.value, name.value, AsOption(guests), AsOption(reason));
        assert guests.Present? ==> StringArray(guests.value) == j.fields["guests"];
        Ok(r)
      else
        Err(InvalidShape(BookingResponsesSchema))
  }

  /** The parsed responses as a JSON object: absent optional fields are left out, as zod leaves them out. */
  function ResponsesToJson(b: BookingResponses): (j: Json)
    ensures j.JObject? && j.fields.Keys <= SchemaKeys
  {
    var m := map["email" := JString(b.email), "name" := JString(b.name)];
    var withGuests := if b.guests.Some? then m["guests" := StringArray(b.guests.value)] else m;
    var withReason := if b.rescheduledReason.Some? then withGuests["rescheduledReason" := JString(b.rescheduledReason.value)] else withGuests;
    JObject(withReason)
  }

  /** Serialising parsed responses and parsing them again gives them back. */
  lemma ParseResponsesToJson(b: BookingResponses)
    ensures ParseBookingResponses(ResponsesToJson(b)) == Ok(b)
  {
    var j := ResponsesToJson(b);
    if b.guests.Some? {
      var items := j.fields["guests"].items;
      assert seq(|items|, k requires 0 <= k < |items| => items[k].s) == b.guests.value;
    }
  }

  /** Parsing then serialising a conforming blob keeps exactly its schema keys: unknown keys are stripped, known ones kept. */
  lemma ResponsesStripUnknownKeys(j: Json)
    requires MatchesResponsesSchema(j)
    ensures ResponsesToJson(ParseBookingResponses(j).value)
         == JObject(map k | k in j.fields && k in SchemaKeys :: j.fields[k])
  {
  }
}
