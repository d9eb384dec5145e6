/**
 * The request builders of the bookings input service. Each one transforms the body, resolves the
 * platform parameters of the OAuth client named by the client-id header, and attaches
 * `noEmail = !arePlatformEmailsEnabled`.
 *
 * The platform parameters live in one module-level object that every request shares: a
 * successful client lookup writes the client's values into that object and returns it, so a later
 * request without a client id falls back to the values of the last client looked up.
 */
module BookingRequests {
  import opened Wrappers
  import opened Time
  import opened Bookings
  import opened InputTransforms

  /** A copy of the platform parameters, as spread into a request. */
  datatype OAuthParams = OAuthParams(
    platformClientId: string,
    platformCancelUrl: string,
    platformRescheduleUrl: string,
    platformBookingUrl: string,
    arePlatformEmailsEnabled: bool,
    platformBookingLocation: Option<string>)

  /** The initial value of the shared default object. */
  const InitialPlatformParams: OAuthParams := OAuthParams("", "", "", "", false, None)

  /** `value ?? ""` */
  function OrEmpty(value: Option<string>): (s: string)
    ensures value.Some? ==> s == value.value
    ensures value.None? ==> s == ""
  {
    if value.Some? then value.value else ""
  }

  /** The parameters after a found client has been written over `current`; the booking location is not touched. */
  function WithClient(current: OAuthParams, clientId: string, client: OAuthClient): (p: OAuthParams)
    ensures p.platformClientId == clientId
    ensures p.platformCancelUrl == OrEmpty(client.bookingCancelRedirectUri)
    ensures p.platformRescheduleUrl == OrEmpty(client.bookingRescheduleRedirectUri)
    ensures p.platformBookingUrl == OrEmpty(client.bookingRedirectUri)
    ensures p.arePlatformEmailsEnabled == (client.areEmailsEnabled == Some(true))
    ensures p.platformBookingLocation == current.platformBookingLocation
  {
    current.(
      platformClientId := clientId,
      platformCancelUrl := OrEmpty(client.bookingCancelRedirectUri),
      platformRescheduleUrl := OrEmpty(client.bookingRescheduleRedirectUri),
      platformBookingUrl := OrEmpty(client.bookingRedirectUri),
      arePlatformEmailsEnabled := Coerce(client.areEmailsEnabled))
  }

  /** The parameters a request receives when the shared object holds `current` and the header is `clientIdHeader`. */
  function ParamsAfterLookup(current: OAuthParams, clients: map<string, OAuthClient>, clientIdHeader: Option<string>): (p: OAuthParams)
    ensures clientIdHeader.None? || clientIdHeader.value == "" || clientIdHeader.value !in clients ==> p == current
    ensures clientIdHeader.Some? && clientIdHeader.value != "" && clientIdHeader.value in clients ==>
      p == WithClient(current, clientIdHeader.value, clients[clientIdHeader.value])
  {
    match clientIdHeader
    case Some(id) => if id != "" && id in clients then WithClient(current, id, clients[id]) else current
    case None => current
  }

  /** `DEFAULT_PLATFORM_PARAMS`: one object whose fields the client lookup overwrites. */
  class PlatformParams {
    var platformClientId: string
    var platformCancelUrl: string
    var platformRescheduleUrl: string
    var platformBookingUrl: string
    var arePlatformEmailsEnabled: bool
    var platformBookingLocation: Option<string>

    constructor ()
      ensures Snapshot() == InitialPlatformParams
    {
      platformClientId := "";
      platformCancelUrl := "";
      platformRescheduleUrl := "";
      platformBookingUrl := "";
      arePlatformEmailsEnabled := false;
      platformBookingLocation := None;
    }

    /** `{ ...params }`: the current field values. */
    function Snapshot(): OAuthParams
      reads this
    {
      OAuthParams(platformClientId, platformCancelUrl, platformRescheduleUrl, platformBookingUrl,
                  arePlatformEmailsEnabled, platformBookingLocation)
    }
  }

  /** A framework request after enrichment: owner, spread platform parameters, booking location, and the new body. */
  datatype BookingRequest<B> = BookingRequest(
    userId: Option<int>,
    platform: OAuthParams,
    platformBookingLocation: Option<string>,
    body: B)

  /** A transformed body with `noEmail` attached. */
  datatype RequestBody<T> = RequestBody(transformed: T, noEmail: bool)

  /**
   * The bookings input service with its repositories. The owner id that the service resolves from
   * the bearer token is passed to each builder, already resolved.
   */
  class InputBookingsService {
    const platformDefaults: PlatformParams
    const eventTypes: map<int, EventType>
    const bookingsByUid: map<string, StoredBooking>
    const recurringByUid: map<string, seq<StoredBooking>>
    const oAuthClients: map<string, OAuthClient>
    const calendar: Calendar

    constructor (
      platformDefaults: PlatformParams, eventTypes: map<int, EventType>, bookingsByUid: map<string, StoredBooking>,
      recurringByUid: map<string, seq<StoredBooking>>, oAuthClients: map<string, OAuthClient>, calendar: Calendar)
      ensures this.platformDefaults == platformDefaults && this.eventTypes == eventTypes
      ensures this.bookingsByUid == bookingsByUid && this.recurringByUid == recurringByUid
      ensures this.oAuthClients == oAuthClients && this.calendar == calendar
    {
      this.platformDefaults := platformDefaults;
      this.eventTypes := eventTypes;
      this.bookingsByUid := bookingsByUid;
      this.recurringByUid := recurringByUid;
      this.oAuthClients := oAuthClients;
      this.calendar := calendar;
    }

    /** `createBookingRequestOAuthClientParams`: returns the shared object itself, overwritten when the client exists. */
    method CreateBookingRequestOAuthClientParams(clientId: string) returns (params: PlatformParams)
      modifies platformDefaults
      ensures params == platformDefaults
      ensures clientId in oAuthClients ==>
        params.Snapshot() == WithClient(old(platformDefaults.Snapshot()), clientId, oAuthClients[clientId])
      ensures clientId !in oAuthClients ==> unchanged(platformDefaults)
    {
      params := platformDefaults;
      if clientId in oAuthClients {
        var client := oAuthClients[clientId];
        params.platformClientId := clientId;
        params.platformCancelUrl := OrEmpty(client.bookingCancelRedirectUri);
        params.platformRescheduleUrl := OrEmpty(client.bookingRescheduleRedirectUri);
        params.platformBookingUrl := OrEmpty(client.bookingRedirectUri);
        params.arePlatformEmailsEnabled := Coerce(client.areEmailsEnabled);
      }
    }

    /** `oAuthClientId ? await this.createBookingRequestOAuthClientParams(oAuthClientId) : DEFAULT_PLATFORM_PARAMS`, spread. */
    method ResolvePlatformParams(clientIdHeader: Option<string>) returns (p: OAuthParams)
      modifies platformDefaults
      ensures p == platformDefaults.Snapshot()
      ensures p == ParamsAfterLookup(old(platformDefaults.Snapshot()), oAuthClients, clientIdHeader)
    {
      if clientIdHeader.Some? && clientIdHeader.value != "" {
        var params := CreateBookingRequestOAuthClientParams(clientIdHeader.value);
        p := params.Snapshot();
      } else {
        p := platformDefaults.Snapshot();
      }
    }

    /** `createBookingRequest`; `meetingUrl` is the raw body's meeting URL. */
    method CreateBookingRequest(clientIdHeader: Option<string>, userId: Option<int>, meetingUrl: Option<string>, body: CreateBookingInput)
      returns (r: Outcome<BookingRequest<RequestBody<BookingRecord>>>)
      modifies platformDefaults
      ensures TransformInputCreateBooking(eventTypes, body).Err? ==>
        r == Err(TransformInputCreateBooking(eventTypes, body).error) && unchanged(platformDefaults)
      ensures TransformInputCreateBooking(eventTypes, body).Ok? ==>
        && r.Ok?
        && r.value.body.transformed == TransformInputCreateBooking(eventTypes, body).value
        && r.value.body.noEmail == !r.value.platform.arePlatformEmailsEnabled
        && r.value.platform == ParamsAfterLookup(old(platformDefaults.Snapshot()), oAuthClients, clientIdHeader)
        && platformDefaults.Snapshot() == r.value.platform
        && r.value.userId == userId
        && r.value.platformBookingLocation == meetingUrl
    {
      var transformed := TransformInputCreateBooking(eventTypes, body);
      if transformed.Err? {
        return Err(transformed.error);
      }
      var oAuthParams := ResolvePlatformParams(clientIdHeader);
      r := Ok(BookingRequest(userId, oAuthParams, meetingUrl,
                             RequestBody(transformed.value, !oAuthParams.arePlatformEmailsEnabled)));
    }

    /** `createRecurringBookingRequest`; `recurringEventId` is the id `uuidv4()` generated. */
    method CreateRecurringBookingRequest(
      clientIdHeader: Option<string>, userId: Option<int>, meetingUrl: Option<string>,
      body: CreateBookingInput, recurringEventId: string)
      returns (r: Outcome<BookingRequest<seq<RequestBody<BookingRecord>>>>)
      modifies platformDefaults
      ensures ExpandRecurring(eventTypes, calendar, body, recurringEventId).Err? ==>
        r == Err(ExpandRecurring(eventTypes, calendar, body, recurringEventId).error) && unchanged(platformDefaults)
      ensures ExpandRecurring(eventTypes, calendar, body, recurringEventId).Ok? ==>
        var events := ExpandRecurring(eventTypes, calendar, body, recurringEventId).value;
        && r.Ok?
        && |r.value.body| == |events|
        && (forall k | 0 <= k < |events| ::
              r.value.body[k] == RequestBody(events[k], !r.value.platform.arePlatformEmailsEnabled))
        && r.value.platform == ParamsAfterLookup(old(platformDefaults.Snapshot()), oAuthClients, clientIdHeader)
        && platformDefaults.Snapshot() == r.value.platform
        && r.value.userId == userId
        && r.value.platformBookingLocation == meetingUrl
    {
      var transformed := TransformInputCreateRecurringBooking(eventTypes, calendar, body, recurringEventId);
      if transformed.Err? {
        return Err(transformed.error);
      }
      var oAuthParams := ResolvePlatformParams(clientIdHeader);
      var noEmail := !oAuthParams.arePlatformEmailsEnabled;
      var events := transformed.value;
      var withNoEmail := seq(|events|, k requires 0 <= k < |events| => RequestBody(events[k], noEmail));
      r := Ok(BookingRequest(userId, oAuthParams, meetingUrl, withNoEmail));
    }

    /** `createRescheduleBookingRequest`: the location is that of the booking being rescheduled. */
    method CreateRescheduleBookingRequest(clientIdHeader: Option<string>, userId: Option<int>, bookingUid: string, body: RescheduleBookingInput)
      returns (r: Outcome<BookingRequest<RequestBody<BookingRecord>>>)
      modifies platformDefaults
      ensures TransformInputRescheduleBooking(bookingsByUid, eventTypes, bookingUid, body).Err? ==>
        r == Err(TransformInputRescheduleBooking(bookingsByUid, eventTypes, bookingUid, body).error)
        && unchanged(platformDefaults)
      ensures TransformInputRescheduleBooking(bookingsByUid, eventTypes, bookingUid, body).Ok? ==>
        && r.Ok?
        && r.value.body.transformed == TransformInputRescheduleBooking(bookingsByUid, eventTypes, bookingUid, body).value
        && r.value.body.noEmail == !r.value.platform.arePlatformEmailsEnabled
        && r.value.platform == ParamsAfterLookup(old(platformDefaults.Snapshot()), oAuthClients, clientIdHeader)
        && platformDefaults.Snapshot() == r.value.platform
        && r.value.userId == userId
        && bookingUid in bookingsByUid
        && r.value.platformBookingLocation == bookingsByUid[bookingUid].location
    {
      var transformed := TransformInputRescheduleBooking(bookingsByUid, eventTypes, bookingUid, body);
      if transformed.Err? {
        return Err(transformed.error);
      }
      var oAuthParams := ResolvePlatformParams(clientIdHeader);
      var location := RescheduleBookingLocation(bookingsByUid, bookingUid);
      // The transform above has read the same booking, so this second lookup finds it.
      assert location.Ok?;
      r := Ok(BookingRequest(userId, oAuthParams, location.value,
                             RequestBody(transformed.value, !oAuthParams.arePlatformEmailsEnabled)));
    }

    /** `createCancelBookingRequest`: no location override, so the spread parameters' location stays. */
    method CreateCancelBookingRequest(clientIdHeader: Option<string>, userId: Option<int>, bookingUid: string, body: CancelBookingInput)
      returns (r: BookingRequest<RequestBody<CancelBooking>>)
      modifies platformDefaults
      ensures r.body.noEmail == !r.platform.arePlatformEmailsEnabled
      ensures r.platform == ParamsAfterLookup(old(platformDefaults.Snapshot()), oAuthClients, clientIdHeader)
      ensures platformDefaults.Snapshot() == r.platform
      ensures r.userId == userId
      ensures r.platformBookingLocation == r.platform.platformBookingLocation
      ensures r.body.transformed.cancellationReason == body.cancellationReason
      ensures r.body.transformed.allRemainingBookings <==> |RecurringGroup(recurringByUid, bookingUid)| > 0
      ensures r.body.transformed.allRemainingBookings ==> r.body.transformed.uid == RecurringGroup(recurringByUid, bookingUid)[0].uid
      ensures !r.body.transformed.allRemainingBookings ==> r.body.transformed.uid == bookingUid
    {
      var transformed := TransformInputCancelBooking(recurringByUid, bookingUid, body);
      var oAuthParams := ResolvePlatformParams(clientIdHeader);
      r := BookingRequest(userId, oAuthParams, oAuthParams.platformBookingLocation,
                          RequestBody(transformed, !oAuthParams.arePlatformEmailsEnabled));
    }
  }

  /**
   * Two requests through one service: the first names a known client, the second names none.
   * The second receives the first client's parameters, not the initial defaults.
   */
  method SharedDefaultsAfterClientLookup(
    eventTypes: map<int, EventType>, oAuthClients: map<string, OAuthClient>, calendar: Calendar, clientId: string)
    returns (first: OAuthParams, second: OAuthParams)
    requires clientId != "" && clientId in oAuthClients
    ensures second == first
    ensures second.platformClientId == clientId
    ensures second.arePlatformEmailsEnabled == (oAuthClients[clientId].areEmailsEnabled == Some(true))
  {
    var defaults := new PlatformParams();
    var service := new InputBookingsService(defaults, eventTypes, map[], map[], oAuthClients, calendar);
    first := service.ResolvePlatformParams(Some(clientId));
    second := service.ResolvePlatformParams(None);
  }
}
