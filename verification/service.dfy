/**
 * WidgetWeatherService: acquires the device location through a single
 * completion slot armed by each request and fired by delegate callbacks or
 * a 10-second timer; extracts weather fields and a place name from the two
 * services' JSON replies; and runs the three-tier refresh (live location,
 * saved location, cached record), persisting what it fetched.
 *
 * Location events, network replies and the clock are inputs: the location
 * manager's callbacks arrive as a sequence of events, each network call's
 * parsed reply body is given (None for a transport or parse error).
 */
module WeatherService {
  import opened Wrappers
  import opened WeatherModels
  import opened SharedCache
  import Json

  // ---------------------------------------------------------------------
  // The location completion slot
  // ---------------------------------------------------------------------

  datatype AuthorizationStatus = NotDetermined | Restricted | Denied | AuthorizedAlways | AuthorizedWhenInUse

  predicate IsAuthorized(status: AuthorizationStatus) {
    status == AuthorizedAlways || status == AuthorizedWhenInUse
  }

  /** Calls made on the location manager. */
  datatype ManagerRequest = RequestLocation | RequestWhenInUseAuthorization

  /** What the location manager delivers, plus the firing of a 10-second timer. */
  datatype LocationEvent =
    | LocationsUpdated(locations: seq<Coordinate>)
    | LocationFailed
    | AuthorizationChanged(status: AuthorizationStatus)
    | TimerFired

  /**
   * The service's location state: whether `locationCompletion` is set, the
   * last delivered location, every value a continuation was resumed with
   * (in order), and the requests made on the location manager.
   */
  datatype Slot = Slot(
    pending: bool,
    currentLocation: Option<Coordinate>,
    resumed: seq<Option<Coordinate>>,
    requests: seq<ManagerRequest>)

  /** Calls the completion with `location` if one is set, then clears the slot. */
  function Fire(s: Slot, location: Option<Coordinate>): Slot {
    s.(pending := false, resumed := if s.pending then s.resumed + [location] else s.resumed)
  }

  /**
   * The synchronous part of getCurrentLocation: arm the slot, then act on the
   * authorization status. A status that is neither authorized nor
   * not-determined resumes the continuation at once and leaves the slot set.
   */
  function Begin(s: Slot, status: AuthorizationStatus): Slot {
    var armed := s.(pending := true);
    if IsAuthorized(status) then armed.(requests := armed.requests + [RequestLocation])
    else if status == NotDetermined then armed.(requests := armed.requests + [RequestWhenInUseAuthorization])
    else armed.(resumed := armed.resumed + [None])
  }

  /** One delegate callback or timer firing. */
  function Deliver(s: Slot, e: LocationEvent): Slot {
    match e
    case LocationsUpdated(locations) =>
      if locations == [] then s
      else Fire(s.(currentLocation := Some(locations[0])), Some(locations[0]))
    case LocationFailed => Fire(s, None)
    case AuthorizationChanged(status) =>
      if IsAuthorized(status) then s.(requests := s.requests + [RequestLocation])
      else if status == Denied || status == Restricted then Fire(s, None)
      else s
    case TimerFired => if s.pending then Fire(s, None) else s
  }

  /** Events delivered in order. */
  function Run(s: Slot, events: seq<LocationEvent>): Slot
    decreases |events|
  {
    if events == [] then s else Run(Deliver(s, events[0]), events[1..])
  }

  /** A getCurrentLocation call: begin, the events that arrive within 10 seconds, then its own timer. */
  function Outcome(start: Slot, status: AuthorizationStatus, events: seq<LocationEvent>): Slot {
    Deliver(Run(Begin(start, status), events), TimerFired)
  }

  /** Earlier resumptions are never revoked, and a pending slot is only cleared by resuming. */
  lemma {:induction false} RunProgress(s: Slot, events: seq<LocationEvent>, base: nat)
    requires base <= |s.resumed|
    ensures s.resumed <= Run(s, events).resumed
    ensures s.pending || |s.resumed| > base ==> Run(s, events).pending || |Run(s, events).resumed| > base
    decreases |events|
  {
    if events != [] {
      RunProgress(Deliver(s, events[0]), events[1..], base);
    }
  }

  /** The timer guarantees that every call resumes its continuation at least once. */
  lemma OutcomeResumes(start: Slot, status: AuthorizationStatus, events: seq<LocationEvent>)
    ensures start.resumed <= Outcome(start, status, events).resumed
    ensures |Outcome(start, status, events).resumed| > |start.resumed|
    ensures !Outcome(start, status, events).pending
  {
    RunProgress(Begin(start, status), events, |start.resumed|);
  }

  /** What getCurrentLocation returns: the first value its continuation is resumed with. */
  function Acquired(start: Slot, status: AuthorizationStatus, events: seq<LocationEvent>): Option<Coordinate> {
    OutcomeResumes(start, status, events);
    Outcome(start, status, events).resumed[|start.resumed|]
  }

  /** Once the slot is cleared, further deliveries (late callbacks, a late timer) resume nothing. */
  lemma {:induction false} LateDeliveriesIgnored(s: Slot, events: seq<LocationEvent>)
    requires !s.pending
    ensures !Run(s, events).pending
    ensures Run(s, events).resumed == s.resumed
    decreases |events|
  {
    if events != [] {
      LateDeliveriesIgnored(Deliver(s, events[0]), events[1..]);
    }
  }

  /** A location, an error, a denial or the timer that fires a pending slot also clears it. */
  lemma FiringClears(s: Slot, e: LocationEvent)
    requires s.pending
    requires e.LocationsUpdated? ==> e.locations != []
    requires e.AuthorizationChanged? ==> e.status == Denied || e.status == Restricted
    ensures !Deliver(s, e).pending
    ensures Deliver(s, e).resumed == s.resumed + [if e.LocationsUpdated? then Some(e.locations[0]) else None]
  {
  }

  /** An empty location list is ignored; a change to "authorized" only requests a location. */
  lemma NonResolvingEvents(s: Slot, status: AuthorizationStatus)
    requires IsAuthorized(status)
    ensures Deliver(s, LocationsUpdated([])) == s
    ensures Deliver(s, AuthorizationChanged(status)) == s.(requests := s.requests + [RequestLocation])
  {
  }

  /** Invariant of a call that began authorized or not-determined: resumed at most once so far. */
  ghost predicate AtMostOnce(s: Slot, base: nat) {
    (s.pending && |s.resumed| == base) || (!s.pending && |s.resumed| == base + 1)
  }

  lemma {:induction false} RunAtMostOnce(s: Slot, events: seq<LocationEvent>, base: nat)
    requires AtMostOnce(s, base)
    ensures AtMostOnce(Run(s, events), base)
    decreases |events|
  {
    if events != [] {
      RunAtMostOnce(Deliver(s, events[0]), events[1..], base);
    }
  }

  /** When the request starts authorized or not-determined, the continuation is resumed exactly once. */
  lemma SingleResolution(start: Slot, status: AuthorizationStatus, events: seq<LocationEvent>)
    requires IsAuthorized(status) || status == NotDetermined
    ensures |Outcome(start, status, events).resumed| == |start.resumed| + 1
  {
    RunAtMostOnce(Begin(start, status), events, |start.resumed|);
  }

  /**
   * When the request starts denied or restricted, the continuation
   * is resumed with nil at once but the slot stays set, so with no other
   * event the timer resumes the same continuation a second time.
   */
  lemma DirectResolutionResumesTwice(start: Slot, status: AuthorizationStatus)
    requires !IsAuthorized(status) && status != NotDetermined
    ensures Begin(start, status).pending
    ensures Outcome(start, status, []).resumed == start.resumed + [None, None]
    ensures Acquired(start, status, []) == None
  {
  }

  /** A request that starts denied or restricted yields no location, whatever arrives later. */
  lemma DirectResolutionAcquiresNothing(start: Slot, status: AuthorizationStatus, events: seq<LocationEvent>)
    requires !IsAuthorized(status) && status != NotDetermined
    ensures Acquired(start, status, events) == None
  {
    var begun := Begin(start, status);
    RunProgress(begun, events, |begun.resumed|);
    OutcomeResumes(start, status, events);
    assert begun.resumed[|start.resumed|] == None;
  }

  /** Events that resolve nothing: an empty location list, or an authorization change other than denied or restricted. */
  predicate Quiet(e: LocationEvent) {
    (e.LocationsUpdated? && e.locations == [])
    || (e.AuthorizationChanged? && e.status != Denied && e.status != Restricted)
  }

  /** Delivering a sequence of events is delivering its two halves in turn. */
  lemma {:induction false} RunAppend(s: Slot, first: seq<LocationEvent>, second: seq<LocationEvent>)
    ensures Run(s, first + second) == Run(Run(s, first), second)
    decreases |first|
  {
    if first != [] {
      assert (first + second)[0] == first[0];
      assert (first + second)[1..] == first[1..] + second;
      RunAppend(Deliver(s, first[0]), first[1..], second);
    } else {
      assert first + second == second;
    }
  }

  /** Quiet events leave the slot armed or cleared as it was, and resume nothing. */
  lemma {:induction false} QuietEventsResolveNothing(s: Slot, events: seq<LocationEvent>)
    requires forall i :: 0 <= i < |events| ==> Quiet(events[i])
    ensures Run(s, events).pending == s.pending
    ensures Run(s, events).resumed == s.resumed
    decreases |events|
  {
    if events != [] {
      assert Quiet(events[0]);
      assert forall i :: 0 <= i < |events[1..]| ==> Quiet(events[1..][i]) by {
        forall i | 0 <= i < |events[1..]| ensures Quiet(events[1..][i]) {
          assert events[1..][i] == events[i + 1];
        }
      }
      QuietEventsResolveNothing(Deliver(s, events[0]), events[1..]);
    }
  }

  /**
   * The first non-empty location delivery wins: after any quiet events (such
   * as the change to "authorized" that triggers the location request on the
   * not-determined path), it decides the result and everything after it is
   * ignored.
   */
  lemma FirstLocationWins(start: Slot, status: AuthorizationStatus, quiet: seq<LocationEvent>,
                          locations: seq<Coordinate>, later: seq<LocationEvent>)
    requires IsAuthorized(status) || status == NotDetermined
    requires forall i :: 0 <= i < |quiet| ==> Quiet(quiet[i])
    requires locations != []
    ensures Acquired(start, status, quiet + [LocationsUpdated(locations)] + later) == Some(locations[0])
    ensures Outcome(start, status, quiet + [LocationsUpdated(locations)] + later).currentLocation.Some?
  {
    var begun := Begin(start, status);
    var events := quiet + [LocationsUpdated(locations)] + later;
    assert events == quiet + ([LocationsUpdated(locations)] + later);
    RunAppend(begun, quiet, [LocationsUpdated(locations)] + later);
    QuietEventsResolveNothing(begun, quiet);
    var waiting := Run(begun, quiet);
    var fired := Deliver(waiting, LocationsUpdated(locations));
    assert ([LocationsUpdated(locations)] + later)[0] == LocationsUpdated(locations);
    assert ([LocationsUpdated(locations)] + later)[1..] == later;
    assert Run(begun, events) == Run(fired, later);
    LateDeliveriesIgnored(fired, later);
    assert fired.resumed == start.resumed + [Some(locations[0])];
    CurrentLocationKept(fired, later);
  }

  /** On the not-determined path: permission granted, then a location arrives. */
  lemma GrantedThenLocated(start: Slot, location: Coordinate)
    ensures Acquired(start, NotDetermined, [AuthorizationChanged(AuthorizedWhenInUse), LocationsUpdated([location])]) == Some(location)
  {
    var quiet := [AuthorizationChanged(AuthorizedWhenInUse)];
    assert Quiet(quiet[0]);
    FirstLocationWins(start, NotDetermined, quiet, [location], []);
    assert quiet + [LocationsUpdated([location])] + [] == [AuthorizationChanged(AuthorizedWhenInUse), LocationsUpdated([location])];
  }

  /** Once a location has been delivered, the service keeps one. */
  lemma {:induction false} CurrentLocationKept(s: Slot, events: seq<LocationEvent>)
    requires s.currentLocation.Some?
    ensures Run(s, events).currentLocation.Some?
    decreases |events|
  {
    if events != [] {
      CurrentLocationKept(Deliver(s, events[0]), events[1..]);
    }
  }

  /**
   * A call started authorized or not-determined that sees only quiet events
   * ends at its own timer with nil.
   */
  lemma TimeoutGivesNothing(start: Slot, status: AuthorizationStatus, quiet: seq<LocationEvent>)
    requires IsAuthorized(status) || status == NotDetermined
    requires forall i :: 0 <= i < |quiet| ==> Quiet(quiet[i])
    ensures Acquired(start, status, quiet) == None
    ensures Outcome(start, status, quiet).resumed == start.resumed + [None]
  {
    QuietEventsResolveNothing(Begin(start, status), quiet);
    OutcomeResumes(start, status, quiet);
  }

  /**
   * A call returns as soon as its continuation is first resumed, while its
   * timer stays armed. If that timer fires while a later call on the same
   * service is waiting, the later call is resumed with nil, and the location
   * that arrives after it is stored but not returned.
   */
  lemma StaleTimerCutsShort(start: Slot, status: AuthorizationStatus, location: Coordinate, later: seq<LocationEvent>)
    requires IsAuthorized(status) || status == NotDetermined
    ensures Acquired(start, status, [TimerFired, LocationsUpdated([location])] + later) == None
    ensures Outcome(start, status, [TimerFired, LocationsUpdated([location])]).currentLocation == Some(location)
  {
    var events := [TimerFired, LocationsUpdated([location])] + later;
    var fired := Deliver(Begin(start, status), TimerFired);
    assert fired.resumed == start.resumed + [None] && !fired.pending;
    assert events[0] == TimerFired;
    assert events[1..] == [LocationsUpdated([location])] + later;
    LateDeliveriesIgnored(fired, events[1..]);
    assert Run(Begin(start, status), events) == Run(fired, events[1..]);
    var alone := [TimerFired, LocationsUpdated([location])];
    assert alone[1..] == [LocationsUpdated([location])] && alone[1..][1..] == [];
    var located := Deliver(fired, LocationsUpdated([location]));
    assert Run(Begin(start, status), alone) == Run(located, []);
    assert located.currentLocation == Some(location) && !located.pending;
  }

  /** `l` is the first location of some non-empty delivery among `events`. */
  ghost predicate Delivered(events: seq<LocationEvent>, l: Coordinate) {
    exists i :: 0 <= i < |events| && events[i].LocationsUpdated? && events[i].locations != [] && events[i].locations[0] == l
  }

  /** Every location resumed while running `events` was delivered by one of them. */
  lemma {:induction false} RunResumesOnlyDelivered(s: Slot, events: seq<LocationEvent>, j: nat)
    requires |s.resumed| <= j
    ensures j < |Run(s, events).resumed| && Run(s, events).resumed[j].Some?
      ==> Delivered(events, Run(s, events).resumed[j].value)
    decreases |events|
  {
    if events != [] {
      var next := Deliver(s, events[0]);
      var rest := events[1..];
      RunProgress(next, rest, |next.resumed|);
      if j < |next.resumed| {
        assert Run(s, events).resumed[j] == next.resumed[j];
      } else {
        RunResumesOnlyDelivered(next, rest, j);
        if j < |Run(s, events).resumed| && Run(s, events).resumed[j].Some? {
          var i :| 0 <= i < |rest| && rest[i].LocationsUpdated? && rest[i].locations != []
            && rest[i].locations[0] == Run(s, events).resumed[j].value;
          assert events[i + 1] == rest[i];
        }
      }
    }
  }

  /** A call returns a location only if one of its events delivered it first in a non-empty list. */
  lemma AcquiredWasDelivered(start: Slot, status: AuthorizationStatus, events: seq<LocationEvent>)
    ensures Acquired(start, status, events).Some? ==> Delivered(events, Acquired(start, status, events).value)
  {
    var begun := Begin(start, status);
    var run := Run(begun, events);
    var j := |start.resumed|;
    RunProgress(begun, events, j);
    OutcomeResumes(start, status, events);
    if j < |begun.resumed| {
      assert begun.resumed[j] == None;
      assert Outcome(start, status, events).resumed[j] == run.resumed[j];
    } else if j < |run.resumed| {
      RunResumesOnlyDelivered(begun, events, j);
      assert Outcome(start, status, events).resumed[j] == run.resumed[j];
    } else {
      assert Outcome(start, status, events).resumed[j] == None;
    }
  }

  // ---------------------------------------------------------------------
  // Extracting fields from the two services' replies
  // ---------------------------------------------------------------------

  /** The four values read from the weather service's `current` object. */
  datatype WeatherFields = WeatherFields(temperature: real, weatherCode: int, humidity: int, windSpeed: real)

  const CurrentKey: string := "current"
  const TemperatureField: string := "temperature_2m"
  const HumidityField: string := "relative_humidity_2m"
  const WindSpeedField: string := "wind_speed_10m"
  const WeatherCodeField: string := "weather_code"

  function CurrentFields(): set<string> {
    {TemperatureField, HumidityField, WindSpeedField, WeatherCodeField}
  }

  /** The field extraction of fetchWeatherData; `body` is None on a transport or parse error. */
  function ParseCurrentWeather(body: Option<Json.Value>): Option<WeatherFields> {
    var current := CurrentObject(body);
    var temperature := Json.AsDouble(Json.Lookup(current, TemperatureField));
    var humidity := Json.AsInt(Json.Lookup(current, HumidityField));
    var windSpeed := Json.AsDouble(Json.Lookup(current, WindSpeedField));
    var weatherCode := Json.AsInt(Json.Lookup(current, WeatherCodeField));
    if temperature.Some? && humidity.Some? && windSpeed.Some? && weatherCode.Some?
    then Some(WeatherFields(temperature.value, weatherCode.value, humidity.value, windSpeed.value))
    else None
  }

  /** The `current` object of a reply, if the reply has one. */
  function CurrentObject(body: Option<Json.Value>): Option<map<string, Json.Value>> {
    Json.AsObject(Json.Lookup(Json.AsObject(body), CurrentKey))
  }

  /**
   * Any reply whose `current` object holds the four fields as numbers, the
   * humidity and code integral, yields exactly those fields, whatever else
   * the reply and its `current` object carry.
   */
  lemma {:induction false} ParseCurrentWeatherReads(body: Option<Json.Value>, current: map<string, Json.Value>, f: WeatherFields)
    requires CurrentObject(body) == Some(current)
    requires TemperatureField in current && current[TemperatureField] == Json.Number(f.temperature)
    requires HumidityField in current && current[HumidityField] == Json.Number(f.humidity as real)
    requires WindSpeedField in current && current[WindSpeedField] == Json.Number(f.windSpeed)
    requires WeatherCodeField in current && current[WeatherCodeField] == Json.Number(f.weatherCode as real)
    ensures ParseCurrentWeather(body) == Some(f)
  {
    Json.IntNumberRoundTrip(f.humidity);
    Json.IntNumberRoundTrip(f.weatherCode);
  }

  /** A missing or non-numeric field in `current` gives nil. */
  lemma ParseCurrentWeatherNeedsEveryField(body: Option<Json.Value>, current: map<string, Json.Value>, key: string)
    requires CurrentObject(body) == Some(current)
    requires key in CurrentFields()
    requires key !in current || !current[key].Number?
    ensures ParseCurrentWeather(body) == None
  {
  }

  /** A fractional humidity or weather code is mistyped for `as? Int` and gives nil. */
  lemma ParseCurrentWeatherNeedsIntegers(body: Option<Json.Value>, current: map<string, Json.Value>, key: string, x: real)
    requires CurrentObject(body) == Some(current)
    requires key == HumidityField || key == WeatherCodeField
    requires key in current && current[key] == Json.Number(x)
    requires x.Floor as real != x
    ensures ParseCurrentWeather(body) == None
  {
  }

  /** Without a `current` object there is nothing to read. */
  lemma ParseCurrentWeatherNeedsCurrent(body: Option<Json.Value>)
    requires CurrentObject(body).None?
    ensures ParseCurrentWeather(body) == None
  {
  }

  const CityKey: string := "city"
  const LocalityKey: string := "locality"
  const CountryNameKey: string := "countryName"

  predicate NonEmpty(s: Option<string>) {
    s.Some? && s.value != ""
  }

  function StringField(body: Option<Json.Value>, key: string): Option<string> {
    Json.AsString(Json.Lookup(Json.AsObject(body), key))
  }

  /** The name choice of getLocationName: city, else locality, else countryName. */
  function PlaceName(body: Option<Json.Value>): Option<string> {
    var city := StringField(body, CityKey);
    var locality := StringField(body, LocalityKey);
    if NonEmpty(city) then city
    else if NonEmpty(locality) then locality
    else StringField(body, CountryNameKey)
  }

  /** The name is always one of the three fields, and the earlier non-empty field wins. */
  lemma PlaceNamePriority(body: Option<Json.Value>)
    ensures var r := PlaceName(body);
      && (r.Some? ==> r == StringField(body, CityKey) || r == StringField(body, LocalityKey) || r == StringField(body, CountryNameKey))
      && (NonEmpty(StringField(body, CityKey)) ==> r == StringField(body, CityKey))
      && (NonEmpty(StringField(body, LocalityKey)) && r != StringField(body, LocalityKey) ==> NonEmpty(StringField(body, CityKey)))
  {
  }

  /** An empty name can only come from an empty countryName, which is accepted as is. */
  lemma PlaceNameEmptyOnlyFromCountry(body: Option<Json.Value>)
    requires PlaceName(body) == Some("")
    ensures StringField(body, CountryNameKey) == Some("")
    ensures !NonEmpty(StringField(body, CityKey)) && !NonEmpty(StringField(body, LocalityKey))
  {
  }

  /** nil exactly when no field qualifies. */
  lemma PlaceNameAbsentIff(body: Option<Json.Value>)
    ensures PlaceName(body).None? <==>
      !NonEmpty(StringField(body, CityKey)) && !NonEmpty(StringField(body, LocalityKey))
      && StringField(body, CountryNameKey).None?
  {
  }

  // ---------------------------------------------------------------------
  // The refresh orchestrator
  // ---------------------------------------------------------------------

  const CurrentLocationName: string := "Current Location"
  const SavedLocationName: string := "Saved Location"

  /** Network calls, in the order they are made. */
  datatype NetworkCall = FetchWeather(at: Coordinate) | ResolveName(at: Coordinate)

  /** The parsed reply body of each network call fetchCurrentLocationWeather may make. */
  datatype Replies = Replies(
    liveWeather: Option<Json.Value>,
    liveName: Option<Json.Value>,
    savedWeather: Option<Json.Value>,
    savedName: Option<Json.Value>)

  datatype RefreshOutcome = RefreshOutcome(result: Option<WeatherData>, store: Store, calls: seq<NetworkCall>)

  /** The record built from fetched fields, a resolved name or the tier's default, stamped `now`. */
  function Assemble(f: WeatherFields, name: Option<string>, fallback: string, now: Instant): WeatherData {
    WeatherData(f.temperature, f.weatherCode, f.humidity, f.windSpeed, name.GetOr(fallback), now)
  }

  /** One tier's fetch: the assembled record when the weather reply parses, nil otherwise. */
  function FetchedRecord(weatherReply: Option<Json.Value>, nameReply: Option<Json.Value>, fallback: string, now: Instant): Option<WeatherData> {
    var f := ParseCurrentWeather(weatherReply);
    if f.Some? then Some(Assemble(f.value, PlaceName(nameReply), fallback, now)) else None
  }

  /** saveWeatherData(w) followed by markDataAsUpdated() at `now`. */
  function Persisted(store: Store, w: WeatherData, now: Instant): Store {
    WithUpdateTime(WithWeather(store, w), now)
  }

  /** The store tier 2 reads: the live location, if any, already saved. */
  function StoreAfterLive(store: Store, live: Option<Coordinate>): Store {
    if live.Some? then WithLocation(store, live.value.latitude, live.value.longitude) else store
  }

  /** fetchCurrentLocationWeather given the acquired live location. */
  function Refresh(store: Store, live: Option<Coordinate>, replies: Replies, now: Instant): RefreshOutcome {
    var afterLive := StoreAfterLive(store, live);
    var liveRecord := if live.Some? then FetchedRecord(replies.liveWeather, replies.liveName, CurrentLocationName, now) else None;
    if liveRecord.Some? then
      RefreshOutcome(liveRecord, Persisted(afterLive, liveRecord.value, now), [FetchWeather(live.value), ResolveName(live.value)])
    else
      var liveCalls := if live.Some? then [FetchWeather(live.value)] else [];
      var saved := StoredLocation(afterLive);
      if saved.None? then
        RefreshOutcome(StoredWeather(afterLive), afterLive, liveCalls)
      else
        var savedRecord := FetchedRecord(replies.savedWeather, replies.savedName, SavedLocationName, now);
        if savedRecord.Some? then
          RefreshOutcome(savedRecord, Persisted(afterLive, savedRecord.value, now),
                         liveCalls + [FetchWeather(saved.value), ResolveName(saved.value)])
        else
          RefreshOutcome(StoredWeather(afterLive), afterLive, liveCalls + [FetchWeather(saved.value)])
  }

  /** A live location is saved before the weather fetch and stays saved whether or not the fetch succeeds. */
  lemma LiveLocationPersisted(store: Store, c: Coordinate, replies: Replies, now: Instant)
    ensures var out := Refresh(store, Some(c), replies, now);
      && LatitudeKey in out.store && out.store[LatitudeKey] == Double(c.latitude)
      && LongitudeKey in out.store && out.store[LongitudeKey] == Double(c.longitude)
      && out.calls[0] == FetchWeather(c)
  {
  }

  /** Tier 1: live location and a successful fetch give a fresh record, saved and stamped. */
  lemma {:induction false} LiveTier(store: Store, c: Coordinate, replies: Replies, now: Instant, f: WeatherFields)
    requires ParseCurrentWeather(replies.liveWeather) == Some(f)
    ensures var out := Refresh(store, Some(c), replies, now);
      var w := WeatherData(f.temperature, f.weatherCode, f.humidity, f.windSpeed,
                           PlaceName(replies.liveName).GetOr("Current Location"), now);
      && out.result == Some(w)
      && StoredWeather(out.store) == Some(w)
      && StoredLocation(out.store) == StoredLocation(WithLocation(store, c.latitude, c.longitude))
      && LastUpdate(out.store) == now && IsFresh(out.store, now)
      && out.calls == [FetchWeather(c), ResolveName(c)]
  {
    var w := Assemble(f, PlaceName(replies.liveName), CurrentLocationName, now);
    WeatherRoundTrip(WithLocation(store, c.latitude, c.longitude), w);
  }

  /** Tier 1 failing before tier 2 means: no live location, or its weather fetch failed. */
  predicate LiveTierFailed(live: Option<Coordinate>, replies: Replies) {
    live.None? || ParseCurrentWeather(replies.liveWeather).None?
  }

  /** Tier 2: a saved location whose fetch succeeds gives a fresh record named after it or "Saved Location". */
  lemma {:induction false} SavedTier(store: Store, live: Option<Coordinate>, replies: Replies, now: Instant, c: Coordinate, f: WeatherFields)
    requires LiveTierFailed(live, replies)
    requires StoredLocation(StoreAfterLive(store, live)) == Some(c)
    requires ParseCurrentWeather(replies.savedWeather) == Some(f)
    ensures var out := Refresh(store, live, replies, now);
      var w := WeatherData(f.temperature, f.weatherCode, f.humidity, f.windSpeed,
                           PlaceName(replies.savedName).GetOr("Saved Location"), now);
      && out.result == Some(w)
      && StoredWeather(out.store) == Some(w)
      && LastUpdate(out.store) == now
      && out.calls[|out.calls| - 2..] == [FetchWeather(c), ResolveName(c)]
  {
    var w := Assemble(f, PlaceName(replies.savedName), SavedLocationName, now);
    WeatherRoundTrip(StoreAfterLive(store, live), w);
  }

  /** Tier 3: when both tiers fail the cached record is returned and only the live coordinate, if any, is written. */
  lemma {:induction false} CachedTier(store: Store, live: Option<Coordinate>, replies: Replies, now: Instant)
    requires LiveTierFailed(live, replies)
    requires StoredLocation(StoreAfterLive(store, live)).None? || ParseCurrentWeather(replies.savedWeather).None?
    ensures var out := Refresh(store, live, replies, now);
      && out.result == StoredWeather(store)
      && out.store == StoreAfterLive(store, live)
      && StoredWeather(out.store) == StoredWeather(store)
      && LastUpdate(out.store) == LastUpdate(store)
  {
    if live.Some? {
      SavesAreIndependent(store, WeatherData(0.0, 0, 0, 0.0, "", now), live.value.latitude, live.value.longitude, now);
    }
  }

  /** No live location and no saved location: the cached record, no network call, nothing written. */
  lemma NothingToFetch(store: Store, replies: Replies, now: Instant)
    requires StoredLocation(store).None?
    ensures Refresh(store, None, replies, now) == RefreshOutcome(StoredWeather(store), store, [])
  {
  }

  /**
   * A live coordinate with a zero component is saved and then reads back as
   * absent, so when its fetch fails tier 2 is skipped even if a usable
   * location had been saved before.
   */
  lemma ZeroLiveCoordinateHidesSavedLocation(store: Store, c: Coordinate, replies: Replies, now: Instant)
    requires c.latitude == 0.0 || c.longitude == 0.0
    requires ParseCurrentWeather(replies.liveWeather).None?
    ensures var out := Refresh(store, Some(c), replies, now);
      out.calls == [FetchWeather(c)] && out.result == StoredWeather(store)
  {
    CachedTier(store, Some(c), replies, now);
  }

  /** When the live fetch fails at a usable coordinate, tier 2 asks again for that same coordinate. */
  lemma LiveFailureRefetchesSameCoordinate(store: Store, c: Coordinate, replies: Replies, now: Instant)
    requires c.latitude != 0.0 && c.longitude != 0.0
    requires ParseCurrentWeather(replies.liveWeather).None?
    ensures var out := Refresh(store, Some(c), replies, now);
      |out.calls| >= 2 && out.calls[0] == FetchWeather(c) && out.calls[1] == FetchWeather(c)
  {
    LocationRoundTrip(store, c.latitude, c.longitude);
  }

  /** Whatever refresh returns is what the cache then holds, and a name is resolved only right after a successful weather fetch at the same place. */
  lemma {:induction false} RefreshResultIsCached(store: Store, live: Option<Coordinate>, replies: Replies, now: Instant)
    ensures var out := Refresh(store, live, replies, now);
      && StoredWeather(out.store) == out.result
      && |out.calls| <= 4
      && forall i :: 0 <= i < |out.calls| && out.calls[i].ResolveName? ==> i > 0 && out.calls[i - 1] == FetchWeather(out.calls[i].at)
  {
    var afterLive := StoreAfterLive(store, live);
    var liveRecord := if live.Some? then FetchedRecord(replies.liveWeather, replies.liveName, CurrentLocationName, now) else None;
    if liveRecord.Some? {
      WeatherRoundTrip(afterLive, liveRecord.value);
    } else if StoredLocation(afterLive).Some? {
      var savedRecord := FetchedRecord(replies.savedWeather, replies.savedName, SavedLocationName, now);
      if savedRecord.Some? {
        WeatherRoundTrip(afterLive, savedRecord.value);
      }
    }
  }

  // ---------------------------------------------------------------------
  // The service object
  // ---------------------------------------------------------------------

  class WidgetWeatherService {
    /** UserDefaults.shared */
    const cache: SharedDefaults
    var currentLocation: Option<Coordinate>
    /** locationCompletion != nil */
    var pending: bool
    /** Every value a location continuation was resumed with, in order. */
    var resumed: seq<Option<Coordinate>>
    var requests: seq<ManagerRequest>
    var networkCalls: seq<NetworkCall>

    function SlotState(): Slot
      reads this
    {
      Slot(pending, currentLocation, resumed, requests)
    }

    constructor (cache: SharedDefaults)
      ensures this.cache == cache
      ensures SlotState() == Slot(false, None, [], []) && networkCalls == []
    {
      this.cache := cache;
      currentLocation := None;
      pending := false;
      resumed := [];
      requests := [];
      networkCalls := [];
    }

    /** Call the completion if set, then clear it. */
    method Complete(location: Option<Coordinate>)
      modifies this
      ensures SlotState() == Fire(old(SlotState()), location)
      ensures networkCalls == old(networkCalls)
    {
      if pending {
        resumed := resumed + [location];
      }
      pending := false;
    }

    method DidUpdateLocations(locations: seq<Coordinate>)
      modifies this
      ensures SlotState() == Deliver(old(SlotState()), LocationsUpdated(locations))
      ensures networkCalls == old(networkCalls)
    {
      if |locations| == 0 {
        return;
      }
      currentLocation := Some(locations[0]);
      Complete(Some(locations[0]));
    }

    method DidFailWithError()
      modifies this
      ensures SlotState() == Deliver(old(SlotState()), LocationFailed)
      ensures networkCalls == old(networkCalls)
    {
      Complete(None);
    }

    method DidChangeAuthorization(status: AuthorizationStatus)
      modifies this
      ensures SlotState() == Deliver(old(SlotState()), AuthorizationChanged(status))
      ensures networkCalls == old(networkCalls)
    {
      if IsAuthorized(status) {
        requests := requests + [RequestLocation];
      } else if status == Denied || status == Restricted {
        Complete(None);
      }
    }

    /** The 10-second timeout closure. */
    method TimeoutFired()
      modifies this
      ensures SlotState() == Deliver(old(SlotState()), TimerFired)
      ensures networkCalls == old(networkCalls)
    {
      if pending {
        Complete(None);
      }
    }

    /** Dispatches one event to its handler. */
    method Handle(e: LocationEvent)
      modifies this
      ensures SlotState() == Deliver(old(SlotState()), e)
      ensures networkCalls == old(networkCalls)
    {
      match e
      case LocationsUpdated(locations) => DidUpdateLocations(locations);
      case LocationFailed => DidFailWithError();
      case AuthorizationChanged(status) => DidChangeAuthorization(status);
      case TimerFired => TimeoutFired();
    }

    /** getCurrentLocation with the given status, the events that arrive within 10 seconds, then the timer. */
    method GetCurrentLocation(status: AuthorizationStatus, events: seq<LocationEvent>) returns (location: Option<Coordinate>)
      modifies this
      ensures SlotState() == Outcome(old(SlotState()), status, events)
      ensures location == Acquired(old(SlotState()), status, events)
      ensures networkCalls == old(networkCalls)
    {
      ghost var start := SlotState();
      var first := |resumed|;
      pending := true;
      if IsAuthorized(status) {
        requests := requests + [RequestLocation];
      } else if status == NotDetermined {
        requests := requests + [RequestWhenInUseAuthorization];
      } else {
        resumed := resumed + [None];
      }
      var i := 0;
      while i < |events|
        invariant 0 <= i <= |events|
        invariant Run(SlotState(), events[i..]) == Run(Begin(start, status), events)
        invariant networkCalls == old(networkCalls)
      {
        assert events[i..][1..] == events[i + 1..];
        Handle(events[i]);
        i := i + 1;
      }
      TimeoutFired();
      OutcomeResumes(start, status, events);
      location := resumed[first];
    }

    /** fetchWeatherData: one network call, then field extraction. */
    method FetchWeatherData(at: Coordinate, reply: Option<Json.Value>) returns (fields: Option<WeatherFields>)
      modifies this`networkCalls
      ensures fields == ParseCurrentWeather(reply)
      ensures networkCalls == old(networkCalls) + [FetchWeather(at)]
    {
      networkCalls := networkCalls + [FetchWeather(at)];
      fields := ParseCurrentWeather(reply);
    }

    /** getLocationName: one network call, then the name choice. */
    method GetLocationName(at: Coordinate, reply: Option<Json.Value>) returns (name: Option<string>)
      modifies this`networkCalls
      ensures name == PlaceName(reply)
      ensures networkCalls == old(networkCalls) + [ResolveName(at)]
    {
      networkCalls := networkCalls + [ResolveName(at)];
      name := PlaceName(reply);
    }

    /**
     * The fetch, resolve and persist steps both location tiers repeat: on a
     * parsed weather reply the assembled record is saved and stamped.
     */
    method FetchTier(at: Coordinate, weatherReply: Option<Json.Value>, nameReply: Option<Json.Value>, fallback: string, now: Instant)
      returns (record: Option<WeatherData>)
      modifies this`networkCalls, cache
      ensures record == FetchedRecord(weatherReply, nameReply, fallback, now)
      ensures cache.store == if record.Some? then Persisted(old(cache.store), record.value, now) else old(cache.store)
      ensures networkCalls == old(networkCalls) + if record.Some? then [FetchWeather(at), ResolveName(at)] else [FetchWeather(at)]
    {
      var fields := FetchWeatherData(at, weatherReply);
      if fields.None? {
        return None;
      }
      var name := GetLocationName(at, nameReply);
      var w := WeatherData(fields.value.temperature, fields.value.weatherCode, fields.value.humidity,
                           fields.value.windSpeed, name.GetOr(fallback), now);
      cache.SaveWeatherData(w);
      cache.MarkDataAsUpdated(now);
      record := Some(w);
    }

    method FetchCurrentLocationWeather(status: AuthorizationStatus, events: seq<LocationEvent>, replies: Replies, now: Instant)
      returns (r: Option<WeatherData>)
      modifies this, cache
      ensures SlotState() == Outcome(old(SlotState()), status, events)
      ensures var out := Refresh(old(cache.store), Acquired(old(SlotState()), status, events), replies, now);
        r == out.result && cache.store == out.store && networkCalls == old(networkCalls) + out.calls
    {
      var location := GetCurrentLocation(status, events);
      if location.Some? {
        cache.SaveUserLocation(location.value.latitude, location.value.longitude);
        r := FetchTier(location.value, replies.liveWeather, replies.liveName, CurrentLocationName, now);
        if r.Some? {
          return;
        }
      }
      var saved := cache.LoadUserLocation();
      if saved.Some? {
        r := FetchTier(saved.value, replies.savedWeather, replies.savedName, SavedLocationName, now);
        if r.Some? {
          return;
        }
      }
      r := cache.LoadWeatherData();
    }
  }
}
