/**
 * The shared key/value suite ("group.weatherism.shared") that the app and
 * the widget both read and write: the last weather record, the last saved
 * coordinate, and the instant of the last successful update.
 */
module SharedCache {
  import opened Wrappers
  import opened WeatherModels
  import Json

  const LastWeatherDataKey: string := "lastWeatherData"
  /** Part of the schema; nothing in the widget writes or reads it. */
  const LastLocationNameKey: string := "lastLocationName"
  const LastUpdateTimeKey: string := "lastUpdateTime"
  const LatitudeKey: string := "userLocationLatitude"
  const LongitudeKey: string := "userLocationLongitude"

  /** Cached data is fresh for 30 minutes. */
  const FreshnessWindow: int := 30 * 60
  /** Date.distantPast (0001-01-01 00:00 UTC) in seconds relative to 2001-01-01. */
  const DistantPast: Instant := -63114076800

  /** A property-list value as the suite holds it. */
  datatype Stored =
    | DataBlob(doc: Json.Value)     // Data holding a JSON document
    | RawBytes(bytes: seq<bv8>)     // Data that is not JSON
    | Double(d: real)
    | Date(t: Instant)
    | Text(s: string)

  type Store = map<string, Stored>

  /** What loadWeatherData reads: nil when the key is missing, not Data, or does not decode. */
  function StoredWeather(store: Store): Option<WeatherData> {
    if LastWeatherDataKey in store && store[LastWeatherDataKey].DataBlob?
    then Decode(store[LastWeatherDataKey].doc)
    else None
  }

  /** double(forKey:): 0 when the key is missing or holds no number. */
  function DoubleAt(store: Store, key: string): real {
    if key in store && store[key].Double? then store[key].d else 0.0
  }

  /** What loadUserLocation reads: absent as soon as either component is 0. */
  function StoredLocation(store: Store): Option<Coordinate> {
    var latitude := DoubleAt(store, LatitudeKey);
    var longitude := DoubleAt(store, LongitudeKey);
    if latitude != 0.0 && longitude != 0.0 then Some(Coordinate(latitude, longitude)) else None
  }

  /** The stored update instant, or distantPast when the key is missing or holds no date. */
  function LastUpdate(store: Store): Instant {
    if LastUpdateTimeKey in store && store[LastUpdateTimeKey].Date?
    then store[LastUpdateTimeKey].t
    else DistantPast
  }

  /** isDataFresh at instant `now`. */
  predicate IsFresh(store: Store, now: Instant) {
    now - LastUpdate(store) < FreshnessWindow
  }

  /** The store after saveWeatherData(w). */
  function WithWeather(store: Store, w: WeatherData): Store {
    store[LastWeatherDataKey := DataBlob(Encode(w))]
  }

  /** The store after saveUserLocation(latitude:longitude:). */
  function WithLocation(store: Store, latitude: real, longitude: real): Store {
    store[LatitudeKey := Double(latitude)][LongitudeKey := Double(longitude)]
  }

  /** The store after markDataAsUpdated() at instant `now`. */
  function WithUpdateTime(store: Store, now: Instant): Store {
    store[LastUpdateTimeKey := Date(now)]
  }

  /** UserDefaults.shared, reduced to its contents. */
  class SharedDefaults {
    var store: Store

    constructor ()
      ensures store == map[]
    {
      store := map[];
    }

    method SaveWeatherData(w: WeatherData)
      modifies this
      ensures store == WithWeather(old(store), w)
    {
      store := store[LastWeatherDataKey := DataBlob(Encode(w))];
    }

    method LoadWeatherData() returns (r: Option<WeatherData>)
      ensures r == StoredWeather(store)
    {
      if LastWeatherDataKey !in store {
        return None;
      }
      match store[LastWeatherDataKey]
      case DataBlob(doc) => r := Decode(doc);
      case _ => r := None;
    }

    method SaveUserLocation(latitude: real, longitude: real)
      modifies this
      ensures store == WithLocation(old(store), latitude, longitude)
    {
      store := store[LatitudeKey := Double(latitude)];
      store := store[LongitudeKey := Double(longitude)];
    }

    method LoadUserLocation() returns (r: Option<Coordinate>)
      ensures r == StoredLocation(store)
      ensures r.Some? <==> DoubleAt(store, LatitudeKey) != 0.0 && DoubleAt(store, LongitudeKey) != 0.0
      ensures r.Some? ==> r.value == Coordinate(DoubleAt(store, LatitudeKey), DoubleAt(store, LongitudeKey))
    {
      var latitude := DoubleAt(store, LatitudeKey);
      var longitude := DoubleAt(store, LongitudeKey);
      if latitude != 0.0 && longitude != 0.0 {
        return Some(Coordinate(latitude, longitude));
      }
      return None;
    }

    method IsDataFresh(now: Instant) returns (isFresh: bool)
      ensures isFresh <==> now - LastUpdate(store) < FreshnessWindow
    {
      var lastUpdate := DistantPast;
      if LastUpdateTimeKey in store && store[LastUpdateTimeKey].Date? {
        lastUpdate := store[LastUpdateTimeKey].t;
      }
      isFresh := now - lastUpdate < FreshnessWindow;
    }

    method MarkDataAsUpdated(now: Instant)
      modifies this
      ensures store == WithUpdateTime(old(store), now)
    {
      store := store[LastUpdateTimeKey := Date(now)];
    }
  }

  /** After saveWeatherData(w), loadWeatherData() gives back w. */
  lemma {:induction false} WeatherRoundTrip(store: Store, w: WeatherData)
    ensures StoredWeather(WithWeather(store, w)) == Some(w)
  {
    DecodeEncode(w);
  }

  /** loadWeatherData is nil when the key is missing or its bytes are not a JSON document. */
  lemma WeatherAbsent(store: Store)
    requires LastWeatherDataKey !in store || store[LastWeatherDataKey].RawBytes?
    ensures StoredWeather(store) == None
  {
  }

  /** After saveUserLocation with both components nonzero, loadUserLocation gives back the pair. */
  lemma LocationRoundTrip(store: Store, latitude: real, longitude: real)
    requires latitude != 0.0 && longitude != 0.0
    ensures StoredLocation(WithLocation(store, latitude, longitude)) == Some(Coordinate(latitude, longitude))
  {
  }

  /** A saved pair with a zero in either component loads as absent, not only (0, 0). */
  lemma LocationZeroComponentRejected(store: Store, latitude: real, longitude: real)
    requires latitude == 0.0 || longitude == 0.0
    ensures StoredLocation(WithLocation(store, latitude, longitude)) == None
  {
  }

  /** Unset coordinate keys read as 0, so a never-saved location is absent. */
  lemma NeverSavedLocationAbsent(store: Store)
    requires LatitudeKey !in store || LongitudeKey !in store
    ensures StoredLocation(store) == None
  {
  }

  /** Freshness boundary: fresh 1799 seconds after the stamp, stale at exactly 1800. */
  lemma FreshnessBoundary(store: Store, stamp: Instant)
    ensures IsFresh(WithUpdateTime(store, stamp), stamp)
    ensures IsFresh(WithUpdateTime(store, stamp), stamp + 1799)
    ensures !IsFresh(WithUpdateTime(store, stamp), stamp + 1800)
  {
  }

  /** With no stamp the reference is distantPast, so data is stale at any instant after year 1. */
  lemma NoStampIsStale(store: Store, now: Instant)
    requires LastUpdateTimeKey !in store
    requires now >= DistantPast + FreshnessWindow
    ensures !IsFresh(store, now)
  {
  }

  /**
   * Each save writes only its own keys: the other loads are unaffected and
   * every other key, lastLocationName included, keeps its value.
   */
  lemma SavesAreIndependent(store: Store, w: WeatherData, latitude: real, longitude: real, now: Instant)
    ensures StoredLocation(WithWeather(store, w)) == StoredLocation(store)
    ensures LastUpdate(WithWeather(store, w)) == LastUpdate(store)
    ensures StoredWeather(WithLocation(store, latitude, longitude)) == StoredWeather(store)
    ensures LastUpdate(WithLocation(store, latitude, longitude)) == LastUpdate(store)
    ensures StoredWeather(WithUpdateTime(store, now)) == StoredWeather(store)
    ensures StoredLocation(WithUpdateTime(store, now)) == StoredLocation(store)
    ensures WithWeather(store, w).Keys == store.Keys + {LastWeatherDataKey}
    ensures WithLocation(store, latitude, longitude).Keys == store.Keys + {LatitudeKey, LongitudeKey}
    ensures WithUpdateTime(store, now).Keys == store.Keys + {LastUpdateTimeKey}
    ensures forall k :: k in store && k != LastWeatherDataKey ==> WithWeather(store, w)[k] == store[k]
    ensures forall k :: k in store && k != LatitudeKey && k != LongitudeKey ==> WithLocation(store, latitude, longitude)[k] == store[k]
    ensures forall k :: k in store && k != LastUpdateTimeKey ==> WithUpdateTime(store, now)[k] == store[k]
  {
  }
}
