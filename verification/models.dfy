/**
 * The widget's value types: the cached weather record and the eight-way
 * weather condition derived from a WMO weather code, with its display name
 * and SF Symbols icon name.
 */
module WeatherModels {
  import opened Wrappers
  import Json

  /** A point in time, in whole seconds since Date's reference date (2001-01-01 00:00 UTC). */
  type Instant = int

  /** A latitude/longitude pair in degrees. */
  datatype Coordinate = Coordinate(latitude: real, longitude: real)

  /**
   * WidgetWeatherData: one "current conditions" reading. The initializer
   * stores its six arguments verbatim; `lastUpdated` defaults to the clock,
   * which callers here pass explicitly.
   */
  datatype WeatherData = WeatherData(
    temperature: real,
    weatherCode: int,
    humidity: int,
    windSpeed: real,
    locationName: string,
    lastUpdated: Instant)

  datatype Condition = Clear | PartlyCloudy | Cloudy | Foggy | Drizzle | Rainy | Snowy | Stormy

  /** The table of weather codes each condition stands for, indexed by condition. */
  function CodesOf(c: Condition): set<int> {
    match c
    case Clear => {0, 1}
    case PartlyCloudy => {2}
    case Cloudy => {3}
    case Foggy => {45, 48}
    case Drizzle => {51, 53, 55}
    case Rainy => {61, 63, 65, 80, 81, 82}
    case Snowy => {71, 73, 75, 77, 85, 86}
    case Stormy => {95, 96, 99}
  }

  /** Every code the table names; all others fall back to Clear. */
  function ListedCodes(): (codes: set<int>)
    ensures forall c: Condition :: CodesOf(c) <= codes
  {
    CodesOf(Clear) + CodesOf(PartlyCloudy) + CodesOf(Cloudy) + CodesOf(Foggy)
    + CodesOf(Drizzle) + CodesOf(Rainy) + CodesOf(Snowy) + CodesOf(Stormy)
  }

  /** WidgetWeatherCondition.init(from:): total, unknown codes (negatives included) give Clear. */
  function FromCode(code: int): (c: Condition)
    ensures code in ListedCodes() ==> code in CodesOf(c)
    ensures code !in ListedCodes() ==> c == Clear
  {
    if code == 0 || code == 1 then Clear
    else if code == 2 then PartlyCloudy
    else if code == 3 then Cloudy
    else if code == 45 || code == 48 then Foggy
    else if code == 51 || code == 53 || code == 55 then Drizzle
    else if code == 61 || code == 63 || code == 65 || code == 80 || code == 81 || code == 82 then Rainy
    else if code == 71 || code == 73 || code == 75 || code == 77 || code == 85 || code == 86 then Snowy
    else if code == 95 || code == 96 || code == 99 then Stormy
    else Clear
  }

  /** The table is a function: no code is listed under two conditions. */
  lemma CodeTableDisjoint(a: Condition, b: Condition)
    requires a != b
    ensures CodesOf(a) * CodesOf(b) == {}
  {
  }

  /** Classification agrees with the table in both directions. */
  lemma FromCodeIff(code: int, c: Condition)
    ensures FromCode(code) == c <==> code in CodesOf(c) || (c == Clear && code !in ListedCodes())
  {
  }

  /** The label shown for a condition: a non-empty name that reads back as that condition. */
  function DisplayName(c: Condition): (r: string)
    ensures r != ""
    ensures ConditionNamed(r) == Some(c)
  {
    match c
    case Clear => "Clear"
    case PartlyCloudy => "Partly Cloudy"
    case Cloudy => "Cloudy"
    case Foggy => "Foggy"
    case Drizzle => "Drizzle"
    case Rainy => "Rainy"
    case Snowy => "Snowy"
    case Stormy => "Stormy"
  }

  /** The SF Symbol name shown for a condition: a non-empty name that reads back as that condition. */
  function Icon(c: Condition): (r: string)
    ensures r != ""
    ensures ConditionWithIcon(r) == Some(c)
  {
    match c
    case Clear => "sun.max"
    case PartlyCloudy => "cloud.sun"
    case Cloudy => "cloud"
    case Foggy => "cloud.fog"
    case Drizzle => "cloud.drizzle"
    case Rainy => "cloud.rain"
    case Snowy => "cloud.snow"
    case Stormy => "cloud.bolt.rain"
  }

  /** Reads a condition back from its display name. */
  function ConditionNamed(name: string): Option<Condition> {
    if name == "Clear" then Some(Clear)
    else if name == "Partly Cloudy" then Some(PartlyCloudy)
    else if name == "Cloudy" then Some(Cloudy)
    else if name == "Foggy" then Some(Foggy)
    else if name == "Drizzle" then Some(Drizzle)
    else if name == "Rainy" then Some(Rainy)
    else if name == "Snowy" then Some(Snowy)
    else if name == "Stormy" then Some(Stormy)
    else None
  }

  /** Reads a condition back from its icon name. */
  function ConditionWithIcon(icon: string): Option<Condition> {
    if icon == "sun.max" then Some(Clear)
    else if icon == "cloud.sun" then Some(PartlyCloudy)
    else if icon == "cloud" then Some(Cloudy)
    else if icon == "cloud.fog" then Some(Foggy)
    else if icon == "cloud.drizzle" then Some(Drizzle)
    else if icon == "cloud.rain" then Some(Rainy)
    else if icon == "cloud.snow" then Some(Snowy)
    else if icon == "cloud.bolt.rain" then Some(Stormy)
    else None
  }

  /** The display name determines the condition, so no two conditions share one. */
  lemma DisplayNameInjective(a: Condition, b: Condition)
    ensures ConditionNamed(DisplayName(a)) == Some(a)
    ensures DisplayName(a) == DisplayName(b) ==> a == b
  {
  }

  /** The icon name determines the condition, so no two conditions share one. */
  lemma IconInjective(a: Condition, b: Condition)
    ensures ConditionWithIcon(Icon(a)) == Some(a)
    ensures Icon(a) == Icon(b) ==> a == b
  {
  }

  // Codable: JSONEncoder writes the synthesized coding keys (the property
  // names); JSONDecoder reads them back and fails on a missing or mistyped key.

  const TemperatureKey: string := "temperature"
  const WeatherCodeKey: string := "weatherCode"
  const HumidityKey: string := "humidity"
  const WindSpeedKey: string := "windSpeed"
  const LocationNameKey: string := "locationName"
  const LastUpdatedKey: string := "lastUpdated"

  function CodingKeys(): set<string> {
    {TemperatureKey, WeatherCodeKey, HumidityKey, WindSpeedKey, LocationNameKey, LastUpdatedKey}
  }

  /** JSONEncoder().encode(w), as the document it writes. */
  function Encode(w: WeatherData): (doc: Json.Value)
    ensures doc.Object? && doc.fields.Keys == CodingKeys()
  {
    Json.Object(map[
      TemperatureKey := Json.Number(w.temperature),
      WeatherCodeKey := Json.Number(w.weatherCode as real),
      HumidityKey := Json.Number(w.humidity as real),
      WindSpeedKey := Json.Number(w.windSpeed),
      LocationNameKey := Json.Str(w.locationName),
      LastUpdatedKey := Json.Number(w.lastUpdated as real)])
  }

  /** JSONDecoder().decode(WidgetWeatherData.self, from:), nil where it throws. */
  function Decode(doc: Json.Value): (r: Option<WeatherData>)
    ensures r.Some? ==> doc.Object? && CodingKeys() <= doc.fields.Keys
    ensures r.Some? ==>
              && doc.fields[TemperatureKey] == Json.Number(r.value.temperature)
              && doc.fields[WeatherCodeKey] == Json.Number(r.value.weatherCode as real)
              && doc.fields[HumidityKey] == Json.Number(r.value.humidity as real)
              && doc.fields[WindSpeedKey] == Json.Number(r.value.windSpeed)
              && doc.fields[LocationNameKey] == Json.Str(r.value.locationName)
    ensures r.Some? ==>
              && doc.fields[LastUpdatedKey].Number?
              && r.value.lastUpdated == doc.fields[LastUpdatedKey].n.Floor
  {
    var o := Json.AsObject(Some(doc));
    var temperature := Json.AsDouble(Json.Lookup(o, TemperatureKey));
    var code := Json.AsInt(Json.Lookup(o, WeatherCodeKey));
    var humidity := Json.AsInt(Json.Lookup(o, HumidityKey));
    var wind := Json.AsDouble(Json.Lookup(o, WindSpeedKey));
    var name := Json.AsString(Json.Lookup(o, LocationNameKey));
    var updated := Json.AsDouble(Json.Lookup(o, LastUpdatedKey));
    if temperature.Some? && code.Some? && humidity.Some? && wind.Some? && name.Some? && updated.Some?
    then Some(WeatherData(temperature.value, code.value, humidity.value, wind.value, name.value, updated.value.Floor))
    else None
  }

  /** Encoding then decoding gives back the record field for field. */
  lemma {:induction false} DecodeEncode(w: WeatherData)
    ensures Decode(Encode(w)) == Some(w)
  {
    Json.IntNumberRoundTrip(w.weatherCode);
    Json.IntNumberRoundTrip(w.humidity);
  }

  /** Decoding fails when a coding key is missing. */
  lemma DecodeNeedsEveryKey(fields: map<string, Json.Value>, key: string)
    requires key in CodingKeys() && key !in fields
    ensures Decode(Json.Object(fields)) == None
  {
  }
}
