# Weatherism widget: data pipeline model

A Dafny model of the data pipeline behind the Weatherism home-screen widget, without its SwiftUI views. It covers four parts:

- **Weather conditions** (`WeatherModels`). The `WidgetWeatherData` record and its Codable form. The total lookup from a WMO weather code to one of eight conditions; unknown codes, negatives included, give `Clear`. Each condition's display name and icon name.
- **Shared cache** (`SharedCache`). `UserDefaults.shared` is modelled as a class `SharedDefaults` whose one field is the key/value map of the suite. It has one method per operation of the extension. Pure functions give what each load reads from a map and what each save writes to it. The lemmas relate those functions.
- **Weather service** (`WeatherService`). The class `WidgetWeatherService` holds six fields:
  - the shared cache it writes to;
  - the location completion slot (`pending` stands for "`locationCompletion` is set");
  - the last delivered location;
  - every value a continuation was resumed with;
  - the requests made on the location manager;
  - the network calls made.

  The delegate callbacks and the 10-second timeout are methods, each specified by the pure transition `Deliver`. `GetCurrentLocation` arms the slot, runs the events that arrive within 10 seconds, then fires its timer; it returns the first value the continuation was resumed with. `FetchCurrentLocationWeather` runs three tiers in order: live location, then saved location, then cached record. It is specified by the pure function `Refresh`. The field extraction of `fetchWeatherData` and the name choice of `getLocationName` are pure functions over parsed JSON (`Json.Value`).
- **Timeline provider** (`Widget`). `placeholder`, `snapshot` and `timeline`. `timeline` is a loop that builds four entries 30 minutes apart and asks for a reload 30 minutes later.

Outside inputs are parameters:

- the authorization status at call time;
- the location manager's callbacks, as a sequence of `LocationEvent`s;
- the parsed reply body of each network call (`Replies`; `None` for a transport or parse error);
- the current time, as integer seconds since 2001-01-01 (Date's reference date).

Four behaviours of the code are easy to miss:

- **Location sentinel.** `loadUserLocation` treats the pair as absent when *either* component is 0, not only at (0, 0) (`LocationZeroComponentRejected`). One consequence: a live coordinate on the equator or the prime meridian is saved, then reads back as absent. If its weather fetch fails, tier 2 is skipped even when a usable location had been saved before (`ZeroLiveCoordinateHidesSavedLocation`).
- **Empty country name.** `getLocationName` accepts an empty `countryName` as the name (`PlaceNameEmptyOnlyFromCountry`). It does not treat it as "try next".
- **Resolving twice.** Suppose the authorization status is denied or restricted when `getCurrentLocation` starts. The continuation is then resumed with nil at once, but the slot stays set. The 10-second timer then resumes the same continuation a second time (`DirectResolutionResumesTwice`). Resolution is single only when the call starts authorized or not-determined (`SingleResolution`).
- **Stale timer.** `getCurrentLocation` returns as soon as its continuation is first resumed, and its 10-second timer stays armed. The timer checks only that some completion is set, not whose it is. The provider keeps one service for `snapshot` and `timeline`. So when an earlier call's timer fires while a later call is waiting, the later call is resumed with nil. A location that arrives just after is stored but not returned (`StaleTimerCutsShort`).

## Model

| member | source | states |
|---|---|---|
| `WeatherModels.FromCode` | WeatherismApp/WeatherismWidget/WeatherWidgetModels.swift:41-62 | every listed code lands in the condition whose code set contains it; every other integer, negatives included, gives Clear |
| `WeatherModels.FromCodeIff` | WeatherismApp/WeatherismWidget/WeatherWidgetModels.swift:42-60 | a code maps to a condition exactly when the table lists it under that condition, or the condition is Clear and the code is unlisted |
| `WeatherModels.CodeTableDisjoint` | WeatherismApp/WeatherismWidget/WeatherWidgetModels.swift:43-58 | no code is listed under two conditions |
| `WeatherModels.DisplayName` | WeatherismApp/WeatherismWidget/WeatherWidgetModels.swift:64-75 | each condition's display name is non-empty and reads back to that condition |
| `WeatherModels.Icon` | WeatherismApp/WeatherismWidget/WeatherWidgetModels.swift:77-88 | each condition's icon name is non-empty and reads back to that condition |
| `WeatherModels.DisplayNameInjective` | WeatherismApp/WeatherismWidget/WeatherWidgetModels.swift:64-75 | each condition's display name reads back to that condition, so no two conditions share one |
| `WeatherModels.IconInjective` | WeatherismApp/WeatherismWidget/WeatherWidgetModels.swift:77-88 | each condition's icon name reads back to that condition, so no two conditions share one |
| `WeatherModels.Encode` | WeatherismApp/WeatherismWidget/WeatherWidgetModels.swift:12-18 | the encoded record is an object with exactly the six coding keys |
| `WeatherModels.Decode` | WeatherismApp/WeatherismWidget/WeatherWidgetModels.swift:12-18 | a decoded record comes only from an object holding all six coding keys; each field is the number or string stored under its key, and the date is the stored seconds rounded down to a whole second |
| `WeatherModels.DecodeEncode` | WeatherismApp/WeatherismWidget/WeatherWidgetModels.swift:12-27 | decoding an encoded record gives back all six fields as stored |
| `WeatherModels.DecodeNeedsEveryKey` | WeatherismApp/WeatherismWidget/WeatherWidgetModels.swift:12-18 | a document missing any coding key does not decode |
| `SharedCache.SharedDefaults.SaveWeatherData` | WeatherismApp/WeatherismWidget/SharedUserDefaults.swift:23-27 | writes the encoded record under `lastWeatherData` and changes no other key |
| `SharedCache.SharedDefaults.LoadWeatherData` | WeatherismApp/WeatherismWidget/SharedUserDefaults.swift:30-36 | returns the decoded record under `lastWeatherData`, nil if missing, not data, or undecodable |
| `SharedCache.SharedDefaults.SaveUserLocation` | WeatherismApp/WeatherismWidget/SharedUserDefaults.swift:39-42 | writes the two coordinate keys and no other key |
| `SharedCache.SharedDefaults.LoadUserLocation` | WeatherismApp/WeatherismWidget/SharedUserDefaults.swift:45-53 | present exactly when both stored doubles are nonzero, and then equal to them |
| `SharedCache.SharedDefaults.IsDataFresh` | WeatherismApp/WeatherismWidget/SharedUserDefaults.swift:56-59 | true exactly when less than 1800 seconds have passed since the stored stamp, or since distantPast when there is none |
| `SharedCache.SharedDefaults.MarkDataAsUpdated` | WeatherismApp/WeatherismWidget/SharedUserDefaults.swift:62-64 | writes the current time under `lastUpdateTime` and no other key |
| `SharedCache.WeatherRoundTrip` | WeatherismApp/WeatherismWidget/SharedUserDefaults.swift:23-36 | after saving a record, loading gives it back |
| `SharedCache.WeatherAbsent` | WeatherismApp/WeatherismWidget/SharedUserDefaults.swift:31-34 | loading gives nil when the key is missing or holds bytes that are not a JSON document |
| `SharedCache.LocationRoundTrip` | WeatherismApp/WeatherismWidget/SharedUserDefaults.swift:39-53 | after saving a pair with both components nonzero, loading gives exactly that pair |
| `SharedCache.LocationZeroComponentRejected` | WeatherismApp/WeatherismWidget/SharedUserDefaults.swift:46-52 | a saved pair with a zero in either component loads as absent |
| `SharedCache.NeverSavedLocationAbsent` | WeatherismApp/WeatherismWidget/SharedUserDefaults.swift:46-52 | unset coordinate keys read as 0, so a never-saved location is absent |
| `SharedCache.FreshnessBoundary` | WeatherismApp/WeatherismWidget/SharedUserDefaults.swift:56-64 | right after stamping the data is fresh, still fresh 1799 s later, stale at exactly 1800 s |
| `SharedCache.NoStampIsStale` | WeatherismApp/WeatherismWidget/SharedUserDefaults.swift:57-58 | with no stamp stored, data is stale at every instant 30 minutes or more after distantPast |
| `SharedCache.SavesAreIndependent` | WeatherismApp/WeatherismWidget/SharedUserDefaults.swift:14-64 | each save adds only its own keys, keeps every other key's value (`lastLocationName` included) and leaves the other two loads unchanged |
| `WeatherService.OutcomeResumes` | WeatherismApp/WeatherismWidget/WidgetWeatherService.swift:73-96 | every location request resumes its continuation at least once (the timer guarantees it) and ends with the slot cleared |
| `WeatherService.RunProgress` | WeatherismApp/WeatherismWidget/WidgetWeatherService.swift:150-172 | callbacks never revoke an earlier resumption, and a pending slot is cleared only by resuming |
| `WeatherService.LateDeliveriesIgnored` | WeatherismApp/WeatherismWidget/WidgetWeatherService.swift:150-172 | once the slot is cleared, any later callbacks or timer resume nothing |
| `WeatherService.FiringClears` | WeatherismApp/WeatherismWidget/WidgetWeatherService.swift:150-169 | a location, error, denial or restriction fires a pending slot with its value and clears it |
| `WeatherService.NonResolvingEvents` | WeatherismApp/WeatherismWidget/WidgetWeatherService.swift:150-166 | an empty location list changes nothing; a change to authorized only adds a location request |
| `WeatherService.SingleResolution` | WeatherismApp/WeatherismWidget/WidgetWeatherService.swift:73-96 | a request started authorized or not-determined is resumed exactly once, whatever events arrive |
| `WeatherService.DirectResolutionResumesTwice` | WeatherismApp/WeatherismWidget/WidgetWeatherService.swift:79-94 | a request started denied or restricted resumes with nil but leaves the slot set, so the timer resumes it a second time |
| `WeatherService.DirectResolutionAcquiresNothing` | WeatherismApp/WeatherismWidget/WidgetWeatherService.swift:79-86 | a request started denied or restricted yields no location, whatever arrives later |
| `WeatherService.QuietEventsResolveNothing` | WeatherismApp/WeatherismWidget/WidgetWeatherService.swift:150-172 | empty location lists and authorization changes other than denied or restricted leave the slot as it was and resume nothing |
| `WeatherService.FirstLocationWins` | WeatherismApp/WeatherismWidget/WidgetWeatherService.swift:150-155 | after any events that resolve nothing, the first non-empty location delivery decides the result; later events are ignored and the service holds a current location |
| `WeatherService.TimeoutGivesNothing` | WeatherismApp/WeatherismWidget/WidgetWeatherService.swift:73-96 | a request started authorized or not-determined that sees only events resolving nothing is resumed once, by its timer, with nil |
| `WeatherService.StaleTimerCutsShort` | WeatherismApp/WeatherismWidget/WidgetWeatherService.swift:73-96 | a timer left armed by an earlier call that fires while a later call waits resumes the later call with nil, whatever arrives afterwards; a location arriving right after is stored but not returned |
| `WeatherService.RunResumesOnlyDelivered` | WeatherismApp/WeatherismWidget/WidgetWeatherService.swift:150-172 | every location a continuation is resumed with while events are delivered is the first entry of one of those events' non-empty location lists |
| `WeatherService.AcquiredWasDelivered` | WeatherismApp/WeatherismWidget/WidgetWeatherService.swift:73-96 | a request returns a location only if one of its events delivered that location first in a non-empty list |
| `WeatherService.GrantedThenLocated` | WeatherismApp/WeatherismWidget/WidgetWeatherService.swift:82-83 | on the not-determined path, a change to authorized followed by a location yields that location |
| `WeatherService.ParseCurrentWeatherReads` | WeatherismApp/WeatherismWidget/WidgetWeatherService.swift:109-116 | any reply whose `current` object holds the four fields as numbers (humidity and code integral) yields exactly those fields, whatever other keys either level carries |
| `WeatherService.ParseCurrentWeatherNeedsEveryField` | WeatherismApp/WeatherismWidget/WidgetWeatherService.swift:109-121 | in any reply, a missing or non-numeric field in `current` yields nil |
| `WeatherService.ParseCurrentWeatherNeedsIntegers` | WeatherismApp/WeatherismWidget/WidgetWeatherService.swift:111-113 | in any reply, a fractional humidity or weather code fails `as? Int` and yields nil |
| `WeatherService.ParseCurrentWeatherNeedsCurrent` | WeatherismApp/WeatherismWidget/WidgetWeatherService.swift:105-121 | with no `current` object (including a transport or parse error) the result is nil |
| `WeatherService.PlaceNamePriority` | WeatherismApp/WeatherismWidget/WidgetWeatherService.swift:135-141 | the name is one of city, locality, countryName; a non-empty city wins; a non-empty locality loses only to a non-empty city |
| `WeatherService.PlaceNameEmptyOnlyFromCountry` | WeatherismApp/WeatherismWidget/WidgetWeatherService.swift:135-140 | an empty name comes only from an empty countryName, after city and locality were missing or empty |
| `WeatherService.PlaceNameAbsentIff` | WeatherismApp/WeatherismWidget/WidgetWeatherService.swift:135-146 | nil exactly when city and locality are missing or empty and countryName is missing |
| `WeatherService.LiveLocationPersisted` | WeatherismApp/WeatherismWidget/WidgetWeatherService.swift:28-31 | a live location is saved before the first weather fetch and stays saved whether the fetch succeeds or not |
| `WeatherService.LiveTier` | WeatherismApp/WeatherismWidget/WidgetWeatherService.swift:28-45 | live location plus a parsed reply gives the fetched fields, the resolved name or "Current Location"; the record is cached and stamped; exactly the two live calls are made |
| `WeatherService.SavedTier` | WeatherismApp/WeatherismWidget/WidgetWeatherService.swift:50-66 | after tier 1 fails, a saved location whose fetch parses gives the fetched fields, the resolved name or "Saved Location", cached and stamped, fetched at that location |
| `WeatherService.CachedTier` | WeatherismApp/WeatherismWidget/WidgetWeatherService.swift:69-70 | when both tiers fail the cached record is returned unchanged; only the live coordinate, if any, is written; weather and stamp keys are untouched |
| `WeatherService.NothingToFetch` | WeatherismApp/WeatherismWidget/WidgetWeatherService.swift:49-70 | with no live and no saved location: the cached record (nil if none), no network call, nothing written |
| `WeatherService.ZeroLiveCoordinateHidesSavedLocation` | WeatherismApp/WeatherismWidget/WidgetWeatherService.swift:28-50 | a live coordinate with a zero component whose fetch fails skips tier 2 and returns the cached record |
| `WeatherService.LiveFailureRefetchesSameCoordinate` | WeatherismApp/WeatherismWidget/WidgetWeatherService.swift:28-51 | when the live fetch fails at a nonzero coordinate, tier 2 fetches at that same coordinate again |
| `WeatherService.RefreshResultIsCached` | WeatherismApp/WeatherismWidget/WidgetWeatherService.swift:26-71 | whatever is returned is what the cache then holds; at most four calls; a name is resolved only right after a weather fetch at the same place |
| `WeatherService.WidgetWeatherService.DidUpdateLocations` | WeatherismApp/WeatherismWidget/WidgetWeatherService.swift:150-155 | ignores an empty list; otherwise records the first location and fires and clears the slot with it |
| `WeatherService.WidgetWeatherService.DidFailWithError` | WeatherismApp/WeatherismWidget/WidgetWeatherService.swift:157-161 | fires the slot with nil and clears it |
| `WeatherService.WidgetWeatherService.DidChangeAuthorization` | WeatherismApp/WeatherismWidget/WidgetWeatherService.swift:163-173 | authorized requests a location; denied or restricted fires with nil and clears; otherwise nothing |
| `WeatherService.WidgetWeatherService.TimeoutFired` | WeatherismApp/WeatherismWidget/WidgetWeatherService.swift:89-94 | fires a still-set slot with nil and clears it |
| `WeatherService.WidgetWeatherService.GetCurrentLocation` | WeatherismApp/WeatherismWidget/WidgetWeatherService.swift:73-96 | ends in the state given by arming, the events and the timer, and returns the continuation's first resumption |
| `WeatherService.WidgetWeatherService.FetchWeatherData` | WeatherismApp/WeatherismWidget/WidgetWeatherService.swift:98-122 | makes one weather call at the coordinate and returns the extracted fields |
| `WeatherService.WidgetWeatherService.GetLocationName` | WeatherismApp/WeatherismWidget/WidgetWeatherService.swift:124-147 | makes one geocoding call at the coordinate and returns the chosen name |
| `WeatherService.WidgetWeatherService.FetchTier` | WeatherismApp/WeatherismWidget/WidgetWeatherService.swift:31-45 | on a parsed reply, resolves the name, saves and stamps the record; otherwise writes nothing after the one fetch |
| `WeatherService.WidgetWeatherService.FetchCurrentLocationWeather` | WeatherismApp/WeatherismWidget/WidgetWeatherService.swift:26-71 | its result, new cache contents and network calls are those of `Refresh` applied to the acquired location |
| `Widget.Placeholder` | WeatherismApp/WeatherismWidget/WeatherismWidget.swift:14-26 | the placeholder is the snapshot of a fetch that returned nil |
| `Widget.Snapshot` | WeatherismApp/WeatherismWidget/WeatherismWidget.swift:28-41 | dated now; shows the fetched record as is, or the "Current Location" stand-in stamped now when the fetch returned nil |
| `Widget.SnapshotDefaults` | WeatherismApp/WeatherismWidget/WeatherismWidget.swift:28-57 | the snapshot's stand-in and the timeline's differ only in name ("Current Location" vs "Loading...") |
| `Widget.BuildTimeline` | WeatherismApp/WeatherismWidget/WeatherismWidget.swift:43-73 | four entries at 0, 30, 60 and 90 minutes, strictly increasing, all carrying the fetched record or the "Loading..." stand-in stamped when the fetch returned; reload 30 minutes after the current date |

## Left out

- SwiftUI views, the entry view and `backgroundGradient`: presentation only.
- CoreLocation, URLSession, URL construction and JSONSerialization are foreign calls. Their results are inputs: an authorization status, location events, and parsed reply bodies. The base URLs and query parameters are not modelled.
- Codable: JSONEncoder/JSONDecoder are modelled by an explicit encoding into a JSON object under the synthesized coding keys, not by the Foundation coders. JSON documents are kept as parsed values rather than bytes. Encoding never fails here because there are no NaN or infinite values.
- Floating point: temperatures, wind speeds and coordinates are reals. NaN, signed zero and rounding are not modelled; the code only stores these values or compares them to 0.
- Time: a `Date` is whole seconds since 2001-01-01, so sub-second stamps are not modelled; a stored record whose date has a fractional part decodes with the date rounded down to a whole second. The whole of one refresh uses a single `now`, and a snapshot a single clock reading, so clock movement between the record's creation and `markDataAsUpdated` is not modelled. Calendar minute arithmetic is 60 seconds per minute.
- `double(forKey:)`: string and boolean values converted to numbers are not modelled; any non-number reads as 0.
- JSON casts: a JSON boolean bridged to a number is not modelled, so `as? Double` and `as? Int` reject it here. Integers are unbounded, so a JSON integer outside Swift's 64-bit `Int` range, which `as? Int` and JSONDecoder reject, is accepted here.
- Authorization statuses: the five known `CLAuthorizationStatus` cases are modelled. A status added in a later OS version is not; the code's `default:` branches would treat it like denied when a request starts and ignore it as a change.
- The `print` calls that log weather, geocoding and location errors: console output only, not modelled.
- Concurrency: `withCheckedContinuation`, `DispatchQueue.main.asyncAfter` and cross-process writes to the shared suite are not modelled. Callbacks and timers are a sequence of events on one slot, and the cache is used by one process at a time. A second resumption of a checked continuation traps at runtime in Swift; the model only records it.
- `WeatherService.WidgetWeatherService.GetCurrentLocation`: the events given are those that arrive before its own 10-second timer, and the method fires that timer before it returns. The code returns at the first resumption with its timer still armed, so an earlier call's timer reaches a later call on the same service as a `TimerFired` among that call's events (`StaleTimerCutsShort`). Deliveries after a call's own timer are covered by `LateDeliveriesIgnored`, not by the method.
- `Widget.BuildTimeline` and `Widget.Snapshot` take the result of `fetchCurrentLocationWeather` as a parameter instead of calling the service. The configuration intent carried by each entry is not modelled.
- `AppIntent.swift` and `WeatherismWidgetBundle.swift`: no logic.
