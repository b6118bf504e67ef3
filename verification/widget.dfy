/**
 * The widget's timeline provider: a placeholder with no fetch, a snapshot,
 * and a timeline of four entries 30 minutes apart that all carry one
 * record, with a reload requested 30 minutes after the current date.
 * Each takes the current date, and snapshot and timeline take the result of
 * fetchCurrentLocationWeather.
 */
module Widget {
  import opened Wrappers
  import opened WeatherModels

  /** WeatherEntry without its configuration intent. */
  datatype Entry = Entry(date: Instant, data: WeatherData)

  /** Timeline(entries:policy: .after(reloadAfter)) */
  datatype Timeline = Timeline(entries: seq<Entry>, reloadAfter: Instant)

  const SecondsPerMinute: int := 60
  /** Entries are spaced, and the reload is scheduled, 30 minutes apart. */
  const RefreshMinutes: int := 30
  /** The timeline covers minute offsets 0 up to (excluding) 120. */
  const WindowMinutes: int := 120

  /** The stand-in record used when nothing was fetched. */
  function DefaultData(name: string, now: Instant): WeatherData {
    WeatherData(25.0, 0, 60, 10.0, name, now)
  }

  /** placeholder(in:): no fetch, a fixed "Current Location" record. */
  function Placeholder(now: Instant): (e: Entry)
    ensures e == Snapshot(None, now)
  {
    Entry(now, DefaultData("Current Location", now))
  }

  /** snapshot(for:in:): the fetched record, or the "Current Location" default. */
  function Snapshot(fetched: Option<WeatherData>, now: Instant): (e: Entry)
    ensures e.date == now
    ensures fetched.Some? ==> e.data == fetched.value
    ensures fetched.None? ==> e.data == DefaultData("Current Location", now)
  {
    Entry(now, fetched.GetOr(DefaultData("Current Location", now)))
  }

  /** The snapshot's stand-in and the timeline's differ only in their name. */
  lemma SnapshotDefaults(now: Instant)
    ensures Snapshot(None, now).data.(locationName := "Loading...") == DefaultData("Loading...", now)
    ensures Snapshot(None, now).data.locationName == "Current Location"
  {
  }

  /**
   * timeline(for:in:): `now` is the current date read before the fetch,
   * `fetchedAt` the clock when the stand-in record is built after it.
   */
  method BuildTimeline(fetched: Option<WeatherData>, now: Instant, fetchedAt: Instant) returns (t: Timeline)
    ensures |t.entries| == 4
    ensures forall i :: 0 <= i < |t.entries| ==> t.entries[i].date == now + i * RefreshMinutes * SecondsPerMinute
    ensures forall i, j :: 0 <= i < j < |t.entries| ==> t.entries[i].date < t.entries[j].date
    ensures fetched.Some? ==> forall i :: 0 <= i < |t.entries| ==> t.entries[i].data == fetched.value
    ensures fetched.None? ==> forall i :: 0 <= i < |t.entries| ==> t.entries[i].data == DefaultData("Loading...", fetchedAt)
    ensures t.reloadAfter == now + RefreshMinutes * SecondsPerMinute
  {
    var finalData := fetched.GetOr(DefaultData("Loading...", fetchedAt));
    var entries: seq<Entry> := [];
    var minuteOffset := 0;
    while minuteOffset < WindowMinutes
      invariant 0 <= minuteOffset <= WindowMinutes && minuteOffset % RefreshMinutes == 0
      invariant |entries| == minuteOffset / RefreshMinutes
      invariant forall i :: 0 <= i < |entries| ==> entries[i] == Entry(now + i * RefreshMinutes * SecondsPerMinute, finalData)
    {
      entries := entries + [Entry(now + minuteOffset * SecondsPerMinute, finalData)];
      minuteOffset := minuteOffset + RefreshMinutes;
    }
    t := Timeline(entries, now + RefreshMinutes * SecondsPerMinute);
  }
}
