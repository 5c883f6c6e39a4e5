/** Provider payloads and the record constructors `Location`, `Event` and
    `Forecast` that normalise them, with the column lists of the INSERT
    statements that persist the records. */
module Records {
  import opened Json

  /** One entry of the geocoder's `results` list: `formatted_address` and
      `geometry.location.{lat,lng}`. */
  datatype GeocodeResult = GeocodeResult(formattedAddress: string, lat: real, lng: real)

  /** One entry of the forecast provider's `daily.data` list; `time` is in epoch seconds. */
  datatype DailyForecast = DailyForecast(summary: string, time: int)

  /** One entry of the events provider's `events` list; `created` is in epoch
      milliseconds and `groupName` is `group.name`. */
  datatype UpcomingEvent = UpcomingEvent(link: string, name: string, created: int, groupName: string)

  const LocationColumns: seq<string> := ["search_query", "formatted_query", "latitude", "longitude"]
  const WeatherColumns: seq<string> := ["forecast", "time", "created_at", "location_id"]
  const MeetupColumns: seq<string> := ["link", "name", "creation_date", "host", "location_id"]

  /** `new Location(result, req.query)`: the search text is the caller's query,
      not the provider's normalised address. */
  function NewLocation(data: GeocodeResult, query: string): (loc: Object)
    ensures Keys(loc) == LocationColumns
    ensures Get(loc, "search_query") == Some(Text(query))
    ensures Get(loc, "formatted_query") == Some(Text(data.formattedAddress))
    ensures Get(loc, "latitude") == Some(Real(data.lat))
    ensures Get(loc, "longitude") == Some(Real(data.lng))
    ensures Get(loc, "id") == None
  {
    var loc := [Field("search_query", Text(query)),
                Field("formatted_query", Text(data.formattedAddress)),
                Field("latitude", Real(data.lat)),
                Field("longitude", Real(data.lng))];
    GetAt(loc, 2);
    GetAt(loc, 3);
    GetAbsent(loc, "id");
    loc
  }

  /** `new Forecast(day)`: `fmt` stands for `formatTime`, which is applied to
      the day's timestamp converted to milliseconds; `now` is the clock reading
      taken while the record is built. */
  function NewForecast(day: DailyForecast, now: int, fmt: int -> string): (f: Object)
    ensures Keys(f) == ["forecast", "time", "created_at"]
    ensures Get(f, "forecast") == Some(Text(day.summary))
    ensures Get(f, "time") == Some(Text(fmt(day.time * 1000)))
    ensures Get(f, "created_at") == Some(Int(now))
    ensures Get(f, "id") == None
  {
    var f := [Field("forecast", Text(day.summary)),
              Field("time", Text(fmt(day.time * 1000))),
              Field("created_at", Int(now))];
    GetAt(f, 2);
    GetAbsent(f, "id");
    f
  }

  /** `new Event(event)`. */
  function NewEvent(data: UpcomingEvent, fmt: int -> string): (ev: Object)
    ensures Keys(ev) == ["link", "name", "creation_date", "host"]
    ensures Get(ev, "link") == Some(Text(data.link))
    ensures Get(ev, "name") == Some(Text(data.name))
    ensures Get(ev, "creation_date") == Some(Text(fmt(data.created)))
    ensures Get(ev, "host") == Some(Text(data.groupName))
    ensures Get(ev, "id") == None
  {
    var ev := [Field("link", Text(data.link)),
               Field("name", Text(data.name)),
               Field("creation_date", Text(fmt(data.created))),
               Field("host", Text(data.groupName))];
    GetAt(ev, 2);
    GetAt(ev, 3);
    GetAbsent(ev, "id");
    ev
  }

  /** `record.id = locationId`, done by the weather and meetup handlers on
      every record they build. */
  function Tag(record: Object, locationId: int): (tagged: Object)
    ensures Get(tagged, "id") == Some(Int(locationId))
    ensures forall k :: k != "id" ==> Get(tagged, k) == Get(record, k)
    ensures Get(record, "id") == None ==> tagged == record + [Field("id", Int(locationId))]
  {
    Set(record, "id", Int(locationId))
  }

  /** The forecast `getWeather` builds for one day: `new Forecast(day)`, then
      `forecast.id = locationId`. */
  function TaggedForecast(day: DailyForecast, now: int, fmt: int -> string, locationId: int): Object
  {
    Tag(NewForecast(day, now, fmt), locationId)
  }

  /** The row the weather INSERT stores for that forecast. */
  function WeatherRow(day: DailyForecast, now: int, fmt: int -> string, locationId: int): Object
  {
    ForecastTuple(day, now, fmt, locationId);
    Bind(WeatherColumns, Values(TaggedForecast(day, now, fmt, locationId)))
  }

  /** The event `getMeetups` builds for one provider event: `new Event(event)`,
      then `event_info.id = locationId`. */
  function TaggedEvent(data: UpcomingEvent, fmt: int -> string, locationId: int): Object
  {
    Tag(NewEvent(data, fmt), locationId)
  }

  /** The row the meetup INSERT stores for that event. */
  function MeetupRow(data: UpcomingEvent, fmt: int -> string, locationId: int): Object
  {
    EventTuple(data, fmt, locationId);
    Bind(MeetupColumns, Values(TaggedEvent(data, fmt, locationId)))
  }

  /** The value tuple of the weather INSERT is the forecast's fields in
      declaration order followed by the location id. */
  lemma ForecastTuple(day: DailyForecast, now: int, fmt: int -> string, locationId: int)
    ensures Values(TaggedForecast(day, now, fmt, locationId))
            == [Text(day.summary), Text(fmt(day.time * 1000)), Int(now), Int(locationId)]
    ensures Get(TaggedForecast(day, now, fmt, locationId), "id") == Some(Int(locationId))
  {
  }

  /** Binding that tuple to the column list puts each field in the column of
      the same meaning: the stored row holds the day's summary and time, the
      clock reading and the location id (as `location_id`, not `id`). */
  lemma ForecastInsert(day: DailyForecast, now: int, fmt: int -> string, locationId: int)
    ensures var row := WeatherRow(day, now, fmt, locationId);
            && Get(row, "forecast") == Some(Text(day.summary))
            && Get(row, "time") == Some(Text(fmt(day.time * 1000)))
            && Get(row, "created_at") == Some(Int(now))
            && Get(row, "location_id") == Some(Int(locationId))
            && Get(row, "id") == None
  {
    ForecastTuple(day, now, fmt, locationId);
    var vals := Values(TaggedForecast(day, now, fmt, locationId));
    assert Distinct(WeatherColumns);
    BindGet(WeatherColumns, vals, 0);
    BindGet(WeatherColumns, vals, 1);
    BindGet(WeatherColumns, vals, 2);
    BindGet(WeatherColumns, vals, 3);
    BindMissing(WeatherColumns, vals, "id");
  }

  /** The value tuple of the meetup INSERT is the event's fields in
      declaration order followed by the location id. */
  lemma EventTuple(data: UpcomingEvent, fmt: int -> string, locationId: int)
    ensures Values(TaggedEvent(data, fmt, locationId))
            == [Text(data.link), Text(data.name), Text(fmt(data.created)), Text(data.groupName), Int(locationId)]
    ensures Get(TaggedEvent(data, fmt, locationId), "id") == Some(Int(locationId))
  {
  }

  /** Binding that tuple to the column list puts each field in the column of
      the same meaning. */
  lemma EventInsert(data: UpcomingEvent, fmt: int -> string, locationId: int)
    ensures var row := MeetupRow(data, fmt, locationId);
            && Get(row, "link") == Some(Text(data.link))
            && Get(row, "name") == Some(Text(data.name))
            && Get(row, "creation_date") == Some(Text(fmt(data.created)))
            && Get(row, "host") == Some(Text(data.groupName))
            && Get(row, "location_id") == Some(Int(locationId))
            && Get(row, "id") == None
  {
    EventTuple(data, fmt, locationId);
    var vals := Values(TaggedEvent(data, fmt, locationId));
    assert Distinct(MeetupColumns);
    BindGet(MeetupColumns, vals, 0);
    BindGet(MeetupColumns, vals, 1);
    BindGet(MeetupColumns, vals, 2);
    BindGet(MeetupColumns, vals, 3);
    BindGet(MeetupColumns, vals, 4);
    BindMissing(MeetupColumns, vals, "id");
  }

  /** The location INSERT names exactly the record's own properties, in
      order, so the stored row is the record. */
  lemma LocationInsert(data: GeocodeResult, query: string)
    ensures |Values(NewLocation(data, query))| == |LocationColumns|
    ensures Bind(LocationColumns, Values(NewLocation(data, query))) == NewLocation(data, query)
  {
  }
}
