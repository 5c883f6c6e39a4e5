/** The request handlers `getLocation`, `getWeather` and `getMeetups`: serve
    from the store, or call the provider, normalise what it returns, persist
    it and send it. Providers are inputs: the list they answered with, or a
    failed request. */
module Server {
  import opened Json
  import opened Records
  import opened Freshness
  import opened Storage

  /** The outcome of one provider request. */
  datatype Fetch<T> = Fetched(items: seq<T>) | Failed

  /** A response body: one object (`/location`) or a list of them. */
  datatype Body = One(record: Object) | Many(records: seq<Object>)

  /** What reaches the client. On the provider error paths the handlers only
      log, so the request is left without a response. */
  datatype Response = Sent(body: Body) | NoResponse

  /** The forecasts `getWeather` builds from the provider's days, in provider
      order: day i is stamped with the i-th clock reading and tagged with the
      request's location id. */
  function Forecasts(days: seq<DailyForecast>, locationId: int, clock: nat -> int, fmt: int -> string): (fs: seq<Object>)
    ensures |fs| == |days|
    ensures forall i :: 0 <= i < |days| ==>
              && Get(fs[i], "forecast") == Some(Text(days[i].summary))
              && Get(fs[i], "created_at") == Some(Int(clock(i)))
              && Get(fs[i], "id") == Some(Int(locationId))
  {
    var fs := seq(|days|, i requires 0 <= i < |days| => TaggedForecast(days[i], clock(i), fmt, locationId));
    assert forall i :: 0 <= i < |days| ==> Get(fs[i], "created_at") == Some(Int(clock(i))) by {
      forall i | 0 <= i < |days| ensures Get(fs[i], "created_at") == Some(Int(clock(i))) {
        assert "created_at" != "id";
      }
    }
    fs
  }

  /** The rows the weather INSERTs store, one per forecast. */
  function ForecastRows(days: seq<DailyForecast>, locationId: int, clock: nat -> int, fmt: int -> string): seq<Object>
  {
    seq(|days|, i requires 0 <= i < |days| => WeatherRow(days[i], clock(i), fmt, locationId))
  }

  /** The events `getMeetups` builds from the provider's events, in order. */
  function Events(events: seq<UpcomingEvent>, locationId: int, fmt: int -> string): (es: seq<Object>)
    ensures |es| == |events|
    ensures forall i :: 0 <= i < |events| ==>
              && Get(es[i], "link") == Some(Text(events[i].link))
              && Get(es[i], "host") == Some(Text(events[i].groupName))
              && Get(es[i], "id") == Some(Int(locationId))
  {
    seq(|events|, i requires 0 <= i < |events| => TaggedEvent(events[i], fmt, locationId))
  }

  /** The rows the meetup INSERTs store, one per event. */
  function EventRows(events: seq<UpcomingEvent>, locationId: int, fmt: int -> string): seq<Object>
  {
    seq(|events|, i requires 0 <= i < |events| => MeetupRow(events[i], fmt, locationId))
  }

  /** One forecast and one stored row per provider day, in provider order, each
      carrying the day's summary and time, its clock reading and the location id. */
  lemma ForecastsFollowProvider(days: seq<DailyForecast>, locationId: int, clock: nat -> int, fmt: int -> string)
    ensures |Forecasts(days, locationId, clock, fmt)| == |ForecastRows(days, locationId, clock, fmt)| == |days|
    ensures forall i :: 0 <= i < |days| ==>
              Values(Forecasts(days, locationId, clock, fmt)[i])
              == [Text(days[i].summary), Text(fmt(days[i].time * 1000)), Int(clock(i)), Int(locationId)]
    ensures forall i :: 0 <= i < |days| ==>
              && Get(ForecastRows(days, locationId, clock, fmt)[i], "created_at") == Some(Int(clock(i)))
              && Get(ForecastRows(days, locationId, clock, fmt)[i], "location_id") == Some(Int(locationId))
  {
    forall i | 0 <= i < |days|
      ensures Values(Forecasts(days, locationId, clock, fmt)[i])
              == [Text(days[i].summary), Text(fmt(days[i].time * 1000)), Int(clock(i)), Int(locationId)]
      ensures Get(ForecastRows(days, locationId, clock, fmt)[i], "created_at") == Some(Int(clock(i)))
      ensures Get(ForecastRows(days, locationId, clock, fmt)[i], "location_id") == Some(Int(locationId))
    {
      ForecastTuple(days[i], clock(i), fmt, locationId);
      ForecastInsert(days[i], clock(i), fmt, locationId);
    }
  }

  /** One event and one stored row per provider event, in order, each carrying
      the event's fields and the location id. */
  lemma EventsFollowProvider(events: seq<UpcomingEvent>, locationId: int, fmt: int -> string)
    ensures |Events(events, locationId, fmt)| == |EventRows(events, locationId, fmt)| == |events|
    ensures forall i :: 0 <= i < |events| ==>
              Values(Events(events, locationId, fmt)[i])
              == [Text(events[i].link), Text(events[i].name), Text(fmt(events[i].created)),
                  Text(events[i].groupName), Int(locationId)]
    ensures forall i :: 0 <= i < |events| ==>
              Get(EventRows(events, locationId, fmt)[i], "location_id") == Some(Int(locationId))
  {
    forall i | 0 <= i < |events|
      ensures Values(Events(events, locationId, fmt)[i])
              == [Text(events[i].link), Text(events[i].name), Text(fmt(events[i].created)),
                  Text(events[i].groupName), Int(locationId)]
      ensures Get(EventRows(events, locationId, fmt)[i], "location_id") == Some(Int(locationId))
    {
      EventTuple(events[i], fmt, locationId);
      EventInsert(events[i], fmt, locationId);
    }
  }

  /** After a refresh, the stored forecasts stay fresh exactly until the first
      day's clock reading is more than fifteen seconds old. */
  lemma RefreshedForecastsExpire(days: seq<DailyForecast>, locationId: int, clock: nat -> int, fmt: int -> string, now: int)
    requires days != []
    ensures Judge(Weather, ForecastRows(days, locationId, clock, fmt), now) == Fresh <==> now - clock(0) <= 15_000
    ensures Judge(Weather, ForecastRows(days, locationId, clock, fmt), now) != Missing
  {
    ForecastInsert(days[0], clock(0), fmt, locationId);
  }

  /** The body sent right after a refresh is not the body a later cache hit
      sends: the built forecasts carry the location id as `id`, the stored rows
      carry it as `location_id`. */
  lemma RefreshBodyDiffersFromCachedBody(days: seq<DailyForecast>, locationId: int, clock: nat -> int, fmt: int -> string)
    requires days != []
    ensures Get(Forecasts(days, locationId, clock, fmt)[0], "id") == Some(Int(locationId))
    ensures Get(ForecastRows(days, locationId, clock, fmt)[0], "id") == None
    ensures Forecasts(days, locationId, clock, fmt) != ForecastRows(days, locationId, clock, fmt)
  {
    ForecastInsert(days[0], clock(0), fmt, locationId);
  }

  /** The location row stored on a miss is the object sent back, and the next
      lookup of the same query finds exactly that row. */
  lemma LocationLookupIsStable(locations: seq<Object>, data: GeocodeResult, query: string, id: int)
    requires FirstMatch(locations, query) == None
    ensures var sent := Set(NewLocation(data, query), "id", Int(id));
            var stored := Set(Bind(LocationColumns, Values(NewLocation(data, query))), "id", Int(id));
            stored == sent && FirstMatch(locations + [stored], query) == Some(sent)
  {
    LocationInsert(data, query);
    FirstMatchAppend(locations, Set(NewLocation(data, query), "id", Int(id)), query);
  }

  /** `getLocation`: a stored location with this search text is sent as it is;
      otherwise the geocoder is asked, and its first result is normalised,
      stored under a new id and sent with that id. A failed or empty answer
      stores and sends nothing. */
  method GetLocation(db: Store, query: string, geocoder: Fetch<GeocodeResult>) returns (response: Response)
    requires db.Valid()
    modifies db
    ensures db.Valid()
    ensures db.tables == old(db.tables)
    ensures match FirstMatch(old(db.locations), query)
            case Some(row) =>
              response == Sent(One(row)) && db.locations == old(db.locations) && db.nextId == old(db.nextId)
            case None =>
              if geocoder.Failed? || geocoder.items == [] then
                response == NoResponse && db.locations == old(db.locations) && db.nextId == old(db.nextId)
              else
                var location := Set(NewLocation(geocoder.items[0], query), "id", Int(old(db.nextId)));
                && response == Sent(One(location))
                && db.locations == old(db.locations) + [location]
                && db.nextId == old(db.nextId) + 1
  {
    var found := db.FindLocation(query);
    if found.Some? {
      return Sent(One(found.value));
    }
    if geocoder.Failed? || |geocoder.items| == 0 {
      return NoResponse;
    }
    var location := NewLocation(geocoder.items[0], query);
    LocationInsert(geocoder.items[0], query);
    var id := db.InsertLocation(Bind(LocationColumns, Values(location)));
    location := Set(location, "id", Int(id));
    return Sent(One(location));
  }

  /** `getWeather`: a fresh cached set is sent as it is; an expired one is
      purged. Then the provider is asked; a failed or empty answer stores and
      sends nothing, otherwise one forecast per day is built, stored and sent,
      so the group holds exactly the new rows. */
  method GetWeather(db: Store, locationId: int, now: int, clock: nat -> int, fmt: int -> string,
                    darkSky: Fetch<DailyForecast>) returns (response: Response)
    requires db.Valid()
    modifies db
    ensures db.Valid()
    ensures db.locations == old(db.locations) && db.nextId == old(db.nextId)
    ensures var key := (Weather, locationId);
            var cached := RowsAt(old(db.tables), key);
            var verdict := Judge(Weather, cached, now);
            var kept := if verdict == Expired then old(db.tables) - {key} else old(db.tables);
            if verdict == Fresh then
              response == Sent(Many(cached)) && db.tables == old(db.tables)
            else if darkSky.Failed? || darkSky.items == [] then
              response == NoResponse && db.tables == kept
            else
              && response == Sent(Many(Forecasts(darkSky.items, locationId, clock, fmt)))
              && db.tables == kept[key := ForecastRows(darkSky.items, locationId, clock, fmt)]
    ensures response.Sent? ==> response.body.Many? && response.body.records != []
  {
    var cached := db.Select(Weather, locationId);
    var result := db.CheckTimeouts(Weather, locationId, cached, now);
    if result.Some? {
      return Sent(Many(result.value));
    }
    if darkSky.Failed? || |darkSky.items| == 0 {
      return NoResponse;
    }
    assert RowsAt(db.tables, (Weather, locationId)) == [];
    ghost var rows := ForecastRows(darkSky.items, locationId, clock, fmt);
    assert rows != [] && [] + rows == rows;
    var summaries := StoreForecasts(db, darkSky.items, locationId, clock, fmt);
    return Sent(Many(summaries));
  }

  /** What one pass of the weather loop adds: the i-th forecast and row, the
      row filed under the request's location id. */
  lemma ForecastStep(days: seq<DailyForecast>, locationId: int, clock: nat -> int, fmt: int -> string, i: nat)
    requires i < |days|
    ensures Forecasts(days, locationId, clock, fmt)[..i + 1]
            == Forecasts(days, locationId, clock, fmt)[..i] + [TaggedForecast(days[i], clock(i), fmt, locationId)]
    ensures ForecastRows(days, locationId, clock, fmt)[..i + 1]
            == ForecastRows(days, locationId, clock, fmt)[..i] + [WeatherRow(days[i], clock(i), fmt, locationId)]
    ensures Get(WeatherRow(days[i], clock(i), fmt, locationId), "location_id") == Some(Int(locationId))
    ensures Stamped(WeatherRow(days[i], clock(i), fmt, locationId))
  {
    ForecastInsert(days[i], clock(i), fmt, locationId);
  }

  /** The `daily.data.map` callback of `getWeather`, day by day: build the
      forecast, tag it, insert its values and keep it for the response. */
  method StoreForecasts(db: Store, days: seq<DailyForecast>, locationId: int, clock: nat -> int, fmt: int -> string)
    returns (summaries: seq<Object>)
    requires db.Valid() && days != []
    modifies db
    ensures db.Valid()
    ensures db.locations == old(db.locations) && db.nextId == old(db.nextId)
    ensures summaries == Forecasts(days, locationId, clock, fmt)
    ensures db.tables == Appended(old(db.tables), (Weather, locationId), ForecastRows(days, locationId, clock, fmt))
  {
    ghost var key := (Weather, locationId);
    ghost var base := db.tables;
    ghost var rows := ForecastRows(days, locationId, clock, fmt);
    summaries := [];
    var i := 0;
    while i < |days|
      invariant 0 <= i <= |days|
      invariant db.Valid()
      invariant db.locations == old(db.locations) && db.nextId == old(db.nextId)
      invariant summaries == Forecasts(days, locationId, clock, fmt)[..i]
      invariant db.tables == Appended(base, key, rows[..i])
    {
      var forecast := TaggedForecast(days[i], clock(i), fmt, locationId);
      var row := WeatherRow(days[i], clock(i), fmt, locationId);
      ForecastStep(days, locationId, clock, fmt, i);
      db.InsertRow(Weather, locationId, row);
      AppendedStep(base, key, rows[..i], row);
      summaries := summaries + [forecast];
      i := i + 1;
    }
    assert rows[..i] == rows;
  }

  /** `getMeetups`: any non-empty cached set is sent as it is, whatever its
      age (no clock is consulted and nothing is purged). Otherwise the provider
      is asked; a failed or empty answer stores and sends nothing, otherwise one
      event per provider event is built, stored and sent. */
  method GetMeetups(db: Store, locationId: int, fmt: int -> string, meetup: Fetch<UpcomingEvent>)
    returns (response: Response)
    requires db.Valid()
    modifies db
    ensures db.Valid()
    ensures db.locations == old(db.locations) && db.nextId == old(db.nextId)
    ensures var key := (Meetup, locationId);
            var cached := RowsAt(old(db.tables), key);
            if cached != [] then
              response == Sent(Many(cached)) && db.tables == old(db.tables)
            else if meetup.Failed? || meetup.items == [] then
              response == NoResponse && db.tables == old(db.tables)
            else
              && response == Sent(Many(Events(meetup.items, locationId, fmt)))
              && db.tables == old(db.tables)[key := EventRows(meetup.items, locationId, fmt)]
    ensures response.Sent? ==> response.body.Many? && response.body.records != []
  {
    var cached := db.Select(Meetup, locationId);
    if |cached| > 0 {
      return Sent(Many(cached));
    }
    if meetup.Failed? || |meetup.items| == 0 {
      return NoResponse;
    }
    assert RowsAt(db.tables, (Meetup, locationId)) == [];
    ghost var rows := EventRows(meetup.items, locationId, fmt);
    assert rows != [] && [] + rows == rows;
    var built := StoreEvents(db, meetup.items, locationId, fmt);
    return Sent(Many(built));
  }

  /** What one pass of the meetup loop adds: the i-th event and row, the row
      filed under the request's location id. */
  lemma EventStep(events: seq<UpcomingEvent>, locationId: int, fmt: int -> string, i: nat)
    requires i < |events|
    ensures Events(events, locationId, fmt)[..i + 1]
            == Events(events, locationId, fmt)[..i] + [TaggedEvent(events[i], fmt, locationId)]
    ensures EventRows(events, locationId, fmt)[..i + 1]
            == EventRows(events, locationId, fmt)[..i] + [MeetupRow(events[i], fmt, locationId)]
    ensures Get(MeetupRow(events[i], fmt, locationId), "location_id") == Some(Int(locationId))
  {
    EventInsert(events[i], fmt, locationId);
  }

  /** The `events.map` callback of `getMeetups`, event by event: build the
      record, tag it, insert its values and keep it for the response. */
  method StoreEvents(db: Store, events: seq<UpcomingEvent>, locationId: int, fmt: int -> string)
    returns (built: seq<Object>)
    requires db.Valid() && events != []
    modifies db
    ensures db.Valid()
    ensures db.locations == old(db.locations) && db.nextId == old(db.nextId)
    ensures built == Events(events, locationId, fmt)
    ensures db.tables == Appended(old(db.tables), (Meetup, locationId), EventRows(events, locationId, fmt))
  {
    ghost var key := (Meetup, locationId);
    ghost var base := db.tables;
    ghost var rows := EventRows(events, locationId, fmt);
    built := [];
    var i := 0;
    while i < |events|
      invariant 0 <= i <= |events|
      invariant db.Valid()
      invariant db.locations == old(db.locations) && db.nextId == old(db.nextId)
      invariant built == Events(events, locationId, fmt)[..i]
      invariant db.tables == Appended(base, key, rows[..i])
    {
      var eventInfo := TaggedEvent(events[i], fmt, locationId);
      var row := MeetupRow(events[i], fmt, locationId);
      EventStep(events, locationId, fmt, i);
      db.InsertRow(Meetup, locationId, row);
      AppendedStep(base, key, rows[..i], row);
      built := built + [eventInfo];
      i := i + 1;
    }
    assert rows[..i] == rows;
  }
}
