# Cache-or-fetch core of the location/weather/meetups server

This project models the caching policy of `server.js`, a small Express server. The server answers three queries:

- `/location` geocodes a search text;
- `/weather` returns a daily forecast for a location;
- `/meetups` returns upcoming events near a location.

Each handler first looks in a Postgres table. On a miss it asks an external provider. `getWeather` also asks the provider when the cached forecasts are stale, and it is the only handler that checks staleness. `getLocation` turns the first geocoder result into a location, stores it and sends that one object. `getWeather` and `getMeetups` turn every item of the answer into a record, insert each record and send the list. The database is modelled as an abstract table store. Providers are modelled as inputs. The clock and `formatTime` are parameters.

Modules:

- `Json` (json.dfy) models JavaScript objects as ordered property lists. It defines property read (`Get`), property assignment (`Set`, which appends a new non-index key at the end), `Object.keys`, `Object.values`, and the row that a positional `INSERT ... VALUES ($1, ..., $n)` stores (`Bind`). With these, the order of an INSERT's value tuple (the record's fields in declaration order, then the location id) becomes a statement about which column receives which field.
- `Records` (records.dfy) holds the provider payloads and the constructors `Location`, `Event` and `Forecast` (`NewLocation`, `NewEvent`, `NewForecast`). It also holds the `record.id = locationId` tagging and the column lists of the three INSERT statements.
- `Freshness` (freshness.dfy) holds the `timeouts` table and `Judge`. `Judge` is the decision `checkTimeouts` takes on a cached set: nothing cached, expired, or fresh.
- `Storage` (store.dfy) is the `Store` class. Its fields are the `locations` table, a map from (endpoint table, `location_id`) to the rows of that group, and the next serial id. Its methods are the SQL statements the handlers issue, plus `CheckTimeouts`. `Valid()` says that every row sits in the group of its own `location_id`, that every weather row has an integer `created_at`, and that every location row carries an id already handed out.
- `Server` (server.dfy) holds `GetLocation`, `GetWeather` and `GetMeetups`. Their `.map` loops are `StoreForecasts` and `StoreEvents`.

Behaviour of the code a reader may not expect:

- **Provider failures and empty answers send nothing.** `handleError` replies only when it is given the response object (server.js:44), and no call passes it. In `getLocation` and `getMeetups` a failed or empty provider answer reaches `handleError(error)` at server.js:147 and server.js:241. So in all three handlers an empty or failed provider answer leaves the request unanswered (`NoResponse`), not answered with HTTP 500.
- **In `getWeather` a provider failure is an unhandled rejection.** The `superagent` chain at server.js:176-194 has no `.catch`, and it is not returned to the outer chain. So the `throw` at server.js:179, or a rejected forecast request, becomes an unhandled promise rejection. On Node 15 and later that ends the whole process. The model records only that this request gets no response.
- **`getMeetups` never expires anything.** It serves any non-empty cached set whatever its age (server.js:216-219). The 6-hour `meetup` entry of the timeout table is never consulted.
- **The location INSERT sets no `created_at`.** It names only four columns (server.js:131).
- **Fresh and cached bodies differ in shape.** A freshly fetched forecast or event carries the location id as `id`. The stored row carries it as `location_id`. So the body sent after a refresh is not the body a later cache hit sends (`Server.RefreshBodyDiffersFromCachedBody`).
- **The timeout comments are wrong.** The values are the arithmetic in the code: the movie limit is 30 days and the trail limit 7 days, not 30 and 7 hours.

## Model

| member | source | states |
|---|---|---|
| `Json.Set` | server.js:139 | Assigning `o.k = v` (for a key that is not an array index, as every assigned key here is) makes `k` read `v` and leaves every other key's value alone. An existing key keeps its position. A new key is appended at the end. |
| `Json.BindGet` | server.js:131-132 | With distinct column names, the column `cols[i]` of an inserted row holds the i-th positional parameter. |
| `Records.NewLocation` | server.js:331-336 | `search_query` is the caller's query text. `formatted_query` is `formatted_address`. `latitude`/`longitude` are `geometry.location.lat`/`lng`. The keys are exactly the four INSERT columns, in order, and there is no `id` yet. |
| `Records.NewForecast` | server.js:339-343 | `forecast` is the day's `summary`. `time` is `formatTime(day.time*1000)`. `created_at` is the clock reading. There are three keys in declaration order and no `id`. |
| `Records.NewEvent` | server.js:323-328 | `link` and `name` are copied. `creation_date` is `formatTime(created)`. `host` is `group.name`. There are four keys in order and no `id`. |
| `Records.Tag` | server.js:183 | After `record.id = locationId` (also `event_info.id` at server.js:230), `id` reads the location id and every other key reads what it read before. A record without an `id` gains it as its last property. |
| `Records.ForecastTuple` | server.js:183-186 | The weather INSERT's value tuple is summary, formatted time, clock reading, then the location id. After tagging, `id` reads the location id. |
| `Records.ForecastInsert` | server.js:185-188 | The stored weather row has the day's summary and time under `forecast` and `time`, the clock reading under `created_at`, and the location id under `location_id`. It has no `id`. |
| `Records.EventTuple` | server.js:230-233 | The meetup INSERT's value tuple is link, name, creation date, host, then the location id. |
| `Records.EventInsert` | server.js:232-235 | The stored meetup row has each event field under its own column and the location id under `location_id`. It has no `id`. |
| `Records.LocationInsert` | server.js:131-132 | The location INSERT binds exactly the record's own keys in order, so the stored columns are the record itself. |
| `Freshness.TableName` | server.js:54 | The table of an endpoint is its name plus `s`: `weathers`, and `meetups`, which is the table `getMeetups` reads. |
| `Freshness.TableNamesDistinct` | server.js:54 | Two endpoints address the same table exactly when they are the same endpoint, so keying row groups by endpoint is keying them by table. |
| `Freshness.Timeout` | server.js:67-73 | The limits are weather 15 000, meetup 21 600 000, yelp 86 400 000, movie 2 592 000 000 and trail 604 800 000 ms. |
| `Freshness.MovieAndTrailLimitsAreDays` | server.js:66-73 | Movie is 30 days and trail 7 days, not 30 and 7 hours. The limits are ordered weather < meetup < yelp < trail < movie. |
| `Freshness.Age` | server.js:84 | For an integer `created_at` the age is `now` minus that timestamp. A fractional number and `NULL` also give an age (`NULL` counts as 0). The age is undefined (`NaN`) exactly when `created_at` is absent or text. In JavaScript only absent or non-numeric text gives `NaN`; the model also reads numeric text as `NaN` (see ## Left out). |
| `Freshness.Judge` | server.js:83-86 | The verdict is "nothing cached" exactly when there are no rows. When the first row has an integer timestamp, the set is expired exactly when `now` minus that timestamp exceeds the endpoint's limit. |
| `Freshness.NumericStampsExpire` | server.js:84-86 | A first row whose `created_at` is fractional or `NULL` still has an age, and the set is purged once that age exceeds the limit. A non-numeric text timestamp gives `NaN`, so the set is served. |
| `Freshness.JudgeCases` | server.js:83-86 | Nothing cached holds exactly when there are no rows. A set is expired exactly when it is non-empty and the first row's age is strictly greater than the limit. Rows after the first never matter. |
| `Freshness.BoundaryIsFresh` | server.js:86 | An age equal to the limit is fresh. One millisecond more is expired. |
| `Storage.FirstMatch` | server.js:113-117 | A location returned by the lookup is a stored row whose `search_query` is the query. |
| `Storage.FirstMatchIsFirst` | server.js:109-117 | The location lookup yields the earliest row whose `search_query` is the query, and nothing exactly when no row matches. |
| `Storage.FirstMatchAppend` | server.js:128-140 | After a miss, a row appended with that search text is what the next lookup returns. |
| `Storage.AppendedStep` | server.js:181-191 | Inserting rows one per loop pass appends them to their group in order. |
| `Storage.PurgeIsolated` | server.js:87-89 | Deleting one (table, location id) group leaves every other group of every table unchanged. Afterwards that group is empty. |
| `Storage.Store.Select` | server.js:53-63 | `getSqlData` returns the rows of the (table, location id) group. Every returned row's `location_id` is the requested id. Every returned weather row has an integer `created_at`. |
| `Storage.Store.FindLocation` | server.js:109-117 | The loop returns the first location row matching the query. It returns a row only if the row is stored and matches, and returns nothing only if no row matches. |
| `Storage.Store.InsertLocation` | server.js:131-139 | The row is stored with a new id at the end of `locations`. The id differs from every existing row's id. Other tables are untouched. |
| `Storage.Store.InsertRow` | server.js:185-188 | The row joins the end of the group named by its own `location_id`, and the store stays valid. A weather row must carry an integer `created_at`, as every forecast does. |
| `Storage.Store.Delete` | server.js:87-89 | Exactly the one (table, location id) group is removed. |
| `Storage.Store.CheckTimeouts` | server.js:82-94 | The cached rows are the group's own rows, as `getSqlData` hands them over (server.js:168-169). With no rows: returns nothing and changes nothing. When the first row is older than the limit: deletes exactly that group and returns nothing. Otherwise: returns the cached rows unchanged and changes nothing. |
| `Server.Forecasts` | server.js:181-191 | The response list has one forecast per provider day. Forecast i carries day i's summary, the i-th clock reading as `created_at`, and the location id as `id`. |
| `Server.Events` | server.js:228-237 | The response list has one event per provider event. Event i carries event i's link and group name, and the location id as `id`. |
| `Server.ForecastsFollowProvider` | server.js:181-191 | There is one forecast and one stored row per provider day, in provider order. Each forecast's values are summary, formatted time, the i-th clock reading and the location id. Each row carries that reading and the location id. |
| `Server.EventsFollowProvider` | server.js:228-237 | There is one event and one stored row per provider event, in order. Each event's values are link, name, formatted creation date, host and the location id. |
| `Server.RefreshedForecastsExpire` | server.js:84-86 | Forecasts stored by a refresh are judged fresh exactly while the first day's clock reading is at most 15 000 ms old, and never "nothing cached". |
| `Server.RefreshBodyDiffersFromCachedBody` | server.js:183-192 | The refresh response names the location id `id`, and the stored rows do not. So the refresh body and the later cached body differ. |
| `Server.LocationLookupIsStable` | server.js:128-140 | The location row stored on a miss equals the object sent back. The next lookup of the same text returns it. The equality holds for every key; as whole objects, it relies on the model placing the returned `id` after the INSERT's columns. |
| `Server.GetLocation` | server.js:105-152 | A stored match is sent as is, with no insert. On a miss with a failed or empty geocoder answer, nothing is stored or sent. Otherwise exactly one location is built from `results[0]` with the query text, stored under a new id, and sent with that id. Weather and meetup tables are untouched. |
| `Server.GetWeather` | server.js:163-198 | A fresh set is sent verbatim with no change. Otherwise an expired set's group is purged. A failed or empty provider answer then sends nothing and inserts nothing. Any other answer sends one forecast per day in provider order, and afterwards the group holds exactly the new rows. A sent list is never empty. |
| `Server.StoreForecasts` | server.js:181-191 | The loop returns exactly the tagged forecasts in provider order and appends their rows, in order, to the request's weather group. |
| `Server.GetMeetups` | server.js:210-245 | A non-empty cached set is sent whatever its age, with no purge. Otherwise a failed or empty answer sends and inserts nothing. Any other answer sends one event per provider event, in order, and the group then holds exactly their rows. |
| `Server.StoreEvents` | server.js:228-237 | The loop returns exactly the tagged events in order and appends their rows, in order, to the request's meetup group. |

## Left out

- HTTP plumbing is not modelled: Express routing, CORS, `app.listen`, and `res.send`/`res.status`. A response is a returned `Response` value.
- The `pg.Client` connection and its error listener are not modelled. Every store operation succeeds. The storage-error paths are therefore left out. A failed SELECT reaches the outer `.catch` (server.js:151, 197, 244), and a failed location INSERT reaches the one at server.js:143. Each calls `handleError(error)` without the response object, so the request is left unanswered, as on the provider paths.
- The real HTTP calls to the geocoder, forecast and events providers are not modelled, nor are their URLs and API keys. Each provider is an input: the list it answered with, or a failure. The request's latitude and longitude only go into those URLs.
- `formatTime` is the parameter `fmt` and is left uninterpreted. Its `Date.toString().slice(0,15)` output depends on the locale and the time zone.
- `Date.now()` is not read. The freshness check takes `now`, and forecast i is stamped with `clock(i)`, the reading taken while it is built.
- `getMovies`, `getTrails` and `getYelps` are not modelled. Their bodies are unfinished (empty conditions, undefined variables, all labelled `movie`) and no route reaches them. Their timeout entries are kept.
- Concurrency is not modelled. The DELETE and the weather and meetup INSERTs (server.js:89, 188, 235) are not awaited, and concurrent requests can interleave. Each request is one sequential step in which any purge happens before the inserts.
- The table schemas are not part of the source, so database-generated columns (serial ids of weather and meetup rows, column defaults) are not modelled. A stored row holds the columns its INSERT names. A location row also holds the returned `id`, placed after those columns.
- A SELECT without ORDER BY has no fixed row order. The model returns a group's rows in insertion order.
- JavaScript numbers are modelled as unbounded integers (times, ids) and reals (coordinates). `day.time*1000` is exact. The location id from the query string is taken to be an integer.
- Freshness.Age: a numeric string such as `"1"` in `created_at` is turned into a number by JavaScript. The model treats every text value as `NaN`, because it does not parse strings. Integers, fractional numbers, `NULL` and absent values are modelled exactly.
- Freshness.Judge: a set whose first row has a numeric-string `created_at` is judged fresh, where JavaScript may find it expired. This follows from the `Freshness.Age` line above. Every other kind of timestamp is judged as in JavaScript.
- Storage.Store.CheckTimeouts: its contract gives the JavaScript outcome for every first row except one with a numeric-string `created_at`. In the model's store that case does not arise for weather rows: `Storage.Store.Valid` requires every weather row to have an integer `created_at`, and every row the weather handler stores has one (`Records.ForecastInsert`). The stored `Int` stands for whatever numeric form the database driver returns. A BIGINT or NUMERIC column comes back from node-postgres as a numeric string, and JavaScript's `-` converts it, so the verdict is the one the model computes from the `Int`. The cached rows are tied to the store by a precondition, as `getSqlData` hands them over.
- Malformed provider items are not modelled. Every geocoder result, forecast day and event is taken to have the fields the constructors read. In the source, an event without `group` throws inside the `.map` at server.js:228 (at server.js:327), after the INSERTs of the earlier events have been issued (server.js:235). Nothing is sent, but the group keeps that prefix of rows. Because `getMeetups` never expires, the partial set is served from then on. A `null` day in `getWeather`'s `.map` (server.js:181) likewise leaves a prefix of rows, then ends in an unhandled rejection. `Server.GetMeetups` and `Server.GetWeather` promise "no inserts" only for a failed or empty provider answer.
