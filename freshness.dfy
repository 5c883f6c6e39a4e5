/** The per-endpoint maximum age of cached rows (`timeouts`) and the decision
    `checkTimeouts` takes on a cached row set. */
module Freshness {
  import opened Json

  /** The endpoints the timeout table names; the table holding an endpoint's
      rows is its name followed by "s". */
  datatype Endpoint = Weather | Meetup | Yelp | Movie | Trail

  function Name(e: Endpoint): string
  {
    match e
    case Weather => "weather"
    case Meetup => "meetup"
    case Yelp => "yelp"
    case Movie => "movie"
    case Trail => "trail"
  }

  /** The table `${endpoint}s` that `getSqlData` and `checkTimeouts` address. */
  function TableName(e: Endpoint): (t: string)
    ensures e == Weather ==> t == "weathers"
    ensures e == Meetup ==> t == "meetups"
  {
    Name(e) + "s"
  }

  /** Distinct endpoints address distinct tables, so a row group can be keyed
      by the endpoint instead of the table name. */
  lemma TableNamesDistinct(e1: Endpoint, e2: Endpoint)
    ensures TableName(e1) == TableName(e2) <==> e1 == e2
  {
    if e1 != e2 {
      assert TableName(e1)[0] != TableName(e2)[0] || TableName(e1)[1] != TableName(e2)[1];
    }
  }

  /** `timeouts[endpoint]` in milliseconds. */
  function Timeout(e: Endpoint): (ms: nat)
    ensures e == Weather ==> ms == 15_000
    ensures e == Meetup ==> ms == 21_600_000
    ensures e == Yelp ==> ms == 86_400_000
    ensures e == Movie ==> ms == 2_592_000_000
    ensures e == Trail ==> ms == 604_800_000
  {
    match e
    case Weather => 1000 * 15
    case Meetup => 1000 * 60 * 60 * 6
    case Yelp => 1000 * 60 * 60 * 24
    case Movie => 1000 * 60 * 60 * 24 * 30
    case Trail => 1000 * 60 * 60 * 24 * 7
  }

  /** The movie limit is thirty days and the trail limit seven days (not
      thirty and seven hours); weather is the shortest and movie the longest. */
  lemma MovieAndTrailLimitsAreDays()
    ensures Timeout(Movie) == 30 * 24 * 3_600_000 && Timeout(Movie) != 30 * 3_600_000
    ensures Timeout(Trail) == 7 * 24 * 3_600_000 && Timeout(Trail) != 7 * 3_600_000
    ensures Timeout(Weather) < Timeout(Meetup) < Timeout(Yelp) < Timeout(Trail) < Timeout(Movie)
  {
  }

  /** `Date.now() - row.created_at`. An integer, a fractional number and SQL
      `NULL` (which subtraction reads as 0) give a number; an absent value or
      text gives `NaN`, written `None`. */
  function Age(now: int, row: Object): (age: Option<real>)
    ensures Stamped(row) ==> age == Some((now - Get(row, "created_at").value.i) as real)
    ensures age.None? <==> Get(row, "created_at").None? || Get(row, "created_at").value.Text?
  {
    match Get(row, "created_at")
    case Some(Int(t)) => Some((now - t) as real)
    case Some(Real(r)) => Some(now as real - r)
    case Some(Null) => Some(now as real)
    case _ => None
  }

  /** The row's `created_at` holds an integer timestamp, as every row the
      weather handler stores does. */
  predicate Stamped(row: Object)
  {
    Get(row, "created_at").Some? && Get(row, "created_at").value.Int?
  }

  datatype Verdict = Missing | Expired | Fresh

  /** What `checkTimeouts` makes of a cached row set: nothing cached, cached
      but older than the endpoint's limit (judged by the first row only), or
      fresh. A `NaN` age never compares greater, so such rows are fresh. */
  function Judge(e: Endpoint, cached: seq<Object>, now: int): (v: Verdict)
    ensures v == Missing <==> cached == []
    ensures cached != [] && Stamped(cached[0]) ==>
              (v == Expired <==> now - Get(cached[0], "created_at").value.i > Timeout(e))
  {
    if |cached| == 0 then Missing
    else
      match Age(now, cached[0])
      case Some(age) => if age > Timeout(e) as real then Expired else Fresh
      case None => Fresh
  }

  /** Expiry is strict: a cached set is expired exactly when it is non-empty and
      its first row is older than the limit; later rows are never looked at. */
  lemma JudgeCases(e: Endpoint, cached: seq<Object>, now: int)
    ensures Judge(e, cached, now) == Missing <==> cached == []
    ensures Judge(e, cached, now) == Expired <==>
              cached != [] && Age(now, cached[0]).Some? && Age(now, cached[0]).value > Timeout(e) as real
    ensures cached != [] ==> Judge(e, cached, now) == Judge(e, cached[..1], now)
  {
  }

  /** An age equal to the limit is still fresh; one millisecond more is not. */
  lemma BoundaryIsFresh(e: Endpoint, row: Object, rest: seq<Object>, t: int)
    requires Get(row, "created_at") == Some(Int(t))
    ensures Judge(e, [row] + rest, t + Timeout(e)) == Fresh
    ensures Judge(e, [row] + rest, t + Timeout(e) + 1) == Expired
  {
  }

  /** A fractional or `NULL` timestamp still yields an age, so a set whose
      first row carries one is purged once that age passes the limit. */
  lemma NumericStampsExpire(e: Endpoint, now: int, r: real, rest: seq<Object>)
    ensures now as real - r > Timeout(e) as real ==>
              Judge(e, [[Field("created_at", Real(r))]] + rest, now) == Expired
    ensures now > Timeout(e) ==> Judge(e, [[Field("created_at", Null)]] + rest, now) == Expired
    ensures Judge(e, [[Field("created_at", Text("soon"))]] + rest, now) == Fresh
  {
  }
}
