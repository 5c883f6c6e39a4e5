/** The database the handlers talk to, as an abstract table store: the
    `locations` table, and for every endpoint table the rows grouped by their
    `location_id`. */
module Storage {
  import opened Json
  import opened Freshness

  /** A row group: the endpoint whose table `TableName(e)` holds the rows
      (one table per endpoint, by `TableNamesDistinct`), and the location id
      the `WHERE location_id=$1` clause selects. */
  type Key = (Endpoint, int)

  /** The rows of one group, in insertion order; a group never written is empty. */
  function RowsAt(tables: map<Key, seq<Object>>, key: Key): seq<Object>
  {
    if key in tables then tables[key] else []
  }

  /** The tables after `rows` were inserted one by one into the group `key`. */
  function Appended(tables: map<Key, seq<Object>>, key: Key, rows: seq<Object>): map<Key, seq<Object>>
  {
    if rows == [] then tables else tables[key := RowsAt(tables, key) + rows]
  }

  /** Inserting rows one at a time appends them in order. */
  lemma AppendedStep(tables: map<Key, seq<Object>>, key: Key, rows: seq<Object>, row: Object)
    ensures var t := Appended(tables, key, rows);
            t[key := RowsAt(t, key) + [row]] == Appended(tables, key, rows + [row])
  {
    var t := Appended(tables, key, rows);
    if rows == [] {
      assert rows + [row] == [row];
    } else {
      assert RowsAt(t, key) + [row] == RowsAt(tables, key) + (rows + [row]);
      assert t[key := RowsAt(t, key) + [row]] == tables[key := RowsAt(tables, key) + (rows + [row])];
    }
  }

  /** The `search_query=$1` condition of the location lookup. */
  predicate Matches(row: Object, query: string)
  {
    Get(row, "search_query") == Some(Text(query))
  }

  /** The first location row whose search text is `query`: `rows[0]` of the
      lookup's result. */
  function FirstMatch(rows: seq<Object>, query: string): (m: Option<Object>)
    ensures m.Some? ==> m.value in rows && Matches(m.value, query)
  {
    if rows == [] then None
    else if Matches(rows[0], query) then Some(rows[0])
    else FirstMatch(rows[1..], query)
  }

  /** `FirstMatch` finds the earliest matching row, and nothing when no row matches. */
  lemma {:induction false} FirstMatchIsFirst(rows: seq<Object>, query: string)
    ensures FirstMatch(rows, query) == None <==> forall j :: 0 <= j < |rows| ==> !Matches(rows[j], query)
    ensures FirstMatch(rows, query).Some? ==>
              exists k :: 0 <= k < |rows| && rows[k] == FirstMatch(rows, query).value && Matches(rows[k], query)
                          && forall j :: 0 <= j < k ==> !Matches(rows[j], query)
  {
    if rows != [] && !Matches(rows[0], query) {
      FirstMatchIsFirst(rows[1..], query);
      if FirstMatch(rows, query).Some? {
        var k :| 0 <= k < |rows[1..]| && rows[1..][k] == FirstMatch(rows, query).value && Matches(rows[1..][k], query)
                 && forall j :: 0 <= j < k ==> !Matches(rows[1..][j], query);
        assert rows[k + 1] == rows[1..][k];
        assert forall j :: 0 <= j < k + 1 ==> !Matches(rows[j], query) by {
          forall j | 0 <= j < k + 1 ensures !Matches(rows[j], query) {
            if j > 0 { assert rows[j] == rows[1..][j - 1]; }
          }
        }
      }
    }
  }

  /** A row appended after a lookup that found nothing is what the same lookup finds next. */
  lemma {:induction false} FirstMatchAppend(rows: seq<Object>, row: Object, query: string)
    requires FirstMatch(rows, query) == None && Matches(row, query)
    ensures FirstMatch(rows + [row], query) == Some(row)
  {
    if rows != [] {
      assert (rows + [row])[1..] == rows[1..] + [row];
      FirstMatchAppend(rows[1..], row, query);
    }
  }

  /** The row carries an `id` below `bound`. */
  predicate IdBelow(row: Object, bound: int)
  {
    match Get(row, "id")
    case Some(Int(n)) => n < bound
    case _ => false
  }

  class Store {
    /** The `locations` table. */
    var locations: seq<Object>
    /** Every other table, row group by row group. */
    var tables: map<Key, seq<Object>>
    /** The next id the `locations` serial column hands out. */
    var nextId: int

    /** Every row sits in the group of its own `location_id`, every weather
        row has an integer `created_at`, and every location row has an id the
        serial column has already handed out. */
    ghost predicate Valid()
      reads this
    {
      && (forall key :: key in tables ==>
            forall row :: row in tables[key] ==>
              Get(row, "location_id") == Some(Int(key.1)) && (key.0 == Weather ==> Stamped(row)))
      && (forall row :: row in locations ==> IdBelow(row, nextId))
    }

    constructor ()
      ensures Valid()
      ensures locations == [] && tables == map[] && nextId == 1
    {
      locations := [];
      tables := map[];
      nextId := 1;
    }

    /** `getSqlData`: `SELECT * FROM ${endpoint}s WHERE location_id=$1`. */
    method Select(e: Endpoint, locationId: int) returns (rows: seq<Object>)
      requires Valid()
      ensures rows == RowsAt(tables, (e, locationId))
      ensures forall row :: row in rows ==> Get(row, "location_id") == Some(Int(locationId))
      ensures e == Weather ==> forall row :: row in rows ==> Stamped(row)
    {
      rows := if (e, locationId) in tables then tables[(e, locationId)] else [];
    }

    /** `SELECT * FROM locations WHERE search_query=$1`, keeping `rows[0]`. */
    method FindLocation(query: string) returns (found: Option<Object>)
      ensures found == FirstMatch(locations, query)
      ensures found.Some? ==> found.value in locations && Matches(found.value, query)
      ensures found.None? ==> forall row :: row in locations ==> !Matches(row, query)
    {
      var i := 0;
      while i < |locations|
        invariant 0 <= i <= |locations|
        invariant FirstMatch(locations, query) == FirstMatch(locations[i..], query)
        invariant forall j :: 0 <= j < i ==> !Matches(locations[j], query)
      {
        if Matches(locations[i], query) {
          return Some(locations[i]);
        }
        assert locations[i..][1..] == locations[i + 1..];
        i := i + 1;
      }
      return None;
    }

    /** `INSERT INTO locations (...) VALUES (...) RETURNING id`: the row is
        stored with a newly generated id, which is returned. */
    method InsertLocation(row: Object) returns (id: int)
      requires Valid()
      modifies this
      ensures Valid()
      ensures id == old(nextId) && nextId == old(nextId) + 1
      ensures locations == old(locations) + [Set(row, "id", Int(id))]
      ensures forall r :: r in old(locations) ==> Get(r, "id") != Some(Int(id))
      ensures tables == old(tables)
    {
      id := nextId;
      assert forall r :: r in locations ==> IdBelow(r, id + 1);
      locations := locations + [Set(row, "id", Int(id))];
      nextId := nextId + 1;
    }

    /** An INSERT into the table of `e` of a row whose `location_id` is
        `locationId`: the row joins the end of that group. */
    method InsertRow(e: Endpoint, locationId: int, row: Object)
      requires Valid()
      requires Get(row, "location_id") == Some(Int(locationId))
      requires e == Weather ==> Stamped(row)
      modifies this
      ensures Valid()
      ensures tables == old(tables)[(e, locationId) := RowsAt(old(tables), (e, locationId)) + [row]]
      ensures locations == old(locations) && nextId == old(nextId)
    {
      tables := tables[(e, locationId) := RowsAt(tables, (e, locationId)) + [row]];
    }

    /** `DELETE FROM ${endpoint}s WHERE location_id=$1`: exactly one group goes. */
    method Delete(e: Endpoint, locationId: int)
      requires Valid()
      modifies this
      ensures Valid()
      ensures tables == old(tables) - {(e, locationId)}
      ensures locations == old(locations) && nextId == old(nextId)
    {
      tables := tables - {(e, locationId)};
    }

    /** `checkTimeouts`: with nothing cached, nothing happens and nothing is
        returned; with an expired set, its whole group is deleted and nothing is
        returned; a fresh set is handed back untouched. */
    method CheckTimeouts(e: Endpoint, locationId: int, cached: seq<Object>, now: int)
      returns (result: Option<seq<Object>>)
      requires Valid()
      requires cached == RowsAt(tables, (e, locationId))
      modifies this
      ensures Valid()
      ensures result == (if Judge(e, cached, now) == Fresh then Some(cached) else None)
      ensures tables == (if Judge(e, cached, now) == Expired then old(tables) - {(e, locationId)} else old(tables))
      ensures locations == old(locations) && nextId == old(nextId)
    {
      if |cached| > 0 {
        var age := Age(now, cached[0]);
        if age.Some? && age.value > Timeout(e) as real {
          Delete(e, locationId);
          return None;
        }
        return Some(cached);
      }
      return None;
    }
  }

  /** A purge removes exactly one group: every other group, of the same table
      or another, keeps its rows. */
  lemma PurgeIsolated(tables: map<Key, seq<Object>>, key: Key, other: Key)
    requires other != key
    ensures RowsAt(tables - {key}, other) == RowsAt(tables, other)
    ensures RowsAt(tables - {key}, key) == []
  {
  }
}
