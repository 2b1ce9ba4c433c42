/** The in-memory device store and the three operations on it: ingest a
    reading (`post_sensor_data`), list the devices (`list_devices`) and query
    one device's readings (`get_device_values`).

    The module first gives each operation as a function on the store's value
    (`Db`), with the properties the service promises proved about those
    functions, and then the store object itself (`SensorStore`), whose methods
    update its fields in place and are proved to do what the functions say. */
module Store {
  import opened Options
  import opened Readings
  import opened Timeline
  import opened Retrieval

  /** The shared secret the ingest endpoint expects in `x-client-secret`. */
  const ClientSecret: string := "mysecret"

  /** The failures a caller sees: HTTP 401 and HTTP 404. */
  datatype Error = Unauthorized | NotFound

  datatype Outcome<T> = Ok(value: T) | Err(error: Error)

  /** The `storage` dict: each device's records, and the order in which the
      devices were first inserted, which is the order the dict's keys keep. */
  datatype Db = Db(storage: map<string, seq<Record>>, keys: seq<string>)

  predicate NoDuplicates(xs: seq<string>)
  {
    forall i, j :: 0 <= i < j < |xs| ==> xs[i] != xs[j]
  }

  /** What every reachable store satisfies: the key order lists each device
      once, a device is present only with at least one record, and every
      record sits under its own device. */
  predicate WellFormed(db: Db)
  {
    && NoDuplicates(db.keys)
    && (forall k :: k in db.storage ==> k in db.keys)
    && (forall k :: k in db.keys ==> k in db.storage)
    && (forall k :: k in db.storage ==> db.storage[k] != [])
    && (forall k, x :: k in db.storage && x in db.storage[k] ==> x.deviceId == k)
  }

  /** The store at process start (and after `storage.clear()`). */
  function Empty(): (db: Db)
    ensures WellFormed(db) && db.keys == [] && db.storage == map[]
  {
    Db(map[], [])
  }

  /** A device's records, `[]` for a device never seen (what
      `storage.setdefault(device_id, [])` starts from). */
  function RecordsOf(db: Db, k: string): seq<Record>
  {
    if k in db.storage then db.storage[k] else []
  }

  /** `post_sensor_data`: with the right secret, appends the reading, with the
      given id, to its device's list (creating the list, and the device's
      place in the key order, on first sight) and returns the id; with any
      other secret, or none, fails with `Unauthorized` and changes nothing. */
  function Post(db: Db, data: Reading, secret: Option<string>, id: string): (r: (Db, Outcome<string>))
    ensures secret != Some(ClientSecret) ==> r.0 == db && r.1 == Err(Unauthorized)
    ensures secret == Some(ClientSecret) ==>
      && r.1 == Ok(id)
      && r.0.storage.Keys == db.storage.Keys + {data.deviceId}
      && RecordsOf(r.0, data.deviceId) == RecordsOf(db, data.deviceId) + [Stamp(data, id)]
      && (forall k :: k != data.deviceId ==> RecordsOf(r.0, k) == RecordsOf(db, k))
      && r.0.keys == (if data.deviceId in db.storage then db.keys else db.keys + [data.deviceId])
    ensures WellFormed(db) ==> WellFormed(r.0)
  {
    if secret != Some(ClientSecret) then (db, Err(Unauthorized))
    else
      var record := Stamp(data, id);
      var k := record.deviceId;
      var keys := if k in db.storage then db.keys else db.keys + [k];
      (Db(db.storage[k := RecordsOf(db, k) + [record]], keys), Ok(record.id))
  }

  /** `list_devices`: the dict's keys in insertion order. */
  function Devices(db: Db): (ids: seq<string>)
    ensures WellFormed(db) ==> NoDuplicates(ids)
    ensures WellFormed(db) ==> forall k :: k in ids <==> RecordsOf(db, k) != []
  {
    db.keys
  }

  /** The effect of `values.sort(...)` when `values` is the stored list:
      that device's records are reordered by timestamp, nothing else moves. */
  function SortInPlace(db: Db, deviceId: string): (r: Db)
    requires deviceId in db.storage
    ensures r.keys == db.keys && r.storage.Keys == db.storage.Keys
    ensures r.storage[deviceId] == SortByTimestamp(db.storage[deviceId])
    ensures forall k :: k != deviceId ==> RecordsOf(r, k) == RecordsOf(db, k)
    ensures multiset(r.storage[deviceId]) == multiset(db.storage[deviceId])
    ensures WellFormed(db) ==> WellFormed(r)
  {
    var sorted := SortByTimestamp(db.storage[deviceId]);
    assert forall x :: x in sorted ==> x in multiset(db.storage[deviceId]);
    db.(storage := db.storage[deviceId := sorted])
  }

  /** `get_device_values`: `NotFound` for a device never ingested; otherwise
      the filtered, sorted, limited records. Without a time filter the sort
      runs on the stored list itself, which stays sorted afterwards; with a
      filter it runs on a copy and the store is unchanged. */
  function GetValues(db: Db, deviceId: string, start: Option<int>, end: Option<int>, limit: Option<int>)
    : (r: (Db, Outcome<seq<Record>>))
    ensures deviceId !in db.storage ==> r == (db, Err(NotFound))
    ensures deviceId in db.storage ==> r.1 == Ok(Pipeline(db.storage[deviceId], start, end, limit))
    ensures r.0 == if deviceId in db.storage && start.None? && end.None? then SortInPlace(db, deviceId) else db
  {
    if deviceId !in db.storage then (db, Err(NotFound))
    else if start.None? && end.None? then
      var stored := SortInPlace(db, deviceId);
      (stored, Ok(Limited(stored.storage[deviceId], limit)))
    else
      (db, Ok(Pipeline(db.storage[deviceId], start, end, limit)))
  }

  /** Asking the same question twice in a row gives the same answer and
      leaves the store as the first asking left it. */
  lemma QueryIdempotent(db: Db, deviceId: string, start: Option<int>, end: Option<int>, limit: Option<int>)
    ensures var first := GetValues(db, deviceId, start, end, limit);
            GetValues(first.0, deviceId, start, end, limit) == first
  {
    var first := GetValues(db, deviceId, start, end, limit);
    if deviceId in db.storage && start.None? && end.None? {
      var v := db.storage[deviceId];
      var sorted := SortByTimestamp(v);
      SortIdempotent(v);
      var db1 := SortInPlace(db, deviceId);
      assert first == (db1, Ok(Limited(sorted, limit)));
      assert db1.storage[deviceId := SortByTimestamp(sorted)] == db1.storage;
      assert SortInPlace(db1, deviceId) == db1;
    } else if deviceId in db.storage {
      assert first.0 == db;
    }
  }

  /** A device whose records are already in timestamp order (as they are
      when readings arrive in time order) is answered from its list as
      stored, and the unfiltered query's in-place sort leaves it unchanged. */
  lemma UnfilteredQueryOnSorted(db: Db, deviceId: string, limit: Option<int>)
    requires deviceId in db.storage && Sorted(db.storage[deviceId])
    ensures GetValues(db, deviceId, None, None, limit) == (db, Ok(Limited(db.storage[deviceId], limit)))
  {
    SortKeepsSorted(db.storage[deviceId]);
    assert db.storage[deviceId := db.storage[deviceId]] == db.storage;
    assert SortInPlace(db, deviceId) == db;
  }

  /** The in-place sort of an unfiltered query is never observable through a
      later query: whatever was asked first, the second answer is the one it
      would have been on the store as it stood before. */
  lemma EarlierQueryInvisible(db: Db, d0: string, s0: Option<int>, e0: Option<int>, l0: Option<int>,
                              d1: string, s1: Option<int>, e1: Option<int>, l1: Option<int>)
    ensures GetValues(GetValues(db, d0, s0, e0, l0).0, d1, s1, e1, l1).1 == GetValues(db, d1, s1, e1, l1).1
  {
    if d0 == d1 && d0 in db.storage && s0.None? && e0.None? {
      PipelineAfterSort(db.storage[d0], s1, e1, l1);
    }
  }

  /** One call to the service, as a test or a client issues it. */
  datatype Call =
    | Ingest(data: Reading, secret: Option<string>, id: string)
    | Query(deviceId: string, start: Option<int>, end: Option<int>, limit: Option<int>)

  function Step(db: Db, c: Call): Db
  {
    match c
    case Ingest(data, secret, id) => Post(db, data, secret, id).0
    case Query(deviceId, start, end, limit) => GetValues(db, deviceId, start, end, limit).0
  }

  /** The store after a sequence of calls. */
  function Replay(db: Db, calls: seq<Call>): Db
    decreases |calls|
  {
    if calls == [] then db else Step(Replay(db, calls[..|calls| - 1]), calls[|calls| - 1])
  }

  /** The records a sequence of ingest calls would store, in call order. */
  function StampedRecords(calls: seq<Call>): seq<Record>
    requires forall i :: 0 <= i < |calls| ==> calls[i].Ingest?
    decreases |calls|
  {
    if calls == [] then []
    else
      var c := calls[|calls| - 1];
      StampedRecords(calls[..|calls| - 1]) + [Stamp(c.data, c.id)]
  }

  /** Accepted ingests for a single device, from an empty store, leave that
      device's records in the order they were posted (each with its own id
      and the client's timestamp) and that device as the only key. */
  lemma {:induction false} IngestsForOneDevice(calls: seq<Call>, deviceId: string)
    requires calls != []
    requires forall i :: 0 <= i < |calls| ==>
               calls[i].Ingest? && calls[i].secret == Some(ClientSecret) && calls[i].data.deviceId == deviceId
    ensures Replay(Empty(), calls) == Db(map[deviceId := StampedRecords(calls)], [deviceId])
    decreases |calls|
  {
    var prefix := calls[..|calls| - 1];
    var c := calls[|calls| - 1];
    assert Replay(Empty(), calls) == Post(Replay(Empty(), prefix), c.data, c.secret, c.id).0;
    if prefix == [] {
      assert StampedRecords(calls) == [] + [Stamp(c.data, c.id)];
    } else {
      IngestsForOneDevice(prefix, deviceId);
    }
  }

  /** The devices of the ingest calls that passed the secret check, in call
      order, repeats included. */
  function AcceptedDevices(calls: seq<Call>): seq<string>
    decreases |calls|
  {
    if calls == [] then []
    else
      var c := calls[|calls| - 1];
      AcceptedDevices(calls[..|calls| - 1])
        + if c.Ingest? && c.secret == Some(ClientSecret) then [c.data.deviceId] else []
  }

  /** `xs` without any occurrence of `x`. */
  function Without(xs: seq<string>, x: string): (r: seq<string>)
    ensures |r| <= |xs|
    ensures forall y :: y in r <==> y in xs && y != x
  {
    if xs == [] then []
    else
      assert xs == [xs[0]] + xs[1..];
      (if xs[0] == x then [] else [xs[0]]) + Without(xs[1..], x)
  }

  lemma {:induction false} WithoutAppend(xs: seq<string>, ys: seq<string>, x: string)
    ensures Without(xs + ys, x) == Without(xs, x) + Without(ys, x)
    decreases |xs|
  {
    if xs == [] {
      assert xs + ys == ys;
    } else {
      assert (xs + ys)[0] == xs[0];
      assert (xs + ys)[1..] == xs[1..] + ys;
      WithoutAppend(xs[1..], ys, x);
    }
  }

  /** Each element of `xs` once, in the order of its first occurrence. */
  function FirstSeen(xs: seq<string>): (r: seq<string>)
    ensures NoDuplicates(r)
    ensures forall y :: y in r <==> y in xs
    decreases |xs|
  {
    if xs == [] then []
    else
      assert xs == [xs[0]] + xs[1..];
      var rest := FirstSeen(Without(xs[1..], xs[0]));
      assert forall j :: 0 <= j < |rest| ==> rest[j] in rest;
      [xs[0]] + rest
  }

  /** Seeing one more element adds it at the end, unless it was seen before. */
  lemma {:induction false} FirstSeenSnoc(xs: seq<string>, y: string)
    ensures FirstSeen(xs + [y]) == if y in xs then FirstSeen(xs) else FirstSeen(xs) + [y]
    decreases |xs|
  {
    if xs == [] {
      assert [] + [y] == [y];
    } else {
      var x0 := xs[0];
      assert (xs + [y])[0] == x0;
      assert (xs + [y])[1..] == xs[1..] + [y];
      WithoutAppend(xs[1..], [y], x0);
      var rest := Without(xs[1..], x0);
      if y == x0 {
        assert Without([y], x0) == [];
        assert rest + [] == rest;
      } else {
        assert Without([y], x0) == [y];
        FirstSeenSnoc(rest, y);
        assert y in rest <==> y in xs;
      }
    }
  }

  /** `list_devices` after any sequence of calls from an empty store: every
      device that had a successful ingest, once, in the order of its first
      successful ingest; failed ingests and queries add nothing. */
  lemma {:induction false} DevicesInFirstIngestOrder(calls: seq<Call>)
    ensures WellFormed(Replay(Empty(), calls))
    ensures Devices(Replay(Empty(), calls)) == FirstSeen(AcceptedDevices(calls))
    decreases |calls|
  {
    if calls != [] {
      var prefix := calls[..|calls| - 1];
      var c := calls[|calls| - 1];
      DevicesInFirstIngestOrder(prefix);
      var db := Replay(Empty(), prefix);
      var seen := AcceptedDevices(prefix);
      assert Replay(Empty(), calls) == Step(db, c);
      match c
      case Ingest(data, secret, id) =>
        var next := Post(db, data, secret, id).0;
        if secret == Some(ClientSecret) {
          assert AcceptedDevices(calls) == seen + [data.deviceId];
          FirstSeenSnoc(seen, data.deviceId);
          assert data.deviceId in db.storage <==> data.deviceId in seen;
        } else {
          assert next == db;
          assert AcceptedDevices(calls) == seen + [] == seen;
        }
      case Query(deviceId, start, end, limit) =>
        assert AcceptedDevices(calls) == seen + [] == seen;
    }
  }

  /** Two stores with the same devices in the same key order, holding for
      every device and every timestamp the same records in the same order.
      They differ at most in how records with different timestamps are
      interleaved, which is all an unfiltered query's in-place sort changes. */
  ghost predicate SameTimelines(a: Db, b: Db)
  {
    && a.keys == b.keys
    && a.storage.Keys == b.storage.Keys
    && forall k, t :: WithTimestamp(RecordsOf(a, k), t) == WithTimestamp(RecordsOf(b, k), t)
  }

  /** The in-place sort only reinterleaves timestamps. */
  lemma SortInPlaceSameTimelines(db: Db, deviceId: string)
    requires deviceId in db.storage
    ensures SameTimelines(SortInPlace(db, deviceId), db)
  {
    var r := SortInPlace(db, deviceId);
    forall k, t
      ensures WithTimestamp(RecordsOf(r, k), t) == WithTimestamp(RecordsOf(db, k), t)
    {
      if k == deviceId {
        SortStable(db.storage[deviceId], t);
      }
    }
  }

  /** An ingest gives the same reply on both stores and keeps them alike. */
  lemma PostKeepsSameTimelines(a: Db, b: Db, data: Reading, secret: Option<string>, id: string)
    requires SameTimelines(a, b)
    ensures Post(a, data, secret, id).1 == Post(b, data, secret, id).1
    ensures SameTimelines(Post(a, data, secret, id).0, Post(b, data, secret, id).0)
  {
    if secret == Some(ClientSecret) {
      var a1, b1 := Post(a, data, secret, id).0, Post(b, data, secret, id).0;
      var d, x := data.deviceId, Stamp(data, id);
      forall k, t
        ensures WithTimestamp(RecordsOf(a1, k), t) == WithTimestamp(RecordsOf(b1, k), t)
      {
        if k == d {
          WithTimestampAppend(RecordsOf(a, d), [x], t);
          WithTimestampAppend(RecordsOf(b, d), [x], t);
        }
      }
    }
  }

  /** A query gives the same reply on both stores and keeps them alike. */
  lemma QueryKeepsSameTimelines(a: Db, b: Db, deviceId: string, start: Option<int>, end: Option<int>, limit: Option<int>)
    requires SameTimelines(a, b)
    ensures GetValues(a, deviceId, start, end, limit).1 == GetValues(b, deviceId, start, end, limit).1
    ensures SameTimelines(GetValues(a, deviceId, start, end, limit).0, GetValues(b, deviceId, start, end, limit).0)
  {
    if deviceId in a.storage {
      assert forall t :: WithTimestamp(RecordsOf(a, deviceId), t) == WithTimestamp(RecordsOf(b, deviceId), t);
      PipelineIgnoresStoredOrder(b.storage[deviceId], a.storage[deviceId], start, end, limit);
      if start.None? && end.None? {
        var a1, b1 := SortInPlace(a, deviceId), SortInPlace(b, deviceId);
        SortInPlaceSameTimelines(a, deviceId);
        SortInPlaceSameTimelines(b, deviceId);
        forall k, t
          ensures WithTimestamp(RecordsOf(a1, k), t) == WithTimestamp(RecordsOf(b1, k), t)
        {
          assert WithTimestamp(RecordsOf(a1, k), t) == WithTimestamp(RecordsOf(a, k), t);
          assert WithTimestamp(RecordsOf(b1, k), t) == WithTimestamp(RecordsOf(b, k), t);
        }
      }
    }
  }

  lemma {:induction false} ReplayKeepsSameTimelines(a: Db, b: Db, calls: seq<Call>)
    requires SameTimelines(a, b)
    ensures SameTimelines(Replay(a, calls), Replay(b, calls))
    decreases |calls|
  {
    if calls != [] {
      var prefix := calls[..|calls| - 1];
      ReplayKeepsSameTimelines(a, b, prefix);
      var a0, b0 := Replay(a, prefix), Replay(b, prefix);
      match calls[|calls| - 1]
      case Ingest(data, secret, id) =>
        PostKeepsSameTimelines(a0, b0, data, secret, id);
      case Query(deviceId, start, end, limit) =>
        QueryKeepsSameTimelines(a0, b0, deviceId, start, end, limit);
    }
  }

  /** The in-place sort of a query is never observable: after it and any
      further calls, every query and the device list answer as they would
      have had the first query not run at all. */
  lemma QuerySortNeverObservable(db: Db, d0: string, s0: Option<int>, e0: Option<int>, l0: Option<int>,
                                 calls: seq<Call>,
                                 d1: string, s1: Option<int>, e1: Option<int>, l1: Option<int>)
    ensures var later := Replay(GetValues(db, d0, s0, e0, l0).0, calls);
            && GetValues(later, d1, s1, e1, l1).1 == GetValues(Replay(db, calls), d1, s1, e1, l1).1
            && Devices(later) == Devices(Replay(db, calls))
  {
    var first := GetValues(db, d0, s0, e0, l0).0;
    if d0 in db.storage && s0.None? && e0.None? {
      SortInPlaceSameTimelines(db, d0);
    } else {
      assert first == db;
    }
    ReplayKeepsSameTimelines(first, db, calls);
    QueryKeepsSameTimelines(Replay(first, calls), Replay(db, calls), d1, s1, e1, l1);
  }

  /** The store object: the `storage` dict, updated in place by the
      operations. Python lists are shared by reference; here each device's
      list is a value, and the one place where the sharing shows (the query
      sorting the stored list) is written out. */
  class SensorStore {
    var storage: map<string, seq<Record>>
    var keys: seq<string>

    function Model(): Db
      reads this
    {
      Db(storage, keys)
    }

    ghost predicate Valid()
      reads this
    {
      WellFormed(Model())
    }

    constructor ()
      ensures Valid() && Model() == Empty()
    {
      storage := map[];
      keys := [];
    }

    /** `storage.clear()`, as the test fixture runs before each test. */
    method Clear()
      modifies this
      ensures Valid() && Model() == Empty()
    {
      storage := map[];
      keys := [];
    }

    method PostSensorData(data: Reading, secret: Option<string>, id: string) returns (r: Outcome<string>)
      requires Valid()
      modifies this
      ensures Valid()
      ensures (Model(), r) == Post(old(Model()), data, secret, id)
    {
      if secret != Some(ClientSecret) {
        return Err(Unauthorized);
      }
      var record := Stamp(data, id);
      // storage.setdefault(record.device_id, []).append(record)
      if record.deviceId !in storage {
        storage := storage[record.deviceId := []];
        keys := keys + [record.deviceId];
      }
      storage := storage[record.deviceId := storage[record.deviceId] + [record]];
      r := Ok(record.id);
      assert storage == old(storage)[record.deviceId := RecordsOf(old(Model()), record.deviceId) + [record]];
    }

    method ListDevices() returns (ids: seq<string>)
      requires Valid()
      ensures ids == Devices(Model())
      ensures NoDuplicates(ids)
      ensures forall k :: k in ids <==> k in storage && storage[k] != []
    {
      ids := keys;
    }

    method GetDeviceValues(deviceId: string, start: Option<int>, end: Option<int>, limit: Option<int>)
      returns (r: Outcome<seq<Record>>)
      requires Valid()
      modifies this
      ensures Valid()
      ensures (Model(), r) == GetValues(old(Model()), deviceId, start, end, limit)
    {
      if deviceId !in storage {
        return Err(NotFound);
      }
      var values := storage[deviceId];
      if start.Some? {
        values := AtOrAfter(values, start.value);
      }
      if end.Some? {
        values := AtOrBefore(values, end.value);
      }
      assert values == Filtered(old(storage)[deviceId], start, end);
      values := SortByTimestamp(values);
      if start.None? && end.None? {
        // no comprehension ran: `values` is the stored list, sorted in place
        storage := storage[deviceId := values];
        assert Model() == SortInPlace(old(Model()), deviceId);
      }
      if limit.Some? {
        if limit.value <= 0 {
          return Ok([]);
        }
        values := SliceFrom(values, -limit.value);
      }
      r := Ok(values);
    }
  }
}
