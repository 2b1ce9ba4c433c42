# Sensor reading store — a Dafny model

This project models the core of a small sensor-reading service. Devices post
time-stamped environmental readings. The service keeps them in memory, per
device, and serves them back filtered by time window, sorted by timestamp and
cut to the most recent `limit`. The model covers the whole of `main.py`:

- the `storage` dict from device id to its list of records, whose keys keep
  first-insertion order;
- the record shape (`SensorData`, and `StoredSensorData`, which adds an `id`);
- `post_sensor_data`, which checks the `x-client-secret` header against
  `"mysecret"` and appends a copy of the reading, with an id, to its device's
  list;
- `list_devices`, which returns the dict's keys;
- `get_device_values`, which returns not-found for an unknown device, then
  filters by inclusive `start_ts` and `end_ts`, sorts stably by `timestamp_ms`,
  and keeps the last `limit` records (none when `limit <= 0`).

Files and modules:

- `readings.dfy`: `Options` (an `Option` type) and `Readings` (the reading and
  record datatypes and `Stamp`, which builds a record from a reading).
- `timeline.dfy`: `Timeline`, the stable sort by timestamp. It is defined as an
  insertion sort and proved sorted, a permutation, and stable. A uniqueness
  lemma shows that these three properties determine the result. So Python's
  `list.sort` returns exactly this list, whatever algorithm it uses.
- `retrieval.dfy`: `Retrieval`, the read pipeline on one device's list. It has
  the two filter comprehensions, Python's `s[-l:]` slice, the `limit` step and
  their composition, with lemmas on what the composition returns.
- `store.dfy`: `Store`. It first gives the three operations as functions on
  the store's value (`Db`): `Post`, `Devices`, `GetValues`. Lemmas over call
  histories follow. Last comes the class `SensorStore`, whose fields are
  updated in place. Its methods are proved equal to those functions and
  to keep the store invariant `WellFormed`.
- `scenarios.dfy`: `Scenarios`, the repository's tests stated as lemmas about
  the model.

Outcomes are `Ok(value)` or `Err(Unauthorized)` / `Err(NotFound)`. The service
reports these as HTTP 200, 401 and 404.

The stored record keeps the client's `timestamp_ms` unchanged (main.py:31).
The service assigns no server time and adds no field to query results.
`main.py` defines no `/health` endpoint, although tests/test_api.py:77-80 calls
one.

The code has one aliasing effect, and the model captures it. Without a time
filter, `values` is the stored list itself (main.py:43). The sort at
main.py:50 then reorders the device's stored list in place. With a filter,
the comprehensions make new lists and the store is untouched.
`Store.GetValues` and `SensorStore.GetDeviceValues` state this.
`Store.QuerySortNeverObservable` proves that no later call can observe it:
after the sort and any further posts and queries, every query and the device
list answer exactly as they would have without the sort.

## Model

| member | source | states |
|---|---|---|
| Readings.Stamp | main.py:31 | the stored record carries every field of the posted reading unchanged, the client timestamp included, plus the given id |
| Readings.StampPayload | main.py:22-23 | a stored record is exactly its reading plus its id: rebuilding it from those two gives it back |
| Timeline.SortByTimestamp | main.py:50 | the sorted list is in ascending `timestamp_ms` order and is a permutation of its input |
| Timeline.SortStable | main.py:50 | the sort is stable: for every timestamp, the records carrying it appear in the same relative order as in the input |
| Timeline.SortedUnique | main.py:50 | two timestamp-ordered lists that agree, timestamp by timestamp, on their records and those records' order are equal |
| Timeline.SortCharacterised | main.py:50 | any sorted list that keeps each timestamp's records in input order is the stable sort of the input, so the model's sort and Python's `list.sort` agree |
| Timeline.SortKeepsSorted | main.py:50 | sorting a list that is already in timestamp order returns it unchanged |
| Timeline.SortIdempotent | main.py:50 | sorting twice gives the same list as sorting once |
| Retrieval.Where | main.py:45-48 | a comprehension keeps exactly the records whose timestamp passes the test, and keeps none when no record passes |
| Retrieval.WhereByTimestamp | main.py:45-48 | for each accepted timestamp the comprehension keeps all its records in order; rejected timestamps keep none |
| Retrieval.AtOrAfter | main.py:45-46 | the `start_ts` comprehension keeps a record if and only if it is stored and `start_ts <= timestamp_ms`, and keeps each such timestamp's records all and in stored order |
| Retrieval.AtOrBefore | main.py:47-48 | the `end_ts` comprehension keeps a record if and only if it is stored and `timestamp_ms <= end_ts`, and keeps each such timestamp's records all and in stored order |
| Retrieval.Filtered | main.py:45-48 | a record survives the filters if and only if it is stored and `start_ts <= timestamp_ms` (when given) and `timestamp_ms <= end_ts` (when given) |
| Retrieval.FilteredByTimestamp | main.py:45-48 | the filters keep each in-window timestamp's records, all of them and in stored order, and drop every other timestamp |
| Retrieval.InvertedWindowIsEmpty | main.py:45-48 | with `end_ts < start_ts` the filtered list is empty |
| Retrieval.SliceFrom | main.py:59 | Python's `s[i:]` is a suffix of `s`; a negative `i` gives the last `min(-i, len(s))` elements |
| Retrieval.Limited | main.py:51-59 | no limit keeps all; a limit of 0 or less gives `[]`; a positive `l` gives the last `min(l, n)` records |
| Retrieval.Pipeline | main.py:43-60 | every record returned is stored for the device and lies in the window, and the result is in ascending timestamp order |
| Retrieval.PipelineUnlimited | main.py:43-60 | without a limit the result holds every stored record in the window, each as often as it is stored |
| Retrieval.PipelineMostRecent | main.py:57-59 | a positive limit `l` returns the last `min(l, n)` of the sorted window; every record left out is no later than every record returned |
| Retrieval.PipelineNonPositiveLimit | main.py:57-58 | a limit of 0 or less returns `[]` whatever the filters |
| Retrieval.PipelineIgnoresStoredOrder | main.py:43-50 | the result depends on the stored list only through each timestamp's records and their order |
| Retrieval.PipelineAfterSort | main.py:43-50 | querying the sorted stored list gives the same result as querying the unsorted one |
| Store.Empty | main.py:11 | the store starts with no devices and no records, and is well formed |
| Store.Post | main.py:25-33 | a secret other than `"mysecret"` (or none) gives Unauthorized and changes nothing. Otherwise it returns the id and appends exactly the new record at the end of the device's list, which is created when absent. Every other device is unchanged. The device is added at the end of the key order only if new. Well-formedness is kept |
| Store.Devices | main.py:35-37 | in a well-formed store the device list has no repeats and names exactly the devices with at least one record |
| Store.SortInPlace | main.py:43-50 | the in-place sort leaves that device's list sorted and a permutation of what it was; keys, key order and other devices are unchanged; well-formedness is kept |
| Store.GetValues | main.py:39-60 | an unknown device gives NotFound and changes nothing. Otherwise the result is the filter, sort and limit pipeline on the stored list. The store is sorted in place exactly when neither `start_ts` nor `end_ts` is given |
| Store.QueryIdempotent | main.py:39-60 | repeating a query immediately gives the same result and leaves the store as the first query left it |
| Store.UnfilteredQueryOnSorted | main.py:43-50 | on a device whose records are already in time order, an unfiltered query returns them as stored, cut by the limit, and leaves the store unchanged |
| Store.EarlierQueryInvisible | main.py:43-50 | whatever query ran first, the query right after it returns what it would have returned on the store before the first |
| Store.SortInPlaceSameTimelines | main.py:43-50 | the in-place sort changes no device's records per timestamp nor their order, nor the keys |
| Store.PostKeepsSameTimelines | main.py:25-33 | two stores that differ only in how different timestamps are interleaved give the same reply to a post and stay so afterwards |
| Store.QueryKeepsSameTimelines | main.py:39-60 | two such stores give the same reply to any query and stay so afterwards |
| Store.ReplayKeepsSameTimelines | main.py:25-60 | two such stores stay so through any sequence of posts and queries |
| Store.QuerySortNeverObservable | main.py:43-50 | after a query, whatever posts and queries follow, every later query and the device list answer as they would have without that query |
| Store.IngestsForOneDevice | main.py:32 | accepted posts for one device, from an empty store, leave exactly that device with its records in posting order |
| Store.DevicesInFirstIngestOrder | main.py:32-37 | after any sequence of posts and queries from an empty store, the device list is each successfully posted device once, in order of first successful post. Failed posts and queries add no device. The store stays well formed |
| Store.SensorStore.constructor | main.py:11 | a new store is empty and well formed |
| Store.SensorStore.Clear | tests/test_api.py:13-16 | clearing empties the store |
| Store.SensorStore.PostSensorData | main.py:25-33 | updating the fields in place gives the new store and the reply that `Store.Post` gives, and keeps the invariant |
| Store.SensorStore.ListDevices | main.py:35-37 | returns the keys in insertion order, each once, exactly the devices with records |
| Store.SensorStore.GetDeviceValues | main.py:39-60 | runs the filters, the sort, the in-place write-back when unfiltered, and the limit. The reply and new store are those of `Store.GetValues`, and the invariant is kept |
| Scenarios.PostThenListDevices | tests/test_api.py:18-33 | one accepted post of `dev1` returns its id, and the device list is then `["dev1"]` |
| Scenarios.WrongSecretRefused | tests/test_api.py:64-74 | a post with secret `"wrong"` is Unauthorized and leaves any store unchanged |
| Scenarios.PostFour | tests/test_api.py:37-46 | four accepted posts to `dev2` with timestamps 100 to 400 leave those four records in posting order |
| Scenarios.QueryAllOfFour | tests/test_api.py:48-50 | the unfiltered query returns all four records and leaves the store unchanged |
| Scenarios.QueryFromStartOfFour | tests/test_api.py:52-53 | `start_ts=200` returns the three records from 200 on |
| Scenarios.QueryToEndOfFour | tests/test_api.py:55-56 | `end_ts=300` returns the three records up to 300 |
| Scenarios.QueryLimitsOfFour | tests/test_api.py:58-62 | `limit=2` returns the records at 300 and 400; `limit=0` and `limit=-5` return `[]` |
| Scenarios.QueryEdgesOfFour | main.py:41-48 | on that store, `start_ts=250, end_ts=150` returns `[]` and an unknown device is NotFound |

## Left out

- HTTP routing, headers and status codes. The outcomes are the `Outcome` datatype: `Unauthorized` is 401, `NotFound` is 404.
- The `int(limit)` conversion and its `ValueError` to 400 branch (main.py:53-56). The framework already parses `limit` as an optional integer, so that branch cannot run. `limit` is an `Option<int>`.
- `uuid4()` (main.py:23) is a random source, so the id is a parameter of the post.
- Store.Post: does not promise that ids are unique, because `uuid4()` gives no such guarantee that the code could rely on.
- The five float measurements are only copied, never computed on. They are modelled as `real`, and no float behaviour is modelled.
- Pydantic validation and `model_dump`: library plumbing that rejects malformed bodies before the handler runs.
- The `/health` endpoint called by tests/test_api.py:77-80: it does not exist in `main.py`.
- Concurrency: the code has no locking and the model is sequential.
- Aliasing beyond the in-place sort: each device's list is a value. The response list is also the stored list in the unfiltered, unlimited case. That sharing is not modelled, because the response is serialised before any later call.
- Python's sorting algorithm (Timsort) is replaced by an insertion sort. `Timeline.SortCharacterised` proves that any stable ascending sort returns the same list.
