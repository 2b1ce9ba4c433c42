/** The service's own test scenarios, stated as facts about the model. */
module Scenarios {
  import opened Options
  import opened Readings
  import opened Timeline
  import opened Retrieval
  import opened Store

  /** The reading the tests post, at a given device and timestamp. */
  function Sample(deviceId: string, timestampMs: int): Reading
  {
    Reading(deviceId, timestampMs, 20.0, 68.0, 50.0, 1000.0, 10.0)
  }

  /** One accepted post, then the device list names that one device. */
  lemma PostThenListDevices(id: string)
    ensures var posted := Post(Empty(), Sample("dev1", 1000), Some("mysecret"), id);
            && posted.1 == Ok(id)
            && Devices(posted.0) == ["dev1"]
            && RecordsOf(posted.0, "dev1") == [Stamp(Sample("dev1", 1000), id)]
  {
  }

  /** A post with the wrong secret is refused and leaves the store as it was. */
  lemma WrongSecretRefused(db: Db, id: string)
    ensures Post(db, Sample("dev1", 1000), Some("wrong"), id) == (db, Err(Unauthorized))
  {
  }

  /** The four records the filter-and-limit test stores, oldest first. */
  function Four(a: string, b: string, c: string, d: string): seq<Record>
  {
    [Stamp(Sample("dev2", 100), a), Stamp(Sample("dev2", 200), b),
     Stamp(Sample("dev2", 300), c), Stamp(Sample("dev2", 400), d)]
  }

  /** Posting four readings for one device, timestamps 100 to 400, stores
      them in posting order under that one device. */
  lemma PostFour(a: string, b: string, c: string, d: string)
    ensures Replay(Empty(), [Ingest(Sample("dev2", 100), Some("mysecret"), a),
                             Ingest(Sample("dev2", 200), Some("mysecret"), b),
                             Ingest(Sample("dev2", 300), Some("mysecret"), c),
                             Ingest(Sample("dev2", 400), Some("mysecret"), d)])
            == FourStored(a, b, c, d)
  {
    var calls := [Ingest(Sample("dev2", 100), Some("mysecret"), a),
                  Ingest(Sample("dev2", 200), Some("mysecret"), b),
                  Ingest(Sample("dev2", 300), Some("mysecret"), c),
                  Ingest(Sample("dev2", 400), Some("mysecret"), d)];
    IngestsForOneDevice(calls, "dev2");
    var rs := Four(a, b, c, d);
    assert calls[..1][..0] == [];
    assert StampedRecords(calls[..1]) == rs[..1];
    assert calls[..2][..1] == calls[..1];
    assert StampedRecords(calls[..2]) == rs[..2];
    assert calls[..3][..2] == calls[..2];
    assert StampedRecords(calls[..3]) == rs[..3];
    assert calls[..|calls| - 1] == calls[..3];
    assert StampedRecords(calls) == rs;
  }

  lemma FourInOrder(a: string, b: string, c: string, d: string)
    ensures var rs := Four(a, b, c, d);
            && |rs| == 4
            && rs[0].timestampMs == 100 && rs[1].timestampMs == 200
            && rs[2].timestampMs == 300 && rs[3].timestampMs == 400
            && Sorted(rs)
  {
  }

  lemma StartFilterOnFour(a: string, b: string, c: string, d: string)
    ensures AtOrAfter(Four(a, b, c, d), 200) == Four(a, b, c, d)[1..]
  {
    var rs := Four(a, b, c, d);
    FourInOrder(a, b, c, d);
    assert rs[3..][1..] == [];
    assert AtOrAfter(rs[3..], 200) == rs[3..];
    assert rs[2..][1..] == rs[3..];
    assert AtOrAfter(rs[2..], 200) == rs[2..];
    assert rs[1..][1..] == rs[2..];
    assert AtOrAfter(rs[1..], 200) == rs[1..];
  }

  lemma EndFilterOnFour(a: string, b: string, c: string, d: string)
    ensures AtOrBefore(Four(a, b, c, d), 300) == Four(a, b, c, d)[..3]
  {
    var rs := Four(a, b, c, d);
    FourInOrder(a, b, c, d);
    assert rs[3..][1..] == [];
    assert AtOrBefore(rs[3..], 300) == [];
    assert rs[2..][1..] == rs[3..];
    assert AtOrBefore(rs[2..], 300) == [rs[2]];
    assert rs[1..][1..] == rs[2..];
    assert AtOrBefore(rs[1..], 300) == [rs[1], rs[2]];
    assert AtOrBefore(rs, 300) == [rs[0], rs[1], rs[2]];
  }

  /** The store the filter-and-limit test builds. */
  function FourStored(a: string, b: string, c: string, d: string): Db
  {
    Db(map["dev2" := Four(a, b, c, d)], ["dev2"])
  }

  /** The filter-and-limit test's queries: each one leaves the store as it
      found it (the records already sit in timestamp order), so every query
      of the test runs on the same store. First, all records. */
  lemma QueryAllOfFour(a: string, b: string, c: string, d: string)
    ensures GetValues(FourStored(a, b, c, d), "dev2", None, None, None)
         == (FourStored(a, b, c, d), Ok(Four(a, b, c, d)))
  {
    FourInOrder(a, b, c, d);
    UnfilteredQueryOnSorted(FourStored(a, b, c, d), "dev2", None);
  }

  /** `start_ts=200` keeps the last three. */
  lemma QueryFromStartOfFour(a: string, b: string, c: string, d: string)
    ensures GetValues(FourStored(a, b, c, d), "dev2", Some(200), None, None)
         == (FourStored(a, b, c, d), Ok(Four(a, b, c, d)[1..]))
  {
    var rs := Four(a, b, c, d);
    FourInOrder(a, b, c, d);
    StartFilterOnFour(a, b, c, d);
    assert Sorted(rs[1..]);
    SortKeepsSorted(rs[1..]);
  }

  /** `end_ts=300` keeps the first three. */
  lemma QueryToEndOfFour(a: string, b: string, c: string, d: string)
    ensures GetValues(FourStored(a, b, c, d), "dev2", None, Some(300), None)
         == (FourStored(a, b, c, d), Ok(Four(a, b, c, d)[..3]))
  {
    var rs := Four(a, b, c, d);
    FourInOrder(a, b, c, d);
    EndFilterOnFour(a, b, c, d);
    assert Sorted(rs[..3]);
    SortKeepsSorted(rs[..3]);
  }

  /** `limit=2` keeps the two latest; `limit=0` and `limit=-5` give nothing. */
  lemma QueryLimitsOfFour(a: string, b: string, c: string, d: string)
    ensures GetValues(FourStored(a, b, c, d), "dev2", None, None, Some(2))
         == (FourStored(a, b, c, d), Ok(Four(a, b, c, d)[2..]))
    ensures GetValues(FourStored(a, b, c, d), "dev2", None, None, Some(0))
         == (FourStored(a, b, c, d), Ok([]))
    ensures GetValues(FourStored(a, b, c, d), "dev2", None, None, Some(-5))
         == (FourStored(a, b, c, d), Ok([]))
  {
    FourInOrder(a, b, c, d);
    UnfilteredQueryOnSorted(FourStored(a, b, c, d), "dev2", Some(2));
    UnfilteredQueryOnSorted(FourStored(a, b, c, d), "dev2", Some(0));
    UnfilteredQueryOnSorted(FourStored(a, b, c, d), "dev2", Some(-5));
  }

  /** An inverted window gives nothing; an unknown device is not found. */
  lemma QueryEdgesOfFour(a: string, b: string, c: string, d: string)
    ensures GetValues(FourStored(a, b, c, d), "dev2", Some(250), Some(150), None).1 == Ok([])
    ensures GetValues(FourStored(a, b, c, d), "dev1", None, None, None).1 == Err(NotFound)
  {
    InvertedWindowIsEmpty(Four(a, b, c, d), 250, 150);
  }
}
