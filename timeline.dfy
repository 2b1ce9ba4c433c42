/** Ordering of records by `timestampMs`: the stable ascending sort the query
    applies (`values.sort(key=lambda v: v.timestamp_ms)`), what "stable"
    means, and the fact that those properties pin the sorted list down. */
module Timeline {
  import opened Readings

  /** The records of `s` that carry timestamp `t`, in their order in `s`. */
  function WithTimestamp(s: seq<Record>, t: int): seq<Record>
  {
    if s == [] then []
    else (if s[0].timestampMs == t then [s[0]] else []) + WithTimestamp(s[1..], t)
  }

  /** Ascending by timestamp. */
  predicate Sorted(s: seq<Record>)
  {
    forall i, j :: 0 <= i < j < |s| ==> s[i].timestampMs <= s[j].timestampMs
  }

  /** Puts `x` in front of the first record whose timestamp is not smaller
      than its own, so that `x` precedes the records it ties with. */
  function Insert(x: Record, s: seq<Record>): (r: seq<Record>)
    ensures multiset(r) == multiset(s) + multiset{x}
  {
    if s == [] || x.timestampMs <= s[0].timestampMs then [x] + s
    else
      assert s == [s[0]] + s[1..];
      [s[0]] + Insert(x, s[1..])
  }

  lemma {:induction false} InsertSorted(x: Record, s: seq<Record>)
    requires Sorted(s)
    ensures Sorted(Insert(x, s))
    decreases |s|
  {
    if s != [] && x.timestampMs > s[0].timestampMs {
      var rest := Insert(x, s[1..]);
      InsertSorted(x, s[1..]);
      forall j | 0 <= j < |rest|
        ensures s[0].timestampMs <= rest[j].timestampMs
      {
        assert rest[j] in multiset(rest);
        if rest[j] != x {
          assert rest[j] in multiset(s[1..]);
          var k :| 0 <= k < |s[1..]| && s[1..][k] == rest[j];
          assert s[k + 1] == rest[j];
        }
      }
    }
  }

  /** The stable ascending sort by timestamp (an insertion sort). */
  function SortByTimestamp(s: seq<Record>): (r: seq<Record>)
    ensures Sorted(r)
    ensures multiset(r) == multiset(s)
    ensures |r| == |s|
  {
    if s == [] then []
    else
      assert s == [s[0]] + s[1..];
      var rest := SortByTimestamp(s[1..]);
      InsertSorted(s[0], rest);
      Insert(s[0], rest)
  }

  lemma {:induction false} WithTimestampAppend(a: seq<Record>, b: seq<Record>, t: int)
    ensures WithTimestamp(a + b, t) == WithTimestamp(a, t) + WithTimestamp(b, t)
    decreases |a|
  {
    if a == [] {
      assert a + b == b;
    } else {
      assert (a + b)[0] == a[0];
      assert (a + b)[1..] == a[1..] + b;
      WithTimestampAppend(a[1..], b, t);
    }
  }

  lemma WithTimestampCons(y: Record, s: seq<Record>, t: int)
    ensures WithTimestamp([y] + s, t) == (if y.timestampMs == t then [y] else []) + WithTimestamp(s, t)
  {
    assert ([y] + s)[0] == y && ([y] + s)[1..] == s;
  }

  /** Every record picked for `t` comes from `s` and carries `t`. */
  lemma {:induction false} WithTimestampMembers(s: seq<Record>, t: int)
    ensures forall y :: y in WithTimestamp(s, t) ==> y in s && y.timestampMs == t
    decreases |s|
  {
    if s != [] {
      WithTimestampMembers(s[1..], t);
    }
  }

  lemma SwapEmpty(a: seq<Record>, b: seq<Record>, c: seq<Record>)
    requires a == [] || b == []
    ensures a + (b + c) == b + (a + c)
  {
    if a == [] {
      assert a + (b + c) == b + c == b + (a + c);
    } else {
      assert a + (b + c) == a + c == b + (a + c);
    }
  }

  /** Inserting `x` keeps, per timestamp, the order of "`x` first, then `s`". */
  lemma {:induction false} InsertStable(x: Record, s: seq<Record>, t: int)
    ensures WithTimestamp(Insert(x, s), t) == WithTimestamp([x] + s, t)
    decreases |s|
  {
    if s == [] || x.timestampMs <= s[0].timestampMs {
    } else {
      var rest := Insert(x, s[1..]);
      var keptHead := if s[0].timestampMs == t then [s[0]] else [];
      var keptX := if x.timestampMs == t then [x] else [];
      var keptTail := WithTimestamp(s[1..], t);
      InsertStable(x, s[1..], t);
      WithTimestampCons(s[0], rest, t);
      WithTimestampCons(x, s[1..], t);
      WithTimestampCons(x, s, t);
      assert WithTimestamp(Insert(x, s), t) == keptHead + (keptX + keptTail);
      assert WithTimestamp([x] + s, t) == keptX + (keptHead + keptTail);
      // s[0] and x have different timestamps, so at most one of them is kept
      SwapEmpty(keptHead, keptX, keptTail);
    }
  }

  /** Stability: records with equal timestamps keep their relative order. */
  lemma {:induction false} SortStable(s: seq<Record>, t: int)
    ensures WithTimestamp(SortByTimestamp(s), t) == WithTimestamp(s, t)
    decreases |s|
  {
    if s != [] {
      var rest := SortByTimestamp(s[1..]);
      calc {
        WithTimestamp(SortByTimestamp(s), t);
        WithTimestamp(Insert(s[0], rest), t);
        { InsertStable(s[0], rest, t); }
        WithTimestamp([s[0]] + rest, t);
        { WithTimestampAppend([s[0]], rest, t); }
        WithTimestamp([s[0]], t) + WithTimestamp(rest, t);
        { SortStable(s[1..], t); }
        WithTimestamp([s[0]], t) + WithTimestamp(s[1..], t);
        { WithTimestampAppend([s[0]], s[1..], t); assert [s[0]] + s[1..] == s; }
        WithTimestamp(s, t);
      }
    }
  }

  /** The first record of a sorted list has the smallest timestamp. */
  lemma HeadIsEarliest(s: seq<Record>, y: Record)
    requires Sorted(s) && y in s
    ensures s[0].timestampMs <= y.timestampMs
  {
    var i :| 0 <= i < |s| && s[i] == y;
    assert i == 0 || s[0].timestampMs <= s[i].timestampMs;
  }

  /** Two sorted lists that agree, timestamp by timestamp, on which records
      they hold and in what order, are equal. */
  lemma {:induction false} SortedUnique(a: seq<Record>, b: seq<Record>)
    requires Sorted(a) && Sorted(b)
    requires forall t :: WithTimestamp(a, t) == WithTimestamp(b, t)
    ensures a == b
    decreases |a|
  {
    if a != [] {
      assert WithTimestamp(b, a[0].timestampMs) == WithTimestamp(a, a[0].timestampMs) != [];
    }
    if b != [] {
      assert WithTimestamp(a, b[0].timestampMs) == WithTimestamp(b, b[0].timestampMs) != [];
    }
    if a != [] {
      var t0, t1 := a[0].timestampMs, b[0].timestampMs;
      WithTimestampMembers(a, t1);
      WithTimestampMembers(b, t0);
      assert WithTimestamp(b, t0) == WithTimestamp(a, t0) != [];
      HeadIsEarliest(b, WithTimestamp(b, t0)[0]);
      assert WithTimestamp(a, t1) == WithTimestamp(b, t1) != [];
      HeadIsEarliest(a, WithTimestamp(a, t1)[0]);
      assert t0 == t1;
      assert a[0] == WithTimestamp(a, t0)[0] == WithTimestamp(b, t0)[0] == b[0];
      forall t
        ensures WithTimestamp(a[1..], t) == WithTimestamp(b[1..], t)
      {
        var k := if t0 == t then 1 else 0;
        assert WithTimestamp(a[1..], t) == WithTimestamp(a, t)[k..];
        assert WithTimestamp(b[1..], t) == WithTimestamp(b, t)[k..];
      }
      SortedUnique(a[1..], b[1..]);
      assert a == [a[0]] + a[1..];
      assert b == [b[0]] + b[1..];
    }
  }

  /** The stable sort is characterised by its two properties: any sorted
      list that keeps, per timestamp, the records of `s` in their order in
      `s` is `SortByTimestamp(s)`. */
  lemma SortCharacterised(s: seq<Record>, r: seq<Record>)
    requires Sorted(r)
    requires forall t :: WithTimestamp(r, t) == WithTimestamp(s, t)
    ensures r == SortByTimestamp(s)
  {
    forall t
      ensures WithTimestamp(r, t) == WithTimestamp(SortByTimestamp(s), t)
    {
      SortStable(s, t);
    }
    SortedUnique(r, SortByTimestamp(s));
  }

  /** Sorting a list that is already in timestamp order changes nothing. */
  lemma SortKeepsSorted(s: seq<Record>)
    requires Sorted(s)
    ensures SortByTimestamp(s) == s
  {
    SortCharacterised(s, s);
  }

  /** Sorting twice is sorting once. */
  lemma SortIdempotent(s: seq<Record>)
    ensures SortByTimestamp(SortByTimestamp(s)) == SortByTimestamp(s)
  {
    SortKeepsSorted(SortByTimestamp(s));
  }
}
