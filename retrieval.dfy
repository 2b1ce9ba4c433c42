/** The read path of `get_device_values` on one device's stored list: the
    optional time filters, the sort by timestamp and the suffix limit, in
    that order. */
module Retrieval {
  import opened Options
  import opened Readings
  import opened Timeline

  function Min(a: int, b: int): int { if a <= b then a else b }

  /** The list comprehension `[v for v in s if keep(v.timestamp_ms)]`. */
  function Where(s: seq<Record>, keep: int -> bool): (r: seq<Record>)
    ensures forall x :: x in r <==> x in s && keep(x.timestampMs)
    ensures |r| <= |s|
    ensures (forall x :: x in s ==> !keep(x.timestampMs)) ==> r == []
  {
    if s == [] then []
    else
      assert s == [s[0]] + s[1..];
      (if keep(s[0].timestampMs) then [s[0]] else []) + Where(s[1..], keep)
  }

  /** Filtering keeps, for every timestamp it accepts, all records with that
      timestamp in their original order, and drops the others. */
  lemma {:induction false} WhereByTimestamp(s: seq<Record>, keep: int -> bool, t: int)
    ensures WithTimestamp(Where(s, keep), t) == if keep(t) then WithTimestamp(s, t) else []
    decreases |s|
  {
    if s != [] {
      var head := if keep(s[0].timestampMs) then [s[0]] else [];
      WhereByTimestamp(s[1..], keep, t);
      WithTimestampAppend(head, Where(s[1..], keep), t);
    }
  }

  /** Both bounds are inclusive and each may be absent. */
  predicate InWindow(t: int, start: Option<int>, end: Option<int>)
  {
    (start.Some? ==> start.value <= t) && (end.Some? ==> t <= end.value)
  }

  /** `[v for v in values if v.timestamp_ms >= start_ts]`: the records from
      `lo` on, each timestamp's records all kept and in stored order. */
  function AtOrAfter(values: seq<Record>, lo: int): (r: seq<Record>)
    ensures forall x :: x in r <==> x in values && lo <= x.timestampMs
    ensures forall t :: WithTimestamp(r, t) == if lo <= t then WithTimestamp(values, t) else []
  {
    var keep := t => lo <= t;
    forall t ensures WithTimestamp(Where(values, keep), t) == if keep(t) then WithTimestamp(values, t) else [] {
      WhereByTimestamp(values, keep, t);
    }
    Where(values, keep)
  }

  /** `[v for v in values if v.timestamp_ms <= end_ts]`: the records up to
      `hi`, each timestamp's records all kept and in stored order. */
  function AtOrBefore(values: seq<Record>, hi: int): (r: seq<Record>)
    ensures forall x :: x in r <==> x in values && x.timestampMs <= hi
    ensures forall t :: WithTimestamp(r, t) == if t <= hi then WithTimestamp(values, t) else []
  {
    var keep := t => t <= hi;
    forall t ensures WithTimestamp(Where(values, keep), t) == if keep(t) then WithTimestamp(values, t) else [] {
      WhereByTimestamp(values, keep, t);
    }
    Where(values, keep)
  }

  /** The time filters as the query applies them: `start_ts` first, then
      `end_ts`; an absent bound leaves the list as it is. */
  function Filtered(values: seq<Record>, start: Option<int>, end: Option<int>): (r: seq<Record>)
    ensures forall x :: x in r <==> x in values && InWindow(x.timestampMs, start, end)
  {
    var afterStart := if start.Some? then AtOrAfter(values, start.value) else values;
    if end.Some? then AtOrBefore(afterStart, end.value) else afterStart
  }

  lemma FilteredByTimestamp(values: seq<Record>, start: Option<int>, end: Option<int>, t: int)
    ensures WithTimestamp(Filtered(values, start, end), t)
         == if InWindow(t, start, end) then WithTimestamp(values, t) else []
  {
    var afterStart := values;
    if start.Some? {
      var lo := start.value;
      afterStart := Where(values, t => lo <= t);
      WhereByTimestamp(values, t => lo <= t, t);
    }
    if end.Some? {
      var hi := end.value;
      WhereByTimestamp(afterStart, t => t <= hi, t);
    }
  }

  /** A window whose start lies after its end holds nothing. */
  lemma InvertedWindowIsEmpty(values: seq<Record>, start: int, end: int)
    requires end < start
    ensures Filtered(values, Some(start), Some(end)) == []
  {
  }

  /** Python's `s[i:]`: a negative `i` counts from the end and is clamped to
      the front of the list; an `i` past the end gives `[]`. */
  function SliceFrom(s: seq<Record>, i: int): (r: seq<Record>)
    ensures |r| <= |s| && r == s[|s| - |r|..]
    ensures i < 0 ==> |r| == Min(-i, |s|)
    ensures 0 <= i ==> |r| == |s| - Min(i, |s|)
  {
    var k := if i < 0 then (if |s| + i < 0 then 0 else |s| + i) else Min(i, |s|);
    s[k..]
  }

  /** The `limit` step: no limit keeps everything, a limit of 0 or less gives
      `[]`, a positive limit `l` keeps `values[-l:]`, the last `l` records
      (all of them when there are fewer). */
  function Limited(s: seq<Record>, limit: Option<int>): (r: seq<Record>)
    ensures limit.None? ==> r == s
    ensures limit.Some? && limit.value <= 0 ==> r == []
    ensures limit.Some? && 0 < limit.value ==> |r| == Min(limit.value, |s|) && r == s[|s| - |r|..]
  {
    match limit
    case None => s
    case Some(l) => if l <= 0 then [] else SliceFrom(s, -l)
  }

  /** A suffix of a sorted list is sorted. */
  lemma SuffixSorted(s: seq<Record>, k: nat)
    requires Sorted(s) && k <= |s|
    ensures Sorted(s[k..])
  {
    forall i, j | 0 <= i < j < |s| - k
      ensures s[k..][i].timestampMs <= s[k..][j].timestampMs
    {
      assert s[k..][i] == s[k + i] && s[k..][j] == s[k + j];
    }
  }

  /** What the query returns for a device whose stored list is `values`:
      filter, then sort, then limit. */
  function Pipeline(values: seq<Record>, start: Option<int>, end: Option<int>, limit: Option<int>): (r: seq<Record>)
    ensures Sorted(r)
    ensures forall x :: x in r ==> x in values && InWindow(x.timestampMs, start, end)
  {
    var sorted := SortByTimestamp(Filtered(values, start, end));
    var r := Limited(sorted, limit);
    SuffixSorted(sorted, |sorted| - |r|);
    assert forall x :: x in r ==> x in multiset(sorted);
    r
  }

  /** Without a limit every record in the window is returned, each as often
      as it is stored. */
  lemma PipelineUnlimited(values: seq<Record>, start: Option<int>, end: Option<int>)
    ensures multiset(Pipeline(values, start, end, None)) == multiset(Filtered(values, start, end))
    ensures forall x :: x in values && InWindow(x.timestampMs, start, end) ==> x in Pipeline(values, start, end, None)
  {
    var r := Pipeline(values, start, end, None);
    forall x | x in values && InWindow(x.timestampMs, start, end)
      ensures x in r
    {
      assert x in multiset(Filtered(values, start, end));
    }
  }

  /** A positive limit `l` returns the `l` most recent records of the window
      (all of them when the window holds fewer), oldest first: every record
      it leaves out is no later than every record it returns. */
  lemma PipelineMostRecent(values: seq<Record>, start: Option<int>, end: Option<int>, l: int)
    requires 0 < l
    ensures var all := SortByTimestamp(Filtered(values, start, end));
            var r := Pipeline(values, start, end, Some(l));
            && |r| == Min(l, |all|)
            && r == all[|all| - |r|..]
            && forall i, j :: 0 <= i < |all| - |r| <= j < |all| ==> all[i].timestampMs <= all[j].timestampMs
  {
  }

  /** A limit of 0 or less gives nothing, whatever the window holds. */
  lemma PipelineNonPositiveLimit(values: seq<Record>, start: Option<int>, end: Option<int>, l: int)
    requires l <= 0
    ensures Pipeline(values, start, end, Some(l)) == []
  {
  }

  /** The result depends on the stored list only through which records it
      holds per timestamp and in which order: reordering records with
      different timestamps (as the in-place sort does) never shows. */
  lemma PipelineIgnoresStoredOrder(values: seq<Record>, other: seq<Record>,
                                   start: Option<int>, end: Option<int>, limit: Option<int>)
    requires forall t :: WithTimestamp(other, t) == WithTimestamp(values, t)
    ensures Pipeline(other, start, end, limit) == Pipeline(values, start, end, limit)
  {
    var a := SortByTimestamp(Filtered(other, start, end));
    forall t
      ensures WithTimestamp(a, t) == WithTimestamp(Filtered(values, start, end), t)
    {
      SortStable(Filtered(other, start, end), t);
      FilteredByTimestamp(other, start, end, t);
      FilteredByTimestamp(values, start, end, t);
    }
    SortCharacterised(Filtered(values, start, end), a);
  }

  /** In particular, querying the sorted list gives what querying the
      unsorted one gives. */
  lemma PipelineAfterSort(values: seq<Record>, start: Option<int>, end: Option<int>, limit: Option<int>)
    ensures Pipeline(SortByTimestamp(values), start, end, limit) == Pipeline(values, start, end, limit)
  {
    forall t
      ensures WithTimestamp(SortByTimestamp(values), t) == WithTimestamp(values, t)
    {
      SortStable(values, t);
    }
    PipelineIgnoresStoredOrder(values, SortByTimestamp(values), start, end, limit);
  }
}
