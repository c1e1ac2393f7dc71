/**
 * The record collector of the starlark runner (internal/reporter/http.go).
 *
 * Script built-ins hand finished records to `Record`, which sends them on a
 * buffered channel; a collector goroutine appends each one to `records`;
 * `Stop` closes the channel and waits for the collector to finish.  The
 * channel is the sequence `collectorCh` and the collector's loop body is
 * `Collect`.  `GetReport` scans for the earliest start, sorts the records by
 * end time in place, and counts them into one-second buckets.
 */
module HttpRepoter {
  import opened Wrappers
  import opened Records
  import GoInt

  /** The figures GetReport prints (the request rate is their floating-point quotient). */
  datatype Report = Report(
    totalRequests: int,
    totalTime: int,
    totalSuccessRequests: int,
    totalFailedRequests: int,
    bucketCount: int)

  /** A record's end time, 0 when it has none. */
  function EndOf<V>(r: Record<V>): int
    reads r
  {
    if r.end.Some? then r.end.value else 0
  }

  /** A record's start time, 0 when it has none. */
  function StartOf<V>(r: Record<V>): int
    reads r
  {
    if r.start.Some? then r.start.value else 0
  }

  /** Every record has both timestamps. */
  ghost predicate AllTimed<V>(rs: seq<Record<V>>)
    reads rs
  {
    forall i :: 0 <= i < |rs| ==> rs[i].Timed()
  }

  /** Records in ascending order of end time. */
  ghost predicate SortedByEnd<V>(rs: seq<Record<V>>)
    reads rs
  {
    forall i, j :: 0 <= i < j < |rs| ==> EndOf(rs[i]) <= EndOf(rs[j])
  }

  /** The summed durations of timed records. */
  ghost function SumDurations<V>(rs: seq<Record<V>>): int
    reads rs
    requires AllTimed(rs)
  {
    if |rs| == 0 then 0 else SumDurations(rs[..|rs| - 1]) + rs[|rs| - 1].Duration()
  }

  /** How many records are marked successful. */
  ghost function CountSuccess<V>(rs: seq<Record<V>>): nat
    reads rs
  {
    if |rs| == 0 then 0 else CountSuccess(rs[..|rs| - 1]) + (if rs[|rs| - 1].success then 1 else 0)
  }

  /** At most all of the records are successful. */
  lemma {:induction false} CountSuccessBound<V>(rs: seq<Record<V>>)
    ensures CountSuccess(rs) <= |rs|
    decreases |rs|
  {
    if |rs| > 0 {
      CountSuccessBound(rs[..|rs| - 1]);
    }
  }

  /**
   * The earliest start over a non-empty sequence of records, by the scan
   * GetReport begins with: it is attained, and no record starts earlier.
   */
  method EarliestStart<V>(rs: seq<Record<V>>) returns (m: int)
    requires |rs| > 0
    ensures exists i :: 0 <= i < |rs| && m == StartOf(rs[i])
    ensures forall i :: 0 <= i < |rs| ==> m <= StartOf(rs[i])
  {
    m := StartOf(rs[0]);
    var i := 0;
    while i < |rs|
      invariant 0 <= i <= |rs|
      invariant exists k :: 0 <= k < |rs| && m == StartOf(rs[k])
      invariant forall k :: 0 <= k < i ==> m <= StartOf(rs[k])
      decreases |rs| - i
    {
      if StartOf(rs[i]) < m {
        m := StartOf(rs[i]);
      }
      i := i + 1;
    }
  }

  /** The records an array holds, in order. */
  ghost function Elements<V>(a: array<Record<V>>): seq<Record<V>>
    reads a
  {
    a[..]
  }

  /** `m` is the earliest start over `rs`: attained, and no record starts earlier. */
  ghost predicate IsEarliest<V>(m: int, rs: seq<Record<V>>)
    reads rs
  {
    && (exists i :: 0 <= i < |rs| && m == StartOf(rs[i]))
    && (forall i :: 0 <= i < |rs| ==> m <= StartOf(rs[i]))
  }

  /** The earliest start is unique and does not depend on the order of the records. */
  lemma EarliestOfPermutation<V>(m: int, rs: seq<Record<V>>, m': int, ts: seq<Record<V>>)
    requires multiset(rs) == multiset(ts)
    requires IsEarliest(m, rs) && IsEarliest(m', ts)
    ensures m == m'
  {
    var i :| 0 <= i < |rs| && m == StartOf(rs[i]);
    assert rs[i] in multiset(ts);
    var j :| 0 <= j < |ts| && m' == StartOf(ts[j]);
    assert ts[j] in multiset(rs);
    var i' :| 0 <= i' < |ts| && ts[i'] == rs[i];
    var j' :| 0 <= j' < |rs| && rs[j'] == ts[j];
  }

  /** Exchange two neighbouring records of the array. */
  method SwapDown<V>(a: array<Record<V>>, j: int)
    requires 0 < j < a.Length
    modifies a
    ensures Elements(a) == old(Elements(a))[j - 1 := old(a[j])][j := old(a[j - 1])]
    ensures multiset(Elements(a)) == multiset(old(Elements(a)))
  {
    a[j - 1], a[j] := a[j], a[j - 1];
  }

  /** One insertion step: with a[..i] sorted, move a[i] down until a[..i + 1] is sorted. */
  method InsertByEnd<V>(a: array<Record<V>>, i: int)
    requires 0 <= i < a.Length
    requires forall p, q :: 0 <= p < q < i ==> EndOf(a[p]) <= EndOf(a[q])
    modifies a
    ensures forall p, q :: 0 <= p < q <= i ==> EndOf(a[p]) <= EndOf(a[q])
    ensures multiset(Elements(a)) == multiset(old(Elements(a)))
  {
    var j := i;
    while j > 0 && EndOf(a[j - 1]) > EndOf(a[j])
      invariant 0 <= j <= i
      invariant forall p, q :: 0 <= p < q <= i && q != j ==> EndOf(a[p]) <= EndOf(a[q])
      invariant 0 < j < i ==> EndOf(a[j - 1]) <= EndOf(a[j + 1])
      invariant multiset(Elements(a)) == multiset(old(Elements(a)))
      decreases j
    {
      SwapDown(a, j);
      j := j - 1;
    }
  }

  /** The earliest start found in `rs` is the only earliest start of any permutation of `rs`. */
  lemma EarliestUnique<V>(m: int, rs: seq<Record<V>>, ts: seq<Record<V>>)
    requires multiset(rs) == multiset(ts)
    requires (exists i :: 0 <= i < |rs| && m == StartOf(rs[i])) && forall i :: 0 <= i < |rs| ==> m <= StartOf(rs[i])
    ensures forall m' :: IsEarliest(m', ts) ==> m' == m
  {
    forall m' | IsEarliest(m', ts) ensures m' == m {
      EarliestOfPermutation(m, rs, m', ts);
    }
  }

  /** sort.Slice by end time: the array ends sorted and holds the same records. */
  method SortByEnd<V>(a: array<Record<V>>)
    modifies a
    ensures SortedByEnd(a[..])
    ensures multiset(Elements(a)) == multiset(old(Elements(a)))
  {
    var i := 0;
    while i < a.Length
      invariant 0 <= i <= a.Length
      invariant forall p, q :: 0 <= p < q < i ==> EndOf(a[p]) <= EndOf(a[q])
      invariant multiset(Elements(a)) == multiset(old(Elements(a)))
      decreases a.Length - i
    {
      InsertByEnd(a, i);
      i := i + 1;
    }
  }

  /** Sort a copy of the records by end time; every record keeps its timestamps. */
  method SortRecords<V>(rs: seq<Record<V>>) returns (sorted: seq<Record<V>>)
    ensures multiset(sorted) == multiset(rs) && |sorted| == |rs|
    ensures SortedByEnd(sorted)
    ensures AllTimed(rs) ==> AllTimed(sorted)
  {
    var a := new Record<V>[|rs|](i requires 0 <= i < |rs| => rs[i]);
    assert Elements(a) == rs;
    SortByEnd(a);
    sorted := a[..];
    assert multiset(sorted) == multiset(rs);
    assert |sorted| == |multiset(sorted)| == |multiset(rs)| == |rs|;
    if AllTimed(rs) {
      forall i | 0 <= i < |sorted| ensures sorted[i].Timed() {
        assert sorted[i] in multiset(rs);
      }
    }
  }

  /**
   * The counting loop of GetReport over records sorted by end time, with
   * the first bucket starting at `first`: a new one-second bucket opens
   * whenever a record ends more than a second after the current bucket's
   * start, and every record adds its duration and its outcome.
   */
  method CountBuckets<V>(rs: seq<Record<V>>, first: int)
    returns (bucketCount: int, totalTime: int, totalSuccessRequests: int, totalFailedRequests: int)
    requires AllTimed(rs)
    ensures 1 <= bucketCount <= 1 + |rs|
    ensures bucketCount == 1 <==> forall j :: 0 <= j < |rs| ==> EndOf(rs[j]) <= first + GoInt.Second
    ensures totalTime == SumDurations(rs)
    ensures totalSuccessRequests == CountSuccess(rs)
    ensures totalSuccessRequests + totalFailedRequests == |rs|
    ensures 0 <= totalFailedRequests
  {
    var bucketStart := first;
    bucketCount, totalTime, totalSuccessRequests, totalFailedRequests := 1, 0, 0, 0;
    var i := 0;
    while i < |rs|
      invariant 0 <= i <= |rs|
      invariant 1 <= bucketCount <= 1 + i
      invariant bucketCount == 1 <==> forall j :: 0 <= j < i ==> EndOf(rs[j]) <= first + GoInt.Second
      invariant bucketStart == first + (bucketCount - 1) * GoInt.Second
      invariant totalTime == SumDurations(rs[..i])
      invariant totalSuccessRequests == CountSuccess(rs[..i])
      invariant totalSuccessRequests + totalFailedRequests == i
      decreases |rs| - i
    {
      var record := rs[i];
      if EndOf(record) > bucketStart + GoInt.Second {
        bucketCount := bucketCount + 1;
        bucketStart := bucketStart + GoInt.Second;
      }
      assert rs[..i + 1][..i] == rs[..i];
      totalTime := totalTime + record.Duration();
      if record.success {
        totalSuccessRequests := totalSuccessRequests + 1;
      } else {
        totalFailedRequests := totalFailedRequests + 1;
      }
      i := i + 1;
    }
    assert rs[..i] == rs;
    CountSuccessBound(rs);
  }

  class HttpRepoter<V> {
    /** Records sent and not yet appended by the collector. */
    var collectorCh: seq<Record<V>>
    var records: seq<Record<V>>
    /** Whether the collector goroutine has been launched. */
    var started: bool
    /** Whether the channel has been closed by Stop. */
    var closed: bool

    /** Everything sent so far, in the order it was sent. */
    ghost function Sent(): seq<Record<V>>
      reads this
    {
      records + collectorCh
    }

    /** NewHttp: an empty channel and no records. */
    constructor ()
      ensures collectorCh == [] && records == [] && !started && !closed
    {
      collectorCh, records := [], [];
      started, closed := false, false;
    }

    /** NewRecord: a fresh "http" record with no timestamps, not successful, no tags. */
    method NewRecord() returns (r: Record<V>)
      ensures fresh(r)
      ensures r.State() == RecordState("http", None, None, false, map[], map[])
    {
      r := new Record("http");
    }

    /** Record sends `rec` to the collector and always reports no error; sending after Stop panics. */
    method Record(rec: Record<V>) returns (err: Option<string>)
      requires !closed
      modifies this
      ensures err == None
      ensures collectorCh == old(collectorCh) + [rec] && records == old(records)
      ensures Sent() == old(Sent()) + [rec]
      ensures started == old(started) && closed == old(closed)
    {
      collectorCh := collectorCh + [rec];
      err := None;
    }

    /** Type names the kind of records this recorder collects. */
    function Type(): (t: string)
      ensures t == "http"
    {
      "http"
    }

    /** Start launches the collector and reports no error. */
    method Start() returns (err: Option<string>)
      requires !started
      modifies this
      ensures err == None && started
      ensures collectorCh == old(collectorCh) && records == old(records) && closed == old(closed)
    {
      started := true;
      err := None;
    }

    /** One pass of the collector loop: append the oldest sent record. */
    method Collect()
      requires started && collectorCh != []
      modifies this
      ensures records == old(records) + [old(collectorCh)[0]]
      ensures collectorCh == old(collectorCh)[1..]
      ensures Sent() == old(Sent())
      ensures started == old(started) && closed == old(closed)
    {
      records := records + [collectorCh[0]];
      collectorCh := collectorCh[1..];
    }

    /** Stop closes the channel and waits until the collector has appended everything, in order. */
    method Stop() returns (err: Option<string>)
      requires started && !closed
      modifies this
      ensures err == None && closed && collectorCh == [] && started == old(started)
      ensures records == old(records) + old(collectorCh)
      ensures records == old(Sent())
    {
      closed := true;
      while collectorCh != []
        invariant started && closed
        invariant records + collectorCh == old(records) + old(collectorCh)
        decreases |collectorCh|
      {
        Collect();
      }
      err := None;
    }

    /**
     * GetReport: sorts `records` by end time in place, counts the total,
     * successful and failed records, sums their durations, and counts
     * one-second buckets from the earliest start.  It indexes `records[0]`
     * and reads every record's timestamps, so it needs a non-empty,
     * fully timed record list.
     */
    method GetReport() returns (rep: Report)
      requires |records| > 0 && AllTimed(records)
      modifies this
      ensures multiset(records) == multiset(old(records)) && SortedByEnd(records)
      ensures collectorCh == old(collectorCh) && started == old(started) && closed == old(closed)
      ensures rep.totalRequests == |records|
      ensures rep.totalSuccessRequests == CountSuccess(records)
      ensures rep.totalSuccessRequests + rep.totalFailedRequests == rep.totalRequests
      ensures 0 <= rep.totalFailedRequests
      ensures AllTimed(records) && rep.totalTime == SumDurations(records)
      ensures 1 <= rep.bucketCount <= 1 + |records|
      ensures forall m :: IsEarliest(m, records) ==>
        (rep.bucketCount == 1 <==> forall i :: 0 <= i < |records| ==> EndOf(records[i]) <= m + GoInt.Second)
    {
      var totalRequests := |records|;
      var rs := records;
      var bucketStart := EarliestStart(rs);
      records := SortRecords(rs);
      EarliestUnique(bucketStart, rs, records);
      var bucketCount, totalTime, totalSuccessRequests, totalFailedRequests := CountBuckets(records, bucketStart);
      rep := Report(totalRequests, totalTime, totalSuccessRequests, totalFailedRequests, bucketCount);
    }
  }
}
