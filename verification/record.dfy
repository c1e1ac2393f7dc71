/**
 * The execution record of the starlark runner (internal/reporter/repoter.go).
 *
 * A Record is a small mutable object: optional start and end timestamps, a
 * success flag and a map of caller-supplied tags.  Timestamps are integer
 * nanoseconds; the clock reading `time.Now()` that Start and End take is a
 * parameter.  The tag values, Go's `any`, are the type parameter `V`.
 */
module Records {
  import opened Wrappers

  /** Everything a record holds, as one value, so that "nothing else changes" is one equation. */
  datatype RecordState<V> = RecordState(
    recordType: string,
    start: Option<int>,
    end: Option<int>,
    success: bool,
    data: map<string, V>,
    failedReasons: map<string, int>)

  class Record<V> {
    var recordType: string
    var start: Option<int>
    var end: Option<int>
    var success: bool
    var data: map<string, V>
    var failedReasons: map<string, int>

    ghost function State(): RecordState<V>
      reads this
    {
      RecordState(recordType, start, end, success, data, failedReasons)
    }

    /** The struct literal the recorders build: no timestamps, not successful, empty maps. */
    constructor (recordType: string)
      ensures State() == RecordState(recordType, None, None, false, map[], map[])
    {
      this.recordType := recordType;
      start, end := None, None;
      success := false;
      data, failedReasons := map[], map[];
    }

    /** Start stamps the start time and touches nothing else. */
    method Start(now: int)
      modifies this
      ensures State() == old(State()).(start := Some(now))
    {
      start := Some(now);
    }

    /** End stamps the end time and touches nothing else. */
    method End(now: int)
      modifies this
      ensures State() == old(State()).(end := Some(now))
    {
      end := Some(now);
    }

    /** Set stores `val` under `key`; every other key keeps its value. */
    method Set(key: string, val: V)
      modifies this
      ensures State() == old(State()).(data := old(data)[key := val])
      ensures key in data && data[key] == val
      ensures forall k :: k != key ==> (k in data <==> k in old(data))
    {
      data := data[key := val];
    }

    /** Del removes `key` (if present) and only `key`. */
    method Del(key: string)
      modifies this
      ensures State() == old(State()).(data := old(data) - {key})
      ensures key !in data
      ensures forall k :: k != key ==> (k in data <==> k in old(data))
    {
      data := data - {key};
    }

    /** Success marks the record successful. */
    method Success()
      modifies this
      ensures State() == old(State()).(success := true)
    {
      success := true;
    }

    /** Failed marks the record unsuccessful; the reason is discarded. */
    method Failed(reason: string)
      modifies this
      ensures State() == old(State()).(success := false)
    {
      success := false;
    }

    /** Clear empties the tag map and keeps the timestamps and the outcome. */
    method Clear()
      modifies this
      ensures State() == old(State()).(data := map[])
    {
      data := map[];
    }

    /** Both timestamps are set, the only state in which `duration` does not panic. */
    predicate Timed()
      reads this
    {
      start.Some? && end.Some?
    }

    /** The time from start to end. */
    function Duration(): (d: int)
      reads this
      requires Timed()
      ensures start.value + d == end.value
      ensures d >= 0 <==> start.value <= end.value
    {
      end.value - start.value
    }
  }

  /**
   * Outcome classification is last-call-wins: whatever sequence of Success
   * and Failed calls a script makes, the record's flag is the last one's.
   */
  datatype Mark = MarkSuccess | MarkFailed(reason: string)

  method Classify<V>(r: Record<V>, marks: seq<Mark>)
    modifies r
    ensures marks == [] ==> r.State() == old(r.State())
    ensures marks != [] ==> r.State() == old(r.State()).(success := marks[|marks| - 1].MarkSuccess?)
  {
    var i := 0;
    while i < |marks|
      invariant 0 <= i <= |marks|
      invariant i == 0 ==> r.State() == old(r.State())
      invariant i > 0 ==> r.State() == old(r.State()).(success := marks[i - 1].MarkSuccess?)
      decreases |marks| - i
    {
      match marks[i] {
        case MarkSuccess => r.Success();
        case MarkFailed(reason) => r.Failed(reason);
      }
      i := i + 1;
    }
  }

  /**
   * One timed unit of work as the http built-in records it: a fresh
   * record is started at `t0` and ended at `t1`; its duration is `t1 - t0`.
   */
  method TimeRecord<V>(t0: int, t1: int) returns (r: Record<V>)
    ensures fresh(r) && r.Timed() && r.Duration() == t1 - t0
    ensures r.data == map[] && !r.success
  {
    r := new Record("http");
    r.Start(t0);
    r.End(t1);
  }
}
