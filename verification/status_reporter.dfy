/**
 * The metrics aggregator of the risor-based runner (reporter/http.go).
 *
 * Producers enqueue `Report` values on a buffered channel; a single consumer
 * goroutine folds each one into integer counters and a failure-reason map;
 * `Stop` closes the channel and waits until the consumer has drained it.
 * Here the channel is the sequence `reportCh`, the consumer's loop body is
 * `Consume`, and `Stop` runs that body until the queue is empty.  Durations
 * are integer milliseconds, as in the source.
 */
module StatusReporter {
  import opened GoInt

  /** One completed request as a producer sends it. */
  datatype Report = Report(reqDuration: int, isSuccess: bool, failReason: string)

  /** The aggregate counters as one value. */
  datatype Totals = Totals(
    totalRequests: int,
    totalSuccessRequests: int,
    totalFailedRequests: int,
    totalSuccessRequestTime: int,
    totalFailedRequestTime: int,
    totalRequestTime: int,
    failedRequestReasons: map<string, int>)

  /** The counters of a freshly made reporter. */
  const Zero := Totals(0, 0, 0, 0, 0, 0, map[])

  /** What the consumer does with one report. */
  function Apply(t: Totals, rep: Report): Totals
  {
    if rep.isSuccess then
      t.(totalRequests := t.totalRequests + 1,
         totalRequestTime := t.totalRequestTime + rep.reqDuration,
         totalSuccessRequestTime := t.totalSuccessRequestTime + rep.reqDuration,
         totalSuccessRequests := t.totalSuccessRequests + 1)
    else
      t.(totalRequests := t.totalRequests + 1,
         totalRequestTime := t.totalRequestTime + rep.reqDuration,
         totalFailedRequestTime := t.totalFailedRequestTime + rep.reqDuration,
         totalFailedRequests := t.totalFailedRequests + 1,
         failedRequestReasons := Inc(t.failedRequestReasons, rep.failReason))
  }

  /** The consumer's loop over a queue, first report first. */
  function Fold(t: Totals, reps: seq<Report>): Totals
    decreases |reps|
  {
    if reps == [] then t else Fold(Apply(t, reps[0]), reps[1..])
  }

  // ---------------------------------------------------------------------
  // Reference definitions over a sequence of reports

  /** How many of the reports are successes. */
  function Successes(reps: seq<Report>): nat
  {
    if reps == [] then 0 else (if reps[0].isSuccess then 1 else 0) + Successes(reps[1..])
  }

  /** The summed duration of the reports whose outcome is `success`. */
  function TimeOf(reps: seq<Report>, success: bool): int
  {
    if reps == [] then 0
    else (if reps[0].isSuccess == success then reps[0].reqDuration else 0) + TimeOf(reps[1..], success)
  }

  /** The summed duration of all reports. */
  function TotalTime(reps: seq<Report>): int
  {
    if reps == [] then 0 else reps[0].reqDuration + TotalTime(reps[1..])
  }

  /** How many failed reports carry `reason`. */
  function ReasonCount(reps: seq<Report>, reason: string): nat
  {
    if reps == [] then 0
    else (if !reps[0].isSuccess && reps[0].failReason == reason then 1 else 0) + ReasonCount(reps[1..], reason)
  }

  /**
   * The bookkeeping identities every reachable counter state satisfies:
   * requests split into successes and failures, time splits likewise, and
   * the failure-reason counts are positive and add up to the failures.
   */
  ghost predicate Consistent(t: Totals)
  {
    && t.totalRequests == t.totalSuccessRequests + t.totalFailedRequests
    && t.totalRequestTime == t.totalSuccessRequestTime + t.totalFailedRequestTime
    && t.totalSuccessRequests >= 0
    && t.totalFailedRequests >= 0
    && Sum(t.failedRequestReasons) == t.totalFailedRequests
    && forall k :: k in t.failedRequestReasons ==> t.failedRequestReasons[k] > 0
  }

  // ---------------------------------------------------------------------
  // Properties of the fold

  /** Each report adds one request and its duration; successes never touch the reason map. */
  lemma ApplyCounts(t: Totals, rep: Report)
    ensures Apply(t, rep).totalRequests == t.totalRequests + 1
    ensures Apply(t, rep).totalRequestTime == t.totalRequestTime + rep.reqDuration
    ensures rep.isSuccess ==> Apply(t, rep).failedRequestReasons == t.failedRequestReasons
    ensures !rep.isSuccess ==> Sum(Apply(t, rep).failedRequestReasons) == Sum(t.failedRequestReasons) + 1
  {
    if !rep.isSuccess {
      SumInc(t.failedRequestReasons, rep.failReason);
    }
  }

  /** Folding one report keeps the bookkeeping identities. */
  lemma ApplyConsistent(t: Totals, rep: Report)
    requires Consistent(t)
    ensures Consistent(Apply(t, rep))
  {
    ApplyCounts(t, rep);
  }

  /** Folding any sequence keeps the bookkeeping identities. */
  lemma {:induction false} FoldConsistent(t: Totals, reps: seq<Report>)
    requires Consistent(t)
    ensures Consistent(Fold(t, reps))
    decreases |reps|
  {
    if reps != [] {
      ApplyConsistent(t, reps[0]);
      FoldConsistent(Apply(t, reps[0]), reps[1..]);
    }
  }

  /** Folding a concatenation is folding one part after the other. */
  lemma {:induction false} FoldAppend(t: Totals, p: seq<Report>, q: seq<Report>)
    ensures Fold(t, p + q) == Fold(Fold(t, p), q)
    decreases |p|
  {
    if p == [] {
      assert p + q == q;
    } else {
      assert (p + q)[0] == p[0] && (p + q)[1..] == p[1..] + q;
      calc {
        Fold(t, p + q);
        Fold(Apply(t, p[0]), p[1..] + q);
        { FoldAppend(Apply(t, p[0]), p[1..], q); }
        Fold(Fold(Apply(t, p[0]), p[1..]), q);
        Fold(Fold(t, p), q);
      }
    }
  }

  /** The consumer's one step extends the folded prefix by one report. */
  lemma FoldSnoc(t: Totals, p: seq<Report>, rep: Report)
    ensures Fold(t, p + [rep]) == Apply(Fold(t, p), rep)
  {
    FoldAppend(t, p, [rep]);
  }

  /** Folding two reports in either order gives the same counters. */
  lemma ApplyCommutes(t: Totals, a: Report, b: Report)
    ensures Apply(Apply(t, a), b) == Apply(Apply(t, b), a)
  {
    if !a.isSuccess && !b.isSuccess {
      var m := t.failedRequestReasons;
      assert Inc(Inc(m, a.failReason), b.failReason) == Inc(Inc(m, b.failReason), a.failReason);
    }
  }

  /** A report folded first has the same effect as that report folded last. */
  lemma {:induction false} FoldApplyCommutes(t: Totals, rep: Report, p: seq<Report>)
    ensures Fold(Apply(t, rep), p) == Apply(Fold(t, p), rep)
    decreases |p|
  {
    if p != [] {
      ApplyCommutes(t, rep, p[0]);
      FoldApplyCommutes(Apply(t, p[0]), rep, p[1..]);
    }
  }

  /**
   * The fold is order-independent: any permutation of the same reports
   * yields identical counters and an identical reason map.
   */
  lemma {:induction false} FoldPermutation(t: Totals, a: seq<Report>, b: seq<Report>)
    requires multiset(a) == multiset(b)
    ensures Fold(t, a) == Fold(t, b)
    decreases |a|
  {
    if a == [] {
      assert |b| == |multiset(b)| == 0;
    } else {
      var x := a[0];
      assert x in multiset(b);
      var i :| 0 <= i < |b| && b[i] == x;
      var rest := b[..i] + b[i + 1..];
      assert b == b[..i] + ([x] + b[i + 1..]);
      assert a == [x] + a[1..];
      assert multiset(a) == multiset{x} + multiset(a[1..]);
      assert multiset(b) == multiset(b[..i]) + multiset{x} + multiset(b[i + 1..]);
      assert multiset(rest) == multiset(b[..i]) + multiset(b[i + 1..]);
      assert multiset(a[1..]) == multiset(a) - multiset{x};
      assert multiset(rest) == multiset(b) - multiset{x};
      calc {
        Fold(t, b);
        { FoldAppend(t, b[..i], [x] + b[i + 1..]); }
        Fold(Fold(t, b[..i]), [x] + b[i + 1..]);
        { assert ([x] + b[i + 1..])[1..] == b[i + 1..]; }
        Fold(Apply(Fold(t, b[..i]), x), b[i + 1..]);
        { FoldApplyCommutes(t, x, b[..i]); }
        Fold(Fold(Apply(t, x), b[..i]), b[i + 1..]);
        { FoldAppend(Apply(t, x), b[..i], b[i + 1..]); }
        Fold(Apply(t, x), rest);
        { FoldPermutation(Apply(t, x), a[1..], rest); }
        Fold(t, a);
      }
    }
  }

  /**
   * What the counters mean: after folding `reps` onto `t`, every counter is
   * its old value plus the matching count or duration sum over `reps`.
   */
  lemma {:induction false} FoldCounters(t: Totals, reps: seq<Report>)
    ensures Fold(t, reps).totalRequests == t.totalRequests + |reps|
    ensures Fold(t, reps).totalSuccessRequests == t.totalSuccessRequests + Successes(reps)
    ensures Fold(t, reps).totalFailedRequests == t.totalFailedRequests + |reps| - Successes(reps)
    ensures Fold(t, reps).totalRequestTime == t.totalRequestTime + TotalTime(reps)
    ensures Fold(t, reps).totalSuccessRequestTime == t.totalSuccessRequestTime + TimeOf(reps, true)
    ensures Fold(t, reps).totalFailedRequestTime == t.totalFailedRequestTime + TimeOf(reps, false)
    decreases |reps|
  {
    if reps != [] {
      FoldCounters(Apply(t, reps[0]), reps[1..]);
    }
  }

  /** Every reason's count grows by the number of failed reports carrying it. */
  lemma {:induction false} FoldReasons(t: Totals, reps: seq<Report>, k: string)
    ensures Get(Fold(t, reps).failedRequestReasons, k) == Get(t.failedRequestReasons, k) + ReasonCount(reps, k)
    ensures k in Fold(t, reps).failedRequestReasons <==> k in t.failedRequestReasons || ReasonCount(reps, k) > 0
    decreases |reps|
  {
    if reps != [] {
      FoldReasons(Apply(t, reps[0]), reps[1..], k);
    }
  }

  /** Fresh counters satisfy the bookkeeping identities. */
  lemma ZeroConsistent()
    ensures Consistent(Zero)
  {
    assert Sum(Zero.failedRequestReasons) == 0;
  }

  /** Every counter state the consumer can reach satisfies the bookkeeping identities. */
  lemma ReachableConsistent(reps: seq<Report>)
    ensures Consistent(Fold(Zero, reps))
  {
    ZeroConsistent();
    FoldConsistent(Zero, reps);
  }

  /**
   * No loss and no double counting: folding everything that was enqueued,
   * from fresh counters, counts each report exactly once.
   */
  lemma FoldFromZero(reps: seq<Report>)
    ensures Fold(Zero, reps).totalRequests == |reps|
    ensures Fold(Zero, reps).totalSuccessRequests == Successes(reps)
    ensures Fold(Zero, reps).totalRequestTime == TotalTime(reps)
    ensures forall k :: Get(Fold(Zero, reps).failedRequestReasons, k) == ReasonCount(reps, k)
  {
    FoldCounters(Zero, reps);
    forall k ensures Get(Fold(Zero, reps).failedRequestReasons, k) == ReasonCount(reps, k) {
      FoldReasons(Zero, reps, k);
    }
  }

  // ---------------------------------------------------------------------
  // The snapshot read by GetResult

  /** The integer part of the result snapshot (the RPS fields are floating point). */
  datatype HttpReporterResult = HttpReporterResult(
    averageFailedLatency: int,
    averageLatency: int,
    averageSuccessLatency: int,
    totalFailedRequests: int,
    totalFailedRequestTime: int,
    failedRequestReasons: map<string, int>,
    totalRequests: int,
    totalRequestTimeMillis: int,
    totalSuccessRequests: int,
    totalSuccessRequestTime: int)

  /**
   * For N reports with non-negative durations, k of them successes, the
   * snapshot's average latency is the floor of their summed duration over N
   * and its success count is k.
   */
  lemma {:induction false} AverageAfterFold(reps: seq<Report>)
    requires |reps| > 0
    requires forall i :: 0 <= i < |reps| ==> reps[i].reqDuration >= 0
    ensures TotalTime(reps) >= 0
    ensures Average(Fold(Zero, reps).totalRequestTime, Fold(Zero, reps).totalRequests) == TotalTime(reps) / |reps|
    ensures Fold(Zero, reps).totalSuccessRequests == Successes(reps)
  {
    TotalTimeNonNegative(reps);
    FoldFromZero(reps);
  }

  lemma {:induction false} TotalTimeNonNegative(reps: seq<Report>)
    requires forall i :: 0 <= i < |reps| ==> reps[i].reqDuration >= 0
    ensures TotalTime(reps) >= 0
    decreases |reps|
  {
    if reps != [] {
      TotalTimeNonNegative(reps[1..]);
    }
  }

  // ---------------------------------------------------------------------
  // The reporter object

  class HttpStatusReporter {
    var startTime: int
    var totalRequests: int
    var totalSuccessRequests: int
    var totalFailedRequests: int
    var totalSuccessRequestTime: int
    var totalFailedRequestTime: int
    var totalRequestTime: int
    var failedRequestReasons: map<string, int>
    /** The reports buffered in the channel and not yet consumed. */
    var reportCh: seq<Report>
    /** Whether the channel has been closed by `Stop`. */
    var closed: bool
    /** Whether `Start` has launched the consumer. */
    var started: bool

    /** The reports the consumer has folded so far. */
    ghost var folded: seq<Report>

    /** Every report enqueued so far: the folded ones, then those still queued. */
    ghost function Sent(): seq<Report>
      reads this
    {
      folded + reportCh
    }

    ghost function Counters(): Totals
      reads this
    {
      Totals(totalRequests, totalSuccessRequests, totalFailedRequests,
             totalSuccessRequestTime, totalFailedRequestTime, totalRequestTime,
             failedRequestReasons)
    }

    /** The counters are the fold of what was consumed; the rest is still queued. */
    ghost predicate Valid()
      reads this
    {
      Counters() == Fold(Zero, folded)
    }

    /** NewHttpStatusReporter: all counters zero and an empty reason map. */
    constructor ()
      ensures Valid()
      ensures Counters() == Zero && failedRequestReasons == map[]
      ensures reportCh == [] && folded == [] && !closed && !started
    {
      startTime := 0;
      totalRequests, totalSuccessRequests, totalFailedRequests := 0, 0, 0;
      totalSuccessRequestTime, totalFailedRequestTime, totalRequestTime := 0, 0, 0;
      failedRequestReasons := map[];
      reportCh, closed, started := [], false, false;
      folded := [];
    }

    /** Start launches the consumer and records the start time (the clock reading is a parameter). */
    method Start(now: int)
      requires Valid() && !started
      modifies this
      ensures Valid() && started && startTime == now
      ensures Counters() == old(Counters()) && reportCh == old(reportCh) && folded == old(folded)
      ensures closed == old(closed)
    {
      started := true;
      startTime := now;
    }

    /** Enqueue a report; sending on the closed channel would panic, hence the requires. */
    method Enqueue(rep: Report)
      requires Valid() && !closed
      modifies this
      ensures Valid()
      ensures reportCh == old(reportCh) + [rep] && folded == old(folded)
      ensures Counters() == old(Counters()) && closed == old(closed) && started == old(started)
      ensures startTime == old(startTime)
    {
      reportCh := reportCh + [rep];
    }

    /** ReportSuccessRequest enqueues a success carrying `duration` and no reason. */
    method ReportSuccessRequest(duration: int)
      requires Valid() && !closed
      modifies this
      ensures Valid()
      ensures reportCh == old(reportCh) + [Report(duration, true, "")]
      ensures folded == old(folded)
      ensures Counters() == old(Counters()) && closed == old(closed) && started == old(started)
      ensures startTime == old(startTime)
    {
      Enqueue(Report(duration, true, ""));
    }

    /** ReportFailedRequest enqueues a failure carrying `duration` and `reason`. */
    method ReportFailedRequest(duration: int, reason: string)
      requires Valid() && !closed
      modifies this
      ensures Valid()
      ensures reportCh == old(reportCh) + [Report(duration, false, reason)]
      ensures folded == old(folded)
      ensures Counters() == old(Counters()) && closed == old(closed) && started == old(started)
      ensures startTime == old(startTime)
    {
      Enqueue(Report(duration, false, reason));
    }

    /** One pass of the consumer loop: take the oldest report and fold it in. */
    method Consume()
      requires Valid() && started && reportCh != []
      modifies this
      ensures Valid()
      ensures Counters() == Apply(old(Counters()), old(reportCh[0]))
      ensures reportCh == old(reportCh[1..]) && folded == old(folded) + [old(reportCh[0])]
      ensures closed == old(closed) && started == old(started) && startTime == old(startTime)
    {
      var rep := reportCh[0];
      reportCh := reportCh[1..];
      totalRequests := totalRequests + 1;
      totalRequestTime := totalRequestTime + rep.reqDuration;
      if rep.isSuccess {
        totalSuccessRequestTime := totalSuccessRequestTime + rep.reqDuration;
        totalSuccessRequests := totalSuccessRequests + 1;
      } else {
        totalFailedRequestTime := totalFailedRequestTime + rep.reqDuration;
        totalFailedRequests := totalFailedRequests + 1;
        failedRequestReasons := failedRequestReasons[rep.failReason := Get(failedRequestReasons, rep.failReason) + 1];
      }
      FoldSnoc(Zero, folded, rep);
      folded := folded + [rep];
    }

    /**
     * Stop closes the channel and waits for the consumer to drain it: every
     * report enqueued before Stop is folded exactly once.
     */
    method Stop()
      requires Valid() && started && !closed
      modifies this
      ensures Valid() && closed && reportCh == [] && folded == old(Sent())
      ensures Counters() == Fold(old(Counters()), old(reportCh))
      ensures Counters() == Fold(Zero, old(Sent()))
      ensures Consistent(Counters())
      ensures startTime == old(startTime) && started == old(started)
    {
      closed := true;
      while reportCh != []
        invariant Valid() && closed && started && Sent() == old(Sent())
        invariant Fold(Counters(), reportCh) == Fold(old(Counters()), old(reportCh))
        invariant startTime == old(startTime)
        decreases |reportCh|
      {
        ghost var rest := reportCh[1..];
        assert Fold(Counters(), reportCh) == Fold(Apply(Counters(), reportCh[0]), rest);
        Consume();
      }
      assert folded == Sent();
      ReachableConsistent(folded);
    }

    /**
     * GetResult: integer averages guarded against zero counts, the totals
     * as they stand, and a copy of the reason map made key by key.
     */
    method GetResult() returns (r: HttpReporterResult)
      ensures r.averageLatency == Average(totalRequestTime, totalRequests)
      ensures r.averageSuccessLatency == Average(totalSuccessRequestTime, totalSuccessRequests)
      ensures r.averageFailedLatency == Average(totalFailedRequestTime, totalFailedRequests)
      ensures r.totalRequests == totalRequests && r.totalRequestTimeMillis == totalRequestTime
      ensures r.totalSuccessRequests == totalSuccessRequests && r.totalSuccessRequestTime == totalSuccessRequestTime
      ensures r.totalFailedRequests == totalFailedRequests && r.totalFailedRequestTime == totalFailedRequestTime
      ensures r.failedRequestReasons == failedRequestReasons
    {
      var averageLatency := 0;
      if totalRequests > 0 {
        averageLatency := Quo(totalRequestTime, totalRequests);
      }
      var averageSuccessLatency := 0;
      if totalSuccessRequests > 0 {
        averageSuccessLatency := Quo(totalSuccessRequestTime, totalSuccessRequests);
      }
      var averageFailedLatency := 0;
      if totalFailedRequests > 0 {
        averageFailedLatency := Quo(totalFailedRequestTime, totalFailedRequests);
      }
      var copy: map<string, int> := map[];
      var todo := failedRequestReasons.Keys;
      while todo != {}
        invariant todo <= failedRequestReasons.Keys
        invariant copy.Keys == failedRequestReasons.Keys - todo
        invariant forall k :: k in copy ==> copy[k] == failedRequestReasons[k]
        decreases todo
      {
        var k :| k in todo;
        copy := copy[k := failedRequestReasons[k]];
        todo := todo - {k};
      }
      r := HttpReporterResult(
        averageFailedLatency, averageLatency, averageSuccessLatency,
        totalFailedRequests, totalFailedRequestTime, copy,
        totalRequests, totalRequestTime, totalSuccessRequests, totalSuccessRequestTime);
    }
  }

  /**
   * The reporter end to end: a fresh reporter, started, given `reps`
   * through the two report methods, then stopped, counts every report once.
   */
  method Drive(reps: seq<Report>, now: int) returns (r: HttpReporterResult)
    requires forall i :: 0 <= i < |reps| && reps[i].isSuccess ==> reps[i].failReason == ""
    ensures r.totalRequests == |reps|
    ensures r.totalSuccessRequests == Successes(reps)
    ensures r.totalFailedRequests == |reps| - Successes(reps)
    ensures r.totalRequestTimeMillis == TotalTime(reps)
    ensures forall k :: Get(r.failedRequestReasons, k) == ReasonCount(reps, k)
  {
    var rep := new HttpStatusReporter();
    rep.Start(now);
    var i := 0;
    while i < |reps|
      invariant 0 <= i <= |reps|
      invariant rep.Valid() && rep.started && !rep.closed && rep.Sent() == reps[..i]
      decreases |reps| - i
    {
      if reps[i].isSuccess {
        rep.ReportSuccessRequest(reps[i].reqDuration);
      } else {
        rep.ReportFailedRequest(reps[i].reqDuration, reps[i].failReason);
      }
      assert reps[..i + 1] == reps[..i] + [reps[i]];
      i := i + 1;
    }
    assert reps[..i] == reps;
    rep.Stop();
    FoldFromZero(reps);
    r := rep.GetResult();
  }
}
