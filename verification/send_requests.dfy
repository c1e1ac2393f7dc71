/**
 * The request loop's result handling in app.go: the fold over the result
 * channel in SendRequests and the figures printResult derives from it.
 *
 * Workers put either a timeout marker or a response on the channel; the
 * caller folds them into counters and a status-code histogram.  Durations
 * are the nanoseconds of Go's time.Duration, which the fold converts to
 * milliseconds with Duration.Milliseconds (truncating).
 */
module SendRequests {
  import opened GoInt

  /** What a worker sends: a timeout, or a response's status code and elapsed time. */
  datatype RequestResult = Timeout | Response(statusCode: int, duration: int)

  /** Nanoseconds per millisecond. */
  const Millisecond: int := 1_000_000

  /** Duration.Milliseconds: the duration in whole milliseconds, truncated toward zero. */
  function Milliseconds(d: int): (ms: int)
    ensures d >= 0 ==> 0 <= ms * Millisecond <= d < ms * Millisecond + Millisecond
    ensures d < 0 ==> ms * Millisecond - Millisecond < d <= ms * Millisecond <= 0
  {
    Quo(d, Millisecond)
  }

  /** The counters SendRequests hands to printResult. */
  datatype Tally = Tally(
    totalRequests: int,
    totalFailedRequests: int,
    totalPassedRequests: int,
    totalTime: int,
    totalTimeouts: int,
    responseStatusCodeCount: map<int, int>)

  const Empty := Tally(0, 0, 0, 0, 0, map[])

  /** A status in [200, 300) counts as passed. */
  predicate Passed(code: int)
  {
    200 <= code < 300
  }

  /** The counters after folding `results` in channel order. */
  function Tallied(results: seq<RequestResult>): Tally
  {
    if |results| == 0 then Empty
    else
      var t := Tallied(results[..|results| - 1]);
      match results[|results| - 1]
      case Timeout => t.(totalTimeouts := t.totalTimeouts + 1)
      case Response(code, d) =>
        t.(totalRequests := t.totalRequests + 1,
           totalTime := t.totalTime + Milliseconds(d),
           totalPassedRequests := t.totalPassedRequests + (if Passed(code) then 1 else 0),
           totalFailedRequests := t.totalFailedRequests + (if Passed(code) then 0 else 1),
           responseStatusCodeCount := Inc(t.responseStatusCodeCount, code))
  }

  /**
   * The `for res := range resultCh` loop: timeouts only bump their own
   * counter; every response counts once, adds its milliseconds, is passed
   * or failed by its status, and bumps its status code's count.
   */
  method CollectResults(results: seq<RequestResult>) returns (r: Tally)
    ensures r == Tallied(results)
  {
    var totalRequests, totalFailedRequests, totalPassedRequests, totalTime, totalTimeouts := 0, 0, 0, 0, 0;
    var responseStatusCodeCount: map<int, int> := map[];
    var i := 0;
    while i < |results|
      invariant 0 <= i <= |results|
      invariant Tallied(results[..i]) == Tally(totalRequests, totalFailedRequests, totalPassedRequests,
                                               totalTime, totalTimeouts, responseStatusCodeCount)
      decreases |results| - i
    {
      var res := results[i];
      assert results[..i + 1][..i] == results[..i];
      i := i + 1;
      if res.Timeout? {
        totalTimeouts := totalTimeouts + 1;
        continue;
      }
      totalRequests := totalRequests + 1;
      totalTime := totalTime + Milliseconds(res.duration);
      if res.statusCode >= 200 && res.statusCode < 300 {
        totalPassedRequests := totalPassedRequests + 1;
      } else {
        totalFailedRequests := totalFailedRequests + 1;
      }
      var currentCount := Get(responseStatusCodeCount, res.statusCode);
      currentCount := currentCount + 1;
      responseStatusCodeCount := responseStatusCodeCount[res.statusCode := currentCount];
    }
    assert results[..i] == results;
    r := Tally(totalRequests, totalFailedRequests, totalPassedRequests, totalTime, totalTimeouts, responseStatusCodeCount);
  }

  // ---------------------------------------------------------------------
  // Reference counts over the results

  /** How many results are timeouts. */
  function Timeouts(results: seq<RequestResult>): nat
  {
    if |results| == 0 then 0
    else
      var last := results[|results| - 1];
      Timeouts(results[..|results| - 1]) + (if last.Timeout? then 1 else 0)
  }

  /** How many responses have a passing status. */
  function PassedCount(results: seq<RequestResult>): nat
  {
    if |results| == 0 then 0
    else
      var last := results[|results| - 1];
      PassedCount(results[..|results| - 1]) + (if last.Response? && Passed(last.statusCode) then 1 else 0)
  }

  /** The whole milliseconds of all responses. */
  function MillisSum(results: seq<RequestResult>): int
  {
    if |results| == 0 then 0
    else
      var last := results[|results| - 1];
      MillisSum(results[..|results| - 1]) + (if last.Response? then Milliseconds(last.duration) else 0)
  }

  /** How many responses carry status `code`. */
  function CodeCount(results: seq<RequestResult>, code: int): nat
  {
    if |results| == 0 then 0
    else
      var last := results[|results| - 1];
      CodeCount(results[..|results| - 1], code) + (if last.Response? && last.statusCode == code then 1 else 0)
  }

  /**
   * What the tally means: timeouts are counted apart, every other result
   * is one request, passed and failed split the requests, the time is the
   * sum of whole milliseconds, and each status code's count is the number
   * of responses with that code; the histogram adds up to the requests.
   */
  lemma {:induction false} TalliedMeaning(results: seq<RequestResult>)
    ensures Tallied(results).totalTimeouts == Timeouts(results)
    ensures Tallied(results).totalRequests == |results| - Timeouts(results)
    ensures Tallied(results).totalPassedRequests == PassedCount(results)
    ensures Tallied(results).totalPassedRequests + Tallied(results).totalFailedRequests == Tallied(results).totalRequests
    ensures Tallied(results).totalTime == MillisSum(results)
    ensures forall c :: Get(Tallied(results).responseStatusCodeCount, c) == CodeCount(results, c)
    ensures Sum(Tallied(results).responseStatusCodeCount) == Tallied(results).totalRequests
    decreases |results|
  {
    if |results| > 0 {
      var init := results[..|results| - 1];
      TalliedMeaning(init);
      var last := results[|results| - 1];
      if last.Response? {
        SumInc(Tallied(init).responseStatusCodeCount, last.statusCode);
      }
    } else {
      assert Sum(Empty.responseStatusCodeCount) == 0;
    }
  }

  /** A timeout changes the timeout counter and nothing else. */
  lemma TimeoutOnlyCountsTimeout(results: seq<RequestResult>)
    ensures Tallied(results + [Timeout]) == Tallied(results).(totalTimeouts := Tallied(results).totalTimeouts + 1)
  {
    assert (results + [Timeout])[..|results|] == results;
  }

  /**
   * A response adds one request and its whole milliseconds, one passed or
   * one failed request as its status is 2xx or not, and one to its code's
   * count, leaving every other code's count alone.
   */
  lemma ResponseCounts(results: seq<RequestResult>, code: int, d: int)
    ensures Tallied(results + [Response(code, d)]).totalRequests == Tallied(results).totalRequests + 1
    ensures Tallied(results + [Response(code, d)]).totalTime == Tallied(results).totalTime + Milliseconds(d)
    ensures Tallied(results + [Response(code, d)]).totalTimeouts == Tallied(results).totalTimeouts
    ensures Tallied(results + [Response(code, d)]).totalPassedRequests
         == Tallied(results).totalPassedRequests + (if Passed(code) then 1 else 0)
    ensures Tallied(results + [Response(code, d)]).totalFailedRequests
         == Tallied(results).totalFailedRequests + (if Passed(code) then 0 else 1)
    ensures Get(Tallied(results + [Response(code, d)]).responseStatusCodeCount, code)
         == Get(Tallied(results).responseStatusCodeCount, code) + 1
    ensures forall c :: c != code ==>
      Get(Tallied(results + [Response(code, d)]).responseStatusCodeCount, c)
      == Get(Tallied(results).responseStatusCodeCount, c)
  {
    assert (results + [Response(code, d)])[..|results|] == results;
  }

  /**
   * printResult's average latency: 0 without requests; otherwise, for
   * non-negative response times, the floor of total time over requests.
   */
  lemma AverageLatencyBounds(results: seq<RequestResult>)
    requires forall i :: 0 <= i < |results| && results[i].Response? ==> results[i].duration >= 0
    ensures var t := Tallied(results);
      && (t.totalRequests == 0 ==> Average(t.totalTime, t.totalRequests) == 0)
      && (t.totalRequests > 0 ==> Average(t.totalTime, t.totalRequests) == t.totalTime / t.totalRequests)
  {
    TalliedMeaning(results);
    MillisSumNonNegative(results);
  }

  lemma {:induction false} MillisSumNonNegative(results: seq<RequestResult>)
    requires forall i :: 0 <= i < |results| && results[i].Response? ==> results[i].duration >= 0
    ensures MillisSum(results) >= 0
    decreases |results|
  {
    if |results| > 0 {
      MillisSumNonNegative(results[..|results| - 1]);
    }
  }

  // ---------------------------------------------------------------------
  // printResult's status-code lines

  /** The decimal digits of a natural number, as fmt's %d writes them. */
  function Digits(n: nat): (s: string)
    ensures |s| > 0
    ensures forall i :: 0 <= i < |s| ==> '0' <= s[i] <= '9'
  {
    var d := ['0' + (n % 10) as char];
    if n < 10 then d else Digits(n / 10) + d
  }

  /** %d of an integer. */
  function Itoa(n: int): string
  {
    if n < 0 then "-" + Digits(-n) else Digits(n)
  }

  /** The line printResult emits for one status code and its count. */
  function StatusLine(code: int, count: int): string
  {
    "    HTTP " + Itoa(code) + " \t " + Itoa(count) + "\n"
  }

  /** Byte-wise string order, as Go compares strings (the lines are ASCII). */
  predicate LessEq(a: string, b: string)
  {
    |a| == 0 || (|b| > 0 && (a[0] < b[0] || (a[0] == b[0] && LessEq(a[1..], b[1..]))))
  }

  /** Any two strings are ordered one way or the other. */
  lemma {:induction false} LessEqTotal(a: string, b: string)
    ensures LessEq(a, b) || LessEq(b, a)
    decreases |a|
  {
    if |a| > 0 && |b| > 0 && a[0] == b[0] {
      LessEqTotal(a[1..], b[1..]);
    }
  }

  /** The order is transitive. */
  lemma {:induction false} LessEqTrans(a: string, b: string, c: string)
    requires LessEq(a, b) && LessEq(b, c)
    ensures LessEq(a, c)
    decreases |a|
  {
    if |a| > 0 && a[0] == b[0] && b[0] == c[0] {
      LessEqTrans(a[1..], b[1..], c[1..]);
    }
  }

  ghost predicate SortedLines(s: seq<string>)
  {
    forall p, q :: 0 <= p < q < |s| ==> LessEq(s[p], s[q])
  }

  /** Neighbouring lines are in order; with transitivity this is SortedLines. */
  ghost predicate NeighboursSorted(s: seq<string>, n: int)
    requires n <= |s|
  {
    forall k :: 0 < k < n ==> LessEq(s[k - 1], s[k])
  }

  /** Ordered neighbours make the whole sequence ordered. */
  lemma {:induction false} NeighboursGiveSorted(s: seq<string>)
    requires NeighboursSorted(s, |s|)
    ensures SortedLines(s)
    decreases |s|
  {
    if |s| > 1 {
      var init := s[..|s| - 1];
      assert NeighboursSorted(init, |init|);
      NeighboursGiveSorted(init);
      forall p | 0 <= p < |s| - 1 ensures LessEq(s[p], s[|s| - 1]) {
        if p < |s| - 2 {
          assert LessEq(init[p], init[|s| - 2]);
          LessEqTrans(s[p], s[|s| - 2], s[|s| - 1]);
        }
      }
    }
  }

  /** slices.Sort on the lines: insertion of each line into the sorted prefix, in place. */
  method SortLines(a: array<string>)
    modifies a
    ensures SortedLines(a[..])
    ensures multiset(a[..]) == multiset(old(a[..]))
  {
    var i := 0;
    while i < a.Length
      invariant 0 <= i <= a.Length
      invariant NeighboursSorted(a[..], i)
      invariant multiset(a[..]) == multiset(old(a[..]))
      decreases a.Length - i
    {
      InsertLine(a, i);
      i := i + 1;
    }
    NeighboursGiveSorted(a[..]);
  }

  /** Exchange two neighbouring lines. */
  method SwapLines(a: array<string>, j: int)
    requires 0 < j < a.Length
    modifies a
    ensures a[..] == old(a[..])[j - 1 := old(a[j])][j := old(a[j - 1])]
    ensures multiset(a[..]) == multiset(old(a[..]))
  {
    a[j - 1], a[j] := a[j], a[j - 1];
  }

  /** One insertion step: with a[..i] in order, move a[i] down until a[..i + 1] is in order. */
  method InsertLine(a: array<string>, i: int)
    requires 0 <= i < a.Length
    requires NeighboursSorted(a[..], i)
    modifies a
    ensures NeighboursSorted(a[..], i + 1)
    ensures multiset(a[..]) == multiset(old(a[..]))
  {
    var j := i;
    while j > 0 && !LessEq(a[j - 1], a[j])
      invariant 0 <= j <= i
      invariant forall k :: 0 < k <= i && k != j ==> LessEq(a[k - 1], a[k])
      invariant 0 < j < i ==> LessEq(a[j - 1], a[j + 1])
      invariant multiset(a[..]) == multiset(old(a[..]))
      decreases j
    {
      LessEqTotal(a[j - 1], a[j]);
      SwapLines(a, j);
      j := j - 1;
    }
  }

  /**
   * printResult's status lines: one line per status code in the
   * histogram (collected in map order), then sorted.
   */
  method StatusCodeLines(counts: map<int, int>) returns (lines: seq<string>)
    ensures |lines| == |counts|
    ensures SortedLines(lines)
    ensures forall c :: c in counts ==> StatusLine(c, counts[c]) in lines
    ensures forall l :: l in lines ==> exists c :: c in counts && l == StatusLine(c, counts[c])
  {
    var collected: seq<string> := [];
    var todo := counts.Keys;
    while todo != {}
      invariant todo <= counts.Keys
      invariant |collected| + |todo| == |counts|
      invariant forall c :: c in counts.Keys - todo ==> StatusLine(c, counts[c]) in collected
      invariant forall l :: l in collected ==> exists c :: c in counts && l == StatusLine(c, counts[c])
      decreases todo
    {
      var c :| c in todo;
      collected := collected + [StatusLine(c, counts[c])];
      todo := todo - {c};
    }
    var a := new string[|collected|](i requires 0 <= i < |collected| => collected[i]);
    assert a[..] == collected;
    SortLines(a);
    lines := a[..];
    assert |lines| == |multiset(lines)| == |multiset(collected)| == |collected|;
    forall l | l in collected ensures l in lines {
      assert l in multiset(collected);
    }
    forall l | l in lines ensures l in collected {
      assert l in multiset(lines);
    }
  }
}
