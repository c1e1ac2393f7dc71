/**
 * The older lifecycle runner of internal/script/lifecycle.go. It resolves
 * the same five hooks as the starlark runner but only ever calls
 * before_all, run and after_all: worker `num` calls `run(num)` once per
 * tick until the deadline, printing and otherwise ignoring its errors.
 */
module LegacyLifecycle {
  import opened Wrappers
  import opened StarlarkGlobals

  /** The events of one call of `run` by worker `num`: the call, and its error if it failed. */
  function RunEvents(num: int, outcome: Outcome): seq<Event>
  {
    if outcome.Err? then [Called(Run, Number(num)), Printed(outcome.error)]
    else [Called(Run, Number(num))]
  }

  /** The events of worker `num`, one call of `run` per tick. */
  function WorkerEvents(num: int, ticks: seq<Outcome>): seq<Event>
  {
    if ticks == [] then []
    else WorkerEvents(num, ticks[..|ticks| - 1]) + RunEvents(num, ticks[|ticks| - 1])
  }

  /** Whether every call in `events` is a call of `run` with the single argument `num`. */
  predicate OnlyRuns(events: seq<Event>, num: int)
  {
    forall i :: 0 <= i < |events| && events[i].Called? ==> events[i] == Called(Run, Number(num))
  }

  /**
   * Errors never stop a worker: worker `num` calls `run` exactly once per
   * tick, always with the argument `num`, and calls no other hook.
   */
  lemma {:induction false} WorkerRunsEveryTick(num: int, ticks: seq<Outcome>)
    ensures CallCount(WorkerEvents(num, ticks), Run) == |ticks|
    ensures OnlyRuns(WorkerEvents(num, ticks), num)
    decreases |ticks|
  {
    if ticks != [] {
      var init := ticks[..|ticks| - 1];
      var last := RunEvents(num, ticks[|ticks| - 1]);
      WorkerRunsEveryTick(num, init);
      CallCountAppend(WorkerEvents(num, init), last, Run);
      CallCountOfCall(last, Run);
    }
  }

  /** A worker goroutine: call `run(num)` once per tick, printing its errors. */
  method Worker(num: int, ticks: seq<Outcome>) returns (events: seq<Event>)
    ensures events == WorkerEvents(num, ticks)
  {
    events := [];
    var i := 0;
    while i < |ticks|
      invariant 0 <= i <= |ticks|
      invariant events == WorkerEvents(num, ticks[..i])
      decreases |ticks| - i
    {
      events := events + [Called(Run, Number(num))];
      if ticks[i].Err? {
        events := events + [Printed(ticks[i].error)];
      }
      assert ticks[..i + 1][..i] == ticks[..i];
      i := i + 1;
    }
    assert ticks[..i] == ticks;
  }

  /** The events of the workers, worker 0 first. */
  function AllWorkers(ticks: seq<seq<Outcome>>): seq<Event>
  {
    if ticks == [] then []
    else AllWorkers(ticks[..|ticks| - 1]) + WorkerEvents(|ticks| - 1, ticks[|ticks| - 1])
  }

  /** The workers call only `run`: before_each and after_each are resolved but never called. */
  lemma {:induction false} WorkersOnlyRun(ticks: seq<seq<Outcome>>, h: Hook)
    requires h != Run
    ensures CallCount(AllWorkers(ticks), h) == 0
    decreases |ticks|
  {
    if ticks != [] {
      var init := ticks[..|ticks| - 1];
      var w := WorkerEvents(|ticks| - 1, ticks[|ticks| - 1]);
      WorkersOnlyRun(init, h);
      CallCountAppend(AllWorkers(init), w, h);
      WorkerRunsEveryTick(|ticks| - 1, ticks[|ticks| - 1]);
      NoCallsOf(w, |ticks| - 1, h);
    }
  }

  lemma {:induction false} NoCallsOf(events: seq<Event>, num: int, h: Hook)
    requires OnlyRuns(events, num) && h != Run
    ensures CallCount(events, h) == 0
    decreases |events|
  {
    if events != [] {
      NoCallsOf(events[..|events| - 1], num, h);
    }
  }

  /** Start `iterations` workers, worker `i` with argument `i`, and wait for all of them. */
  method RunWorkers(iterations: int, ticks: seq<seq<Outcome>>) returns (events: seq<Event>)
    requires |ticks| == Workers(iterations)
    ensures events == AllWorkers(ticks)
  {
    events := [];
    var i := 0;
    while i < iterations
      invariant 0 <= i <= |ticks|
      invariant events == AllWorkers(ticks[..i])
      decreases iterations - i
    {
      var workerEvents := Worker(i, ticks[i]);
      assert ticks[..i + 1][..i] == ticks[..i];
      events := events + workerEvents;
      i := i + 1;
    }
    assert ticks[..i] == ticks;
  }

  /** The events of runLifecycle; before_all's return value is discarded. */
  function LifecycleEvents(lc: Lifecycle, beforeAll: Outcome, ticks: seq<seq<Outcome>>): seq<Event>
  {
    var before := if lc.beforeAll.Some? then [Called(BeforeAll, NoArgs)] else [];
    var after := if lc.afterAll.Some? then [Called(AfterAll, NoArgs)] else [];
    if BeforeAllFailed(lc, beforeAll) then before
    else before + AllWorkers(ticks) + after
  }

  /**
   * A failing before_all is returned before any worker starts; otherwise
   * after_all, when defined, is called exactly once and last, its error is
   * the result, and before_each and after_each are never called.
   */
  lemma LifecycleOutcome(lc: Lifecycle, beforeAll: Outcome, ticks: seq<seq<Outcome>>, afterAll: Outcome)
    ensures BeforeAllFailed(lc, beforeAll) ==>
      LifecycleEvents(lc, beforeAll, ticks) == [Called(BeforeAll, NoArgs)] &&
      LifecycleError(lc, beforeAll, afterAll) == Some(beforeAll.error)
    ensures !BeforeAllFailed(lc, beforeAll) ==>
      CallCount(LifecycleEvents(lc, beforeAll, ticks), AfterAll) == (if lc.afterAll.Some? then 1 else 0) &&
      LifecycleError(lc, beforeAll, afterAll) == (if lc.afterAll.Some? && afterAll.Err? then Some(afterAll.error) else None)
    ensures !BeforeAllFailed(lc, beforeAll) && lc.afterAll.Some? ==>
      LifecycleEvents(lc, beforeAll, ticks)[|LifecycleEvents(lc, beforeAll, ticks)| - 1] == Called(AfterAll, NoArgs)
    ensures CallCount(LifecycleEvents(lc, beforeAll, ticks), BeforeEach) == 0
    ensures CallCount(LifecycleEvents(lc, beforeAll, ticks), AfterEach) == 0
  {
    var before: seq<Event> := if lc.beforeAll.Some? then [Called(BeforeAll, NoArgs)] else [];
    var after: seq<Event> := if lc.afterAll.Some? then [Called(AfterAll, NoArgs)] else [];
    if BeforeAllFailed(lc, beforeAll) {
      CallCountOfCall(before, BeforeEach);
      CallCountOfCall(before, AfterEach);
    } else {
      var work := AllWorkers(ticks);
      assert LifecycleEvents(lc, beforeAll, ticks) == before + work + after;
      WorkersOnlyRun(ticks, AfterAll);
      WorkersOnlyRun(ticks, BeforeEach);
      WorkersOnlyRun(ticks, AfterEach);
      CallCountAppend(before + work, after, AfterAll);
      CallCountAppend(before, work, AfterAll);
      CallCountAppend(before + work, after, BeforeEach);
      CallCountAppend(before, work, BeforeEach);
      CallCountAppend(before + work, after, AfterEach);
      CallCountAppend(before, work, AfterEach);
      if before != [] {
        CallCountOfCall(before, AfterAll);
        CallCountOfCall(before, BeforeEach);
        CallCountOfCall(before, AfterEach);
      }
      if after != [] {
        CallCountOfCall(after, AfterAll);
        CallCountOfCall(after, BeforeEach);
        CallCountOfCall(after, AfterEach);
      }
    }
  }

  /** runLifecycle: before_all, then the workers one after another, then after_all. */
  method RunLifecycle(lc: Lifecycle, iterations: int, beforeAll: Outcome, ticks: seq<seq<Outcome>>, afterAll: Outcome)
    returns (err: Option<string>, events: seq<Event>)
    requires |ticks| == Workers(iterations)
    ensures events == LifecycleEvents(lc, beforeAll, ticks)
    ensures err == LifecycleError(lc, beforeAll, afterAll)
  {
    events := [];
    if lc.beforeAll.Some? {
      events := [Called(BeforeAll, NoArgs)];
      if beforeAll.Err? {
        return Some(beforeAll.error), events;
      }
    }
    var workerEvents := RunWorkers(iterations, ticks);
    events := events + workerEvents;
    if lc.afterAll.Some? {
      events := events + [Called(AfterAll, NoArgs)];
      if afterAll.Err? {
        return Some(afterAll.error), events;
      }
    }
    return None, events;
  }

  /**
   * Run: execute the script file (`executed` is its globals or the error
   * ExecFileOptions returned, which is the result), resolve the hooks (a
   * missing `run` is reported before before_all is called), apply the
   * default options, then run the lifecycle.
   */
  method RunScript(executed: Result<map<string, StarValue>, string>, opts: Option<RunOptions>,
                   beforeAll: Outcome, ticks: seq<seq<Outcome>>, afterAll: Outcome)
    returns (err: Option<string>, events: seq<Event>)
    requires |ticks| == Workers(Defaults(opts).vu)
    ensures executed.Err? ==> err == Some(executed.error) && events == []
    ensures executed.Ok? && Resolve(executed.value).Err? ==>
      err == Some(Resolve(executed.value).error) && events == []
    ensures executed.Ok? && Resolve(executed.value).Ok? ==>
      events == LifecycleEvents(Resolve(executed.value).value, beforeAll, ticks) &&
      err == LifecycleError(Resolve(executed.value).value, beforeAll, afterAll)
  {
    var o := Defaults(opts);
    if executed.Err? {
      return Some(executed.error), [];
    }
    match Resolve(executed.value)
    case Err(e) =>
      return Some(e), [];
    case Ok(lc) =>
      err, events := RunLifecycle(lc, o.vu, beforeAll, ticks, afterAll);
  }
}
