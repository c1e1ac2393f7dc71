/**
 * The lifecycle runner of internal/starlark/script/lifecycle.go: before_all
 * once, then every worker repeats before_each, run, after_each until the
 * deadline, then after_all once. Hooks are abstract outcomes; a worker's
 * iterations until the deadline are given as a sequence of ticks, and the
 * workers' events are laid out one worker after another.
 */
module StarlarkLifecycle {
  import opened Wrappers
  import opened StarlarkGlobals

  /** What the hooks of one iteration would do if called. */
  datatype Tick = Tick(beforeEach: Outcome, run: Outcome, afterEach: Outcome)

  /** The struct argument passed to a hook that declares parameters, nothing otherwise. */
  function ArgsFor(fn: Fn, fields: seq<Field>): (a: Args)
    ensures a.Struct? <==> fn.numParams > 0
    ensures a.Struct? ==> a.fields == fields
  {
    if fn.numParams > 0 then Struct(fields) else NoArgs
  }

  /** The value `before_all` returned, or nil when there is no before_all. */
  function BeforeAllReturn(lc: Lifecycle, beforeAll: Outcome): Option<Value>
  {
    if lc.beforeAll.Some? && beforeAll.Ok? then Some(beforeAll.value) else None
  }

  function BeforeEachArgs(fn: Fn, beforeAllReturn: Option<Value>): Args
  {
    ArgsFor(fn, [Field("before_all", beforeAllReturn)])
  }

  function RunArgs(fn: Fn, beforeAllReturn: Option<Value>, beforeEachReturn: Option<Value>): Args
  {
    ArgsFor(fn, [Field("before_all", beforeAllReturn), Field("before_each", beforeEachReturn)])
  }

  function AfterEachArgs(fn: Fn, beforeAllReturn: Option<Value>, beforeEachReturn: Option<Value>, runReturn: Value): Args
  {
    ArgsFor(fn, [Field("before_all", beforeAllReturn), Field("before_each", beforeEachReturn),
                 Field("run", Some(runReturn))])
  }

  /** The events of calling `before_each` (when present): the call, and its error if it failed. */
  function BeforeEachEvents(lc: Lifecycle, bar: Option<Value>, t: Tick): seq<Event>
  {
    if lc.beforeEach.None? then []
    else if t.beforeEach.Err? then [Called(BeforeEach, BeforeEachArgs(lc.beforeEach.value, bar)), Printed(t.beforeEach.error)]
    else [Called(BeforeEach, BeforeEachArgs(lc.beforeEach.value, bar))]
  }

  /** The value `before_each` returned in this iteration, or nil when it is absent. */
  function BeforeEachReturn(lc: Lifecycle, t: Tick): Option<Value>
  {
    if lc.beforeEach.Some? && t.beforeEach.Ok? then Some(t.beforeEach.value) else None
  }

  /** Whether `before_each` failed, which ends the iteration. */
  predicate BeforeEachFailed(lc: Lifecycle, t: Tick)
  {
    lc.beforeEach.Some? && t.beforeEach.Err?
  }

  /** The events of calling `run`: the call, and its error if it failed. */
  function RunEvents(lc: Lifecycle, bar: Option<Value>, t: Tick): seq<Event>
  {
    var call := Called(Run, RunArgs(lc.run, bar, BeforeEachReturn(lc, t)));
    if t.run.Err? then [call, Printed(t.run.error)] else [call]
  }

  /** The events of `after_each`, once `run` has succeeded; nothing when it is absent. */
  function AfterEachEvents(lc: Lifecycle, bar: Option<Value>, t: Tick): seq<Event>
    requires t.run.Ok?
  {
    if lc.afterEach.None? then []
    else
      var call := Called(AfterEach, AfterEachArgs(lc.afterEach.value, bar, BeforeEachReturn(lc, t), t.run.value));
      if t.afterEach.Err? then [call, Printed(t.afterEach.error)] else [call]
  }

  /**
   * One iteration of a worker as the source writes it: the parameter count
   * of `after_each` is read before `after_each` is checked for nil, so an
   * iteration whose `run` succeeds without an `after_each` dereferences nil
   * and the program panics.
   */
  function IterationAsWritten(lc: Lifecycle, bar: Option<Value>, t: Tick): seq<Event>
  {
    if BeforeEachFailed(lc, t) then BeforeEachEvents(lc, bar, t)
    else if t.run.Err? then BeforeEachEvents(lc, bar, t) + RunEvents(lc, bar, t)
    else if lc.afterEach.None? then BeforeEachEvents(lc, bar, t) + RunEvents(lc, bar, t) + [Panicked]
    else BeforeEachEvents(lc, bar, t) + RunEvents(lc, bar, t) + AfterEachEvents(lc, bar, t)
  }

  /** The iteration as evidently intended: `after_each` is skipped when it is absent. */
  function Iteration(lc: Lifecycle, bar: Option<Value>, t: Tick): seq<Event>
  {
    if BeforeEachFailed(lc, t) then BeforeEachEvents(lc, bar, t)
    else if t.run.Err? then BeforeEachEvents(lc, bar, t) + RunEvents(lc, bar, t)
    else BeforeEachEvents(lc, bar, t) + RunEvents(lc, bar, t) + AfterEachEvents(lc, bar, t)
  }

  /** Whether some event calls hook `h`. */
  predicate CallsHook(events: seq<Event>, h: Hook)
  {
    exists i :: 0 <= i < |events| && events[i].Called? && events[i].hook == h
  }

  /**
   * The as-written iteration panics exactly when `run` is reached and
   * succeeds while the script has no `after_each`.
   */
  lemma AsWrittenPanics(lc: Lifecycle, bar: Option<Value>, t: Tick)
    ensures Panicked in IterationAsWritten(lc, bar, t) <==>
      !BeforeEachFailed(lc, t) && t.run.Ok? && lc.afterEach.None?
    ensures !BeforeEachFailed(lc, t) && t.run.Ok? && lc.afterEach.None? ==>
      IterationAsWritten(lc, bar, t)[|IterationAsWritten(lc, bar, t)| - 1] == Panicked
  {
  }

  /** A concrete script that crashes: only `run`, which succeeds. */
  lemma RunOnlyScriptPanics()
    ensures IterationAsWritten(Lifecycle(None, None, Fn(0), None, None), None,
                               Tick(Err("unused"), Ok(Value("None")), Err("unused")))
            == [Called(Run, NoArgs), Panicked]
  {
  }

  /** The corrected iteration never panics, and matches the source wherever the source does not panic. */
  lemma IterationAgrees(lc: Lifecycle, bar: Option<Value>, t: Tick)
    ensures Panicked !in Iteration(lc, bar, t)
    ensures Panicked !in IterationAsWritten(lc, bar, t) ==> Iteration(lc, bar, t) == IterationAsWritten(lc, bar, t)
    ensures lc.afterEach.Some? ==> Iteration(lc, bar, t) == IterationAsWritten(lc, bar, t)
  {
  }

  /**
   * Skip-on-error: a failing `before_each` skips `run` and `after_each`, a
   * failing `run` skips `after_each`, and in both cases the error is the
   * iteration's last event. A successful `run` is followed by `after_each`
   * whenever the script defines it.
   */
  lemma SkipOnError(lc: Lifecycle, bar: Option<Value>, t: Tick)
    ensures BeforeEachFailed(lc, t) ==>
      !CallsHook(Iteration(lc, bar, t), Run) && !CallsHook(Iteration(lc, bar, t), AfterEach) &&
      Iteration(lc, bar, t)[|Iteration(lc, bar, t)| - 1] == Printed(t.beforeEach.error)
    ensures !BeforeEachFailed(lc, t) && t.run.Err? ==>
      CallsHook(Iteration(lc, bar, t), Run) && !CallsHook(Iteration(lc, bar, t), AfterEach) &&
      Iteration(lc, bar, t)[|Iteration(lc, bar, t)| - 1] == Printed(t.run.error)
    ensures !BeforeEachFailed(lc, t) && t.run.Ok? ==>
      CallsHook(Iteration(lc, bar, t), Run) &&
      (CallsHook(Iteration(lc, bar, t), AfterEach) <==> lc.afterEach.Some?)
  {
    var ev := Iteration(lc, bar, t);
    if BeforeEachFailed(lc, t) {
      assert |ev| == 2;
    } else {
      var pre := BeforeEachEvents(lc, bar, t);
      assert |pre| <= 1 && forall i :: 0 <= i < |pre| ==> pre[i].hook == BeforeEach;
      assert ev[|pre|] == Called(Run, RunArgs(lc.run, bar, BeforeEachReturn(lc, t)));
      if t.run.Ok? {
        var post := AfterEachEvents(lc, bar, t);
        assert ev == pre + [ev[|pre|]] + post;
        if lc.afterEach.Some? {
          assert ev[|pre| + 1].hook == AfterEach;
        } else {
          assert ev == pre + [ev[|pre|]];
        }
      }
    }
  }

  /**
   * `run` gets the struct of the before_all and before_each results exactly
   * when it declares parameters; `before_each` gets the before_all result
   * under the same condition.
   */
  lemma RunArguments(lc: Lifecycle, bar: Option<Value>, t: Tick)
    requires !BeforeEachFailed(lc, t)
    ensures Called(Run, NoArgs) in Iteration(lc, bar, t) <==> lc.run.numParams == 0
    ensures lc.run.numParams > 0 ==>
      Called(Run, Struct([Field("before_all", bar), Field("before_each", BeforeEachReturn(lc, t))])) in Iteration(lc, bar, t)
    ensures lc.beforeEach.Some? ==>
      Iteration(lc, bar, t)[0] == Called(BeforeEach, if lc.beforeEach.value.numParams > 0
                                                     then Struct([Field("before_all", bar)]) else NoArgs)
  {
    var ev := Iteration(lc, bar, t);
    var pre := BeforeEachEvents(lc, bar, t);
    assert ev[|pre|] == Called(Run, RunArgs(lc.run, bar, BeforeEachReturn(lc, t)));
    if Called(Run, NoArgs) in ev {
      var i :| 0 <= i < |ev| && ev[i] == Called(Run, NoArgs);
      assert i == |pre|;
    }
  }

  /** The hook that opens every iteration. */
  function FirstHook(lc: Lifecycle): Hook
  {
    if lc.beforeEach.Some? then BeforeEach else Run
  }

  lemma BeforeEachCount(lc: Lifecycle, bar: Option<Value>, t: Tick, h: Hook)
    ensures CallCount(BeforeEachEvents(lc, bar, t), h) == if lc.beforeEach.Some? && h == BeforeEach then 1 else 0
  {
    if lc.beforeEach.Some? {
      CallCountOfCall(BeforeEachEvents(lc, bar, t), h);
    }
  }

  lemma RunCount(lc: Lifecycle, bar: Option<Value>, t: Tick, h: Hook)
    ensures CallCount(RunEvents(lc, bar, t), h) == if h == Run then 1 else 0
  {
    CallCountOfCall(RunEvents(lc, bar, t), h);
  }

  lemma AfterEachCount(lc: Lifecycle, bar: Option<Value>, t: Tick, h: Hook)
    requires t.run.Ok?
    ensures CallCount(AfterEachEvents(lc, bar, t), h) == if lc.afterEach.Some? && h == AfterEach then 1 else 0
  {
    if lc.afterEach.Some? {
      CallCountOfCall(AfterEachEvents(lc, bar, t), h);
    }
  }

  /** Every iteration calls its first hook exactly once, and never before_all or after_all. */
  lemma IterationCount(lc: Lifecycle, bar: Option<Value>, t: Tick, h: Hook)
    requires h == FirstHook(lc) || h == BeforeAll || h == AfterAll
    ensures CallCount(Iteration(lc, bar, t), h) == if h == FirstHook(lc) then 1 else 0
  {
    var pre := BeforeEachEvents(lc, bar, t);
    BeforeEachCount(lc, bar, t, h);
    if !BeforeEachFailed(lc, t) {
      var r := RunEvents(lc, bar, t);
      RunCount(lc, bar, t, h);
      CallCountAppend(pre, r, h);
      if t.run.Ok? {
        var post := AfterEachEvents(lc, bar, t);
        AfterEachCount(lc, bar, t, h);
        CallCountAppend(pre + r, post, h);
      }
    }
  }

  /** The events of a worker that runs one iteration per tick. */
  function WorkerEvents(lc: Lifecycle, bar: Option<Value>, ticks: seq<Tick>): seq<Event>
  {
    if ticks == [] then []
    else WorkerEvents(lc, bar, ticks[..|ticks| - 1]) + Iteration(lc, bar, ticks[|ticks| - 1])
  }

  /**
   * Errors never stop a worker (the `break` only leaves the `select`): a
   * worker starts one iteration per tick, and never calls before_all or
   * after_all.
   */
  lemma {:induction false} WorkerKeepsGoing(lc: Lifecycle, bar: Option<Value>, ticks: seq<Tick>)
    ensures CallCount(WorkerEvents(lc, bar, ticks), FirstHook(lc)) == |ticks|
    ensures CallCount(WorkerEvents(lc, bar, ticks), BeforeAll) == 0
    ensures CallCount(WorkerEvents(lc, bar, ticks), AfterAll) == 0
    decreases |ticks|
  {
    if ticks != [] {
      var init := ticks[..|ticks| - 1];
      WorkerKeepsGoing(lc, bar, init);
      IterationCount(lc, bar, ticks[|ticks| - 1], FirstHook(lc));
      IterationCount(lc, bar, ticks[|ticks| - 1], BeforeAll);
      IterationCount(lc, bar, ticks[|ticks| - 1], AfterAll);
      forall h ensures CallCount(WorkerEvents(lc, bar, ticks), h)
                       == CallCount(WorkerEvents(lc, bar, init), h) + CallCount(Iteration(lc, bar, ticks[|ticks| - 1]), h)
      {
        CallCountAppend(WorkerEvents(lc, bar, init), Iteration(lc, bar, ticks[|ticks| - 1]), h);
      }
    }
  }

  /**
   * The body of the worker loop: before_each, run and after_each in turn,
   * each skipped once an earlier hook has failed.
   */
  method RunIteration(lc: Lifecycle, bar: Option<Value>, t: Tick) returns (iteration: seq<Event>)
    ensures iteration == Iteration(lc, bar, t)
  {
    iteration := [];
    var beforeEachReturn: Option<Value> := None;
    if lc.beforeEach.Some? {
      iteration := [Called(BeforeEach, BeforeEachArgs(lc.beforeEach.value, bar))];
      if t.beforeEach.Err? {
        return iteration + [Printed(t.beforeEach.error)];
      }
      beforeEachReturn := Some(t.beforeEach.value);
    }
    iteration := iteration + [Called(Run, RunArgs(lc.run, bar, beforeEachReturn))];
    if t.run.Err? {
      return iteration + [Printed(t.run.error)];
    }
    var runReturn := t.run.value;
    if lc.afterEach.Some? {
      iteration := iteration + [Called(AfterEach, AfterEachArgs(lc.afterEach.value, bar, beforeEachReturn, runReturn))];
      if t.afterEach.Err? {
        iteration := iteration + [Printed(t.afterEach.error)];
      }
    }
  }

  /** A worker goroutine: one iteration per tick, whatever the hooks return. */
  method Worker(lc: Lifecycle, bar: Option<Value>, ticks: seq<Tick>) returns (events: seq<Event>)
    ensures events == WorkerEvents(lc, bar, ticks)
  {
    events := [];
    var i := 0;
    while i < |ticks|
      invariant 0 <= i <= |ticks|
      invariant events == WorkerEvents(lc, bar, ticks[..i])
      decreases |ticks| - i
    {
      var iteration := RunIteration(lc, bar, ticks[i]);
      assert ticks[..i + 1][..i] == ticks[..i];
      events := events + iteration;
      i := i + 1;
    }
    assert ticks[..i] == ticks;
  }

  /** The events of the workers, one worker after another. */
  function AllWorkers(lc: Lifecycle, bar: Option<Value>, ticks: seq<seq<Tick>>): seq<Event>
  {
    if ticks == [] then []
    else AllWorkers(lc, bar, ticks[..|ticks| - 1]) + WorkerEvents(lc, bar, ticks[|ticks| - 1])
  }

  /** The workers never call before_all or after_all. */
  lemma {:induction false} AllWorkersCounts(lc: Lifecycle, bar: Option<Value>, ticks: seq<seq<Tick>>)
    ensures CallCount(AllWorkers(lc, bar, ticks), BeforeAll) == 0
    ensures CallCount(AllWorkers(lc, bar, ticks), AfterAll) == 0
    decreases |ticks|
  {
    if ticks != [] {
      var init := ticks[..|ticks| - 1];
      AllWorkersCounts(lc, bar, init);
      WorkerKeepsGoing(lc, bar, ticks[|ticks| - 1]);
      CallCountAppend(AllWorkers(lc, bar, init), WorkerEvents(lc, bar, ticks[|ticks| - 1]), BeforeAll);
      CallCountAppend(AllWorkers(lc, bar, init), WorkerEvents(lc, bar, ticks[|ticks| - 1]), AfterAll);
    }
  }

  /** Start `iterations` workers and wait for all of them. */
  method RunWorkers(lc: Lifecycle, iterations: int, bar: Option<Value>, ticks: seq<seq<Tick>>) returns (events: seq<Event>)
    requires |ticks| == Workers(iterations)
    ensures events == AllWorkers(lc, bar, ticks)
  {
    events := [];
    var i := 0;
    while i < iterations
      invariant 0 <= i <= |ticks|
      invariant events == AllWorkers(lc, bar, ticks[..i])
      decreases iterations - i
    {
      var workerEvents := Worker(lc, bar, ticks[i]);
      assert ticks[..i + 1][..i] == ticks[..i];
      events := events + workerEvents;
      i := i + 1;
    }
    assert ticks[..i] == ticks;
  }

  function AfterAllEvents(lc: Lifecycle): seq<Event>
  {
    if lc.afterAll.Some? then [Called(AfterAll, NoArgs)] else []
  }

  /** The events of runLifecycle. */
  function LifecycleEvents(lc: Lifecycle, beforeAll: Outcome, ticks: seq<seq<Tick>>): seq<Event>
  {
    var before := if lc.beforeAll.Some? then [Called(BeforeAll, NoArgs)] else [];
    if BeforeAllFailed(lc, beforeAll) then before
    else before + AllWorkers(lc, BeforeAllReturn(lc, beforeAll), ticks) + AfterAllEvents(lc)
  }

  /**
   * A failing before_all is returned before any worker starts; otherwise
   * after_all, when defined, is called exactly once, after every worker
   * event, and its error (or nil) is the result.
   */
  lemma LifecycleOutcome(lc: Lifecycle, beforeAll: Outcome, ticks: seq<seq<Tick>>, afterAll: Outcome)
    ensures BeforeAllFailed(lc, beforeAll) ==>
      LifecycleEvents(lc, beforeAll, ticks) == [Called(BeforeAll, NoArgs)] &&
      LifecycleError(lc, beforeAll, afterAll) == Some(beforeAll.error)
    ensures !BeforeAllFailed(lc, beforeAll) ==>
      CallCount(LifecycleEvents(lc, beforeAll, ticks), AfterAll) == (if lc.afterAll.Some? then 1 else 0) &&
      CallCount(LifecycleEvents(lc, beforeAll, ticks), BeforeAll) == (if lc.beforeAll.Some? then 1 else 0)
    ensures !BeforeAllFailed(lc, beforeAll) && lc.afterAll.Some? ==>
      LifecycleEvents(lc, beforeAll, ticks)[|LifecycleEvents(lc, beforeAll, ticks)| - 1] == Called(AfterAll, NoArgs)
    ensures !BeforeAllFailed(lc, beforeAll) ==>
      LifecycleError(lc, beforeAll, afterAll) == (if lc.afterAll.Some? && afterAll.Err? then Some(afterAll.error) else None)
  {
    if !BeforeAllFailed(lc, beforeAll) {
      var before: seq<Event> := if lc.beforeAll.Some? then [Called(BeforeAll, NoArgs)] else [];
      var work := AllWorkers(lc, BeforeAllReturn(lc, beforeAll), ticks);
      var after := AfterAllEvents(lc);
      assert LifecycleEvents(lc, beforeAll, ticks) == before + work + after;
      AllWorkersCounts(lc, BeforeAllReturn(lc, beforeAll), ticks);
      forall h | h == BeforeAll || h == AfterAll
        ensures CallCount(before + work + after, h) == CallCount(before, h) + CallCount(after, h)
      {
        CallCountAppend(before + work, after, h);
        CallCountAppend(before, work, h);
      }
      assert CallCount(before, AfterAll) == 0 && CallCount(after, BeforeAll) == 0;
    }
  }

  /**
   * runLifecycle: before_all, then the workers one after another, then
   * after_all.
   */
  method RunLifecycle(lc: Lifecycle, iterations: int, beforeAll: Outcome, ticks: seq<seq<Tick>>, afterAll: Outcome)
    returns (err: Option<string>, events: seq<Event>)
    requires |ticks| == Workers(iterations)
    ensures events == LifecycleEvents(lc, beforeAll, ticks)
    ensures err == LifecycleError(lc, beforeAll, afterAll)
  {
    events := [];
    if lc.beforeAll.Some? {
      events := [Called(BeforeAll, NoArgs)];
      if beforeAll.Err? {
        return Some(beforeAll.error), events;
      }
    }
    var beforeAllReturn := BeforeAllReturn(lc, beforeAll);
    var workerEvents := RunWorkers(lc, iterations, beforeAllReturn, ticks);
    events := events + workerEvents;
    events := events + AfterAllEvents(lc);
    if lc.afterAll.Some? && afterAll.Err? {
      return Some(afterAll.error), events;
    }
    return None, events;
  }

  /**
   * Run: execute the script file with the modules predeclared (`executed`
   * is its globals or the error ExecFileOptions returned, which is the
   * result), resolve the hooks (the first failing lookup is the result and
   * no hook is called), apply the default options, then run the lifecycle
   * with that many workers.
   */
  method RunScript(executed: Result<map<string, StarValue>, string>, opts: Option<RunOptions>,
                   beforeAll: Outcome, ticks: seq<seq<Tick>>, afterAll: Outcome)
    returns (err: Option<string>, events: seq<Event>)
    requires |ticks| == Workers(Defaults(opts).vu)
    ensures executed.Err? ==> err == Some(executed.error) && events == []
    ensures executed.Ok? && Resolve(executed.value).Err? ==>
      err == Some(Resolve(executed.value).error) && events == []
    ensures executed.Ok? && Resolve(executed.value).Ok? ==>
      events == LifecycleEvents(Resolve(executed.value).value, beforeAll, ticks) &&
      err == LifecycleError(Resolve(executed.value).value, beforeAll, afterAll)
  {
    var o := Defaults(opts);
    if executed.Err? {
      return Some(executed.error), [];
    }
    match Resolve(executed.value)
    case Err(e) =>
      return Some(e), [];
    case Ok(lc) =>
      err, events := RunLifecycle(lc, o.vu, beforeAll, ticks, afterAll);
  }
}
