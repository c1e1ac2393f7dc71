/**
 * The risor load-script runner of script/script.go: look up `run`,
 * `before` and `after` in the executed script, call `before`, clone the
 * VM once per virtual user, let every worker call `run` until its first
 * error, then call `after` unless a run failed. The status reporter is
 * started first and stopped only when every step succeeded.
 */
module LoadScript {
  import opened Wrappers
  import StatusReporter

  /** A Go `error`: `None` is nil. */
  type Error = Option<string>

  /** A global of the risor VM: a function or any other object. */
  datatype RisorObject = RisorFunction(id: nat) | RisorValue(typeName: string)

  /** Whether `sub` occurs in `s` (strings.Contains). */
  predicate Contains(s: string, sub: string)
  {
    exists i :: 0 <= i <= |s| - |sub| && OccursAt(s, sub, i)
  }

  predicate OccursAt(s: string, sub: string, i: int)
    requires 0 <= i <= |s| - |sub|
  {
    s[i..i + |sub|] == sub
  }

  /**
   * getFunFromVM: a lookup error that does not mention "not found" is
   * returned; anything else that is not a function, including a missing
   * name, is (nil, nil).
   */
  function GetFunFromVM(got: Result<RisorObject, string>): (r: Result<Option<nat>, string>)
    ensures r.Err? <==> got.Err? && !Contains(got.error, "not found")
    ensures r.Err? ==> r.error == got.error
    ensures r.Ok? && r.value.Some? <==> got.Ok? && got.value.RisorFunction?
    ensures r.Ok? && r.value.Some? ==> r.value.value == got.value.id
  {
    if got.Err? && !Contains(got.error, "not found") then Err(got.error)
    else if got.Ok? && got.value.RisorFunction? then Ok(Some(got.value.id))
    else Ok(None)
  }

  /** A missing name is reported by an error that says "not found": that is not an error here. */
  lemma NotFoundIsAbsent(name: string)
    ensures GetFunFromVM(Err("global " + name + " not found")) == Ok(None)
  {
    var msg := "global " + name + " not found";
    var i := |msg| - |"not found"|;
    assert OccursAt(msg, "not found", i);
  }

  /** What the hooks, clones and workers of one execution do, each a Go error. */
  datatype Outcomes = Outcomes(before: Error, clones: seq<Error>, runs: seq<seq<Error>>, after: Error)

  /** The observable steps of an execution. */
  datatype Call = CallBefore | CloneVM(index: nat) | CallRun(worker: nat) | CallAfter

  /** The first error of a sequence of steps, or nil. */
  function FirstError(errs: seq<Error>): (e: Error)
    ensures e.Some? <==> exists i :: 0 <= i < |errs| && errs[i].Some?
    ensures e.Some? ==> e in errs
  {
    if errs == [] then None
    else if errs[0].Some? then errs[0]
    else FirstError(errs[1..])
  }

  /** How many steps run when they stop at the first error (inclusive). */
  function UntilError(errs: seq<Error>): (n: nat)
    ensures n <= |errs|
    ensures forall i :: 0 <= i < n - 1 ==> errs[i].None?
    ensures FirstError(errs).Some? ==> 0 < n && errs[n - 1] == FirstError(errs)
    ensures FirstError(errs).None? ==> n == |errs|
  {
    if errs == [] then 0
    else if errs[0].Some? then 1
    else 1 + UntilError(errs[1..])
  }

  /** The calls of worker `w`: `run` until its first error, which ends the worker. */
  function WorkerCalls(w: nat, runs: seq<Error>): seq<Call>
  {
    seq(UntilError(runs), _ => CallRun(w))
  }

  /** The calls of the workers, worker 0 first. */
  function AllRunCalls(runs: seq<seq<Error>>): seq<Call>
  {
    if runs == [] then []
    else AllRunCalls(runs[..|runs| - 1]) + WorkerCalls(|runs| - 1, runs[|runs| - 1])
  }

  /** The error of each worker, in worker order. */
  function WorkerErrors(runs: seq<seq<Error>>): (errs: seq<Error>)
    ensures |errs| == |runs|
    ensures forall i :: 0 <= i < |runs| ==> errs[i] == FirstError(runs[i])
  {
    seq(|runs|, i requires 0 <= i < |runs| => FirstError(runs[i]))
  }

  /**
   * The error captured from the workers: the first one in worker order.
   * Which failing worker's error arrives first on the channel is a matter
   * of scheduling; worker order is one of the possible orders.
   */
  function RunError(runs: seq<seq<Error>>): Error
  {
    FirstError(WorkerErrors(runs))
  }

  function CloneCalls(clones: seq<Error>): seq<Call>
  {
    seq(UntilError(clones), i requires 0 <= i => CloneVM(i))
  }

  /** The calls of executeScriptLifecycle. */
  function ExecCalls(hasBefore: bool, hasAfter: bool, o: Outcomes): seq<Call>
  {
    var before := if hasBefore then [CallBefore] else [];
    if hasBefore && o.before.Some? then before
    else if FirstError(o.clones).Some? then before + CloneCalls(o.clones)
    else if RunError(o.runs).Some? then before + CloneCalls(o.clones) + AllRunCalls(o.runs)
    else before + CloneCalls(o.clones) + AllRunCalls(o.runs) + (if hasAfter then [CallAfter] else [])
  }

  /** The error executeScriptLifecycle returns. */
  function ExecError(hasBefore: bool, hasAfter: bool, o: Outcomes): Error
  {
    if hasBefore && o.before.Some? then o.before
    else if FirstError(o.clones).Some? then FirstError(o.clones)
    else if RunError(o.runs).Some? then RunError(o.runs)
    else if hasAfter then o.after
    else None
  }

  /** A failing `before` is returned before any clone is made. */
  lemma BeforeFailure(hasBefore: bool, hasAfter: bool, o: Outcomes)
    requires hasBefore && o.before.Some?
    ensures ExecError(hasBefore, hasAfter, o) == o.before
    ensures ExecCalls(hasBefore, hasAfter, o) == [CallBefore]
  {
  }

  /**
   * The result is nil exactly when `before`, every clone and every run
   * succeed and `after`, if defined, succeeds too; otherwise it is the
   * first of those errors in that order.
   */
  lemma ExecErrorOrder(hasBefore: bool, hasAfter: bool, o: Outcomes)
    ensures ExecError(hasBefore, hasAfter, o).None? <==>
      !(hasBefore && o.before.Some?) && FirstError(o.clones).None? && RunError(o.runs).None? &&
      (hasAfter ==> o.after.None?)
    ensures !(hasBefore && o.before.Some?) && FirstError(o.clones).Some? ==>
      ExecError(hasBefore, hasAfter, o) == FirstError(o.clones)
    ensures !(hasBefore && o.before.Some?) && FirstError(o.clones).None? && RunError(o.runs).Some? ==>
      ExecError(hasBefore, hasAfter, o) == RunError(o.runs)
  {
  }

  /**
   * `after` is called only when no earlier step failed and the script
   * defines it, and then it is the last call.
   */
  lemma AfterOnlyOnSuccess(hasBefore: bool, hasAfter: bool, o: Outcomes)
    ensures CallAfter in ExecCalls(hasBefore, hasAfter, o) <==>
      !(hasBefore && o.before.Some?) && FirstError(o.clones).None? && RunError(o.runs).None? && hasAfter
    ensures CallAfter in ExecCalls(hasBefore, hasAfter, o) ==>
      ExecCalls(hasBefore, hasAfter, o)[|ExecCalls(hasBefore, hasAfter, o)| - 1] == CallAfter
  {
    var before: seq<Call> := if hasBefore then [CallBefore] else [];
    var clones := CloneCalls(o.clones);
    var runs := AllRunCalls(o.runs);
    AllRunCallsAreRuns(o.runs);
    assert CallAfter !in before && CallAfter !in clones && CallAfter !in runs;
  }

  /** No worker runs when `before` or a clone fails. */
  lemma NoRunsOnSetupFailure(hasBefore: bool, hasAfter: bool, o: Outcomes)
    requires (hasBefore && o.before.Some?) || FirstError(o.clones).Some?
    ensures forall c :: c in ExecCalls(hasBefore, hasAfter, o) ==> !c.CallRun?
  {
  }

  lemma {:induction false} AllRunCallsAreRuns(runs: seq<seq<Error>>)
    ensures forall c :: c in AllRunCalls(runs) ==> c.CallRun? && c.worker < |runs|
    decreases |runs|
  {
    if runs != [] {
      AllRunCallsAreRuns(runs[..|runs| - 1]);
    }
  }

  /** A worker's `run` calls stop at its first error: the failing call is its last. */
  lemma WorkerStopsAtFirstError(w: nat, runs: seq<Error>, k: nat)
    requires k < |runs| && runs[k].Some? && forall i :: 0 <= i < k ==> runs[i].None?
    ensures |WorkerCalls(w, runs)| == k + 1
  {
    assert 0 <= k < |runs| && runs[k].Some?;
  }

  /** One worker goroutine: call `run` on its clone until the first error, which it reports. */
  method Worker(w: nat, runs: seq<Error>) returns (calls: seq<Call>, err: Error)
    ensures calls == WorkerCalls(w, runs)
    ensures err == FirstError(runs)
  {
    calls := [];
    err := None;
    var i := 0;
    while i < |runs|
      invariant 0 <= i <= |runs|
      invariant forall j :: 0 <= j < i ==> runs[j].None?
      invariant calls == seq(i, _ => CallRun(w))
      invariant FirstError(runs) == FirstError(runs[i..])
      decreases |runs| - i
    {
      calls := calls + [CallRun(w)];
      if runs[i].Some? {
        err := runs[i];
        assert UntilError(runs) == i + 1;
        return;
      }
      assert runs[i..][1..] == runs[i + 1..];
      i := i + 1;
    }
  }

  /** Clone the VM once per virtual user, stopping at the first failure. */
  method CloneAll(vu: int, clones: seq<Error>) returns (calls: seq<Call>, err: Error)
    requires |clones| == if vu < 0 then 0 else vu
    ensures calls == CloneCalls(clones)
    ensures err == FirstError(clones)
  {
    calls := [];
    err := None;
    var i := 0;
    while i < vu
      invariant 0 <= i <= |clones|
      invariant forall j :: 0 <= j < i ==> clones[j].None?
      invariant calls == seq(i, j requires 0 <= j => CloneVM(j))
      invariant FirstError(clones) == FirstError(clones[i..])
      decreases vu - i
    {
      calls := calls + [CloneVM(i)];
      if clones[i].Some? {
        err := clones[i];
        assert UntilError(clones) == i + 1;
        return;
      }
      assert clones[i..][1..] == clones[i + 1..];
      i := i + 1;
    }
    assert i == |clones|;
  }

  /** The first error of a sequence extended by one step. */
  lemma {:induction false} FirstErrorSnoc(errs: seq<Error>, e: Error)
    ensures FirstError(errs + [e]) == if FirstError(errs).Some? then FirstError(errs) else e
    decreases |errs|
  {
    if errs != [] {
      assert (errs + [e])[1..] == errs[1..] + [e];
      FirstErrorSnoc(errs[1..], e);
    }
  }

  /** Run every worker to its end and keep the first error any of them reports. */
  method RunWorkers(runs: seq<seq<Error>>) returns (calls: seq<Call>, runErr: Error)
    ensures calls == AllRunCalls(runs)
    ensures runErr == RunError(runs)
  {
    calls := [];
    runErr := None;
    var i := 0;
    while i < |runs|
      invariant 0 <= i <= |runs|
      invariant calls == AllRunCalls(runs[..i])
      invariant runErr == FirstError(WorkerErrors(runs)[..i])
      decreases |runs| - i
    {
      var workerCalls, workerErr := Worker(i, runs[i]);
      assert runs[..i + 1][..i] == runs[..i];
      assert WorkerErrors(runs)[..i + 1] == WorkerErrors(runs)[..i] + [workerErr];
      FirstErrorSnoc(WorkerErrors(runs)[..i], workerErr);
      calls := calls + workerCalls;
      if runErr.None? {
        runErr := workerErr;
      }
      i := i + 1;
    }
    assert runs[..i] == runs;
    assert WorkerErrors(runs)[..i] == WorkerErrors(runs);
  }

  /**
   * executeScriptLifecycle. The error channel is made with capacity `vu`,
   * which panics for a negative count, so `vu` must not be negative.
   */
  method ExecuteScriptLifecycle(hasBefore: bool, hasAfter: bool, vu: int, o: Outcomes)
    returns (err: Error, calls: seq<Call>)
    requires vu >= 0
    requires |o.clones| == vu
    requires |o.runs| == |o.clones|
    ensures calls == ExecCalls(hasBefore, hasAfter, o)
    ensures err == ExecError(hasBefore, hasAfter, o)
  {
    calls := [];
    if hasBefore {
      calls := [CallBefore];
      if o.before.Some? {
        return o.before, calls;
      }
    }
    var cloneCalls, cloneErr := CloneAll(vu, o.clones);
    calls := calls + cloneCalls;
    if cloneErr.Some? {
      return cloneErr, calls;
    }
    var runCalls, runErr := RunWorkers(o.runs);
    calls := calls + runCalls;
    if runErr.Some? {
      return runErr, calls;
    }
    if hasAfter {
      calls := calls + [CallAfter];
      if o.after.Some? {
        return o.after, calls;
      }
    }
    return None, calls;
  }

  /** The steps of RunLoadScript before the lifecycle: parse, compile, execute, the three lookups. */
  datatype Steps = Steps(parse: Error, compile: Error, execute: Error,
                         run: Result<RisorObject, string>,
                         before: Result<RisorObject, string>,
                         after: Result<RisorObject, string>)

  const RunNotDefined: string := "run() function not defined in script"

  /** The error a lookup returns: getFunFromVM's own error, or nil. */
  function LookupError(got: Result<RisorObject, string>): Error
  {
    if GetFunFromVM(got).Err? then Some(GetFunFromVM(got).error) else None
  }

  /** The error for a `run` lookup that found no function. */
  function RunMissing(got: Result<RisorObject, string>): Error
  {
    if GetFunFromVM(got) == Ok(None) then Some(RunNotDefined) else None
  }

  /** Whether a lookup found a function. */
  predicate Defines(got: Result<RisorObject, string>)
  {
    got.Ok? && got.value.RisorFunction?
  }

  /** The error of each step before the lifecycle, in the order RunLoadScript checks them. */
  function StepErrors(s: Steps): seq<Error>
  {
    [s.parse, s.compile, s.execute, LookupError(s.run), RunMissing(s.run), LookupError(s.before), LookupError(s.after)]
  }

  /** The error of the steps before the lifecycle: the first step that failed, or nil. */
  function SetupError(s: Steps): Error
  {
    FirstError(StepErrors(s))
  }

  /** The first error is the error of the first failing step. */
  lemma {:induction false} FirstErrorAt(errs: seq<Error>, k: int)
    requires 0 <= k < |errs| && errs[k].Some?
    requires forall i :: 0 <= i < k ==> errs[i].None?
    ensures FirstError(errs) == errs[k]
    decreases k
  {
    if k > 0 {
      FirstErrorAt(errs[1..], k - 1);
    }
  }

  /**
   * RunLoadScript's setup returns at its first failing step, in the order
   * parse, compile, execute, the `run` lookup, the missing `run`, the
   * `before` lookup and the `after` lookup; it succeeds only when every
   * step does.
   */
  lemma SetupOrder(s: Steps)
    ensures s.parse.Some? ==> SetupError(s) == s.parse
    ensures s.parse.None? && s.compile.Some? ==> SetupError(s) == s.compile
    ensures (s.parse.None? && s.compile.None? && s.execute.Some?)
      ==> SetupError(s) == s.execute
    ensures (s.parse.None? && s.compile.None? && s.execute.None? &&
             GetFunFromVM(s.run).Err?)
      ==> SetupError(s) == Some(GetFunFromVM(s.run).error)
    ensures (s.parse.None? && s.compile.None? && s.execute.None? &&
             GetFunFromVM(s.run) == Ok(None))
      ==> SetupError(s) == Some(RunNotDefined)
    ensures (s.parse.None? && s.compile.None? && s.execute.None? &&
             Defines(s.run) && GetFunFromVM(s.before).Err?)
      ==> SetupError(s) == Some(GetFunFromVM(s.before).error)
    ensures (s.parse.None? && s.compile.None? && s.execute.None? &&
             Defines(s.run) && GetFunFromVM(s.before).Ok? && GetFunFromVM(s.after).Err?)
      ==> SetupError(s) == Some(GetFunFromVM(s.after).error)
    ensures SetupError(s).None? <==>
      s.parse.None? && s.compile.None? && s.execute.None? &&
      Defines(s.run) && GetFunFromVM(s.before).Ok? && GetFunFromVM(s.after).Ok?
  {
    var errs := StepErrors(s);
    assert errs[0] == s.parse && errs[1] == s.compile && errs[2] == s.execute;
    assert errs[3] == LookupError(s.run) && errs[4] == RunMissing(s.run);
    assert errs[5] == LookupError(s.before) && errs[6] == LookupError(s.after);
    var k := 0;
    while k < |errs| && errs[k].None?
      invariant 0 <= k <= |errs|
      invariant forall i :: 0 <= i < k ==> errs[i].None?
      decreases |errs| - k
    {
      k := k + 1;
    }
    if k < |errs| {
      FirstErrorAt(errs, k);
    }
  }

  /** The steps before the lifecycle, each returning at its first error. */
  method Setup(s: Steps) returns (err: Error, hasBefore: bool, hasAfter: bool)
    ensures err == SetupError(s)
    ensures err.None? ==> hasBefore == Defines(s.before) && hasAfter == Defines(s.after)
  {
    SetupOrder(s);
    hasBefore, hasAfter := false, false;
    if s.parse.Some? {
      return s.parse, hasBefore, hasAfter;
    }
    if s.compile.Some? {
      return s.compile, hasBefore, hasAfter;
    }
    if s.execute.Some? {
      return s.execute, hasBefore, hasAfter;
    }
    var runFn := GetFunFromVM(s.run);
    if runFn.Err? {
      return Some(runFn.error), hasBefore, hasAfter;
    }
    if runFn.value.None? {
      return Some(RunNotDefined), hasBefore, hasAfter;
    }
    var beforeFn := GetFunFromVM(s.before);
    if beforeFn.Err? {
      return Some(beforeFn.error), hasBefore, hasAfter;
    }
    var afterFn := GetFunFromVM(s.after);
    if afterFn.Err? {
      return Some(afterFn.error), hasBefore, hasAfter;
    }
    return None, beforeFn.value.Some?, afterFn.value.Some?;
  }

  /** A script whose `run` is missing or not a function fails with the "not defined" error, before any hook. */
  lemma MissingRun(s: Steps)
    requires s.parse.None? && s.compile.None? && s.execute.None?
    requires s.run.Ok? && !s.run.value.RisorFunction?
    ensures SetupError(s) == Some("run() function not defined in script")
  {
    SetupOrder(s);
  }

  /** httpReporter.Stop(): the queue is drained into the counters and closed. */
  method StopReporter(reporter: StatusReporter.HttpStatusReporter)
    requires reporter.Valid() && reporter.started && !reporter.closed
    modifies reporter
    ensures reporter.Valid() && reporter.started && reporter.closed && reporter.reportCh == []
    ensures reporter.Counters() == StatusReporter.Fold(StatusReporter.Zero, old(reporter.Sent()))
    ensures StatusReporter.Consistent(reporter.Counters())
  {
    reporter.Stop();
  }

  /**
   * RunLoadScript: start the reporter, run the setup steps and the
   * lifecycle, each returning at its first error, and stop the reporter
   * only when everything succeeded. The time the reporter is started at is
   * a parameter.
   */
  method RunLoadScript(s: Steps, vu: int, o: Outcomes, now: int)
    returns (err: Error, calls: seq<Call>, reporter: StatusReporter.HttpStatusReporter)
    requires vu >= 0
    requires |o.clones| == vu
    requires |o.runs| == |o.clones|
    ensures fresh(reporter) && reporter.started && reporter.Valid()
    ensures SetupError(s).Some? ==> err == SetupError(s) && calls == []
    ensures SetupError(s).None? ==>
      err == ExecError(Defines(s.before), Defines(s.after), o) &&
      calls == ExecCalls(Defines(s.before), Defines(s.after), o)
    ensures reporter.closed <==> err.None?
  {
    reporter := new StatusReporter.HttpStatusReporter();
    reporter.Start(now);
    var hasBefore, hasAfter;
    err, hasBefore, hasAfter := Setup(s);
    if err.Some? {
      return err, [], reporter;
    }
    err, calls := ExecuteScriptLifecycle(hasBefore, hasAfter, vu, o);
    if err.Some? {
      return err, calls, reporter;
    }
    StopReporter(reporter);
  }
}
