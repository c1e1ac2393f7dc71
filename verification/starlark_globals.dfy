/**
 * What the two starlark lifecycle runners share: the globals a script
 * defines, the lookup of its hook functions, the default run options and
 * the events a run produces. `getGlobalFunction` and the `Run` defaults are
 * written out identically in internal/starlark/script/lifecycle.go and
 * internal/script/lifecycle.go; they are defined once here.
 */
module StarlarkGlobals {
  import opened Wrappers
  import GoInt

  /** A type name other than "function": only a starlark `Function` reports that type. */
  type TypeName = s: string | s != "function" witness "int"

  /** A global of an executed script: a `def` (with its parameter count) or any other value. */
  datatype StarValue = Function(numParams: nat) | Other(typeName: TypeName)

  /** `Value.Type()`. */
  function TypeOf(v: StarValue): (t: string)
    ensures t == "function" <==> v.Function?
  {
    match v
    case Function(_) => "function"
    case Other(name) => name
  }

  /** A script function found among the globals; only its parameter count matters here. */
  datatype Fn = Fn(numParams: nat)

  /** The error for a missing required function. */
  function NotDefined(f: string): string
  {
    f + "() function not defined in script"
  }

  /** The error for a global that is not a function. */
  function NotAFunction(f: string, typeName: string): string
  {
    f + " should be a function, but found: " + typeName
  }

  /**
   * getGlobalFunction: a missing name is an error only when required, a
   * present name must hold a function.
   */
  function GetGlobalFunction(globals: map<string, StarValue>, f: string, required: bool): (r: Result<Option<Fn>, string>)
    ensures f !in globals && required ==> r == Err(NotDefined(f))
    ensures f !in globals && !required ==> r == Ok(None)
    ensures f in globals && !globals[f].Function? ==> r == Err(NotAFunction(f, TypeOf(globals[f])))
    ensures r.Ok? <==> (f in globals ==> globals[f].Function?) && (f !in globals ==> !required)
    ensures r.Ok? && r.value.Some? <==> f in globals && globals[f].Function?
    ensures r.Ok? && r.value.Some? ==> r.value.value.numParams == globals[f].numParams
  {
    if f !in globals then
      if required then Err(NotDefined(f)) else Ok(None)
    else
      var fn := globals[f];
      if TypeOf(fn) != "function" then Err(NotAFunction(f, TypeOf(fn)))
      else Ok(Some(Fn(fn.numParams)))
  }

  /** The hooks of a lifecycle script; `run` is required, the others optional. */
  datatype Lifecycle = Lifecycle(beforeAll: Option<Fn>, beforeEach: Option<Fn>, run: Fn,
                                 afterEach: Option<Fn>, afterAll: Option<Fn>)

  /**
   * The five lookups of `Run`, in the source's order: run, before_all,
   * after_all, before_each, after_each. The first failing lookup is the
   * result: each of them is reported only when every lookup before it
   * succeeded.
   */
  function Resolve(globals: map<string, StarValue>): (r: Result<Lifecycle, string>)
    ensures GetGlobalFunction(globals, "run", true).Err? ==> r == Err(GetGlobalFunction(globals, "run", true).error)
    ensures (GetGlobalFunction(globals, "run", true).Ok? &&
             GetGlobalFunction(globals, "before_all", false).Err?)
      ==> r == Err(GetGlobalFunction(globals, "before_all", false).error)
    ensures (GetGlobalFunction(globals, "run", true).Ok? &&
             GetGlobalFunction(globals, "before_all", false).Ok? &&
             GetGlobalFunction(globals, "after_all", false).Err?)
      ==> r == Err(GetGlobalFunction(globals, "after_all", false).error)
    ensures (GetGlobalFunction(globals, "run", true).Ok? &&
             GetGlobalFunction(globals, "before_all", false).Ok? &&
             GetGlobalFunction(globals, "after_all", false).Ok? &&
             GetGlobalFunction(globals, "before_each", false).Err?)
      ==> r == Err(GetGlobalFunction(globals, "before_each", false).error)
    ensures (GetGlobalFunction(globals, "run", true).Ok? &&
             GetGlobalFunction(globals, "before_all", false).Ok? &&
             GetGlobalFunction(globals, "after_all", false).Ok? &&
             GetGlobalFunction(globals, "before_each", false).Ok? &&
             GetGlobalFunction(globals, "after_each", false).Err?)
      ==> r == Err(GetGlobalFunction(globals, "after_each", false).error)
    ensures r.Ok? <==>
      GetGlobalFunction(globals, "run", true).Ok? &&
      GetGlobalFunction(globals, "before_all", false).Ok? &&
      GetGlobalFunction(globals, "after_all", false).Ok? &&
      GetGlobalFunction(globals, "before_each", false).Ok? &&
      GetGlobalFunction(globals, "after_each", false).Ok?
    ensures r.Ok? ==>
      Some(r.value.run) == GetGlobalFunction(globals, "run", true).value &&
      r.value.beforeAll == GetGlobalFunction(globals, "before_all", false).value &&
      r.value.afterAll == GetGlobalFunction(globals, "after_all", false).value &&
      r.value.beforeEach == GetGlobalFunction(globals, "before_each", false).value &&
      r.value.afterEach == GetGlobalFunction(globals, "after_each", false).value
  {
    match GetGlobalFunction(globals, "run", true)
    case Err(e) => Err(e)
    case Ok(run) =>
      match GetGlobalFunction(globals, "before_all", false)
      case Err(e) => Err(e)
      case Ok(beforeAll) =>
        match GetGlobalFunction(globals, "after_all", false)
        case Err(e) => Err(e)
        case Ok(afterAll) =>
          match GetGlobalFunction(globals, "before_each", false)
          case Err(e) => Err(e)
          case Ok(beforeEach) =>
            match GetGlobalFunction(globals, "after_each", false)
            case Err(e) => Err(e)
            case Ok(afterEach) =>
              if run.None? then Err(NotDefined("run"))
              else Ok(Lifecycle(beforeAll, beforeEach, run.value, afterEach, afterAll))
  }

  /** A script without `run` fails with run's error, whatever else it defines. */
  lemma MissingRunFirst(globals: map<string, StarValue>)
    requires "run" !in globals
    ensures Resolve(globals) == Err("run() function not defined in script")
  {
    assert NotDefined("run") == "run() function not defined in script";
  }

  /** The options of a run: number of virtual users and duration in nanoseconds. */
  datatype RunOptions = RunOptions(vu: int, duration: int)

  /** `Run` with nil options uses 5 virtual users for 5 seconds. */
  function Defaults(opts: Option<RunOptions>): (o: RunOptions)
    ensures opts.None? ==> o.vu == 5 && o.duration == 5 * GoInt.Second
    ensures opts.Some? ==> o == opts.value
  {
    match opts
    case None => RunOptions(5, 5 * GoInt.Second)
    case Some(given) => given
  }

  /** The number of workers `for i := 0; i < n; i++` starts. */
  function Workers(n: int): (w: nat)
    ensures n <= 0 ==> w == 0
    ensures n >= 0 ==> w == n
  {
    if n < 0 then 0 else n
  }

  /** A starlark value returned by a hook, known only by its printed form. */
  datatype Value = Value(repr: string)

  /** What calling a hook does: return a value or fail. */
  type Outcome = Result<Value, string>

  /** The hooks of a lifecycle. */
  datatype Hook = BeforeAll | BeforeEach | Run | AfterEach | AfterAll

  /**
   * A keyword of the struct passed to a hook; `None` is the nil value left
   * when the hook that would have produced it is absent.
   */
  datatype Field = Field(name: string, value: Option<Value>)

  /** The positional arguments of a hook call. */
  datatype Args = NoArgs | Struct(fields: seq<Field>) | Number(n: int)

  /** What a run does that can be observed. */
  datatype Event = Called(hook: Hook, args: Args) | Printed(message: string) | Panicked

  /** Whether `before_all` is defined and failed, which ends the run before any worker. */
  predicate BeforeAllFailed(lc: Lifecycle, beforeAll: Outcome)
  {
    lc.beforeAll.Some? && beforeAll.Err?
  }

  /**
   * The error runLifecycle returns: before_all's error when it failed,
   * otherwise after_all's error when it is defined and failed, otherwise nil.
   */
  function LifecycleError(lc: Lifecycle, beforeAll: Outcome, afterAll: Outcome): Option<string>
  {
    if BeforeAllFailed(lc, beforeAll) then Some(beforeAll.error)
    else if lc.afterAll.Some? && afterAll.Err? then Some(afterAll.error)
    else None
  }

  /** The number of calls of hook `h` in `events`. */
  function CallCount(events: seq<Event>, h: Hook): (n: nat)
    ensures n <= |events|
  {
    if events == [] then 0
    else CallCount(events[..|events| - 1], h) + (if events[|events| - 1].Called? && events[|events| - 1].hook == h then 1 else 0)
  }

  lemma {:induction false} CallCountAppend(a: seq<Event>, b: seq<Event>, h: Hook)
    ensures CallCount(a + b, h) == CallCount(a, h) + CallCount(b, h)
    decreases |b|
  {
    if b == [] {
      assert a + b == a;
    } else {
      assert (a + b)[..|a + b| - 1] == a + b[..|b| - 1];
      CallCountAppend(a, b[..|b| - 1], h);
    }
  }

  /** The calls of hook `h` among one call and, possibly, the error it printed. */
  lemma CallCountOfCall(events: seq<Event>, h: Hook)
    requires |events| <= 2 && events != [] && events[0].Called?
    requires |events| == 2 ==> events[1].Printed?
    ensures CallCount(events, h) == if events[0].hook == h then 1 else 0
  {
    if |events| == 2 {
      assert events[..1] == [events[0]];
    }
  }
}
