/**
 * The built-in task dispatcher of internal/tasks/tasks.go: a fixed registry
 * from exact, case-sensitive names to task functions, and `ExecuteTask`,
 * which runs one of them once per parameter value and stops at the first error.
 *
 * A task function is modelled as a function from the value string to an
 * `Outcome` (Go's `error`, nil being `Pass`). The bodies of `Log`, `SendMail`
 * and `Download` are defined elsewhere in the program and arrive here as an
 * `External` record of three arbitrary functions.
 */
module BuiltinTasks {
  import opened Wrappers
  import opened StrConv

  /** The errors a built-in task can return: `errors.New` text, or `strconv`'s `*NumError`. */
  datatype TaskError = Text(message: string) | Num(numError: NumError)

  /** Go's `error` result: nil (`Pass`) or an error value. */
  datatype Outcome = Pass | Fail(error: TaskError)

  /** The five task functions the registry holds. */
  datatype Builtin = NoOp | Sleep | Log | SendMail | Download

  /** The bodies not defined in tasks.go: whatever they return for each value. */
  datatype External = External(log: string -> Outcome, sendMail: string -> Outcome, download: string -> Outcome)

  /**
   * One invocation of a task function with one value (the ghost trace's
   * entry), with the seconds it handed to `time.Sleep`, if it slept.
   */
  datatype Call = Call(task: Builtin, value: string, slept: Option<int>)

  /** The `Tasks` map. */
  const Tasks: map<string, Builtin> :=
    map["NoOp" := NoOp, "Sleep" := Sleep, "Log" := Log, "SendMail" := SendMail, "Download" := Download]

  /** The registry key each task function is stored under. */
  function Name(t: Builtin): string
  {
    match t
    case NoOp => "NoOp"
    case Sleep => "Sleep"
    case Log => "Log"
    case SendMail => "SendMail"
    case Download => "Download"
  }

  /**
   * `Tasks[name]` followed by the nil test of `ExecuteTask`: the task stored
   * under exactly `name`, or `None` for any other string.
   */
  function Lookup(name: string): (r: Option<Builtin>)
    ensures r.Some? <==> name in {"NoOp", "Sleep", "Log", "SendMail", "Download"}
    ensures r.Some? ==> Name(r.value) == name
  {
    if name in Tasks then Some(Tasks[name]) else None
  }

  /** `taskNoOp`: logs the value (not modelled) and succeeds whatever the value. */
  function TaskNoOp(val: string): (r: Outcome)
    ensures r.Pass?
  {
    Pass
  }

  /**
   * `taskSleep`: parses the value with `strconv.Atoi` and returns that error
   * unchanged; otherwise sleeps (not modelled) and succeeds.
   */
  function TaskSleep(val: string): (r: Outcome)
    ensures r == Pass <==> IsDecimal(val) && InIntRange(DecimalValue(val))
    ensures r.Fail? ==> r.error.Num? && r.error.numError.func == "Atoi" && r.error.numError.num == val
  {
    AtoiCorrect(val);
    match Atoi(val)
    case Err(e) => Fail(Num(e))
    case Ok(_) => Pass
  }

  /**
   * The number of seconds `taskSleep` hands to `time.Sleep` for `val`;
   * `None` when it returns its error before reaching the sleep.
   */
  function SleptSeconds(val: string): (d: Option<int>)
    ensures d.Some? <==> TaskSleep(val) == Pass
    ensures d.Some? ==> IsDecimal(val) && d.value == DecimalValue(val) && InIntRange(d.value)
  {
    AtoiCorrect(val);
    match Atoi(val)
    case Err(_) => None
    case Ok(n) => Some(n)
  }

  /** Calling the function stored for `t` with one value. */
  function Invoke(t: Builtin, val: string, ext: External): (r: Outcome)
    ensures t == NoOp ==> r == Pass
    ensures t == Sleep ==> (r == Pass <==> IsDecimal(val) && InIntRange(DecimalValue(val)))
  {
    match t
    case NoOp => TaskNoOp(val)
    case Sleep => TaskSleep(val)
    case Log => ext.log(val)
    case SendMail => ext.sendMail(val)
    case Download => ext.download(val)
  }

  /** The values actually iterated: an empty list becomes the single empty string. */
  function EffectiveValues(values: seq<string>): seq<string>
  {
    if |values| == 0 then [""] else values
  }

  /** The trace entry for calling `t` on `val`: only `Sleep` sleeps, and only when `Atoi` accepts. */
  function CallOf(t: Builtin, val: string): (c: Call)
    ensures c.task == t && c.value == val
    ensures c.slept.Some? <==> t == Sleep && IsDecimal(val) && InIntRange(DecimalValue(val))
    ensures c.slept.Some? ==> c.slept.value == DecimalValue(val)
  {
    Call(t, val, if t == Sleep then SleptSeconds(val) else None)
  }

  /** The calls of `t` on every value of `values`, in order. */
  function CallsOf(t: Builtin, values: seq<string>): (calls: seq<Call>)
    ensures |calls| == |values|
    ensures forall i :: 0 <= i < |values| ==> calls[i] == CallOf(t, values[i])
  {
    if values == [] then [] else [CallOf(t, values[0])] + CallsOf(t, values[1..])
  }

  /** Reference result of the loop: the first error, or `Pass` when every call passes. */
  function RunAll(t: Builtin, values: seq<string>, ext: External): Outcome
  {
    if values == [] then Pass
    else
      var r := Invoke(t, values[0], ext);
      if r.Fail? then r else RunAll(t, values[1..], ext)
  }

  /** Reference trace of the loop: each value is tried until one fails, that one included. */
  function Attempted(t: Builtin, values: seq<string>, ext: External): seq<Call>
  {
    if values == [] then []
    else if Invoke(t, values[0], ext).Fail? then [CallOf(t, values[0])]
    else [CallOf(t, values[0])] + Attempted(t, values[1..], ext)
  }

  /** The error `ExecuteTask` returns for a name the registry does not hold. */
  function NotFound(name: string): TaskError
  {
    Text("No built-in task found: " + name)
  }

  /** What `ExecuteTask(name, values)` returns. */
  function Execute(name: string, values: seq<string>, ext: External): Outcome
  {
    match Lookup(name)
    case None => Fail(NotFound(name))
    case Some(t) => RunAll(t, EffectiveValues(values), ext)
  }

  /** The task invocations `ExecuteTask(name, values)` makes, in order. */
  function Invocations(name: string, values: seq<string>, ext: External): seq<Call>
  {
    match Lookup(name)
    case None => []
    case Some(t) => Attempted(t, EffectiveValues(values), ext)
  }

  /**
   * `ExecuteTask`: substitutes `[""]` for an empty list, looks the name up,
   * then calls the task on each value in order and returns the first error.
   * `calls` is the ghost trace of the task invocations made.
   */
  method ExecuteTask(name: string, paramValues: seq<string>, ext: External)
    returns (err: Outcome, ghost calls: seq<Call>)
    ensures err == Execute(name, paramValues, ext)
    ensures calls == Invocations(name, paramValues, ext)
  {
    var values := paramValues;
    if |values| == 0 {
      values := values + [""];
    }
    calls := [];
    var lookup := Lookup(name);
    if lookup.None? {
      return Fail(NotFound(name)), calls;
    }
    var f := lookup.value;
    var i := 0;
    while i < |values|
      invariant 0 <= i <= |values|
      invariant values == EffectiveValues(paramValues)
      invariant RunAll(f, values, ext) == RunAll(f, values[i..], ext)
      invariant Attempted(f, values, ext) == calls + Attempted(f, values[i..], ext)
    {
      assert values[i..][1..] == values[i + 1..];
      var e := Invoke(f, values[i], ext);
      calls := calls + [CallOf(f, values[i])];
      if e.Fail? {
        return e, calls;
      }
      i := i + 1;
    }
    return Pass, calls;
  }
}
