/**
 * What `ExecuteTask` promises, stated over its reference definitions
 * (`Execute`, `Invocations`, `RunAll`, `Attempted`): the empty-list rule,
 * the unknown-name rule, in-order iteration that stops at the first error,
 * and the behaviour of the `NoOp` and `Sleep` tasks under the dispatcher.
 */
module TaskProperties {
  import opened Wrappers
  import opened StrConv
  import opened BuiltinTasks

  /** Each task is found under its own key, and under no other: the lookup is exact and case-sensitive. */
  lemma RegistryKeys(name: string, t: Builtin)
    ensures Lookup(Name(t)) == Some(t)
    ensures Lookup(name) == Some(t) <==> name == Name(t)
    ensures Lookup("noop") == None && Lookup("sleep") == None
  {
  }

  /** Index of the first value on which `t` fails, or `|values|` when none does. */
  function FirstFailure(t: Builtin, values: seq<string>, ext: External): (k: nat)
    ensures k <= |values|
    ensures forall j :: 0 <= j < k ==> Invoke(t, values[j], ext) == Pass
    ensures k < |values| ==> Invoke(t, values[k], ext).Fail?
  {
    if values == [] then 0
    else if Invoke(t, values[0], ext).Fail? then 0
    else 1 + FirstFailure(t, values[1..], ext)
  }

  /** The loop's result is the error of the first failing value, or `Pass` when none fails. */
  lemma {:induction false} RunAllFirstFailure(t: Builtin, values: seq<string>, ext: External)
    ensures var k := FirstFailure(t, values, ext);
      RunAll(t, values, ext) == if k < |values| then Invoke(t, values[k], ext) else Pass
  {
    if values != [] && Invoke(t, values[0], ext).Pass? {
      var rest := values[1..];
      RunAllFirstFailure(t, rest, ext);
      assert FirstFailure(t, values, ext) == FirstFailure(t, rest, ext) + 1;
    }
  }

  /** The loop tries exactly the values up to and including the first failing one, in order. */
  lemma {:induction false} AttemptedFirstFailure(t: Builtin, values: seq<string>, ext: External)
    ensures var k := FirstFailure(t, values, ext);
      Attempted(t, values, ext) == CallsOf(t, values[..if k < |values| then k + 1 else k])
  {
    if values != [] {
      var rest := values[1..];
      var c := CallOf(t, values[0]);
      if Invoke(t, values[0], ext).Fail? {
        assert FirstFailure(t, values, ext) == 0;
        assert Attempted(t, values, ext) == [c];
        CallsOfPrefix(t, values, 1);
        assert CallsOf(t, rest[..0]) == [];
      } else {
        AttemptedFirstFailure(t, rest, ext);
        var k := FirstFailure(t, rest, ext);
        assert FirstFailure(t, values, ext) == k + 1;
        var n := if k < |rest| then k + 1 else k;
        assert Attempted(t, rest, ext) == CallsOf(t, rest[..n]);
        assert Attempted(t, values, ext) == [c] + Attempted(t, rest, ext);
        CallsOfPrefix(t, values, n + 1);
      }
    }
  }

  /** A non-empty prefix's calls start with the call on the first value. */
  lemma CallsOfPrefix(t: Builtin, values: seq<string>, n: nat)
    requires 0 < n <= |values|
    ensures CallsOf(t, values[..n]) == [CallOf(t, values[0])] + CallsOf(t, values[1..][..n - 1])
  {
    assert values[..n][1..] == values[1..][..n - 1];
  }

  /** The first failing value decides everything: when `values[i]` is it, the result is
      its error, exactly `values[..i+1]` were tried, and nothing after it. */
  lemma StopsAtFirstFailure(t: Builtin, values: seq<string>, ext: External, i: nat)
    requires i < |values|
    requires forall j :: 0 <= j < i ==> Invoke(t, values[j], ext) == Pass
    requires Invoke(t, values[i], ext).Fail?
    ensures RunAll(t, values, ext) == Invoke(t, values[i], ext)
    ensures Attempted(t, values, ext) == CallsOf(t, values[..i + 1])
    ensures |Attempted(t, values, ext)| == i + 1
  {
    RunAllFirstFailure(t, values, ext);
    AttemptedFirstFailure(t, values, ext);
    var k := FirstFailure(t, values, ext);
    assert k == i;
  }

  /** The loop returns nil exactly when every call succeeds, and then it tried every value. */
  lemma RunAllPassIff(t: Builtin, values: seq<string>, ext: External)
    ensures RunAll(t, values, ext) == Pass <==> forall i :: 0 <= i < |values| ==> Invoke(t, values[i], ext) == Pass
    ensures RunAll(t, values, ext) == Pass ==> Attempted(t, values, ext) == CallsOf(t, values)
  {
    RunAllFirstFailure(t, values, ext);
    AttemptedFirstFailure(t, values, ext);
    assert values[..|values|] == values;
  }

  /** The returned error is the error of some value all of whose predecessors passed: the first error wins. */
  lemma FirstErrorWins(t: Builtin, values: seq<string>, ext: External, e: TaskError)
    ensures RunAll(t, values, ext) == Fail(e) <==>
      exists i :: 0 <= i < |values| && Invoke(t, values[i], ext) == Fail(e)
        && forall j :: 0 <= j < i ==> Invoke(t, values[j], ext) == Pass
  {
    RunAllFirstFailure(t, values, ext);
    var k := FirstFailure(t, values, ext);
    if RunAll(t, values, ext) == Fail(e) {
      assert k < |values| && Invoke(t, values[k], ext) == Fail(e);
    }
    if exists i :: 0 <= i < |values| && Invoke(t, values[i], ext) == Fail(e)
        && forall j :: 0 <= j < i ==> Invoke(t, values[j], ext) == Pass {
      var i :| 0 <= i < |values| && Invoke(t, values[i], ext) == Fail(e)
        && forall j :: 0 <= j < i ==> Invoke(t, values[j], ext) == Pass;
      StopsAtFirstFailure(t, values, ext, i);
    }
  }

  /** With an empty list the named task runs exactly once, on the empty string. */
  lemma EmptyListRunsOnce(name: string, ext: External)
    requires Lookup(name).Some?
    ensures Invocations(name, [], ext) == [CallOf(Lookup(name).value, "")]
    ensures Execute(name, [], ext) == Invoke(Lookup(name).value, "", ext)
  {
    var t := Lookup(name).value;
    assert EffectiveValues([]) == [""];
    assert [""][1..] == [];
    assert RunAll(t, [""], ext) == Invoke(t, "", ext);
    if Invoke(t, "", ext).Pass? {
      assert Attempted(t, [""], ext) == [CallOf(t, "")] + Attempted(t, [], ext);
    }
  }

  /** A name other than the five exact keys is rejected with its own message, and no task runs. */
  lemma UnknownNameRejected(name: string, values: seq<string>, ext: External)
    requires name !in {"NoOp", "Sleep", "Log", "SendMail", "Download"}
    ensures Execute(name, values, ext) == Fail(Text("No built-in task found: " + name))
    ensures Invocations(name, values, ext) == []
  {
  }

  /** For a known name, the first failing value (after substitution of `[""]`) decides the
      returned error, and the invocations are exactly the values up to it, in order. */
  lemma ExecuteStopsAtFirstError(name: string, values: seq<string>, ext: External, i: nat)
    requires Lookup(name).Some?
    requires i < |EffectiveValues(values)|
    requires forall j :: 0 <= j < i ==> Invoke(Lookup(name).value, EffectiveValues(values)[j], ext) == Pass
    requires Invoke(Lookup(name).value, EffectiveValues(values)[i], ext).Fail?
    ensures Execute(name, values, ext) == Invoke(Lookup(name).value, EffectiveValues(values)[i], ext)
    ensures Invocations(name, values, ext) == CallsOf(Lookup(name).value, EffectiveValues(values)[..i + 1])
  {
    StopsAtFirstFailure(Lookup(name).value, EffectiveValues(values), ext, i);
  }

  /** For a known name, nil is returned exactly when the task accepts every value, all of which it was given. */
  lemma ExecutePassIff(name: string, values: seq<string>, ext: External)
    requires Lookup(name).Some?
    ensures var vs := EffectiveValues(values);
      Execute(name, values, ext) == Pass <==> forall i :: 0 <= i < |vs| ==> Invoke(Lookup(name).value, vs[i], ext) == Pass
    ensures Execute(name, values, ext) == Pass ==>
      Invocations(name, values, ext) == CallsOf(Lookup(name).value, EffectiveValues(values))
  {
    RunAllPassIff(Lookup(name).value, EffectiveValues(values), ext);
  }

  /** `NoOp` succeeds on every list and is invoked max(1, |values|) times, once per value. */
  lemma NoOpAlwaysSucceeds(values: seq<string>, ext: External)
    ensures Execute("NoOp", values, ext) == Pass
    ensures Invocations("NoOp", values, ext) == CallsOf(NoOp, EffectiveValues(values))
    ensures |Invocations("NoOp", values, ext)| == if |values| == 0 then 1 else |values|
  {
    ExecutePassIff("NoOp", values, ext);
  }

  /** `Sleep` succeeds exactly when every value is an optional sign and digits whose value fits `int`. */
  lemma SleepSucceedsIff(values: seq<string>, ext: External)
    ensures var vs := EffectiveValues(values);
      Execute("Sleep", values, ext) == Pass <==>
        forall i :: 0 <= i < |vs| ==> IsDecimal(vs[i]) && InIntRange(DecimalValue(vs[i]))
  {
    ExecutePassIff("Sleep", values, ext);
  }

  /** `Sleep` with no values fails: the substituted empty string is a syntax error for `Atoi`. */
  lemma SleepWithoutValuesFails(ext: External)
    ensures Execute("Sleep", [], ext) == Fail(Num(NumError("Atoi", "", ErrSyntax)))
    ensures Invocations("Sleep", [], ext) == [Call(Sleep, "", None)]
  {
    EmptyListRunsOnce("Sleep", ext);
  }

  /** `Sleep` on `"2"` sleeps two seconds and succeeds; on `"x"` it returns a syntax error without sleeping. */
  lemma SleepExamples(ext: External)
    ensures Execute("Sleep", ["2"], ext) == Pass
    ensures Invocations("Sleep", ["2"], ext) == [Call(Sleep, "2", Some(2))]
    ensures Execute("Sleep", ["x"], ext) == Fail(Num(NumError("Atoi", "x", ErrSyntax)))
    ensures Invocations("Sleep", ["x"], ext) == [Call(Sleep, "x", None)]
  {
    assert Magnitude("2") == "2" && DigitsValue("2") == 2;
    assert ScanUint("2", 0) == ScanUint([], 2) == Ok(2);
    assert Atoi("2") == Ok(2);
    assert TaskSleep("2") == Pass;
    assert RunAll(Sleep, ["2"], ext) == RunAll(Sleep, [], ext);
    assert SleptSeconds("2") == Some(2);
    assert Attempted(Sleep, ["2"], ext) == [CallOf(Sleep, "2")] + Attempted(Sleep, [], ext);
    assert ["2"][1..] == [] && ["x"][1..] == [];
    assert ScanUint("x", 0) == Err(ErrSyntax);
  }

  /** Every value `Atoi` can produce, negative ones included, is accepted by `Sleep`,
      which sleeps for exactly that many seconds. */
  lemma SleepAcceptsEveryInt(n: int)
    requires InIntRange(n)
    ensures TaskSleep(Itoa(n)) == Pass
    ensures SleptSeconds(Itoa(n)) == Some(n)
  {
    ItoaRoundTrip(n);
    AtoiCorrect(Itoa(n));
  }
}
