# pg_timetable built-in task dispatcher, in Dafny

This project models the built-in task dispatcher of pg_timetable
(`internal/tasks/tasks.go`) and proves what it promises.

- The registry `Tasks` maps five exact, case-sensitive names to task functions:
  `NoOp`, `Sleep`, `Log`, `SendMail` and `Download`.
- `ExecuteTask(name, paramValues)` first replaces an empty parameter list with `[""]`.
  It then looks the name up.
  An unknown name returns the error `"No built-in task found: " + name`.
  A known name's task function runs once per value, in order, and the first error it returns is returned.
- `taskNoOp` always succeeds.
- `taskSleep` fails exactly when `strconv.Atoi` rejects its value, and it fails before sleeping.

Files:

- `wrappers.dfy` (module `Wrappers`): `Option` and `Result`.
- `strconv.dfy` (module `StrConv`): Go's `strconv.Atoi` on a 64-bit platform.
  It is the base-10 `ParseInt` path: an optional sign, then `ParseUint`'s digit loop, then the range check against Go's `int`.
  The file also holds the reference syntax `IsDecimal` and its value `DecimalValue`.
  `Itoa` is the partner used to show that every `int` is accepted.
- `tasks.dfy` (module `BuiltinTasks`) holds the registry, the task functions and the method `ExecuteTask`.
  The registry is the map `Tasks`; `Lookup` is `Tasks[name]` together with the nil test.
  Each entry of the ghost trace records the task, the value, and the seconds handed to `time.Sleep`, if any.
  Its reference functions are `Execute` (the returned error) and `Invocations` (the ghost trace of task calls).
  These are built from `RunAll` and `Attempted`, which recurse over the values.
  A Go `error` is an `Outcome`: nil is `Pass`.
  `errors.New(text)` is `Text(text)`, and a `*strconv.NumError` is `Num(...)`.
- `properties.dfy` (module `TaskProperties`): the dispatcher's properties, stated over those reference functions.

`ExecuteTask` is a method with a loop.
Its `ensures` ties the returned error to `Execute`, and the ghost trace to `Invocations`.
The lemmas then prove the promised properties of those two functions.

An unknown name returns a plain `errors.New` value whose only distinguishing feature is its text.
The model returns `Text("No built-in task found: " + name)`.

## Model

| member | source | states |
|---|---|---|
| `BuiltinTasks.ExecuteTask` | internal/tasks/tasks.go:21-37 | the returned error is `Execute(name, paramValues)` and the ghost trace of task invocations (with any sleep) is `Invocations(name, paramValues)`: empty list replaced by `[""]`, unknown name rejected before any call, values run in order until the first error |
| `BuiltinTasks.Lookup` | internal/tasks/tasks.go:13-29 | a task is found exactly for the five keys `NoOp`, `Sleep`, `Log`, `SendMail`, `Download`, matched exactly, and the task found is the one stored under that very key; any other name gives nil |
| `BuiltinTasks.TaskNoOp` | internal/tasks/tasks.go:39-42 | `NoOp` succeeds whatever its value |
| `BuiltinTasks.Invoke` | internal/tasks/tasks.go:31 | calling the task found: `NoOp` always succeeds, and `Sleep` succeeds exactly on a decimal value within `int` range |
| `BuiltinTasks.CallOf` | internal/tasks/tasks.go:30-31 | a trace entry names the task and the value it was called with, and records a sleep exactly when the task is `Sleep` and the value parses, for the parsed number of seconds |
| `BuiltinTasks.TaskSleep` | internal/tasks/tasks.go:44-52 | `Sleep` succeeds exactly when the value is an optional sign and one or more ASCII digits whose value fits a 64-bit `int`; otherwise it returns `Atoi`'s `NumError` for that value |
| `BuiltinTasks.SleptSeconds` | internal/tasks/tasks.go:44-51 | `time.Sleep` is reached exactly when `Sleep` succeeds, and then with the parsed value in seconds; a rejected value returns before sleeping |
| `StrConv.Atoi` | internal/tasks/tasks.go:46 | a parsed value always lies within Go's 64-bit `int` range; every error names `Atoi` and carries the whole input |
| `StrConv.ParseUint` | internal/tasks/tasks.go:46 | the digits after the sign parse only when there is at least one of them, and the magnitude never exceeds the `uint64` maximum |
| `StrConv.ScanUint` | internal/tasks/tasks.go:46 | the digit loop succeeds only on a string made entirely of ASCII digits, and its result never falls below what was read before nor exceeds the `uint64` maximum |
| `StrConv.AtoiCorrect` | internal/tasks/tasks.go:46-48 | `Atoi` accepts exactly the decimal strings in `int` range and returns their value; a decimal string out of range is a range error; every error names `Atoi` and the whole input |
| `StrConv.ScanUintDigits` | internal/tasks/tasks.go:46 | on digits, `ParseUint`'s loop computes the positional value and fails with a range error exactly when the value exceeds the `uint64` maximum |
| `StrConv.ItoaRoundTrip` | internal/tasks/tasks.go:46-51 | every integer in `int` range, negative ones included, is written as a string that `Atoi` reads back as the same integer |
| `TaskProperties.RegistryKeys` | internal/tasks/tasks.go:13-18 | each task is found under its own key and under no other name; lower-case `noop` and `sleep` are not found |
| `TaskProperties.FirstFailure` | internal/tasks/tasks.go:30-35 | the index of the first value the task rejects: every value before it passes, and the value at it fails |
| `TaskProperties.RunAllFirstFailure` | internal/tasks/tasks.go:30-36 | the loop returns the error of the first failing value, or nil when no value fails |
| `TaskProperties.AttemptedFirstFailure` | internal/tasks/tasks.go:30-35 | the loop invokes the task on the values up to and including the first failing one, in list order, and on no later value |
| `TaskProperties.StopsAtFirstFailure` | internal/tasks/tasks.go:30-35 | when `values[i]` fails after all earlier values passed, the result is its error and exactly `values[0..i]` were attempted |
| `TaskProperties.RunAllPassIff` | internal/tasks/tasks.go:30-36 | the loop returns nil exactly when every call succeeds, and then every value was attempted |
| `TaskProperties.FirstErrorWins` | internal/tasks/tasks.go:31-34 | the returned error is `e` exactly when some value fails with `e` and every earlier value passed |
| `TaskProperties.EmptyListRunsOnce` | internal/tasks/tasks.go:23-25 | with an empty list a registered task is invoked exactly once, with the empty string, and its result is returned |
| `TaskProperties.UnknownNameRejected` | internal/tasks/tasks.go:26-29 | a name other than the five exact keys returns `"No built-in task found: " + name` and invokes no task |
| `TaskProperties.ExecuteStopsAtFirstError` | internal/tasks/tasks.go:23-35 | for a registered name, the first value the task rejects (after the empty-list substitution) decides the returned error, and exactly the values up to it were attempted |
| `TaskProperties.ExecutePassIff` | internal/tasks/tasks.go:23-36 | for a registered name, nil is returned exactly when the task accepts every value, and then it was given every value in order |
| `TaskProperties.NoOpAlwaysSucceeds` | internal/tasks/tasks.go:21-42 | `ExecuteTask("NoOp", vs)` returns nil for every `vs` and invokes `NoOp` once per value, max(1, len(vs)) times |
| `TaskProperties.SleepSucceedsIff` | internal/tasks/tasks.go:23-48 | `ExecuteTask("Sleep", vs)` returns nil exactly when every value is an optional sign and digits within `int` range |
| `TaskProperties.SleepWithoutValuesFails` | internal/tasks/tasks.go:23-48 | `ExecuteTask("Sleep", [])` calls `Sleep` once with `""`, records no sleep in the trace, and returns `Atoi`'s syntax error |
| `TaskProperties.SleepExamples` | internal/tasks/tasks.go:44-51 | `ExecuteTask("Sleep", ["2"])` returns nil with a trace of one two-second sleep; on `["x"]` it returns a syntax error and the trace records no sleep |
| `TaskProperties.SleepAcceptsEveryInt` | internal/tasks/tasks.go:46-51 | every value in `int` range, negative ones included, is accepted by `Sleep`, which sleeps for that many seconds |

## Left out

- The `pgengine.LogToDB` calls in `ExecuteTask`, `taskNoOp` and `taskSleep` are database writes and have no effect on the results. They are not modelled.
- The blocking in `time.Sleep` is wall-clock behaviour and is not modelled. `SleptSeconds` records only the number of seconds requested. The overflow of `time.Duration(d) * time.Second` for very large `d` is not modelled either.
- The bodies of `taskLog`, `taskSendMail` and `taskDownloadFile` are not part of this model. They are defined outside tasks.go and do logging, mail and network I/O. Each is an arbitrary function from the value to a result, passed in as `External`.
- `BuiltinTasks.External`: the three external tasks are deterministic functions of the value, so a repeated value gets the same outcome each time; the real mail, network and logging calls can succeed once and fail the next time. Properties about them hold for each fixed choice of outcomes.
- `Tasks` is an exported package variable that other Go code could change. The model treats it as the constant it is initialised to. None of its entries is a nil function, so "missing key" and "nil function" are the same case.
- `strconv.Atoi`'s fast path for inputs shorter than 19 bytes is not modelled separately. It gives the same results as the `ParseInt` path that is modelled.
- The model assumes a 64-bit platform, where Go's `int` is 64 bits wide.
- The error text of a `*strconv.NumError` is not modelled, because it depends on `strconv.Quote`. The model keeps only the error's fields: function, input and kind.
- Go strings are byte strings, and the model uses `seq<char>`. Only ASCII `'0'`–`'9'` count as digits in both, so the accept/reject outcome is the same.
- `StrConv.AtoiCorrect` names the error kind only for decimal strings that are out of range. For other rejected inputs the kind is usually a syntax error. It is a range error when the digits before the first non-digit already exceed the `uint64` maximum, because `ParseUint` reports that first. `ScanUint` models this behaviour, but no lemma states it.
