# boards-cli task runner, modelled in Dafny

This project models the task runner of boards-cli (`lib/Runner.js`). The
runner takes a task reference and resolves it into a list of instructions:
a configured task name, one instruction, or a list of instructions. It then
starts every instruction of the list. By default they run concurrently. An
instruction marked `sync` leaves its runner as a barrier for the next
instruction only. The runner is the promise `.then` made when the
instruction was itself gated, and otherwise the value its dispatch
returned. The next instruction
chains onto a truthy barrier with `.then`, so it waits until the barrier has
settled. A falsy barrier holds nothing back. A truthy barrier that is not a
promise has no `.then`, and the next instruction throws.

Dispatching one instruction picks one of four kinds of work, in priority
order:

- a `dynamicTask` callable that produces further tasks;
- a `definedTask`, which is the name of another configured task;
- a `task` callable;
- a builtin named by `task` (`modify` or `generate`).

A `prepare` callable can transform a copy of the parameters before any of
these runs. The `modify` builtin builds a descriptor for the modification
generator. Both builtins turn the `target` field into a path, filling in
the `{{pascalCased}}`, `{{upperCased}}` and `{{name}}` placeholders.

Files:

- `wrappers.dfy`: `Option` and `Result`.
- `strings.dfy`: literal global replacement as `String.prototype.replace`
  does it with a plain-character `/…/g` pattern. Also `Split`/`Join`, which
  characterise that replacement, and integer-to-decimal conversion.
- `runner.dfy`: the runner. It holds the data model (JavaScript values,
  instructions, task references, configuration, errors, actions), the
  operations, and the lemmas about them.

How the model works:

- `Run` resolves the reference and hands the list to `StartAll`, a method
  with a loop. The loop carries `previousTask` as a mutable variable, from
  one call of `StartOne` (the `map` callback) to the next. For every
  instruction it records a `Launch`: the index the instruction waits for,
  and the outcome of dispatching it.
- A runner is a `RunnerValue`: a promise, a falsy value or another truthy
  value. `runTask` returns a promise for every kind of instruction except a
  `task` callable, which returns whatever the callable returns.
- `RunTask` is the imperative form of `runTask`. It reassigns its local
  parameters and is proved equal to the specification function `Dispatch`.
- No promise is modelled. A nested run is recorded as a request, not
  followed: `RunDefined(name)` for a `definedTask`, and `RunDynamic(tasks)`
  for the tasks a `dynamicTask` produces.
- Parameters are a `map<string, Value>` with value semantics, so a deep
  copy is the same map. The `copied` flag of a dispatched instruction says
  whether the runner made a fresh copy for it.

Error channel. The source throws some errors synchronously and returns
others as rejected promises. The model keeps the difference that matters
to the list:

- A dispatch error of an instruction that starts at once escapes the
  `map` callback. It aborts `run`, which then yields that error: `StartAll`
  returns `Err`. The earlier instructions that started at once were
  already dispatched, and their work goes on. The earlier gated ones are
  still dispatched when their barrier settles. `Err` carries no launches
  for any of them; `Started` says only that none of them threw.
- So does the type error `previousTask.then is not a function`
  (`ThenNotFunction`). It is thrown when the barrier is truthy but not a
  promise.
- A dispatch error of a gated instruction happens inside a `.then`
  continuation. It only rejects that instruction's promise, so it stays in
  that launch's outcome.
- A name that is not configured, and a falsy reference, make `run` reject
  before any instruction is dispatched.

Behaviour of the code that a reader might not expect (the model follows
the code):

- An empty list is truthy. It resolves to zero instructions, not to the
  "Invalid instructions provided." error.
- Names inside a list are not looked up. If a `dynamicTask` produces
  `["taskA", "taskB"]`, the list is run as instructions. Each string has
  none of the fields the runner reads, so it fails as `Invalid task
  "undefined" supplied` (`BlankIsInvalidTask`).
- A gated instruction whose barrier rejects is never dispatched, because
  `previousTask.then(...)` has no rejection handler (`SkippedIffEarlierFailure`).
- `sync` on a `task` callable works only when the callable returns a
  promise. If it returns a falsy value, the next instruction starts at
  once, and a failure to dispatch it escapes `run` (`FalsyRunnerOpensGate`).
  If it returns a truthy non-promise, the next instruction throws at
  `.then` (`PlainRunnerBreaksThen`).
- A configured entry that is itself a name is not looked up again. Wrapped
  in a list, it acts as an instruction without fields.
- `isolated` copies the parameters only when there is no `prepare`
  callable. With `prepare`, the parameters were already copied before it
  ran.

## Model

| member | source | states |
|---|---|---|
| `Runner.Truthy` | lib/Runner.js:16-23 | No contract of its own. It is defined as the truthiness the `!` tests see: a non-empty name, any instruction or list (an empty list included), and never a falsy reference. |
| `Runner.Resolve` | lib/Runner.js:12-29 | A string reference with no entry, or a falsy entry, gives `TaskNotFound` with that name. Otherwise a name resolves to its configured entry as a list (`AsList`): a list as it is, a single instruction wrapped in a one-element list, and a name wrapped as a fieldless instruction. A falsy non-string reference gives `InvalidInstructions`. A direct instruction is wrapped into a one-element list, and a direct list is used as it is. |
| `Runner.AsList` | lib/Runner.js:27-29 | An array is used as it is. A single instruction becomes a one-element list. A name becomes a one-element list holding the fieldless instruction `Blank`. |
| `Runner.Run` | lib/Runner.js:12-48 | A resolution error is the result, and no instruction is dispatched. Otherwise the result is what `StartAll` gives for the resolved list. |
| `Runner.RunnerOf` | lib/Runner.js:67-94 | A runner that is not a promise comes only from a `task` callable, as what that callable returned. Every other kind of instruction returns a promise. |
| `Runner.PreviousTask` | lib/Runner.js:31-45 | The barrier instruction `i` finds. It is falsy for instruction 0. It is truthy only when instruction `i-1` has `sync`. It can be a truthy non-promise only when instruction `i-1` is a `task` callable. |
| `Runner.WaitsOn` | lib/Runner.js:36-37 | Instruction 0 never waits. An instruction waits only on its predecessor, and only when that predecessor has `sync`. |
| `Runner.ThrowsAt` | lib/Runner.js:36-40 | An instruction that starts at once throws exactly when its dispatch fails, and it throws that dispatch error. A gated instruction can only throw `previousTask.then is not a function`. That happens only after a `task` callable. |
| `Runner.StartOne` | lib/Runner.js:34-47 | Given `previousTask`, the callback throws exactly what `ThrowsAt` says: `previousTask.then is not a function` for a truthy non-promise barrier, and the dispatch error of an instruction that starts at once. Otherwise it records the wait (`WaitsOn`), the dispatch outcome, and the `previousTask` the next instruction finds: the runner if the instruction has `sync` (a `.then` promise when gated, else what `runTask` returned), and a falsy value otherwise. |
| `Runner.StartAll` | lib/Runner.js:31-48 | There is one launch per resolved instruction, in list order. Launch `i` waits on `i-1` exactly when instruction `i-1` has `sync` and left a truthy runner; otherwise it waits on nothing, so instruction 0 never waits. Its outcome is the dispatch of instruction `i` with the caller's parameters. The loop fails exactly when some instruction throws synchronously, and then it yields the first such error. |
| `Runner.StartsAfterIffSyncRun` | lib/Runner.js:31-45 | Instruction `i` is ordered after an earlier instruction `j` exactly when every instruction from `j` to `i-1` has `sync` and `j`'s runner is truthy. Later runners in the chain are `.then` promises, so only the head's runner matters. Since the barrier is cleared on use, a gap in the `sync` chain lets two instructions run concurrently. |
| `Runner.SyncAloneGatesPromises` | lib/Runner.js:36-44 | After an instruction that is not a `task` callable and does not throw, the next instruction waits on it exactly when it has `sync`. |
| `Runner.FalsyRunnerOpensGate` | lib/Runner.js:36-44 | `[{sync: true, task: () => falsy}, {task: "nope"}]` fails with `Invalid task "nope" supplied`: the falsy runner leaves no barrier, so the second instruction is dispatched at once and its error escapes `run`. |
| `Runner.PlainRunnerBreaksThen` | lib/Runner.js:36-44 | `[{sync: true, task: () => true}, …]` fails with `previousTask.then is not a function` at the second instruction. |
| `Runner.SkippedIffEarlierFailure` | lib/Runner.js:36-38 | For failures at dispatch: a gated instruction is skipped because its barrier rejects with a dispatch error exactly when some instruction it is ordered after failed at dispatch. Rejections of work that was dispatched successfully are not tracked (see "Left out"). |
| `Runner.RunTask` | lib/Runner.js:61-95 | The imperative dispatch computes exactly `Dispatch`. It reassigns the local parameters for `prepare`. For isolation it only sets the `copied` flag, since a deep copy of a map value is the same map. |
| `Runner.KindOf` | lib/Runner.js:67-94 | No contract of its own. It is defined as the branch tests in order: `dynamicTask` is a function, `definedTask` is not undefined, `task` is a function, and otherwise a builtin. `DispatchFollowsPriority` states its meaning. |
| `Runner.WorkingParams` | lib/Runner.js:62-65 | No contract of its own. It is defined as the result of `prepareParams` when `prepare` is a function, and the caller's parameters otherwise. `DispatchIsolation` and `PrepareIsPreStep` state its meaning. |
| `Runner.Dispatch` | lib/Runner.js:61-95 | The work handed on is of the instruction's kind. The only errors are the dispatch errors: `definedTask` not a string, an unknown task, and the two target errors. A resolution error or the `.then` error never comes from dispatch. |
| `Runner.Builtin` | lib/Runner.js:90-94 | A name other than `modify` or `generate` is `InvalidTask` naming it. `modify` yields a `Modify` action and `generate` a `Generate` action. `modify` fails exactly when the target cannot be resolved. |
| `Runner.PrepareParams` | lib/Runner.js:51-59 | When `prepare` returns an object, that object becomes the parameters. Otherwise the parameters are the argument as `prepare` left it. |
| `Runner.PrepareIsPreStep` | lib/Runner.js:62-65 | Dispatching with `prepare` is the same as dispatching without it on the prepared parameters, except that these are marked as a copy. The same outcomes and the same errors occur. |
| `Runner.DispatchFollowsPriority` | lib/Runner.js:67-94 | The work handed on is of the instruction's kind. The kind is `dynamicTask` if present, else `definedTask` if present, else a callable `task`, else a builtin. |
| `Runner.HigherPriorityHidesLower` | lib/Runner.js:67-94 | Once a higher-priority field is present, changing a lower-priority field (`definedTask`, `task`, `isolated` or `target`) does not change the dispatch. |
| `Runner.DispatchErrors` | lib/Runner.js:74-92 | Dynamic and callable instructions never fail to dispatch. A defined task fails exactly when its `definedTask` is not a string, with the value's type in the error. A builtin name other than `modify` or `generate` fails with `InvalidTask` naming it. `modify` fails exactly when its target cannot be resolved. |
| `Runner.DispatchIsolation` | lib/Runner.js:61-83 | The work receives the working parameters: the prepared ones, or the caller's when there is no `prepare`. They are a fresh copy exactly when `prepare` ran, or when a defined task has `isolated` set. A dynamic task's produced tasks are computed from, and handed on with, those same parameters. |
| `Runner.Message` | lib/Runner.js:17-91 | No contract of its own. It is defined as the text of each error: `Instructions for task "…" not found.`, `Invalid instructions provided.`, `definedTask must be a string. Got ….`, and `Invalid task "…" supplied`, followed by the engine's type errors. `BlankIsInvalidTask` states one instance. |
| `Runner.TypeName` | lib/Runner.js:75-76 | No contract of its own. It is defined as the `typeof` name that the `definedTask` error message reports. |
| `Runner.BlankIsInvalidTask` | lib/Runner.js:90-91 | A list element with none of the recognised fields fails as `InvalidTask("undefined")`, whose message is `Invalid task "undefined" supplied`. An empty list resolves to no instructions. |
| `Runner.ModifyDescriptor` | lib/Runner.js:97-104 | The descriptor has every parameter key plus `sourceDirectory`, `targetDirectory`, `sourceFile` and `modify`. Those four win over parameters with the same name: both directories are the app root, the source file is the resolved target, and `modify` is `{patch}`. Every other parameter is unchanged. A target that cannot be resolved is the error. |
| `Runner.GenerateRequest` | lib/Runner.js:106-114 | `generate` succeeds exactly when the target resolves to a string. It then hands on that path, the instruction's template, the template root as source directory, and the parameters the descriptor is merged from. A target that is neither a function nor a string gives `TargetNotString`. A resolved target that is not a string gives `PathNotString`. |
| `Runner.Stringify` | lib/Runner.js:123-125 | `String()` of a replacement value: a string is itself. A number has a leading `-` exactly when it is negative, and for a non-negative number the digits read back as the number. |
| `Runner.Param` | lib/Runner.js:123-125 | An absent parameter is replaced by `undefined`, and a string parameter by itself. |
| `Runner.Substitute` | lib/Runner.js:122-125 | No contract of its own. It is defined as the three `ReplaceAll` steps in the source's order, and `TargetReplacesInOrder` and `TargetWithoutPlaceholders` state its meaning. |
| `Runner.GetTarget` | lib/Runner.js:117-126 | A function target gives the function's result, with no substitution. A string target gives the substituted string. Any other target is an error. |
| `Runner.TargetWithoutPlaceholders` | lib/Runner.js:122-125 | A string target that holds none of the three placeholders is returned unchanged. |
| `Runner.TargetReplacesInOrder` | lib/Runner.js:122-125 | The target is cut at every `{{pascalCased}}` and rejoined with that parameter. The same is then done for `{{upperCased}}`, and last for `{{name}}`. |
| `Runner.TargetNameExample` | lib/Runner.js:122-125 | `{{name}}.ts` with name `Foo` resolves to `Foo.ts`. |
| `Runner.TargetOrderExample` | lib/Runner.js:122-125 | The replacements are sequential, not simultaneous: a `pascalCased` value that holds `{{name}}` is filled in by the later `{{name}}` step. |
| `Strings.ReplaceAll` | lib/Runner.js:123-125 | No contract of its own. It is defined as a left-to-right scan that replaces each non-overlapping occurrence, and the lemmas below state its meaning. |
| `Strings.ReplaceAllIsJoin` | lib/Runner.js:123-125 | Replacing every occurrence is the same as joining, with the replacement, the pieces between the occurrences. |
| `Strings.SplitJoinRoundTrip` | lib/Runner.js:123-125 | Joining the pieces with the pattern gives back the original text, so all text outside the occurrences is kept. |
| `Strings.SplitPiecesAreFree` | lib/Runner.js:123-125 | No piece contains the pattern, so every occurrence was replaced. |
| `Strings.ReplaceAllAbsent` | lib/Runner.js:123-125 | A text without the pattern is returned unchanged. |
| `Strings.ReplaceAllUnchangedIff` | lib/Runner.js:123-125 | A replacement leaves the text unchanged exactly when the pattern does not occur, or is replaced by itself. |
| `Strings.NatToDecimal` | lib/Runner.js:123-125 | A number parameter is written as decimal digits only, with no leading zero except for 0 itself. |
| `Strings.NatToDecimalRoundTrip` | lib/Runner.js:123-125 | Reading those digits back gives the number. |
| `Strings.IntToDecimal` | lib/Runner.js:123-125 | `String(n)` for an integer: a leading `-` exactly for a negative number, followed by digits that read back as its absolute value. |

## Left out

- Promises and timing. Only the start dependency between instructions is
  modelled. Settlement, interleaving, and which rejection `Promise.all`
  reports first are not.
- Nested runs. A `definedTask` or a `dynamicTask` records the run it
  requests, but the model does not run it.
  - In the source, a `definedTask` calls `run` synchronously. A nested
    instruction that throws at once would therefore escape the outer
    `runTask`. The model does not show this.
  - The `dynamicTask` branch does not return its nested run, so the
    instruction settles before the produced tasks do.
- The generator service (`Boards.generate`) and `Homefront.merge` are left
  out. Their calls are represented by the `Modify`/`Generate` actions and
  by the `copied` flag.
- User callables are left out. `prepare`, `dynamicTask`, `task` and
  `target` are total Dafny functions: they neither throw nor touch anything
  but their own argument. A `task` callable is known only by the kind of
  value it returns (`RunnerValue`), which is all that `run` looks at. A
  thenable that is not a real promise counts as a promise.
- The builtins return what the generator service returns. The model takes
  that to be a promise, so it never weakens the `sync` gate.
- `Runner.SkippedIffEarlierFailure`: rejections of work that was dispatched
  successfully are not tracked. In the source, a barrier also rejects, and
  its gated successor is then never dispatched, when the work itself
  rejects: a nested `run` of an unknown name, a promise rejected by a
  callable, or a failing generator. The lemma characterises only the
  skipping that comes from failures at dispatch. Its "only if" half
  therefore holds for those failures, not for every skip.
- Numbers are unbounded integers. JavaScript numbers are doubles: integers
  beyond 2^53 are not exact, and `String()` writes 10^21 and above in
  exponent form (`1e+21`). `Stringify` writes every digit.
- `run(task)` without a parameters object is left out. The parameters are
  always a map, whereas in the source `getTarget` would throw when it reads
  `parameters.pascalCased` from `undefined`.
- Aliasing of the shared parameters object. With value semantics, a
  mutation by one instruction cannot reach its siblings. The hazard of
  shared, uncopied parameters is shown only by the `copied` flag.
- A `prepare` that returns `null` is left out. `typeof null` is
  `'object'`, so in the source `null` would replace the parameters.
- Reflective builtin lookup. `this[task]` also finds the runner's other
  methods (`run`, `runTask`, `getTarget`, …). Only `modify` and `generate`
  are builtins here; every other name is unknown.
- Lookups in `config.tasks` that reach inherited object properties (such
  as `constructor`) are left out.
- The path library in `generate` (`path.parse`, `path.join`), and the
  merged descriptor itself. `Generate` carries the resolved target path,
  the template, the template root and the parameters. It does not split
  the path into `targetFile` and `targetDirectory`, and it does not state
  the `Object.assign` override of the four fixed keys. `PathNotString`
  stands for the library's type error.
- The `$` patterns of `String.prototype.replace`, replacement functions,
  and `String()` of arrays, functions and non-integer numbers are left out.
- A list element that is `null` or `undefined` is left out: reading `sync`
  from it throws in the source. A string or other primitive element behaves
  as `Blank`.
- The `Runner` constructor only stores the configuration and a generator
  handle. The model passes the `Config` to each operation instead of
  keeping a class.
