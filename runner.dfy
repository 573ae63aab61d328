/**
 * The task runner of boards-cli (lib/Runner.js): it resolves a task reference
 * into a list of instructions, starts them with the one-step `sync` gate,
 * dispatches each instruction to one of four kinds of work, isolates
 * parameters where asked, builds the descriptor of the `modify` builtin and
 * fills the placeholders of a target path.
 *
 * JavaScript values appear only as far as the runner looks at them. The
 * promises are not modelled: a launch records which instruction it waits
 * for and what dispatching it produces. User callables are Dafny functions
 * stored in the instruction; the generator service, the deep merge and the
 * path library are outside the model.
 */
module Runner {
  import opened Wrappers
  import opened Strings

  /** A JavaScript value, as far as parameters and instruction fields need one. */
  datatype Value =
    | Undefined
    | Null
    | Bool(b: bool)
    | Number(n: int)
    | Str(s: string)
    | Object(fields: map<string, Value>)

  /** The parameters object, with value semantics: a deep copy is the same map. */
  type Parameters = map<string, Value>

  /** What `typeof` sees in the value a `prepare` callable returns. */
  datatype Returned = ReturnedObject(value: Parameters) | ReturnedOther

  /**
   * One call of a `prepare` callable: the argument as the callable left it
   * (it may mutate its copy) and what it returned.
   */
  datatype PrepareEffect = PrepareEffect(argument: Parameters, returned: Returned)

  /** The result of `typeof` for a value that is neither undefined nor a string. */
  datatype JsType = ObjectType | NumberType | BooleanType | FunctionType | SymbolType | BigIntType

  /** The `definedTask` field. */
  datatype DefinedTask = NoDefinedTask | DefinedName(name: string) | DefinedOther(kind: JsType)

  /**
   * A runner value as `run` looks at it: `if (previousTask)` tests its
   * truthiness and `previousTask.then` needs it to be a promise. A runner
   * that `runTask` builds is a promise; a `task` callable may return anything.
   */
  datatype RunnerValue = PromiseValue | FalsyValue | PlainValue

  /**
   * The `task` field: a callable (with the kind of value it returns for the
   * parameters it gets), or anything else, which the runner looks up as a
   * property name; an absent field is looked up as "undefined".
   */
  datatype TaskField = TaskFunction(call: Parameters -> RunnerValue) | TaskName(name: string)

  /** The `target` field of a builtin: a callable, a path template, or any other value. */
  datatype Target = TargetFunction(call: Parameters -> Value) | TargetString(template: string) | TargetOther

  /** An instruction; `sync` and `isolated` are the truthiness of those fields. */
  datatype Instruction = Instruction(
    sync: bool,
    prepare: Option<Parameters -> PrepareEffect>,
    dynamicTask: Option<Parameters -> TaskRef>,
    definedTask: DefinedTask,
    isolated: bool,
    task: TaskField,
    target: Target,
    patch: Value,
    template: Value)

  /**
   * What `run` accepts: a task name, one instruction, a list of instructions,
   * or a falsy value (undefined, null, false, 0).
   */
  datatype TaskRef =
    | TaskString(name: string)
    | TaskInstruction(instruction: Instruction)
    | TaskList(instructions: seq<Instruction>)
    | TaskFalsy

  /** The runner's configuration: the named tasks and the two roots the builtins use. */
  datatype Config = Config(tasks: map<string, TaskRef>, appRoot: string, templateRoot: string)

  datatype Error =
    | TaskNotFound(task: string)
    | InvalidInstructions
    | DefinedTaskNotString(kind: JsType)
    | InvalidTask(name: string)
    | TargetNotString
    | PathNotString
    | ThenNotFunction

  /** The work one instruction hands on. */
  datatype Action =
    | RunDynamic(produced: TaskRef)
    | RunDefined(name: string)
    | CallTask(returned: RunnerValue)
    | Modify(descriptor: Parameters)
    | Generate(targetPath: string, template: Value, sourceDirectory: string, parameters: Parameters)

  /**
   * A dispatched instruction: the parameters its work receives, whether they
   * are a fresh copy of the caller's parameters, and the work itself.
   */
  datatype Dispatched = Dispatched(params: Parameters, copied: bool, action: Action)

  /** One instruction of a run: the instruction it waits for, and what dispatching it gives. */
  datatype Launch = Launch(waitsOn: Option<nat>, outcome: Result<Dispatched, Error>)

  /** The four kinds of instruction, in the order dispatch tries them. */
  datatype Kind = DynamicKind | DefinedKind | CallableKind | BuiltinKind

  const BuiltinNames: set<string> := {"modify", "generate"}

  /** How a value that has none of the fields the runner reads behaves as an instruction. */
  const Blank: Instruction :=
    Instruction(false, None, None, NoDefinedTask, false, TaskName("undefined"), TargetOther, Undefined, Undefined)

  const PascalToken: string := "{{pascalCased}}"
  const UpperToken: string := "{{upperCased}}"
  const NameToken: string := "{{name}}"

  function TypeName(t: JsType): (name: string) {
    match t
    case ObjectType => "object"
    case NumberType => "number"
    case BooleanType => "boolean"
    case FunctionType => "function"
    case SymbolType => "symbol"
    case BigIntType => "bigint"
  }

  /**
   * The message each error carries. The first four are the runner's own; the
   * last three are type errors the JavaScript engine raises, whose wording
   * depends on the engine and on the offending value.
   */
  function Message(e: Error): (m: string) {
    match e
    case TaskNotFound(task) => "Instructions for task \"" + task + "\" not found."
    case InvalidInstructions => "Invalid instructions provided."
    case DefinedTaskNotString(kind) => "definedTask must be a string. Got " + TypeName(kind) + "."
    case InvalidTask(name) => "Invalid task \"" + name + "\" supplied"
    case TargetNotString => "target.replace is not a function"
    case PathNotString => "The \"path\" argument must be of type string"
    case ThenNotFunction => "previousTask.then is not a function"
  }

  // ---------------------------------------------------------------------------
  // Resolution of a task reference

  predicate Truthy(ref: TaskRef) {
    match ref
    case TaskString(name) => name != ""
    case TaskFalsy => false
    case _ => true
  }

  /**
   * A truthy reference as a list: an array as it is, anything else wrapped in
   * a one-element list. A name is not looked up again: wrapped, it acts as an
   * instruction without fields.
   */
  function AsList(ref: TaskRef): (r: seq<Instruction>)
    requires Truthy(ref)
    ensures ref.TaskList? ==> r == ref.instructions
    ensures ref.TaskInstruction? ==> r == [ref.instruction]
    ensures ref.TaskString? ==> r == [Blank]
  {
    match ref
    case TaskList(instructions) => instructions
    case TaskInstruction(instruction) => [instruction]
    case TaskString(_) => [Blank]
    case TaskFalsy => []
  }

  /** The instructions `run` executes for `task`, or the error it rejects with. */
  function Resolve(config: Config, task: TaskRef): (r: Result<seq<Instruction>, Error>)
    ensures task.TaskString? ==>
              (r.Err? <==> task.name !in config.tasks || !Truthy(config.tasks[task.name]))
    ensures task.TaskString? && r.Err? ==> r.error == TaskNotFound(task.name)
    ensures task.TaskString? && r.Ok? ==> r.value == AsList(config.tasks[task.name])
    ensures !task.TaskString? ==> (r.Err? <==> task.TaskFalsy?)
    ensures !task.TaskString? && r.Err? ==> r.error == InvalidInstructions
    ensures task.TaskInstruction? ==> r == Ok([task.instruction])
    ensures task.TaskList? ==> r == Ok(task.instructions)
  {
    if task.TaskString? then
      if task.name !in config.tasks || !Truthy(config.tasks[task.name]) then Err(TaskNotFound(task.name))
      else Ok(AsList(config.tasks[task.name]))
    else if !Truthy(task) then Err(InvalidInstructions)
    else Ok(AsList(task))
  }

  // ---------------------------------------------------------------------------
  // Target placeholders

  /** `String(v)` for the values the model has. */
  function Stringify(v: Value): (text: string)
    ensures v.Str? ==> text == v.s
    ensures v.Number? ==> |text| >= 1 && (text[0] == '-' <==> v.n < 0)
    ensures v.Number? && v.n >= 0 ==> AllDigits(text) && DecimalValue(text) == v.n
  {
    match v
    case Undefined => "undefined"
    case Null => "null"
    case Bool(b) => if b then "true" else "false"
    case Number(n) => IntToDecimal(n)
    case Str(s) => s
    case Object(_) => "[object Object]"
  }

  /** The text a placeholder is replaced by: the parameter, stringified; an absent one reads as undefined. */
  function Param(parameters: Parameters, key: string): (text: string)
    ensures key !in parameters ==> text == "undefined"
    ensures key in parameters && parameters[key].Str? ==> text == parameters[key].s
  {
    if key in parameters then Stringify(parameters[key]) else "undefined"
  }

  /** The three replacements of a string target, in the order the runner applies them. */
  function Substitute(template: string, parameters: Parameters): (path: string) {
    var pascal := ReplaceAll(template, PascalToken, Param(parameters, "pascalCased"));
    var upper := ReplaceAll(pascal, UpperToken, Param(parameters, "upperCased"));
    ReplaceAll(upper, NameToken, Param(parameters, "name"))
  }

  /** The path a builtin works on. */
  function GetTarget(target: Target, parameters: Parameters): (r: Result<Value, Error>)
    ensures target.TargetFunction? ==> r == Ok(target.call(parameters))
    ensures target.TargetString? ==> r == Ok(Str(Substitute(target.template, parameters)))
    ensures target.TargetOther? ==> r == Err(TargetNotString)
  {
    match target
    case TargetFunction(call) => Ok(call(parameters))
    case TargetString(template) => Ok(Str(Substitute(template, parameters)))
    case TargetOther => Err(TargetNotString)
  }

  // ---------------------------------------------------------------------------
  // Builtins

  const DescriptorKeys: set<string> := {"sourceDirectory", "targetDirectory", "sourceFile", "modify"}

  /** The descriptor `modify` hands to the modification generator: the parameters, overridden by four fixed keys. */
  function ModifyDescriptor(config: Config, instruction: Instruction, parameters: Parameters): (r: Result<Parameters, Error>)
    ensures r.Err? <==> GetTarget(instruction.target, parameters).Err?
    ensures r.Err? ==> r.error == GetTarget(instruction.target, parameters).error
    ensures r.Ok? ==> r.value.Keys == parameters.Keys + DescriptorKeys
    ensures r.Ok? ==> r.value["sourceDirectory"] == Str(config.appRoot)
    ensures r.Ok? ==> r.value["targetDirectory"] == Str(config.appRoot)
    ensures r.Ok? ==> r.value["sourceFile"] == GetTarget(instruction.target, parameters).value
    ensures r.Ok? ==> r.value["modify"] == Object(map["patch" := instruction.patch])
    ensures r.Ok? ==> forall k :: k in parameters && k !in DescriptorKeys ==> r.value[k] == parameters[k]
  {
    var target := GetTarget(instruction.target, parameters);
    if target.Err? then Err(target.error)
    else
      Ok(parameters + map[
        "sourceDirectory" := Str(config.appRoot),
        "targetDirectory" := Str(config.appRoot),
        "sourceFile" := target.value,
        "modify" := Object(map["patch" := instruction.patch])])
  }

  /**
   * The request `generate` hands to the template generator: the resolved
   * target path, the template, the template root and the parameters the
   * descriptor is merged from.
   */
  function GenerateRequest(config: Config, instruction: Instruction, parameters: Parameters): (r: Result<Action, Error>)
    ensures r.Ok? <==> GetTarget(instruction.target, parameters).Ok? && GetTarget(instruction.target, parameters).value.Str?
    ensures r.Ok? ==> r.value == Generate(GetTarget(instruction.target, parameters).value.s, instruction.template,
                                          config.templateRoot, parameters)
    ensures instruction.target.TargetOther? ==> r == Err(TargetNotString)
    ensures GetTarget(instruction.target, parameters).Ok? && !GetTarget(instruction.target, parameters).value.Str? ==>
              r == Err(PathNotString)
  {
    var target := GetTarget(instruction.target, parameters);
    if target.Err? then Err(target.error)
    else if !target.value.Str? then Err(PathNotString)
    else Ok(Generate(target.value.s, instruction.template, config.templateRoot, parameters))
  }

  /** A builtin named by the `task` field, or the error for a name the runner has no method for. */
  function Builtin(config: Config, instruction: Instruction, parameters: Parameters, name: string): (r: Result<Action, Error>)
    ensures name !in BuiltinNames ==> r == Err(InvalidTask(name))
    ensures r.Ok? ==> (name == "modify" <==> r.value.Modify?) && (name == "generate" <==> r.value.Generate?)
    ensures name == "modify" ==> (r.Err? <==> GetTarget(instruction.target, parameters).Err?)
  {
    if name == "modify" then
      match ModifyDescriptor(config, instruction, parameters)
      case Ok(descriptor) => Ok(Modify(descriptor))
      case Err(e) => Err(e)
    else if name == "generate" then GenerateRequest(config, instruction, parameters)
    else Err(InvalidTask(name))
  }

  // ---------------------------------------------------------------------------
  // Dispatch

  /** `prepareParams`: an object the callable returns replaces the parameters; otherwise its (copied) argument stays. */
  function PrepareParams(prepare: Parameters -> PrepareEffect, params: Parameters): (r: Parameters)
    ensures prepare(params).returned.ReturnedObject? ==> r == prepare(params).returned.value
    ensures prepare(params).returned.ReturnedOther? ==> r == prepare(params).argument
  {
    var effect := prepare(params);
    if effect.returned.ReturnedObject? then effect.returned.value else effect.argument
  }

  /** The parameters an instruction works with once its `prepare` step, if any, has run. */
  function WorkingParams(instruction: Instruction, parameters: Parameters): (params: Parameters) {
    if instruction.prepare.Some? then PrepareParams(instruction.prepare.value, parameters) else parameters
  }

  /** Which branch of dispatch an instruction takes. */
  function KindOf(instruction: Instruction): (kind: Kind) {
    if instruction.dynamicTask.Some? then DynamicKind
    else if !instruction.definedTask.NoDefinedTask? then DefinedKind
    else if instruction.task.TaskFunction? then CallableKind
    else BuiltinKind
  }

  /** The kind of instruction that can hand on this action. */
  function KindOfAction(action: Action): (kind: Kind) {
    match action
    case RunDynamic(_) => DynamicKind
    case RunDefined(_) => DefinedKind
    case CallTask(_) => CallableKind
    case _ => BuiltinKind
  }

  /** What `runTask` does with one instruction, stated branch by branch. */
  function Dispatch(config: Config, instruction: Instruction, parameters: Parameters): (r: Result<Dispatched, Error>)
    ensures r.Ok? ==> KindOfAction(r.value.action) == KindOf(instruction)
    ensures r.Err? ==> r.error.DefinedTaskNotString? || r.error.InvalidTask? ||
                       r.error.TargetNotString? || r.error.PathNotString?
  {
    var params := WorkingParams(instruction, parameters);
    var prepared := instruction.prepare.Some?;
    match KindOf(instruction)
    case DynamicKind =>
      Ok(Dispatched(params, prepared, RunDynamic(instruction.dynamicTask.value(params))))
    case DefinedKind =>
      if instruction.definedTask.DefinedOther? then Err(DefinedTaskNotString(instruction.definedTask.kind))
      else Ok(Dispatched(params, prepared || instruction.isolated, RunDefined(instruction.definedTask.name)))
    case CallableKind =>
      Ok(Dispatched(params, prepared, CallTask(instruction.task.call(params))))
    case BuiltinKind =>
      match Builtin(config, instruction, params, instruction.task.name)
      case Ok(action) => Ok(Dispatched(params, prepared, action))
      case Err(e) => Err(e)
  }

  /**
   * `runTask`: the local parameters are reassigned by the `prepare` step;
   * isolation only sets `copied`, since a deep copy of a map value is the
   * same map.
   */
  method RunTask(config: Config, instruction: Instruction, parameters: Parameters) returns (r: Result<Dispatched, Error>)
    ensures r == Dispatch(config, instruction, parameters)
  {
    var params := parameters;
    var copied := false;
    if instruction.prepare.Some? {
      params := PrepareParams(instruction.prepare.value, params);
      copied := true;
    }
    if instruction.dynamicTask.Some? {
      return Ok(Dispatched(params, copied, RunDynamic(instruction.dynamicTask.value(params))));
    }
    if !instruction.definedTask.NoDefinedTask? {
      if instruction.definedTask.DefinedOther? {
        return Err(DefinedTaskNotString(instruction.definedTask.kind));
      }
      if instruction.isolated && instruction.prepare.None? {
        // a fresh copy; with value semantics the map itself is unchanged
        copied := true;
      }
      return Ok(Dispatched(params, copied, RunDefined(instruction.definedTask.name)));
    }
    if instruction.task.TaskFunction? {
      return Ok(Dispatched(params, copied, CallTask(instruction.task.call(params))));
    }
    var name := instruction.task.name;
    if name !in BuiltinNames {
      return Err(InvalidTask(name));
    }
    var action := Builtin(config, instruction, params, name);
    if action.Err? {
      return Err(action.error);
    }
    return Ok(Dispatched(params, copied, action.value));
  }

  // ---------------------------------------------------------------------------
  // Running a list

  /** The runner a dispatched instruction returns: what its callable returned, or a promise. */
  function RunnerOf(action: Action): (v: RunnerValue)
    ensures v != PromiseValue ==> action.CallTask?
  {
    if action.CallTask? then action.returned else PromiseValue
  }

  /**
   * `previousTask` as instruction `i` finds it: the runner of instruction
   * `i - 1` when that one has `sync`, otherwise a falsy value. A gated
   * instruction's runner is the promise `.then` returns; the runner of an
   * instruction that started at once is what `runTask` returned.
   */
  function PreviousTask(config: Config, instructions: seq<Instruction>, parameters: Parameters, i: nat): (v: RunnerValue)
    requires i <= |instructions|
    ensures i == 0 ==> v == FalsyValue
    ensures v != FalsyValue ==> 0 < i && instructions[i - 1].sync
    ensures v == PlainValue ==> KindOf(instructions[i - 1]) == CallableKind
    decreases i, 0
  {
    if i == 0 || !instructions[i - 1].sync then FalsyValue
    else if PreviousTask(config, instructions, parameters, i - 1) != FalsyValue then PromiseValue
    else match Dispatch(config, instructions[i - 1], parameters)
         case Ok(d) => RunnerOf(d.action)
         // the error escaped `run` before instruction `i` was reached
         case Err(_) => FalsyValue
  }

  /** The instruction `i` waits for: its predecessor, when `previousTask` is truthy. */
  function WaitsOn(config: Config, instructions: seq<Instruction>, parameters: Parameters, i: nat): (w: Option<nat>)
    requires i < |instructions|
    ensures w.Some? ==> 0 < i && w.value == i - 1 && instructions[i - 1].sync
  {
    if PreviousTask(config, instructions, parameters, i) != FalsyValue then Some(i - 1) else None
  }

  /**
   * The error that escapes `run` synchronously at instruction `i`, if any: a
   * barrier that is not a promise has no `.then`; an instruction that starts
   * at once and fails to dispatch throws from the `map` callback.
   */
  function ThrowsAt(config: Config, instructions: seq<Instruction>, parameters: Parameters, i: nat): (e: Option<Error>)
    requires i < |instructions|
    ensures WaitsOn(config, instructions, parameters, i).None? ==>
              (e.Some? <==> Dispatch(config, instructions[i], parameters).Err?) &&
              (e.Some? ==> e.value == Dispatch(config, instructions[i], parameters).error)
    ensures WaitsOn(config, instructions, parameters, i).Some? ==> e.None? || e == Some(ThenNotFunction)
    ensures e == Some(ThenNotFunction) ==>
              WaitsOn(config, instructions, parameters, i).Some? && KindOf(instructions[i - 1]) == CallableKind
  {
    var previous := PreviousTask(config, instructions, parameters, i);
    if previous == PlainValue then Some(ThenNotFunction)
    else if previous == FalsyValue && Dispatch(config, instructions[i], parameters).Err? then
      Some(Dispatch(config, instructions[i], parameters).error)
    else None
  }

  /**
   * `run`: resolves the reference, then starts the instructions with
   * `StartAll`.
   */
  method Run(config: Config, task: TaskRef, parameters: Parameters) returns (r: Result<seq<Launch>, Error>)
    ensures Resolve(config, task).Err? ==> r == Err(Resolve(config, task).error)
    ensures Resolve(config, task).Ok? ==> Started(config, Resolve(config, task).value, parameters, r)
  {
    var resolved := Resolve(config, task);
    if resolved.Err? {
      return Err(resolved.error);
    }
    r := StartAll(config, resolved.value, parameters);
  }

  /**
   * What starting a resolved list yields. It fails exactly when some
   * instruction throws synchronously, and then with the first such error.
   * Otherwise there is one launch per instruction, in order: launch `i`
   * waits as `WaitsOn` says and holds the dispatch of instruction `i` with
   * the caller's parameters.
   */
  ghost predicate Started(config: Config, instructions: seq<Instruction>, parameters: Parameters,
                          r: Result<seq<Launch>, Error>)
  {
    (r.Ok? <==> forall i :: 0 <= i < |instructions| ==> ThrowsAt(config, instructions, parameters, i).None?) &&
    (r.Ok? ==>
       |r.value| == |instructions| &&
       forall i :: 0 <= i < |instructions| ==>
         r.value[i].waitsOn == WaitsOn(config, instructions, parameters, i) &&
         r.value[i].outcome == Dispatch(config, instructions[i], parameters)) &&
    (r.Err? ==>
       exists i :: 0 <= i < |instructions| && ThrowsAt(config, instructions, parameters, i).Some? &&
         (forall j :: 0 <= j < i ==> ThrowsAt(config, instructions, parameters, j).None?) &&
         r.error == ThrowsAt(config, instructions, parameters, i).value)
  }

  /** The first `n` instructions start without throwing. */
  ghost predicate NoThrowBefore(config: Config, instructions: seq<Instruction>, parameters: Parameters, n: nat)
    requires n <= |instructions|
  {
    forall k :: 0 <= k < n ==> ThrowsAt(config, instructions, parameters, k).None?
  }

  /** `launch` is what starting instruction `k` records. */
  ghost predicate Agrees(config: Config, instructions: seq<Instruction>, parameters: Parameters, k: nat, launch: Launch)
    requires k < |instructions|
  {
    launch.waitsOn == WaitsOn(config, instructions, parameters, k) &&
    launch.outcome == Dispatch(config, instructions[k], parameters)
  }

  /** The launches recorded so far are those of the first instructions of the list. */
  ghost predicate LaunchesAgree(config: Config, instructions: seq<Instruction>, parameters: Parameters, launches: seq<Launch>)
    requires |launches| <= |instructions|
  {
    forall k :: 0 <= k < |launches| ==> Agrees(config, instructions, parameters, k, launches[k])
  }

  /** A launch that agrees with the next instruction extends an agreeing prefix. */
  lemma LaunchesAgreeExtend(config: Config, instructions: seq<Instruction>, parameters: Parameters,
                            launches: seq<Launch>, launch: Launch)
    requires |launches| < |instructions| && LaunchesAgree(config, instructions, parameters, launches)
    requires Agrees(config, instructions, parameters, |launches|, launch)
    ensures LaunchesAgree(config, instructions, parameters, launches + [launch])
  {
    var extended := launches + [launch];
    forall k | 0 <= k < |extended|
      ensures Agrees(config, instructions, parameters, k, extended[k])
    {
      if k < |launches| {
        assert extended[k] == launches[k];
      }
    }
  }

  /** An instruction that does not throw extends a prefix that does not throw. */
  lemma NoThrowExtend(config: Config, instructions: seq<Instruction>, parameters: Parameters, n: nat)
    requires n < |instructions| && NoThrowBefore(config, instructions, parameters, n)
    requires ThrowsAt(config, instructions, parameters, n).None?
    ensures NoThrowBefore(config, instructions, parameters, n + 1)
  {
  }

  /** Aborting at the first instruction that throws is a correct start. */
  lemma AbortIsStarted(config: Config, instructions: seq<Instruction>, parameters: Parameters, i: nat)
    requires i < |instructions| && NoThrowBefore(config, instructions, parameters, i)
    requires ThrowsAt(config, instructions, parameters, i).Some?
    ensures Started(config, instructions, parameters, Err(ThrowsAt(config, instructions, parameters, i).value))
  {
  }

  /** Finishing the pass without a throw is a correct start. */
  lemma FinishIsStarted(config: Config, instructions: seq<Instruction>, parameters: Parameters, launches: seq<Launch>)
    requires |launches| == |instructions|
    requires NoThrowBefore(config, instructions, parameters, |instructions|)
    requires LaunchesAgree(config, instructions, parameters, launches)
    ensures Started(config, instructions, parameters, Ok(launches))
  {
  }

  /**
   * The `map` callback of `run` for instruction `i`, given `previousTask`.
   * A truthy barrier is chained onto with `.then` and cleared, and the
   * runner is that promise; otherwise the instruction is dispatched at once
   * and its runner is what `runTask` returned. An instruction with `sync`
   * leaves its runner as the barrier for the next one. An error thrown here
   * escapes `run`.
   */
  method StartOne(config: Config, instructions: seq<Instruction>, parameters: Parameters, i: nat,
                  previousTask: RunnerValue)
    returns (thrown: Option<Error>, launch: Launch, next: RunnerValue)
    requires i < |instructions| && previousTask == PreviousTask(config, instructions, parameters, i)
    ensures thrown == ThrowsAt(config, instructions, parameters, i)
    ensures thrown.None? ==> launch.waitsOn == WaitsOn(config, instructions, parameters, i)
    ensures thrown.None? ==> launch.outcome == Dispatch(config, instructions[i], parameters)
    ensures thrown.None? ==> next == PreviousTask(config, instructions, parameters, i + 1)
  {
    var instruction := instructions[i];
    var barrier := previousTask;
    var waitsOn: Option<nat> := None;
    var runner: RunnerValue;
    var outcome: Result<Dispatched, Error>;
    if barrier != FalsyValue {
      if barrier == PlainValue {
        // `previousTask.then` is not a function
        return Some(ThenNotFunction), Launch(None, Err(ThenNotFunction)), FalsyValue;
      }
      waitsOn := Some(i - 1);
      barrier := FalsyValue;
      outcome := RunTask(config, instruction, parameters);
      runner := PromiseValue;
    } else {
      outcome := RunTask(config, instruction, parameters);
      if outcome.Err? {
        return Some(outcome.error), Launch(None, outcome), FalsyValue;
      }
      runner := RunnerOf(outcome.value.action);
    }
    if instruction.sync {
      barrier := runner;
    }
    return None, Launch(waitsOn, outcome), barrier;
  }

  /**
   * The loop of `run`: one pass over the list that carries `previousTask`
   * from each instruction to the next. All instructions share the caller's
   * parameters.
   */
  method StartAll(config: Config, instructions: seq<Instruction>, parameters: Parameters)
    returns (r: Result<seq<Launch>, Error>)
    ensures Started(config, instructions, parameters, r)
  {
    var previousTask := FalsyValue;
    var launches: seq<Launch> := [];
    var i := 0;
    while i < |instructions|
      invariant 0 <= i <= |instructions|
      invariant |launches| == i
      invariant previousTask == PreviousTask(config, instructions, parameters, i)
      invariant LaunchesAgree(config, instructions, parameters, launches)
      invariant NoThrowBefore(config, instructions, parameters, i)
    {
      var thrown, launch;
      thrown, launch, previousTask := StartOne(config, instructions, parameters, i, previousTask);
      if thrown.Some? {
        AbortIsStarted(config, instructions, parameters, i);
        return Err(thrown.value);
      }
      NoThrowExtend(config, instructions, parameters, i);
      LaunchesAgreeExtend(config, instructions, parameters, launches, launch);
      launches := launches + [launch];
      i := i + 1;
    }
    FinishIsStarted(config, instructions, parameters, launches);
    return Ok(launches);
  }

  // ---------------------------------------------------------------------------
  // Properties of the sync gate

  /** The waits of a run over `instructions`, as `Run` produces them. */
  ghost predicate GatedBy(launches: seq<Launch>, config: Config, instructions: seq<Instruction>, parameters: Parameters) {
    |launches| == |instructions| &&
    forall i :: 0 <= i < |launches| ==> launches[i].waitsOn == WaitsOn(config, instructions, parameters, i)
  }

  /** Instruction `i` cannot start before instruction `j` has settled: a chain of gates leads from `i` back to `j`. */
  ghost predicate StartsAfter(launches: seq<Launch>, i: nat, j: nat)
    decreases i
  {
    j < i < |launches| && launches[i].waitsOn == Some(i - 1) && (j == i - 1 || StartsAfter(launches, i - 1, j))
  }

  /**
   * An instruction is ordered after an earlier one exactly when every
   * instruction from the earlier one up to its predecessor has `sync` and
   * the earlier one's runner is truthy: without `sync` on all of them, or
   * when a `task` callable at the head of the chain returns a falsy value,
   * the two may run concurrently. The runners further down the chain are
   * promises made by `.then`, so only the head's runner matters.
   */
  lemma {:induction false} StartsAfterIffSyncRun(launches: seq<Launch>, config: Config, instructions: seq<Instruction>,
                                                 parameters: Parameters, i: nat, j: nat)
    requires GatedBy(launches, config, instructions, parameters)
    ensures StartsAfter(launches, i, j) <==>
              j < i < |launches| && (forall k :: j <= k < i ==> instructions[k].sync) &&
              PreviousTask(config, instructions, parameters, j + 1) != FalsyValue
    decreases i
  {
    if j < i < |launches| && j < i - 1 {
      StartsAfterIffSyncRun(launches, config, instructions, parameters, i - 1, j);
      if StartsAfter(launches, i - 1, j) {
        assert PreviousTask(config, instructions, parameters, i - 1) != FalsyValue;
      }
    }
  }

  /**
   * For an instruction that is not a `task` callable, `sync` alone decides the
   * gate: its runner is always a promise, so the next instruction waits for
   * it exactly when it has `sync`.
   */
  lemma SyncAloneGatesPromises(config: Config, instructions: seq<Instruction>, parameters: Parameters, i: nat)
    requires 0 < i < |instructions|
    requires KindOf(instructions[i - 1]) != CallableKind
    requires ThrowsAt(config, instructions, parameters, i - 1).None?
    ensures WaitsOn(config, instructions, parameters, i) == (if instructions[i - 1].sync then Some(i - 1) else None)
  {
  }

  /** A sync callable that returns a falsy value holds nothing back: a failing successor throws out of `run`. */
  lemma FalsyRunnerOpensGate(config: Config, parameters: Parameters, r: Result<seq<Launch>, Error>)
    requires Started(config, [Blank.(sync := true, task := TaskFunction(p => FalsyValue)),
                              Blank.(task := TaskName("nope"))], parameters, r)
    ensures r == Err(InvalidTask("nope"))
  {
    var instructions := [Blank.(sync := true, task := TaskFunction(p => FalsyValue)), Blank.(task := TaskName("nope"))];
    assert PreviousTask(config, instructions, parameters, 1) == FalsyValue;
    assert ThrowsAt(config, instructions, parameters, 0).None?;
    assert ThrowsAt(config, instructions, parameters, 1) == Some(InvalidTask("nope"));
  }

  /** A sync callable that returns a truthy non-promise makes the next instruction throw at `.then`. */
  lemma PlainRunnerBreaksThen(config: Config, parameters: Parameters, r: Result<seq<Launch>, Error>)
    requires Started(config, [Blank.(sync := true, task := TaskFunction(p => PlainValue)),
                              Blank.(task := TaskName("generate"))], parameters, r)
    ensures r == Err(ThenNotFunction)
  {
    var instructions := [Blank.(sync := true, task := TaskFunction(p => PlainValue)), Blank.(task := TaskName("generate"))];
    assert PreviousTask(config, instructions, parameters, 1) == PlainValue;
    assert ThrowsAt(config, instructions, parameters, 0).None?;
    assert ThrowsAt(config, instructions, parameters, 1) == Some(ThenNotFunction);
  }

  /** The runner of instruction `j` rejects for an error known at dispatch: its own, or its barrier's. */
  ghost predicate RejectsAtDispatch(launches: seq<Launch>, j: nat)
    decreases j
  {
    j < |launches| &&
    (launches[j].outcome.Err? ||
     (j > 0 && launches[j].waitsOn == Some(j - 1) && RejectsAtDispatch(launches, j - 1)))
  }

  /** Instruction `i` is never dispatched: its barrier rejects, so the continuation that would dispatch it never runs. */
  ghost predicate Skipped(launches: seq<Launch>, i: nat) {
    0 < i < |launches| && launches[i].waitsOn == Some(i - 1) && RejectsAtDispatch(launches, i - 1)
  }

  /** An instruction is skipped exactly when an instruction it is ordered after fails to dispatch. */
  lemma {:induction false} SkippedIffEarlierFailure(launches: seq<Launch>, i: nat)
    ensures Skipped(launches, i) <==> exists j: nat :: StartsAfter(launches, i, j) && launches[j].outcome.Err?
    decreases i
  {
    if Skipped(launches, i) {
      if launches[i - 1].outcome.Err? {
        assert StartsAfter(launches, i, i - 1);
      } else {
        assert Skipped(launches, i - 1);
        SkippedIffEarlierFailure(launches, i - 1);
        var j: nat :| StartsAfter(launches, i - 1, j) && launches[j].outcome.Err?;
        assert StartsAfter(launches, i, j);
      }
    }
    if exists j: nat :: StartsAfter(launches, i, j) && launches[j].outcome.Err? {
      var j: nat :| StartsAfter(launches, i, j) && launches[j].outcome.Err?;
      if j < i - 1 {
        assert StartsAfter(launches, i - 1, j);
        SkippedIffEarlierFailure(launches, i - 1);
        assert RejectsAtDispatch(launches, i - 1);
      }
    }
  }

  // ---------------------------------------------------------------------------
  // Properties of dispatch

  /** The branch that fires is the first of dynamic, defined, callable and builtin whose field is present. */
  lemma DispatchFollowsPriority(config: Config, instruction: Instruction, parameters: Parameters)
    ensures var r := Dispatch(config, instruction, parameters);
            r.Ok? ==> KindOfAction(r.value.action) == KindOf(instruction)
    ensures KindOf(instruction) == DynamicKind <==> instruction.dynamicTask.Some?
    ensures KindOf(instruction) == DefinedKind <==>
              instruction.dynamicTask.None? && !instruction.definedTask.NoDefinedTask?
    ensures KindOf(instruction) == CallableKind <==>
              instruction.dynamicTask.None? && instruction.definedTask.NoDefinedTask? && instruction.task.TaskFunction?
  {
  }

  /** A field of lower priority has no effect once a field of higher priority is present. */
  lemma HigherPriorityHidesLower(config: Config, instruction: Instruction, parameters: Parameters,
                                 definedTask: DefinedTask, task: TaskField, isolated: bool, target: Target)
    ensures instruction.dynamicTask.Some? ==>
              Dispatch(config, instruction.(definedTask := definedTask, task := task, isolated := isolated, target := target), parameters)
              == Dispatch(config, instruction, parameters)
    ensures instruction.dynamicTask.None? && !instruction.definedTask.NoDefinedTask? ==>
              Dispatch(config, instruction.(task := task, target := target), parameters)
              == Dispatch(config, instruction, parameters)
    ensures KindOf(instruction) == CallableKind ==>
              Dispatch(config, instruction.(isolated := isolated, target := target), parameters)
              == Dispatch(config, instruction, parameters)
  {
  }

  /** The error exits of dispatch, and the branches that cannot fail. */
  lemma DispatchErrors(config: Config, instruction: Instruction, parameters: Parameters)
    ensures var r := Dispatch(config, instruction, parameters);
            KindOf(instruction) == DynamicKind || KindOf(instruction) == CallableKind ==> r.Ok?
    ensures var r := Dispatch(config, instruction, parameters);
            KindOf(instruction) == DefinedKind ==>
              (r.Err? <==> instruction.definedTask.DefinedOther?) &&
              (r.Err? ==> r.error == DefinedTaskNotString(instruction.definedTask.kind))
    ensures var r := Dispatch(config, instruction, parameters);
            KindOf(instruction) == BuiltinKind && instruction.task.name !in BuiltinNames ==>
              r == Err(InvalidTask(instruction.task.name))
    ensures var r := Dispatch(config, instruction, parameters);
            KindOf(instruction) == BuiltinKind && instruction.task.name == "modify" ==>
              (r.Err? <==> GetTarget(instruction.target, WorkingParams(instruction, parameters)).Err?)
  {
  }

  /** The work receives the working parameters; they are a copy exactly when `prepare` ran or an isolated defined task asked for one. */
  lemma DispatchIsolation(config: Config, instruction: Instruction, parameters: Parameters)
    ensures var r := Dispatch(config, instruction, parameters);
            r.Ok? ==> r.value.params == WorkingParams(instruction, parameters)
    ensures var r := Dispatch(config, instruction, parameters);
            r.Ok? ==> (r.value.copied <==>
                       instruction.prepare.Some? || (KindOf(instruction) == DefinedKind && instruction.isolated))
    ensures instruction.prepare.None? ==> WorkingParams(instruction, parameters) == parameters
    ensures var r := Dispatch(config, instruction, parameters);
            instruction.dynamicTask.Some? ==>
              r == Ok(Dispatched(WorkingParams(instruction, parameters), instruction.prepare.Some?,
                                 RunDynamic(instruction.dynamicTask.value(WorkingParams(instruction, parameters)))))
  {
  }

  /** `prepare` is a step before dispatch: dispatching with it is dispatching without it on the prepared parameters. */
  lemma PrepareIsPreStep(config: Config, instruction: Instruction, parameters: Parameters)
    requires instruction.prepare.Some?
    ensures var prepared := PrepareParams(instruction.prepare.value, parameters);
            var with := Dispatch(config, instruction, parameters);
            var without := Dispatch(config, instruction.(prepare := None), prepared);
            (with.Err? <==> without.Err?) &&
            (with.Err? ==> with.error == without.error) &&
            (with.Ok? ==> with.value == without.value.(copied := true))
  {
  }

  /** An element of a list that is not an instruction object (a task name, say) is not looked up: it fails as an unknown task. */
  lemma BlankIsInvalidTask(config: Config, parameters: Parameters)
    ensures Dispatch(config, Blank, parameters) == Err(InvalidTask("undefined"))
    ensures Message(Dispatch(config, Blank, parameters).error) == "Invalid task \"undefined\" supplied"
    ensures Resolve(config, TaskList([])) == Ok([])
  {
  }

  // ---------------------------------------------------------------------------
  // Properties of target substitution

  /** A string target without any of the three placeholders is returned as it is. */
  lemma {:induction false} TargetWithoutPlaceholders(template: string, parameters: Parameters)
    requires !Occurs(template, PascalToken) && !Occurs(template, UpperToken) && !Occurs(template, NameToken)
    ensures GetTarget(TargetString(template), parameters) == Ok(Str(template))
  {
    ReplaceAllAbsent(template, PascalToken, Param(parameters, "pascalCased"));
    ReplaceAllAbsent(template, UpperToken, Param(parameters, "upperCased"));
    ReplaceAllAbsent(template, NameToken, Param(parameters, "name"));
  }

  /**
   * A string target is cut at every `{{pascalCased}}` and rejoined with that
   * parameter, then the same for `{{upperCased}}` and for `{{name}}`; the
   * text between placeholders is kept (see `SplitJoinRoundTrip` and
   * `SplitPiecesAreFree`).
   */
  lemma {:induction false} TargetReplacesInOrder(template: string, parameters: Parameters)
    ensures var pascal := Join(Split(template, PascalToken), Param(parameters, "pascalCased"));
            var upper := Join(Split(pascal, UpperToken), Param(parameters, "upperCased"));
            GetTarget(TargetString(template), parameters)
              == Ok(Str(Join(Split(upper, NameToken), Param(parameters, "name"))))
  {
    var pascal := ReplaceAll(template, PascalToken, Param(parameters, "pascalCased"));
    var upper := ReplaceAll(pascal, UpperToken, Param(parameters, "upperCased"));
    ReplaceAllIsJoin(template, PascalToken, Param(parameters, "pascalCased"));
    ReplaceAllIsJoin(pascal, UpperToken, Param(parameters, "upperCased"));
    ReplaceAllIsJoin(upper, NameToken, Param(parameters, "name"));
  }

  /** `{{name}}.ts` with name Foo gives Foo.ts. */
  lemma TargetNameExample()
    ensures GetTarget(TargetString("{{name}}.ts"),
                      map["name" := Str("Foo"), "pascalCased" := Str("Foo"), "upperCased" := Str("FOO")])
            == Ok(Str("Foo.ts"))
  {
    var p := map["name" := Str("Foo"), "pascalCased" := Str("Foo"), "upperCased" := Str("FOO")];
    var s := "{{name}}.ts";
    assert Param(p, "pascalCased") == "Foo" && Param(p, "upperCased") == "FOO" && Param(p, "name") == "Foo";
    assert ReplaceAll(s, PascalToken, "Foo") == s;
    assert ReplaceAll(s, UpperToken, "FOO") == s;
    assert s[..|NameToken|] == NameToken;
    assert s[|NameToken|..] == ".ts";
    assert ReplaceAll(".ts", NameToken, "Foo") == ".ts";
    assert ReplaceAll(s, NameToken, "Foo") == "Foo" + ".ts";
    assert Substitute(s, p) == "Foo" + ".ts";
    assert "Foo" + ".ts" == "Foo.ts";
  }

  /** The replacements run one after another: a parameter that itself holds a placeholder is filled in by a later step. */
  lemma TargetOrderExample()
    ensures GetTarget(TargetString("{{pascalCased}}"), map["pascalCased" := Str("{{name}}"), "name" := Str("x")])
            == Ok(Str("x"))
  {
    var p := map["pascalCased" := Str("{{name}}"), "name" := Str("x")];
    var s := "{{pascalCased}}";
    assert Param(p, "pascalCased") == "{{name}}" && Param(p, "name") == "x";
    assert s[..|PascalToken|] == PascalToken && s[|PascalToken|..] == [];
    assert ReplaceAll(s, PascalToken, "{{name}}") == "{{name}}" + [];
    assert ReplaceAll("{{name}}", UpperToken, Param(p, "upperCased")) == "{{name}}";
    assert "{{name}}"[..|NameToken|] == NameToken && "{{name}}"[|NameToken|..] == [];
    assert ReplaceAll("{{name}}", NameToken, "x") == "x" + [];
    assert Substitute(s, p) == "x";
  }
}
