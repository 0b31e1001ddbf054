/**
 * The interpreter of src/KyotamdInterpreter.ts: the built-in command actions,
 * the resolution of nested commands and the evaluation loop with its jumps.
 *
 * The functions below are the specification; class `Interpreter` holds the
 * variables, labels and printed lines that the source keeps in its private
 * fields, and its methods are proved to follow the specification.
 */
module Interpreter {
  import opened Wrappers
  import Parser

  /** A value of the language: a string, or JavaScript's `undefined`. */
  datatype Value = Defined(text: string) | Undefined

  /**
   * Where an action runs: as a line of the program (`indexed`, which may
   * move the program counter) or as the argument of another command.
   */
  datatype Context = Indexed(index: nat) | InArgument(parent: Context)

  /** What `eval` can throw. */
  datatype Error =
    | KyotamdSyntax(cause: Parser.SyntaxError)  // a line does not parse
    | Syntax                                    // control flow used inside an argument
    | Type                                      // a missing or ill-typed argument
    | Reference                                 // an unknown command or label
    | Host(message: string)                     // thrown by a supplied command action

  /** The state a `KyotamdInterpreter` keeps between calls. */
  datatype Store = Store(variables: map<string, string>, labels: map<string, nat>, printed: seq<seq<Value>>)

  /** What one action does: the new state, its value or error, and where the program counter goes. */
  datatype Step = Step(store: Store, result: Result<Value, Error>, jump: Option<nat>)

  /** A command action supplied to the constructor. */
  type HostAction = seq<Value> -> Result<Value, Error>

  /**
   * JavaScript's `Number` arithmetic, which `Calc` and the numeric comparisons
   * of `Cond` delegate to: `calculate(a, op, b)` is `String(Number(a) op Number(b))`
   * and `compare(a, op, b)` is `Number(a) op Number(b)`.
   */
  datatype Arithmetic = Arithmetic(calculate: (Value, string, Value) -> string, compare: (Value, string, Value) -> bool)

  /** Everything an evaluation depends on besides the state. */
  datatype Env = Env(host: map<string, HostAction>, arithmetic: Arithmetic)

  const BuiltinNames: set<string> := {"Label", "Goto", "Var", "Calc", "Cond", "Print", "If"}
  const CalcOperators: set<string> := {"+", "-", "*", "/", "**"}
  const CompareOperators: set<string> := {">", "<", ">=", "<="}

  /** The `k`-th argument, `undefined` when it was not passed. */
  function Arg(args: seq<Value>, k: nat): Value
  {
    if k < |args| then args[k] else Undefined
  }

  /** JavaScript's `Boolean` on a value. */
  predicate Truthy(v: Value)
  {
    v.Defined? && v.text != ""
  }

  /** JavaScript's `String` on a boolean. */
  function BoolText(b: bool): Value
  {
    Defined(if b then "true" else "false")
  }

  // ---------------------------------------------------------------------------
  // Built-in command actions

  ghost function LabelStep(st: Store, ctx: Context, args: seq<Value>): Step
  {
    if ctx.InArgument? then Step(st, Err(Syntax), None)
    else if Arg(args, 0).Undefined? then Step(st, Err(Type), None)
    else Step(st.(labels := st.labels[Arg(args, 0).text := ctx.index]), Ok(Undefined), None)
  }

  ghost function GotoStep(st: Store, ctx: Context, args: seq<Value>): Step
  {
    if ctx.InArgument? then Step(st, Err(Syntax), None)
    else if Arg(args, 0).Undefined? then Step(st, Err(Type), None)
    else if Arg(args, 0).text !in st.labels then Step(st, Err(Reference), None)
    else Step(st, Ok(Undefined), Some(st.labels[Arg(args, 0).text]))
  }

  ghost function VarStep(st: Store, args: seq<Value>): Step
  {
    var identifier := Arg(args, 0);
    var value := Arg(args, 1);
    if identifier.Undefined? then Step(st, Err(Type), None)
    else
      var variables := if value.Defined? then st.variables[identifier.text := value.text] else st.variables;
      var read := if identifier.text in variables then Defined(variables[identifier.text]) else Undefined;
      Step(st.(variables := variables), Ok(read), None)
  }

  /** `Calc`: always a string, and "NaN" for an operator it does not know or a missing one. */
  function CalcValue(arithmetic: Arithmetic, args: seq<Value>): (v: Value)
    ensures v.Defined?
    ensures Arg(args, 1).Undefined? || Arg(args, 1).text !in {"+", "-", "*", "/", "**"} ==> v == Defined("NaN")
  {
    var operator := Arg(args, 1);
    if operator.Defined? && operator.text in CalcOperators then
      Defined(arithmetic.calculate(Arg(args, 0), operator.text, Arg(args, 2)))
    else Defined("NaN")
  }

  /** `Cond`: always "true" or "false", and "false" for an operator it does not know or a missing one. */
  function CondValue(arithmetic: Arithmetic, args: seq<Value>): (v: Value)
    ensures v == Defined("true") || v == Defined("false")
    ensures Arg(args, 1).Undefined? || Arg(args, 1).text !in {"=", "&", "|", ">", "<", ">=", "<="} ==> v == Defined("false")
  {
    var a := Arg(args, 0);
    var operator := Arg(args, 1);
    var b := Arg(args, 2);
    if operator == Defined("=") then BoolText(a == b)
    else if operator == Defined("&") then BoolText(Truthy(a) && Truthy(b))
    else if operator == Defined("|") then BoolText(Truthy(a) || Truthy(b))
    else if operator.Defined? && operator.text in CompareOperators then BoolText(arithmetic.compare(a, operator.text, b))
    else Defined("false")
  }

  ghost function PrintStep(st: Store, args: seq<Value>): Step
  {
    Step(st.(printed := st.printed + [args]), Ok(Undefined), None)
  }

  ghost function IfStep(st: Store, ctx: Context, args: seq<Value>): Step
  {
    var condition := Arg(args, 0);
    var labelIdentifier := Arg(args, 1);
    if ctx.InArgument? then Step(st, Err(Syntax), None)
    else if condition != Defined("true") && condition != Defined("false") then Step(st, Err(Type), None)
    else if labelIdentifier.Undefined? then Step(st, Err(Type), None)
    else if condition == Defined("false") then Step(st, Ok(Undefined), None)
    else if labelIdentifier.text !in st.labels then Step(st, Err(Reference), None)
    else Step(st, Ok(Undefined), Some(st.labels[labelIdentifier.text]))
  }

  /** The action a command name resolves to; built-ins come before supplied actions. */
  ghost function ActionStep(env: Env, st: Store, ctx: Context, name: string, args: seq<Value>): Step
    requires name in BuiltinNames || name in env.host
  {
    if name == "Label" then LabelStep(st, ctx, args)
    else if name == "Goto" then GotoStep(st, ctx, args)
    else if name == "Var" then VarStep(st, args)
    else if name == "Calc" then Step(st, Ok(CalcValue(env.arithmetic, args)), None)
    else if name == "Cond" then Step(st, Ok(CondValue(env.arithmetic, args)), None)
    else if name == "Print" then PrintStep(st, args)
    else if name == "If" then IfStep(st, ctx, args)
    else Step(st, env.host[name](args), None)
  }

  // ---------------------------------------------------------------------------
  // processCommand and eval

  /** The arguments of `cmd` resolved so far, after its first `k` arguments. */
  datatype Resolution = Resolution(store: Store, values: Result<seq<Value>, Error>)

  /**
   * `#processCommand`: an unknown name is a reference error before any
   * argument is looked at; otherwise the arguments are resolved left to right
   * (nested commands in an argument context) and the action is called.
   */
  ghost function Process(env: Env, st: Store, cmd: Parser.Command, ctx: Context): Step
    decreases cmd, 1
  {
    if cmd.name !in BuiltinNames && cmd.name !in env.host then Step(st, Err(Reference), None)
    else
      var resolved := Resolve(env, st, cmd, |cmd.arguments|, ctx);
      match resolved.values
      case Err(e) => Step(resolved.store, Err(e), None)
      case Ok(values) => ActionStep(env, resolved.store, ctx, cmd.name, values)
  }

  /** Resolving the first `k` arguments of `cmd`; the first error stops the resolution. */
  ghost function Resolve(env: Env, st: Store, cmd: Parser.Command, k: nat, ctx: Context): Resolution
    requires k <= |cmd.arguments|
    decreases cmd, 0, k
  {
    if k == 0 then Resolution(st, Ok([]))
    else
      var before := Resolve(env, st, cmd, k - 1, ctx);
      match before.values
      case Err(_) => before
      case Ok(values) =>
        match cmd.arguments[k - 1]
        case StringArgument(text) => Resolution(before.store, Ok(values + [Defined(text)]))
        case CommandArgument(nested) =>
          var step := Process(env, before.store, nested, InArgument(ctx));
          match step.result
          case Err(e) => Resolution(step.store, Err(e))
          case Ok(v) => Resolution(step.store, Ok(values + [v]))
  }

  /** How an evaluation ends: with the value of the last command or an error, or out of fuel. */
  datatype Outcome = Finished(result: Result<Value, Error>) | OutOfFuel

  datatype Evaluation = Evaluation(store: Store, outcome: Outcome)

  /**
   * The loop of `eval` from command `i`, with `last` the value of the command
   * run before it. A jump to `j` resumes at `j + 1`. Each command run costs
   * one unit of `fuel`, since a program may loop forever.
   */
  ghost function Run(env: Env, st: Store, cmds: seq<Parser.Command>, i: nat, fuel: nat, last: Value): Evaluation
    decreases fuel
  {
    if i >= |cmds| then Evaluation(st, Finished(Ok(last)))
    else if fuel == 0 then Evaluation(st, OutOfFuel)
    else
      var step := Process(env, st, cmds[i], Indexed(i));
      match step.result
      case Err(e) => Evaluation(step.store, Finished(Err(e)))
      case Ok(v) => Run(env, step.store, cmds, (if step.jump.Some? then step.jump.value else i) + 1, fuel - 1, v)
  }

  /** `eval`: parse the whole text, then run it from the first command. */
  ghost function Evaluate(env: Env, st: Store, code: string, fuel: nat): Evaluation
  {
    match Parser.ProgramOf(code)
    case Err(e) => Evaluation(st, Finished(Err(KyotamdSyntax(e))))
    case Ok(cmds) => Run(env, st, cmds, 0, fuel, Undefined)
  }

  /** Once an argument fails, resolving further arguments changes nothing. */
  lemma {:induction false} ResolveErrorSticks(env: Env, st: Store, cmd: Parser.Command, k: nat, j: nat, ctx: Context)
    requires k <= j <= |cmd.arguments|
    requires Resolve(env, st, cmd, k, ctx).values.Err?
    ensures Resolve(env, st, cmd, j, ctx) == Resolve(env, st, cmd, k, ctx)
    decreases j
  {
    if j > k {
      ResolveErrorSticks(env, st, cmd, k, j - 1, ctx);
    }
  }

  /** A command that fails ends the run with its error. */
  lemma RunStops(env: Env, st: Store, cmds: seq<Parser.Command>, i: nat, fuel: nat, last: Value,
                 after: Store, e: Error, jump: Option<nat>)
    requires i < |cmds| && fuel > 0
    requires Process(env, st, cmds[i], Indexed(i)) == Step(after, Err(e), jump)
    ensures Run(env, st, cmds, i, fuel, last) == Evaluation(after, Finished(Err(e)))
  {
  }

  /** A command that succeeds hands its value and its jump on to the rest of the run. */
  lemma RunContinues(env: Env, st: Store, cmds: seq<Parser.Command>, i: nat, fuel: nat, last: Value,
                     after: Store, v: Value, jump: Option<nat>)
    requires i < |cmds| && fuel > 0
    requires Process(env, st, cmds[i], Indexed(i)) == Step(after, Ok(v), jump)
    ensures Run(env, st, cmds, i, fuel, last)
         == Run(env, after, cmds, (if jump.Some? then jump.value else i) + 1, fuel - 1, v)
  {
  }

  class Interpreter {
    var variables: map<string, string>
    var labels: map<string, nat>
    var printed: seq<seq<Value>>
    const commandActions: map<string, HostAction>
    const arithmetic: Arithmetic

    function State(): Store
      reads this
    {
      Store(variables, labels, printed)
    }

    function Environment(): Env
    {
      Env(commandActions, arithmetic)
    }

    /** A fresh interpreter: no variables, no labels, nothing printed; no actions when none are given. */
    constructor(actions: Option<map<string, HostAction>>, arithmetic: Arithmetic)
      ensures State() == Store(map[], map[], [])
      ensures Environment() == Env(if actions.Some? then actions.value else map[], arithmetic)
    {
      variables := map[];
      labels := map[];
      printed := [];
      commandActions := if actions.Some? then actions.value else map[];
      this.arithmetic := arithmetic;
    }

    method Label(context: Context, args: seq<Value>) returns (result: Result<Value, Error>)
      modifies this`labels
      ensures Step(State(), result, None) == LabelStep(old(State()), context, args)
    {
      if context.InArgument? {
        return Err(Syntax);
      }
      var identifier := Arg(args, 0);
      if identifier.Undefined? {
        return Err(Type);
      }
      labels := labels[identifier.text := context.index];
      return Ok(Undefined);
    }

    method Goto(context: Context, args: seq<Value>) returns (result: Result<Value, Error>, jump: Option<nat>)
      ensures Step(State(), result, jump) == GotoStep(State(), context, args)
    {
      if context.InArgument? {
        return Err(Syntax), None;
      }
      var identifier := Arg(args, 0);
      if identifier.Undefined? {
        return Err(Type), None;
      }
      if identifier.text !in labels {
        return Err(Reference), None;
      }
      return Ok(Undefined), Some(labels[identifier.text]);
    }

    method Var(args: seq<Value>) returns (result: Result<Value, Error>)
      modifies this`variables
      ensures Step(State(), result, None) == VarStep(old(State()), args)
    {
      var identifier := Arg(args, 0);
      if identifier.Undefined? {
        return Err(Type);
      }
      var value := Arg(args, 1);
      if value.Defined? {
        variables := variables[identifier.text := value.text];
      }
      if identifier.text in variables {
        return Ok(Defined(variables[identifier.text]));
      }
      return Ok(Undefined);
    }

    method Print(args: seq<Value>) returns (result: Result<Value, Error>)
      modifies this`printed
      ensures Step(State(), result, None) == PrintStep(old(State()), args)
    {
      printed := printed + [args];
      return Ok(Undefined);
    }

    method If(context: Context, args: seq<Value>) returns (result: Result<Value, Error>, jump: Option<nat>)
      ensures Step(State(), result, jump) == IfStep(State(), context, args)
    {
      if context.InArgument? {
        return Err(Syntax), None;
      }
      var condition := Arg(args, 0);
      if condition != Defined("true") && condition != Defined("false") {
        return Err(Type), None;
      }
      var labelIdentifier := Arg(args, 1);
      if labelIdentifier.Undefined? {
        return Err(Type), None;
      }
      if condition == Defined("false") {
        return Ok(Undefined), None;
      }
      if labelIdentifier.text !in labels {
        return Err(Reference), None;
      }
      return Ok(Undefined), Some(labels[labelIdentifier.text]);
    }

    /** Calls the action `name` stands for. */
    method CallAction(name: string, context: Context, args: seq<Value>) returns (result: Result<Value, Error>, jump: Option<nat>)
      requires name in BuiltinNames || name in commandActions
      modifies this
      ensures Step(State(), result, jump) == ActionStep(Environment(), old(State()), context, name, args)
    {
      jump := None;
      if name == "Label" {
        result := Label(context, args);
      } else if name == "Goto" {
        result, jump := Goto(context, args);
      } else if name == "Var" {
        result := Var(args);
      } else if name == "Calc" {
        result := Ok(CalcValue(arithmetic, args));
      } else if name == "Cond" {
        result := Ok(CondValue(arithmetic, args));
      } else if name == "Print" {
        result := Print(args);
      } else if name == "If" {
        result, jump := If(context, args);
      } else {
        result := commandActions[name](args);
      }
    }

    method ProcessCommand(command: Parser.Command, context: Context) returns (result: Result<Value, Error>, jump: Option<nat>)
      modifies this
      ensures Step(State(), result, jump) == Process(Environment(), old(State()), command, context)
      decreases command
    {
      if command.name !in BuiltinNames && command.name !in commandActions {
        return Err(Reference), None;
      }
      var resolvedArguments: seq<Value> := [];
      var k := 0;
      while k < |command.arguments|
        invariant k <= |command.arguments|
        invariant Resolve(Environment(), old(State()), command, k, context) == Resolution(State(), Ok(resolvedArguments))
        decreases |command.arguments| - k
      {
        match command.arguments[k] {
          case StringArgument(text) =>
            resolvedArguments := resolvedArguments + [Defined(text)];
          case CommandArgument(nested) =>
            var value, _ := ProcessCommand(nested, InArgument(context));
            match value {
              case Err(e) =>
                ResolveErrorSticks(Environment(), old(State()), command, k + 1, |command.arguments|, context);
                return Err(e), None;
              case Ok(v) =>
                resolvedArguments := resolvedArguments + [v];
            }
        }
        k := k + 1;
      }
      result, jump := CallAction(command.name, context, resolvedArguments);
    }

    /** `eval`: parse the whole text, then run its commands. */
    method Eval(code: string, fuel: nat) returns (outcome: Outcome)
      modifies this
      ensures Evaluation(State(), outcome) == Evaluate(Environment(), old(State()), code, fuel)
    {
      var parsed := Parser.Parse(code);
      match parsed {
        case Err(e) =>
          return Finished(Err(KyotamdSyntax(e)));
        case Ok(commands) =>
          outcome := RunProgram(commands, fuel);
      }
    }

    /** The loop of `eval`: a jump to `j` sets the counter to `j`, which the loop then advances. */
    method RunProgram(commands: seq<Parser.Command>, fuel: nat) returns (outcome: Outcome)
      modifies this
      ensures Evaluation(State(), outcome) == Run(Environment(), old(State()), commands, 0, fuel, Undefined)
    {
      var result := Undefined;
      var i: nat := 0;
      var remaining := fuel;
      while i < |commands|
        invariant Run(Environment(), old(State()), commands, 0, fuel, Undefined)
               == Run(Environment(), State(), commands, i, remaining, result)
        decreases remaining
      {
        if remaining == 0 {
          return OutOfFuel;
        }
        ghost var before := State();
        var value, jump := ProcessCommand(commands[i], Indexed(i));
        match value {
          case Err(e) =>
            RunStops(Environment(), before, commands, i, remaining, result, State(), e, jump);
            return Finished(Err(e));
          case Ok(v) =>
            RunContinues(Environment(), before, commands, i, remaining, result, State(), v, jump);
            result := v;
            i := (if jump.Some? then jump.value else i) + 1;
            remaining := remaining - 1;
        }
      }
      return Finished(Ok(result));
    }
  }
}
