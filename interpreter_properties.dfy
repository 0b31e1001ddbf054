/**
 * What the interpreter of src/KyotamdInterpreter.ts promises, proved about
 * the specification functions of module Interpreter (which the methods of
 * class `Interpreter` are proved to follow).
 */
module InterpreterProperties {
  import opened Wrappers
  import opened Interpreter
  import Parser
  import ParserProperties

  // ---------------------------------------------------------------------------
  // Looking up actions

  /**
   * Built-ins are looked up first, so a supplied action that has the name of
   * a built-in is never called: removing every such action changes nothing,
   * at any depth of nesting.
   */
  lemma {:induction false} BuiltinsCannotBeOverridden(host: map<string, HostAction>, arithmetic: Arithmetic,
                                                     st: Store, cmd: Parser.Command, ctx: Context)
    ensures Process(Env(host, arithmetic), st, cmd, ctx)
         == Process(Env(host - BuiltinNames, arithmetic), st, cmd, ctx)
    decreases cmd, 1
  {
    ResolveIgnoresOverriddenBuiltins(host, arithmetic, st, cmd, |cmd.arguments|, ctx);
  }

  lemma {:induction false} ResolveIgnoresOverriddenBuiltins(host: map<string, HostAction>, arithmetic: Arithmetic,
                                                           st: Store, cmd: Parser.Command, k: nat, ctx: Context)
    requires k <= |cmd.arguments|
    ensures Resolve(Env(host, arithmetic), st, cmd, k, ctx)
         == Resolve(Env(host - BuiltinNames, arithmetic), st, cmd, k, ctx)
    decreases cmd, 0, k
  {
    if k > 0 {
      ResolveIgnoresOverriddenBuiltins(host, arithmetic, st, cmd, k - 1, ctx);
      var before := Resolve(Env(host, arithmetic), st, cmd, k - 1, ctx);
      if before.values.Ok? && cmd.arguments[k - 1].CommandArgument? {
        BuiltinsCannotBeOverridden(host, arithmetic, before.store, cmd.arguments[k - 1].command, InArgument(ctx));
      }
    }
  }

  /** An unknown command name is a reference error before any argument is resolved: nothing changes. */
  lemma UnknownNameIsAReferenceError(env: Env, st: Store, cmd: Parser.Command, ctx: Context)
    ensures cmd.name !in BuiltinNames && cmd.name !in env.host ==> Process(env, st, cmd, ctx) == Step(st, Err(Reference), None)
  {
  }

  /** Arguments without nested commands resolve to their own text, in order, and change nothing. */
  lemma {:induction false} PlainArgumentsResolveToThemselves(env: Env, st: Store, cmd: Parser.Command, k: nat, ctx: Context)
    requires k <= |cmd.arguments|
    requires forall j :: 0 <= j < |cmd.arguments| ==> cmd.arguments[j].StringArgument?
    ensures Resolve(env, st, cmd, k, ctx).store == st
    ensures Resolve(env, st, cmd, k, ctx).values.Ok?
    ensures |Resolve(env, st, cmd, k, ctx).values.value| == k
    ensures forall j :: 0 <= j < k ==> Resolve(env, st, cmd, k, ctx).values.value[j] == Defined(cmd.arguments[j].value)
    decreases k
  {
    if k > 0 {
      PlainArgumentsResolveToThemselves(env, st, cmd, k - 1, ctx);
      assert cmd.arguments[k - 1] == Parser.StringArgument(cmd.arguments[k - 1].value);
    }
  }

  /**
   * Whatever the arguments, a successful resolution has one value per
   * argument, in order: a string argument gives its own text, and a nested
   * command gives the value it returns when run, in an argument context, on
   * the state the arguments before it left.
   */
  lemma {:induction false} ArgumentsResolveInPlace(env: Env, st: Store, cmd: Parser.Command, k: nat, ctx: Context)
    requires k <= |cmd.arguments|
    ensures var r := Resolve(env, st, cmd, k, ctx);
      r.values.Ok? ==>
        && |r.values.value| == k
        && (forall j :: 0 <= j < k && cmd.arguments[j].StringArgument? ==>
              r.values.value[j] == Defined(cmd.arguments[j].value))
        && (forall j :: 0 <= j < k && cmd.arguments[j].CommandArgument? ==>
              Process(env, Resolve(env, st, cmd, j, ctx).store, cmd.arguments[j].command, InArgument(ctx)).result
              == Ok(r.values.value[j]))
    decreases k
  {
    if k > 0 {
      ArgumentsResolveInPlace(env, st, cmd, k - 1, ctx);
    }
  }

  // ---------------------------------------------------------------------------
  // Control flow

  /**
   * A command run as an argument never moves the program counter and never
   * records a label; neither do the arguments of any command.
   */
  lemma {:induction false} ArgumentsCannotJumpOrLabel(env: Env, st: Store, cmd: Parser.Command, ctx: Context)
    requires ctx.InArgument?
    ensures Process(env, st, cmd, ctx).jump == None
    ensures Process(env, st, cmd, ctx).store.labels == st.labels
    decreases cmd, 1
  {
    ResolveKeepsLabels(env, st, cmd, |cmd.arguments|, ctx);
  }

  lemma {:induction false} ResolveKeepsLabels(env: Env, st: Store, cmd: Parser.Command, k: nat, ctx: Context)
    requires k <= |cmd.arguments|
    ensures Resolve(env, st, cmd, k, ctx).store.labels == st.labels
    decreases cmd, 0, k
  {
    if k > 0 {
      ResolveKeepsLabels(env, st, cmd, k - 1, ctx);
      var before := Resolve(env, st, cmd, k - 1, ctx);
      if before.values.Ok? && cmd.arguments[k - 1].CommandArgument? {
        ArgumentsCannotJumpOrLabel(env, before.store, cmd.arguments[k - 1].command, InArgument(ctx));
      }
    }
  }

  /**
   * `Label`, `Goto` and `If` inside an argument throw a syntax error once
   * their own arguments are resolved, before any other check, and change
   * nothing; an error while resolving those arguments comes first.
   */
  lemma ControlFlowFailsInArguments(env: Env, st: Store, cmd: Parser.Command, ctx: Context)
    requires ctx.InArgument? && cmd.name in {"Label", "Goto", "If"}
    ensures var r := Resolve(env, st, cmd, |cmd.arguments|, ctx);
      Process(env, st, cmd, ctx) == Step(r.store, if r.values.Ok? then Err(Syntax) else Err(r.values.error), None)
  {
  }

  /**
   * At a line of the program, `Label` and `Goto` without an identifier (or
   * with one that resolved to `undefined`) throw a type error, and so does
   * `If` with a valid condition and no label; nothing changes.
   */
  lemma MissingIdentifierIsATypeError(st: Store, i: nat, args: seq<Value>)
    ensures Arg(args, 0).Undefined? ==> LabelStep(st, Indexed(i), args) == Step(st, Err(Type), None)
    ensures Arg(args, 0).Undefined? ==> GotoStep(st, Indexed(i), args) == Step(st, Err(Type), None)
    ensures (Arg(args, 0) == Defined("true") || Arg(args, 0) == Defined("false")) && Arg(args, 1).Undefined? ==>
      IfStep(st, Indexed(i), args) == Step(st, Err(Type), None)
    ensures LabelStep(st, Indexed(i), []) == Step(st, Err(Type), None)
    ensures GotoStep(st, Indexed(i), []) == Step(st, Err(Type), None)
    ensures IfStep(st, Indexed(i), [Defined("false")]) == Step(st, Err(Type), None)
  {
  }

  /**
   * Only `Goto` and `If` run as a line of the program move the program
   * counter, and only to the index a label recorded.
   */
  lemma OnlyGotoAndIfJump(env: Env, st: Store, cmd: Parser.Command, ctx: Context)
    ensures var step := Process(env, st, cmd, ctx);
      step.jump.Some? ==>
        && (cmd.name == "Goto" || cmd.name == "If")
        && ctx.Indexed?
        && step.result == Ok(Undefined)
        && exists x :: x in step.store.labels && step.store.labels[x] == step.jump.value
  {
    var step := Process(env, st, cmd, ctx);
    if step.jump.Some? {
      var resolved := Resolve(env, st, cmd, |cmd.arguments|, ctx);
      assert resolved.values.Ok?;
      var values := resolved.values.value;
      if cmd.name == "Goto" {
        assert Arg(values, 0).text in step.store.labels;
      } else {
        assert Arg(values, 1).text in step.store.labels;
      }
    }
  }

  /** `Label x` on line `i` records `i` for `x`, overwriting an earlier record, and the run goes on. */
  lemma LabelRecordsItsLine(env: Env, st: Store, cmds: seq<Parser.Command>, i: nat, fuel: nat, last: Value, x: string)
    requires i < |cmds| && cmds[i] == Parser.Command("Label", [Parser.StringArgument(x)])
    ensures Run(env, st, cmds, i, fuel + 1, last)
         == Run(env, st.(labels := st.labels[x := i]), cmds, i + 1, fuel, Undefined)
  {
    var cmd := cmds[i];
    PlainArgumentsResolveToThemselves(env, st, cmd, 1, Indexed(i));
    assert Resolve(env, st, cmd, 1, Indexed(i)).values.value == [Defined(x)];
    RunContinues(env, st, cmds, i, fuel + 1, last, st.(labels := st.labels[x := i]), Undefined, None);
  }

  /**
   * `Goto x` on a line resumes the run right after the line that recorded
   * `x`; with no such record it fails with a reference error.
   */
  lemma GotoResumesAfterLabel(env: Env, st: Store, cmds: seq<Parser.Command>, i: nat, fuel: nat, last: Value, x: string)
    requires i < |cmds| && cmds[i] == Parser.Command("Goto", [Parser.StringArgument(x)])
    ensures x in st.labels ==>
      Run(env, st, cmds, i, fuel + 1, last) == Run(env, st, cmds, st.labels[x] + 1, fuel, Undefined)
    ensures x !in st.labels ==>
      Run(env, st, cmds, i, fuel + 1, last) == Evaluation(st, Finished(Err(Reference)))
  {
    var cmd := cmds[i];
    PlainArgumentsResolveToThemselves(env, st, cmd, 1, Indexed(i));
    assert Resolve(env, st, cmd, 1, Indexed(i)).values.value == [Defined(x)];
    if x in st.labels {
      RunContinues(env, st, cmds, i, fuel + 1, last, st, Undefined, Some(st.labels[x]));
    } else {
      RunStops(env, st, cmds, i, fuel + 1, last, st, Reference, None);
    }
  }

  /** `If "true" x` is `Goto x`. */
  lemma IfTrueIsGoto(st: Store, ctx: Context, args: seq<Value>)
    requires Arg(args, 0) == Defined("true")
    ensures IfStep(st, ctx, args) == GotoStep(st, ctx, args[1..])
  {
    assert Arg(args[1..], 0) == Arg(args, 1);
  }

  /**
   * `If "false" x` does nothing, without looking the label up; any other
   * condition than "true" or "false" is a type error.
   */
  lemma IfFalseDoesNothing(st: Store, args: seq<Value>, i: nat)
    ensures Arg(args, 0) == Defined("false") && Arg(args, 1).Defined? ==>
      IfStep(st, Indexed(i), args) == Step(st, Ok(Undefined), None)
    ensures Arg(args, 0) != Defined("true") && Arg(args, 0) != Defined("false") ==>
      IfStep(st, Indexed(i), args) == Step(st, Err(Type), None)
  {
  }

  // ---------------------------------------------------------------------------
  // Variables

  /**
   * `Var x v` stores `v` and returns it, whatever `x` held before (even the
   * empty string is stored); a later `Var x` returns it and changes nothing;
   * other variables are untouched.
   */
  lemma VarWriteThenRead(st: Store, x: string, v: string, y: string)
    ensures var written := VarStep(st, [Defined(x), Defined(v)]);
      && written.result == Ok(Defined(v))
      && VarStep(written.store, [Defined(x)]) == Step(written.store, Ok(Defined(v)), None)
      && (y != x ==> (y in written.store.variables <==> y in st.variables))
      && (y != x && y in st.variables ==> written.store.variables[y] == st.variables[y])
      && written.store.labels == st.labels && written.store.printed == st.printed
  {
  }

  /**
   * `Var x` alone reads `x` (undefined when never set) and changes nothing;
   * `Var` without an identifier, or with one that resolved to `undefined`,
   * is a type error.
   */
  lemma VarReadOnly(st: Store, x: string, args: seq<Value>)
    ensures VarStep(st, [Defined(x)])
         == Step(st, Ok(if x in st.variables then Defined(st.variables[x]) else Undefined), None)
    ensures VarStep(st, []) == Step(st, Err(Type), None)
    ensures Arg(args, 0).Undefined? ==> VarStep(st, args) == Step(st, Err(Type), None)
  {
  }

  // ---------------------------------------------------------------------------
  // Calc and Cond

  /**
   * `=`, `&` and `|` do not depend on the order of their operands; `=`
   * compares text, so "1" and "01" differ; `&` and `|` read a value as true
   * exactly when it is a non-empty string.
   */
  lemma CondLogicalOperators(arithmetic: Arithmetic, a: Value, op: string, b: Value)
    requires op in {"=", "&", "|"}
    ensures CondValue(arithmetic, [a, Defined(op), b]) == CondValue(arithmetic, [b, Defined(op), a])
    ensures op == "=" ==> (CondValue(arithmetic, [a, Defined(op), b]) == Defined("true") <==> a == b)
    ensures op == "&" ==> (CondValue(arithmetic, [a, Defined(op), b]) == Defined("true") <==> Truthy(a) && Truthy(b))
    ensures op == "|" ==> (CondValue(arithmetic, [a, Defined(op), b]) == Defined("true") <==> Truthy(a) || Truthy(b))
    ensures CondValue(arithmetic, [Defined("1"), Defined("="), Defined("01")]) == Defined("false")
  {
    assert Defined("1") != Defined("01") by {
      assert |"1"| != |"01"|;
    }
  }

  // ---------------------------------------------------------------------------
  // The state across commands

  /** A store that extends another: no variable or label is ever removed, and printing only appends. */
  ghost predicate Extends(after: Store, before: Store)
  {
    && before.variables.Keys <= after.variables.Keys
    && before.labels.Keys <= after.labels.Keys
    && before.printed <= after.printed
  }

  lemma ExtendsTransitive(a: Store, b: Store, c: Store)
    requires Extends(b, a) && Extends(c, b)
    ensures Extends(c, a)
  {
  }

  lemma ActionExtends(env: Env, st: Store, ctx: Context, name: string, args: seq<Value>)
    requires name in BuiltinNames || name in env.host
    ensures Extends(ActionStep(env, st, ctx, name, args).store, st)
  {
  }

  /** Running a command, nested ones included, never removes a variable or a label, nor anything printed. */
  lemma {:induction false} ProcessExtends(env: Env, st: Store, cmd: Parser.Command, ctx: Context)
    ensures Extends(Process(env, st, cmd, ctx).store, st)
    decreases cmd, 1
  {
    if cmd.name in BuiltinNames || cmd.name in env.host {
      var resolved := Resolve(env, st, cmd, |cmd.arguments|, ctx);
      ResolveExtends(env, st, cmd, |cmd.arguments|, ctx);
      if resolved.values.Ok? {
        ActionExtends(env, resolved.store, ctx, cmd.name, resolved.values.value);
        ExtendsTransitive(st, resolved.store, Process(env, st, cmd, ctx).store);
      }
    }
  }

  lemma {:induction false} ResolveExtends(env: Env, st: Store, cmd: Parser.Command, k: nat, ctx: Context)
    requires k <= |cmd.arguments|
    ensures Extends(Resolve(env, st, cmd, k, ctx).store, st)
    decreases cmd, 0, k
  {
    if k > 0 {
      ResolveExtends(env, st, cmd, k - 1, ctx);
      var before := Resolve(env, st, cmd, k - 1, ctx);
      if before.values.Ok? && cmd.arguments[k - 1].CommandArgument? {
        ProcessExtends(env, before.store, cmd.arguments[k - 1].command, InArgument(ctx));
        ExtendsTransitive(st, before.store, Resolve(env, st, cmd, k, ctx).store);
      }
    }
  }

  /** The same holds for a whole run, however it ends. */
  lemma {:induction false} RunExtends(env: Env, st: Store, cmds: seq<Parser.Command>, i: nat, fuel: nat, last: Value)
    ensures Extends(Run(env, st, cmds, i, fuel, last).store, st)
    decreases fuel
  {
    if i < |cmds| && fuel > 0 {
      var step := Process(env, st, cmds[i], Indexed(i));
      ProcessExtends(env, st, cmds[i], Indexed(i));
      if step.result.Ok? {
        var next := (if step.jump.Some? then step.jump.value else i) + 1;
        RunExtends(env, step.store, cmds, next, fuel - 1, step.result.value);
        ExtendsTransitive(st, step.store, Run(env, st, cmds, i, fuel, last).store);
      }
    }
  }

  /**
   * Fuel only cuts a run short: a run that finishes with some fuel finishes
   * the same way, in the same state, with any more fuel.
   */
  lemma {:induction false} MoreFuelSameEnd(env: Env, st: Store, cmds: seq<Parser.Command>, i: nat, fuel: nat, more: nat, last: Value)
    requires fuel <= more
    requires Run(env, st, cmds, i, fuel, last).outcome.Finished?
    ensures Run(env, st, cmds, i, more, last) == Run(env, st, cmds, i, fuel, last)
    decreases fuel
  {
    if i < |cmds| {
      var step := Process(env, st, cmds[i], Indexed(i));
      if step.result.Ok? {
        var next := (if step.jump.Some? then step.jump.value else i) + 1;
        MoreFuelSameEnd(env, step.store, cmds, next, fuel - 1, more - 1, step.result.value);
      }
    }
  }

  // ---------------------------------------------------------------------------
  // Whole texts

  /**
   * A text with no command on any line (blank lines, comments, lowercase
   * text) evaluates to `undefined` and changes nothing.
   */
  lemma TextWithoutCommands(env: Env, st: Store, code: string, fuel: nat)
    requires forall k :: 0 <= k < |Parser.Lines(code)| ==> Parser.Ignorable(Parser.Lines(code)[k])
    ensures Evaluate(env, st, code, fuel) == Evaluation(st, Finished(Ok(Undefined)))
  {
    NothingKept(Parser.Lines(code));
    ParserProperties.OneCommandPerKeptLine(Parser.Lines(code));
  }

  lemma {:induction false} NothingKept(lines: seq<string>)
    requires forall k :: 0 <= k < |lines| ==> Parser.Ignorable(lines[k])
    ensures ParserProperties.Kept(lines) == []
    decreases |lines|
  {
    if lines != [] {
      NothingKept(lines[..|lines| - 1]);
    }
  }

  /** A syntax error on any line is reported before any command runs: the state is unchanged. */
  lemma SyntaxErrorRunsNothing(env: Env, st: Store, code: string, fuel: nat)
    requires Parser.ProgramOf(code).Err?
    ensures Evaluate(env, st, code, fuel) == Evaluation(st, Finished(Err(KyotamdSyntax(Parser.ProgramOf(code).error))))
  {
  }
}
