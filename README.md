# kyotamd in Dafny

A model of kyotamd, a line-oriented command language, and proofs about it.
It covers its parser (`KyotamdParser`), its interpreter (`KyotamdInterpreter`)
and the character tables both rely on (`CharSets`).

- **`wrappers.dfy`** (module `Wrappers`): `Option` and `Result`. They carry
  the parser's and the interpreter's thrown errors as values.
- **`charsets.dfy`** (module `CharSets`): the sets `UPPERCASE_ALPHABETS`,
  `LOWERCASE_ALPHABETS`, `DECIMAL_DIGITS` and `SPACES`, with lemmas that give
  their exact contents.
- **`parser.dfy`** (module `Parser`): the scanners.
  - `getStartSpacesOffset`, `parseCommandName`, `parseParenthesis`,
    `parseStringLiteral`, `parseCommandArguments`, `parseCommand`,
    `isIgnoreLine` and `parse` are each a method with the source's loop, its
    index arithmetic and its accumulators.
  - Each method is proved equal to a ghost function that reads the same text
    by recursion on the scan position (`LeadingSpaces`, `CommandNameOf`,
    `ParenthesisOf`, `StringLiteralOf`, `ArgumentsFrom`, `CommandOf`,
    `Ignorable`, `ProgramOf`).
  - `parseParenthesis` and `parseCommand` are mutually recursive in the
    source and stay so here.
- **`parser_properties.dfy`** (module `ParserProperties`): what the parser
  promises, proved about those functions.
  - The command-name convention, in both directions.
  - The decoding of string literals and its round trip with an escaping
    function.
  - Parenthesis balance.
  - The resume offsets after quoted and parenthesised arguments.
  - Bare words, line splitting and the one-command-per-line structure of a
    whole text.
- **`interpreter.dfy`** (module `Interpreter`):
  - Values (a string or `undefined`).
  - The two invocation contexts (`indexed` at a line of the program, or
    inside an `argument`).
  - The errors `eval` can throw.
  - The built-in actions as functions on a `Store` of variables, labels and
    printed lines.
  - `#processCommand` as `Process`/`Resolve`, and the `eval` loop as `Run`.
  - Class `Interpreter` has the mutable fields of `KyotamdInterpreter`. Its
    methods are proved to follow those functions.
  - `setIndex` becomes the `jump` that an action returns, and the loop
    applies it before its own increment, as the source's closure does.
- **`interpreter_properties.dfy`** (module `InterpreterProperties`):
  - Built-ins cannot be shadowed.
  - Control flow is refused inside arguments, and only `Goto`/`If` jump, to
    recorded labels.
  - `Label`/`Goto` at the level of the run.
  - `If`, `Var`, `Cond` and `Calc` each have their own rules.
  - The store only grows.
  - Fuel only cuts a run short.
  - Syntax errors stop evaluation before anything runs.

Quirks of the code kept as written:

- The argument scan starts at `name.length + 1` even after indentation, so
  `  Ab` parses as `Ab` with the argument `b`.
- After a quoted or parenthesised argument the scan skips one more
  character, so in `"a""b"` the second opening quote is lost.
- Parenthesis depth ignores quotes.
- A backslash at the very end of a line decodes to the text `undefined`.

Two behaviours of the code a reader may not expect:

- `Label` records its line every time it runs, not only the first time.
- After `Goto x` the next command run is the one after the `Label x` line,
  because the loop increments the index that `setIndex` wrote, even when the
  new index equals the old one.

## Model

| member | source | states |
|---|---|---|
| CharSets.UppercaseIsAToZ | src/utils/CharSets.ts:9 | the characters of the literal `ABCDEFGHIJKLMNOPQRSTUVWXYZ` are exactly the range 'A'..'Z' |
| CharSets.LowercaseIsAToZ | src/utils/CharSets.ts:10 | the characters of the literal `abcdefghijklmnopqrstuvwxyz` are exactly the range 'a'..'z' |
| CharSets.DecimalDigitsAreZeroToNine | src/utils/CharSets.ts:11 | the characters of the literal `0123456789` are exactly the range '0'..'9' |
| CharSets.SpacesAreTheListedCodePoints | src/utils/CharSets.ts:12-38 | a character is in `SPACES` exactly when it is space, U+0009..U+000D, NBSP, U+1680, U+2000..U+200A, U+2028, U+2029, U+202F, U+205F, U+3000 or U+FEFF |
| CharSets.TablesAreDisjoint | src/utils/CharSets.ts:9-38 | the uppercase, digit and space tables are pairwise disjoint |
| CharSets.DelimitersAreInNoTable | src/utils/CharSets.ts:9-38 | none of `-`, `#`, `(`, `)`, `"`, `\` is uppercase, a digit or a space |
| Parser.LeadingSpaces | src/KyotamdParser.ts:38-50 | the offset is the length of the longest all-space prefix: everything before it is a space, and the character at it (if any) is not |
| Parser.GetStartSpacesOffset | src/KyotamdParser.ts:38-50 | the loop returns the length of the leading run of spaces |
| Parser.ParseCommandName | src/KyotamdParser.ts:51-87 | the loop returns the name or exactly the error `CommandNameOf` gives, whose meaning `ParserProperties.CommandNameConvention` states |
| Parser.ParseParenthesis | src/KyotamdParser.ts:88-118 | the loop returns the nested command parsed from the text up to the matching `)` and the span consumed, or the nested parse's error |
| Parser.ParenthesisFromRaw | src/KyotamdParser.ts:112-117 | unfolds `ParenthesisOf` for the loop of `ParseParenthesis`: the result is `parseCommand(rawCommand)` with `indexCount = rawCommand.length + 2` when the `)` was found, `+ 1` otherwise |
| Parser.ParseStringLiteral | src/KyotamdParser.ts:119-152 | the loop returns the decoded literal and `value.length + backslashCount + 2` |
| Parser.ParseCommandArguments | src/KyotamdParser.ts:153-199 | the loop returns the arguments of `ArgumentsFrom` in order, or the first nested syntax error; its invariant is that the collected arguments followed by the rest of the scan give the whole scan |
| Parser.ReadWord | src/KyotamdParser.ts:182-193 | the inner loop reads exactly the run of non-space characters from its start |
| Parser.SpaceStep | src/KyotamdParser.ts:160-162 | unfolds one branch of `ArgumentsFrom` for the argument loop: a space between arguments is skipped |
| Parser.ParenthesisStep | src/KyotamdParser.ts:164-171 | unfolds one branch of `ArgumentsFrom` for the argument loop: a `(` yields the nested command and the scan resumes at `i + indexCount + 1`, or a nested error aborts the scan |
| Parser.LiteralStep | src/KyotamdParser.ts:173-180 | unfolds one branch of `ArgumentsFrom` for the argument loop: a `"` yields the decoded literal and the scan resumes at `i + indexCount + 1` |
| Parser.BareTokenStep | src/KyotamdParser.ts:182-195 | unfolds one branch of `ArgumentsFrom` for the argument loop: any other character starts a token that runs to the next space, and the scan resumes one past that space |
| Parser.ParseCommand | src/KyotamdParser.ts:200-207 | returns the name and the arguments scanned from `name.length + 1`, or the first syntax error |
| Parser.IsIgnoreLine | src/KyotamdParser.ts:208-224 | the loop decides `Ignorable`, characterised by `ParserProperties.IgnoreLineRule` |
| Parser.Lines | src/KyotamdParser.ts:226 | `split('\n')` yields at least one piece and no piece holds a line feed (inverse: `ParserProperties.LinesJoinRoundTrip`) |
| Parser.ErrorAborts | src/KyotamdParser.ts:229-233 | a syntax error on a line read so far is the result of the whole parse |
| Parser.Parse | src/KyotamdParser.ts:225-236 | the loop returns the commands of the kept lines or the first syntax error (see `ParserProperties.OneCommandPerKeptLine`) |
| ParserProperties.FirstNameErrorIsAWordError | src/KyotamdParser.ts:62-84 | the name loop never raises the "must start with an uppercase letter" error |
| ParserProperties.FirstNameErrorNone | src/KyotamdParser.ts:62-84 | the name loop raises nothing exactly when no position of the run violates a rule |
| ParserProperties.CommandNameStartRule | src/KyotamdParser.ts:51-57 | "must start with an uppercase letter" is raised exactly when the first non-space character is missing or not uppercase; an empty or all-space line raises it |
| ParserProperties.NoNameErrorIsWellFormed | src/KyotamdParser.ts:59-86 | a run accepted by the loop follows the hyphenation convention |
| ParserProperties.WellFormedHasNoNameError | src/KyotamdParser.ts:59-86 | a run following the hyphenation convention is accepted by the loop |
| ParserProperties.CommandNameConvention | src/KyotamdParser.ts:51-87 | a name is accepted iff the non-space run after the indentation follows the convention (uppercase start, every later capital after `-`, every `-` followed by a capital or digit); the name is that whole run, ending at a space or the end of the line |
| ParserProperties.LiteralBodySpan | src/KyotamdParser.ts:124-146 | for a terminated literal, decoded length plus backslashes equals the number of characters before the closing quote |
| ParserProperties.StringLiteralSpan | src/KyotamdParser.ts:148-151 | for a terminated literal, `indexCount` counts the characters from the opening to the closing quote inclusive |
| ParserProperties.DecodeEscapedChar | src/KyotamdParser.ts:127-145 | a character written as its escape (`\"`, `\\`, backslash-n for a line feed, itself otherwise) decodes back to that one character, counting one backslash when escaped |
| ParserProperties.LiteralBodyOfEscape | src/KyotamdParser.ts:124-146 | decoding an escaped text up to a closing quote gives back the text, with one backslash per escape |
| ParserProperties.StringLiteralRoundTrip | src/KyotamdParser.ts:119-152 | `"` + Escape(v) + `"` decodes to `v`, whatever follows, with `indexCount` its own length |
| ParserProperties.MatchEndDepth | src/KyotamdParser.ts:94-110 | the depth counter stays positive up to the matching `)` and is zero there |
| ParserProperties.ParenthesisBalance | src/KyotamdParser.ts:88-117 | every prefix of `rawCommand` has at least as many `(` as `)`; when the match is found the counts are equal, the next character is `)` and `indexCount = rawCommand.length + 2` |
| ParserProperties.BareArgumentsAreWords | src/KyotamdParser.ts:182-196 | without quotes or parentheses, the arguments are the maximal non-space runs of the rest of the line, in order, each non-empty and space-free |
| ParserProperties.ResumeAfterLiteral | src/KyotamdParser.ts:173-179 | after a literal whose closing quote is at `q`, the scan resumes at `q + 2` |
| ParserProperties.ResumeAfterParenthesis | src/KyotamdParser.ts:164-170 | after a parenthesis whose matching `)` is at `m`, the scan resumes at `m + 2` |
| ParserProperties.AdjacentLiteralsLoseAQuote | src/KyotamdParser.ts:173-179 | `"a""b"` scans as the arguments `a` and `b"` |
| ParserProperties.CommandArgumentsStartAfterName | src/KyotamdParser.ts:200-207 | a parsed command's name is `parseCommandName`'s and its arguments are scanned from `name.length + 1`; without indentation that is just past the space after the name |
| ParserProperties.IndentedCommandRescansName | src/KyotamdParser.ts:205 | with indentation the tail of the name is scanned again: `  Ab` gives `Ab` with the argument `b` |
| ParserProperties.IgnorableFromRule | src/KyotamdParser.ts:211-223 | from a position, a line is not ignorable iff an uppercase letter comes before any `#` |
| ParserProperties.IgnoreLineRule | src/KyotamdParser.ts:208-224 | `isIgnoreLine` is false exactly when an uppercase letter occurs before any `#`; a line without uppercase letters is ignored |
| ParserProperties.LinesJoinRoundTrip | src/KyotamdParser.ts:226 | joining the pieces of `split('\n')` with line feeds gives the text back |
| ParserProperties.JoinLinesRoundTrip | src/KyotamdParser.ts:226 | splitting joined lines that hold no line feed gives the lines back |
| ParserProperties.Kept | src/KyotamdParser.ts:229-233 | the lines `parse` keeps are all non-ignorable |
| ParserProperties.OneCommandPerKeptLine | src/KyotamdParser.ts:229-235 | the lines parse iff every kept line parses; the result has one command per kept line in line order; otherwise the error is that of the first kept line that fails |
| ParserProperties.ParseOneCommandPerLine | src/KyotamdParser.ts:225-236 | for a whole text split on line feeds: it parses iff every kept line parses; the result has one command per kept line in line order; otherwise the error is that of the first kept line that fails, and every earlier kept line parses |
| Interpreter.ResolveErrorSticks | src/KyotamdInterpreter.ts:169-181 | once an argument fails, resolving further arguments changes neither state nor result |
| Interpreter.RunStops | src/KyotamdInterpreter.ts:142-153 | unfolds `Run` for the loop of `RunProgram`: a command that throws ends `eval` with its error and the state it left |
| Interpreter.RunContinues | src/KyotamdInterpreter.ts:142-153 | unfolds `Run` for the loop of `RunProgram`: a command that returns hands its value on, and the loop continues one past the index it set, or one past its own |
| Interpreter.Interpreter.constructor | src/KyotamdInterpreter.ts:130-134 | a new interpreter has no variables or labels and the supplied actions, none when absent |
| Interpreter.Interpreter.Label | src/KyotamdInterpreter.ts:29-39 | syntax error in an argument, type error without identifier, else records the current index under the identifier |
| Interpreter.Interpreter.Goto | src/KyotamdInterpreter.ts:40-56 | syntax error in an argument, type error without identifier, reference error for an unknown label, else jumps to the recorded index; state unchanged |
| Interpreter.Interpreter.Var | src/KyotamdInterpreter.ts:57-67 | type error without identifier; a supplied value is stored; returns the stored value or `undefined` |
| Interpreter.Interpreter.Print | src/KyotamdInterpreter.ts:98-100 | appends the argument list to the printed trace and returns `undefined` |
| Interpreter.Interpreter.If | src/KyotamdInterpreter.ts:101-125 | the checks in the source's order, then no jump for "false" and a jump to the label for "true"; state unchanged |
| Interpreter.Interpreter.CallAction | src/KyotamdInterpreter.ts:161-183 | calls the built-in of that name if there is one, else the supplied action |
| Interpreter.Interpreter.ProcessCommand | src/KyotamdInterpreter.ts:158-184 | reference error for an unknown name before any argument is resolved; arguments resolved left to right, nested ones in an argument context; the first error propagates; then the action runs |
| Interpreter.Interpreter.Eval | src/KyotamdInterpreter.ts:136-156 | parses the text (a syntax error runs nothing), then runs it from the interpreter's current state, so labels and variables persist across calls |
| Interpreter.Interpreter.RunProgram | src/KyotamdInterpreter.ts:140-155 | the loop with the rewritable index follows `Run`: the last command's value, the first error, or out of fuel |
| InterpreterProperties.BuiltinsCannotBeOverridden | src/KyotamdInterpreter.ts:161 | a supplied action named like a built-in is never called: removing it changes no result, at any depth |
| InterpreterProperties.ResolveIgnoresOverriddenBuiltins | src/KyotamdInterpreter.ts:167-181 | the same for the resolution of arguments |
| InterpreterProperties.UnknownNameIsAReferenceError | src/KyotamdInterpreter.ts:161-165 | a name that is neither a built-in nor a supplied action is a reference error before any argument is resolved, with the state unchanged |
| InterpreterProperties.PlainArgumentsResolveToThemselves | src/KyotamdInterpreter.ts:169-174 | string arguments resolve to their own text, in order, changing nothing |
| InterpreterProperties.ArgumentsResolveInPlace | src/KyotamdInterpreter.ts:167-181 | for any argument list, a successful resolution has one value per argument in order: a string argument gives its own text, and a nested command gives what it returns when run in an argument context on the state the earlier arguments left |
| InterpreterProperties.ArgumentsCannotJumpOrLabel | src/KyotamdInterpreter.ts:176-180 | a command in an argument context never jumps and never changes the labels |
| InterpreterProperties.ResolveKeepsLabels | src/KyotamdInterpreter.ts:167-181 | resolving arguments never changes the labels |
| InterpreterProperties.ControlFlowFailsInArguments | src/KyotamdInterpreter.ts:29-125 | in an argument context `Label`, `Goto` and `If` throw a syntax error right after their arguments are resolved, before any other check, and change nothing further; an error while resolving comes first |
| InterpreterProperties.MissingIdentifierIsATypeError | src/KyotamdInterpreter.ts:34-112 | at a line of the program, `Label` and `Goto` with a missing or `undefined` identifier throw a type error, and so does `If` with a valid condition and no label; the state is unchanged |
| InterpreterProperties.OnlyGotoAndIfJump | src/KyotamdInterpreter.ts:40-125 | only `Goto` and `If` at a line of the program set the index, to a recorded label's index, returning `undefined` |
| InterpreterProperties.LabelRecordsItsLine | src/KyotamdInterpreter.ts:29-39 | `Label x` at line `i` records `i` for `x` (overwriting) and the run continues at `i + 1` |
| InterpreterProperties.GotoResumesAfterLabel | src/KyotamdInterpreter.ts:40-56 | `Goto x` continues one past the recorded line; without a record it ends with a reference error, state unchanged |
| InterpreterProperties.IfTrueIsGoto | src/KyotamdInterpreter.ts:114-124 | `If "true" x` behaves exactly as `Goto x` |
| InterpreterProperties.IfFalseDoesNothing | src/KyotamdInterpreter.ts:106-116 | `If "false" x` is a no-op; any other condition is a type error |
| InterpreterProperties.VarWriteThenRead | src/KyotamdInterpreter.ts:57-67 | `Var x v` stores and returns `v` (even ""), a later `Var x` reads it without change, other variables and the labels are untouched |
| InterpreterProperties.VarReadOnly | src/KyotamdInterpreter.ts:57-67 | `Var x` reads without changing anything; `Var` without an identifier, or with one that resolved to `undefined`, is a type error |
| Interpreter.CalcValue | src/KyotamdInterpreter.ts:68-81 | `Calc` always gives a string, and "NaN" for an unknown or missing operator |
| Interpreter.CondValue | src/KyotamdInterpreter.ts:82-97 | `Cond` always gives "true" or "false", and "false" for an unknown or missing operator |
| InterpreterProperties.CondLogicalOperators | src/KyotamdInterpreter.ts:86-93 | equality, `&` and the or-operator are symmetric; equality compares text ("1" vs "01" gives "false"); `&` and or read a value as true exactly when it is a non-empty string |
| InterpreterProperties.ActionExtends | src/KyotamdInterpreter.ts:28-126 | no action removes a variable, a label or a printed line |
| InterpreterProperties.ProcessExtends | src/KyotamdInterpreter.ts:158-184 | the same for a command with its nested arguments |
| InterpreterProperties.ResolveExtends | src/KyotamdInterpreter.ts:167-181 | the same for argument resolution |
| InterpreterProperties.RunExtends | src/KyotamdInterpreter.ts:136-156 | the same for a whole run, however it ends |
| InterpreterProperties.MoreFuelSameEnd | src/KyotamdInterpreter.ts:142-153 | a run that finishes within some fuel finishes identically with more |
| InterpreterProperties.TextWithoutCommands | src/KyotamdInterpreter.ts:136-156 | a text with only ignorable lines returns `undefined` and changes nothing |
| InterpreterProperties.NothingKept | src/KyotamdParser.ts:229-233 | when every line is ignorable no line is kept |
| InterpreterProperties.SyntaxErrorRunsNothing | src/KyotamdInterpreter.ts:137 | unfolds `Evaluate`: a syntax error on any line is thrown before any command runs, with the state unchanged |

## Left out

- Numeric `Calc` and the numeric comparisons of `Cond` (`Number` coercion, IEEE-754 doubles, `String(number)` formatting) are not modelled. They are a supplied `Arithmetic` record of functions. Only the unknown-operator branches and the string branches (`=`, `&`, `|`) are fixed.
- `Print`'s `console.log` output is not modelled. Each call appends its argument list to a `printed` trace in the state.
- Supplied command actions are pure functions from the resolved arguments to a value or an error. They cannot see the invocation context, call `setIndex`, or re-enter the interpreter.
- `eval` may loop forever. The model bounds each run with fuel: one unit per command run, ending in `OutOfFuel` when it runs out. `MoreFuelSameEnd` shows the bound only cuts runs short.
- Strings are sequences of Unicode scalar values. The difference between `getStartSpacesOffset`'s code-point iteration and the code-unit indexing of the other loops is not modelled, so surrogate pairs are not either.
- `KyotamdSyntaxError`'s message and stack plumbing are not modelled. Its three messages are the variants of `Parser.SyntaxError`. The native `SyntaxError`, `TypeError` and `ReferenceError` of the built-ins are variants of `Interpreter.Error`. src/errors/KyotamdSyntaxError.ts is not part of this model.
- `CharSets.SpacesAreTheListedCodePoints` states the members of `SPACES` but does not state the count 25 separately.
- The parent link of an argument context is kept (`InArgument(parent)`), but no built-in reads it.
