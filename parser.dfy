/**
 * The line-oriented recursive-descent parser (src/KyotamdParser.ts).
 *
 * Every scanner of the source is a `method` with the same loop, the same
 * index arithmetic and the same accumulators. Each method is proved equal to
 * a ghost specification function that reads the same text by recursion on
 * the scan position; what the parser promises is proved about those
 * functions in module ParserProperties.
 *
 * JavaScript's `input[k]` yields `undefined` past the end of the string;
 * here every such access is guarded by an explicit bound, and `undefined` is
 * never a member of a character table.
 */
module Parser {
  import opened Wrappers
  import opened CharSets

  /** A parsed command: its name and its positional arguments. */
  datatype Command = Command(name: string, arguments: seq<Argument>)

  /** An argument is a string (bare token or quoted literal) or a nested command. */
  datatype Argument = StringArgument(value: string) | CommandArgument(command: Command)

  /** What `parseParenthesis` returns: the nested command and the span it consumed. */
  datatype Parenthesis = Parenthesis(command: Command, indexCount: nat)

  /** What `parseStringLiteral` returns: the decoded text and the span it consumed. */
  datatype StringLiteral = StringLiteral(value: string, indexCount: nat)

  /** The three messages of `KyotamdSyntaxError`, all raised by `parseCommandName`. */
  datatype SyntaxError =
    | MustStartWithUppercase
    | WordsMustBeHyphenated
    | WordMustStartWithUppercaseOrDigit

  /** Prepends one argument to a successful scan; an error passes through. */
  function Prepend(a: Argument, r: Result<seq<Argument>, SyntaxError>): Result<seq<Argument>, SyntaxError>
  {
    match r
    case Err(e) => Err(e)
    case Ok(rest) => Ok([a] + rest)
  }

  /** Prepends the arguments already collected to the rest of a scan. */
  function PrependAll(args: seq<Argument>, r: Result<seq<Argument>, SyntaxError>): Result<seq<Argument>, SyntaxError>
  {
    match r
    case Err(e) => Err(e)
    case Ok(rest) => Ok(args + rest)
  }

  // ---------------------------------------------------------------------------
  // getStartSpacesOffset

  /** The length of the longest prefix of `s` made of `Spaces`. */
  ghost function LeadingSpaces(s: string): (n: nat)
    ensures n <= |s|
    ensures forall k :: 0 <= k < n ==> s[k] in Spaces
    ensures n == |s| || s[n] !in Spaces
  {
    if s == [] || s[0] !in Spaces then 0 else 1 + LeadingSpaces(s[1..])
  }

  method GetStartSpacesOffset(input: string) returns (startSpacesOffset: nat)
    ensures startSpacesOffset == LeadingSpaces(input)
  {
    startSpacesOffset := 0;
    while startSpacesOffset < |input|
      invariant startSpacesOffset <= |input|
      invariant forall k :: 0 <= k < startSpacesOffset ==> input[k] in Spaces
    {
      if input[startSpacesOffset] !in Spaces {
        break;
      }
      startSpacesOffset := startSpacesOffset + 1;
    }
  }

  // ---------------------------------------------------------------------------
  // parseCommandName

  /** The end of the run of non-space characters that starts at `i`. */
  ghost function RunEnd(s: string, i: nat): (e: nat)
    ensures i <= e
    ensures i <= |s| ==> e <= |s|
    ensures i > |s| ==> e == i
    ensures forall k :: i <= k < e ==> s[k] !in Spaces
    ensures e < |s| ==> s[e] in Spaces
    decreases |s| - i
  {
    if i >= |s| || s[i] in Spaces then i else RunEnd(s, i + 1)
  }

  /** The error the name loop raises at position `i`, if any (hyphenation first). */
  ghost function NameCharError(s: string, i: nat): Option<SyntaxError>
    requires 0 < i < |s|
  {
    if s[i] in Uppercase && s[i - 1] != '-' then Some(WordsMustBeHyphenated)
    else if s[i] == '-' && !(i + 1 < |s| && (s[i + 1] in Uppercase || s[i + 1] in DecimalDigits)) then
      Some(WordMustStartWithUppercaseOrDigit)
    else None
  }

  /** The first error of the name loop from position `i` to the end of the run. */
  ghost function FirstNameError(s: string, i: nat): Option<SyntaxError>
    requires 0 < i
    decreases |s| - i
  {
    if i >= |s| || s[i] in Spaces then None
    else if NameCharError(s, i).Some? then NameCharError(s, i)
    else FirstNameError(s, i + 1)
  }

  /** The command name of a line, or the syntax error `parseCommandName` raises. */
  ghost function CommandNameOf(s: string): Result<string, SyntaxError>
  {
    var start := LeadingSpaces(s);
    if start == |s| || s[start] !in Uppercase then Err(MustStartWithUppercase)
    else match FirstNameError(s, start + 1)
      case Some(e) => Err(e)
      case None => Ok(s[start..RunEnd(s, start + 1)])
  }

  method ParseCommandName(input: string) returns (r: Result<string, SyntaxError>)
    ensures r == CommandNameOf(input)
  {
    var startSpacesOffset := GetStartSpacesOffset(input);
    if startSpacesOffset == |input| || input[startSpacesOffset] !in Uppercase {
      return Err(MustStartWithUppercase);
    }
    var commandName := [input[startSpacesOffset]];
    var i := startSpacesOffset + 1;
    while i < |input|
      invariant startSpacesOffset < i <= |input|
      invariant commandName == input[startSpacesOffset..i]
      invariant FirstNameError(input, startSpacesOffset + 1) == FirstNameError(input, i)
      invariant RunEnd(input, startSpacesOffset + 1) == RunEnd(input, i)
    {
      var c := input[i];
      if c in Spaces {
        break;
      }
      if c in Uppercase && input[i - 1] != '-' {
        return Err(WordsMustBeHyphenated);
      }
      var nextChar: Option<char> := if i + 1 < |input| then Some(input[i + 1]) else None;
      if c == '-' && !(nextChar.Some? && (nextChar.value in Uppercase || nextChar.value in DecimalDigits)) {
        return Err(WordMustStartWithUppercaseOrDigit);
      }
      commandName := commandName + [c];
      i := i + 1;
    }
    r := Ok(commandName);
  }

  // ---------------------------------------------------------------------------
  // parseParenthesis

  /**
   * The position of the `)` that brings the depth from `depth` to zero when
   * scanning from `i`, or the end of the text when there is none. Quotes are
   * not special.
   */
  ghost function MatchEnd(s: string, i: nat, depth: nat): (m: nat)
    requires depth >= 1
    ensures i <= m
    ensures i <= |s| ==> m <= |s|
    ensures i > |s| ==> m == i
    ensures m < |s| ==> s[m] == ')'
    decreases |s| - i
  {
    if i >= |s| then i
    else if s[i] == '(' then MatchEnd(s, i + 1, depth + 1)
    else if s[i] == ')' then (if depth == 1 then i else MatchEnd(s, i + 1, depth - 1))
    else MatchEnd(s, i + 1, depth)
  }

  /** The text between the `(` at `o` and its matching `)` (or the end of the line). */
  ghost function RawCommand(s: string, o: nat): (raw: string)
    requires o < |s|
    ensures |raw| < |s|
  {
    s[o + 1..MatchEnd(s, o + 1, 1)]
  }

  /** What `parseParenthesis` returns for the `(` at `o`, or the error its nested parse raises. */
  ghost function ParenthesisOf(s: string, o: nat): (r: Result<Parenthesis, SyntaxError>)
    requires o < |s|
    ensures r.Ok? ==> r.value.indexCount >= 1
    decreases |s|, 0, 0
  {
    var raw := RawCommand(s, o);
    var indexCount := |raw| + if MatchEnd(s, o + 1, 1) < |s| then 2 else 1;
    match CommandOf(raw)
    case Err(e) => Err(e)
    case Ok(command) => Ok(Parenthesis(command, indexCount))
  }

  method ParseParenthesis(input: string, inputOffset: nat) returns (r: Result<Parenthesis, SyntaxError>)
    requires inputOffset < |input|
    ensures r == ParenthesisOf(input, inputOffset)
    decreases |input|, 0
  {
    var parenthesisCount := 1;
    var indexCount := 1;
    var rawCommand := "";
    var i := inputOffset + 1;
    while i < |input|
      invariant inputOffset + 1 <= i <= |input|
      invariant rawCommand == input[inputOffset + 1..i]
      invariant parenthesisCount >= 1 && indexCount == 1
      invariant MatchEnd(input, inputOffset + 1, 1) == MatchEnd(input, i, parenthesisCount)
    {
      var c := input[i];
      if c == '(' {
        parenthesisCount := parenthesisCount + 1;
      } else if c == ')' {
        parenthesisCount := parenthesisCount - 1;
        if parenthesisCount == 0 {
          indexCount := indexCount + 1;
          break;
        }
      }
      assert input[inputOffset + 1..i + 1] == input[inputOffset + 1..i] + [c];
      rawCommand := rawCommand + [c];
      i := i + 1;
    }
    indexCount := indexCount + |rawCommand|;
    var command := ParseCommand(rawCommand);
    ParenthesisFromRaw(input, inputOffset, rawCommand, indexCount);
    match command
    case Err(e) => r := Err(e);
    case Ok(c) => r := Ok(Parenthesis(c, indexCount));
  }

  /** How the result of `ParseParenthesis` is put together from what its loop found. */
  lemma ParenthesisFromRaw(s: string, o: nat, raw: string, indexCount: nat)
    requires o < |s| && raw == s[o + 1..MatchEnd(s, o + 1, 1)]
    requires indexCount == |raw| + (if MatchEnd(s, o + 1, 1) < |s| then 2 else 1)
    ensures CommandOf(raw).Err? ==> ParenthesisOf(s, o) == Err(CommandOf(raw).error)
    ensures CommandOf(raw).Ok? ==> ParenthesisOf(s, o) == Ok(Parenthesis(CommandOf(raw).value, indexCount))
  {
  }

  // ---------------------------------------------------------------------------
  // parseStringLiteral

  /** The decoded text of a literal and the number of backslashes it contained. */
  datatype Body = Body(text: string, backslashes: nat)

  /**
   * The decoded text of a literal body scanned from `i`, and the number of
   * backslashes met. `\n` decodes to a line feed, `\X` to `X`, and a
   * backslash at the very end appends the text "undefined" (JavaScript's
   * `value += undefined`). The scan stops at the first unescaped quote.
   */
  ghost function LiteralBody(s: string, i: nat): Body
    decreases |s| + 1 - i
  {
    if i >= |s| then Body("", 0)
    else if s[i] == '\\' then
      var decoded := if i + 1 == |s| then "undefined" else if s[i + 1] == 'n' then "\n" else [s[i + 1]];
      var rest := LiteralBody(s, i + 2);
      Body(decoded + rest.text, rest.backslashes + 1)
    else if s[i] == '"' then Body("", 0)
    else
      var rest := LiteralBody(s, i + 1);
      Body([s[i]] + rest.text, rest.backslashes)
  }

  /** What `parseStringLiteral` returns for the quote at `o`. */
  ghost function StringLiteralOf(s: string, o: nat): StringLiteral
  {
    var body := LiteralBody(s, o + 1);
    StringLiteral(body.text, |body.text| + body.backslashes + 2)
  }

  method ParseStringLiteral(input: string, inputOffset: nat) returns (literal: StringLiteral)
    ensures literal == StringLiteralOf(input, inputOffset)
  {
    var value := "";
    var backslashCount := 0;
    var i := inputOffset + 1;
    while i < |input|
      invariant LiteralBody(input, inputOffset + 1) == Body(value + LiteralBody(input, i).text, backslashCount + LiteralBody(input, i).backslashes)
      decreases |input| - i
    {
      var c := input[i];
      if c == '\\' {
        backslashCount := backslashCount + 1;
        i := i + 1;
        var decoded := if i == |input| then "undefined" else if input[i] == 'n' then "\n" else [input[i]];
        AppendDecoded(value, decoded, LiteralBody(input, i + 1).text);
        value := value + decoded;
        i := i + 1;
        continue;
      }
      if c == '"' {
        break;
      }
      AppendDecoded(value, [c], LiteralBody(input, i + 1).text);
      value := value + [c];
      i := i + 1;
    }
    assert value + "" == value;
    literal := StringLiteral(value, |value| + backslashCount + 2);
  }

  lemma AppendDecoded(value: string, decoded: string, rest: string)
    ensures value + (decoded + rest) == (value + decoded) + rest
  {
  }

  // ---------------------------------------------------------------------------
  // parseCommandArguments

  /**
   * The arguments scanned from position `i` to the end of the line. After a
   * parenthesised or quoted argument the scan resumes at
   * `i + indexCount + 1`, after a bare token one past the space that ended it.
   */
  ghost function ArgumentsFrom(s: string, i: nat): (r: Result<seq<Argument>, SyntaxError>)
    decreases |s|, 1, |s| - i
  {
    if i >= |s| then Ok([])
    else if s[i] in Spaces then ArgumentsFrom(s, i + 1)
    else if s[i] == '(' then
      match ParenthesisOf(s, i)
      case Err(e) => Err(e)
      case Ok(p) => Prepend(CommandArgument(p.command), ArgumentsFrom(s, i + p.indexCount + 1))
    else if s[i] == '"' then
      var literal := StringLiteralOf(s, i);
      Prepend(StringArgument(literal.value), ArgumentsFrom(s, i + literal.indexCount + 1))
    else
      var e := RunEnd(s, i);
      Prepend(StringArgument(s[i..e]), ArgumentsFrom(s, e + 1))
  }

  /** A space between arguments is skipped. */
  lemma SpaceStep(s: string, i: nat)
    requires i < |s| && s[i] in Spaces
    ensures ArgumentsFrom(s, i) == ArgumentsFrom(s, i + 1)
  {
  }

  /** After the parenthesised argument at `i` the scan resumes at `i + indexCount + 1`. */
  lemma ParenthesisStep(s: string, i: nat)
    requires i < |s| && s[i] == '('
    ensures ParenthesisOf(s, i).Err? ==> ArgumentsFrom(s, i) == Err(ParenthesisOf(s, i).error)
    ensures ParenthesisOf(s, i).Ok? ==>
      var p := ParenthesisOf(s, i).value;
      ArgumentsFrom(s, i) == Prepend(CommandArgument(p.command), ArgumentsFrom(s, i + p.indexCount + 1))
  {
    CharSets.DelimitersAreInNoTable();
    assert s[i] in "-#()\"\\";
  }

  /** After the quoted argument at `i` the scan resumes at `i + indexCount + 1`. */
  lemma LiteralStep(s: string, i: nat)
    requires i < |s| && s[i] == '"'
    ensures ArgumentsFrom(s, i)
         == Prepend(StringArgument(StringLiteralOf(s, i).value), ArgumentsFrom(s, i + StringLiteralOf(s, i).indexCount + 1))
  {
    CharSets.DelimitersAreInNoTable();
    assert s[i] in "-#()\"\\";
  }

  /** A bare token runs to the next space; the scan resumes one past that space. */
  lemma BareTokenStep(s: string, i: nat)
    requires i < |s| && s[i] !in Spaces && s[i] != '(' && s[i] != '"'
    ensures ArgumentsFrom(s, i) == Prepend(StringArgument(s[i..RunEnd(s, i)]), ArgumentsFrom(s, RunEnd(s, i) + 1))
  {
  }

  method ParseCommandArguments(input: string, inputOffset: nat) returns (r: Result<seq<Argument>, SyntaxError>)
    ensures r == ArgumentsFrom(input, inputOffset)
    decreases |input|, 1
  {
    var commandArguments: seq<Argument> := [];
    var i := inputOffset;
    PrependAllNothing(ArgumentsFrom(input, i));
    while i < |input|
      invariant Collected(input, inputOffset, commandArguments, i)
      decreases |input| - i
    {
      var c := input[i];
      if c in Spaces {
        KeepsAfterSpace(input, inputOffset, commandArguments, i);
        i := i + 1;
        continue;
      }
      if c == '(' {
        var parenthesis := ParseParenthesis(input, i);
        if parenthesis.Err? {
          AbortsOnParenthesis(input, inputOffset, commandArguments, i);
          return Err(parenthesis.error);
        }
        var p := parenthesis.value;
        KeepsAfterParenthesis(input, inputOffset, commandArguments, i, p);
        commandArguments := commandArguments + [CommandArgument(p.command)];
        i := i + p.indexCount + 1;
        continue;
      }
      if c == '"' {
        var literal := ParseStringLiteral(input, i);
        KeepsAfterLiteral(input, inputOffset, commandArguments, i, literal);
        commandArguments := commandArguments + [StringArgument(literal.value)];
        i := i + literal.indexCount + 1;
        continue;
      }
      var value, end := ReadWord(input, i);
      KeepsAfterToken(input, inputOffset, commandArguments, i, end, value);
      commandArguments := commandArguments + [StringArgument(value)];
      i := end + 1;
    }
    assert commandArguments + [] == commandArguments;
    r := Ok(commandArguments);
  }

  /** The inner loop of `parseCommandArguments`: the run of non-space characters from `start`. */
  method ReadWord(input: string, start: nat) returns (value: string, end: nat)
    requires start <= |input|
    ensures end == RunEnd(input, start) && value == input[start..end]
  {
    value := "";
    end := start;
    while end < |input|
      invariant start <= end <= |input|
      invariant value == input[start..end]
      invariant RunEnd(input, start) == RunEnd(input, end)
    {
      if input[end] in Spaces {
        break;
      }
      value := value + [input[end]];
      end := end + 1;
    }
  }

  /** The loop invariant of `ParseCommandArguments`: what is collected, followed by what is left. */
  ghost predicate Collected(s: string, o: nat, args: seq<Argument>, i: nat)
  {
    ArgumentsFrom(s, o) == PrependAll(args, ArgumentsFrom(s, i))
  }

  lemma KeepsAfterSpace(s: string, o: nat, args: seq<Argument>, i: nat)
    requires i < |s| && s[i] in Spaces && Collected(s, o, args, i)
    ensures Collected(s, o, args, i + 1)
  {
    SpaceStep(s, i);
  }

  lemma AbortsOnParenthesis(s: string, o: nat, args: seq<Argument>, i: nat)
    requires i < |s| && s[i] == '(' && ParenthesisOf(s, i).Err? && Collected(s, o, args, i)
    ensures ArgumentsFrom(s, o) == Err(ParenthesisOf(s, i).error)
  {
    ParenthesisStep(s, i);
  }

  lemma KeepsAfterParenthesis(s: string, o: nat, args: seq<Argument>, i: nat, p: Parenthesis)
    requires i < |s| && s[i] == '(' && ParenthesisOf(s, i) == Ok(p) && Collected(s, o, args, i)
    ensures Collected(s, o, args + [CommandArgument(p.command)], i + p.indexCount + 1)
  {
    ParenthesisStep(s, i);
    PrependAllStep(args, CommandArgument(p.command), ArgumentsFrom(s, i + p.indexCount + 1));
  }

  lemma KeepsAfterLiteral(s: string, o: nat, args: seq<Argument>, i: nat, literal: StringLiteral)
    requires i < |s| && s[i] == '"' && literal == StringLiteralOf(s, i) && Collected(s, o, args, i)
    ensures Collected(s, o, args + [StringArgument(literal.value)], i + literal.indexCount + 1)
  {
    LiteralStep(s, i);
    PrependAllStep(args, StringArgument(literal.value), ArgumentsFrom(s, i + literal.indexCount + 1));
  }

  lemma KeepsAfterToken(s: string, o: nat, args: seq<Argument>, i: nat, end: nat, value: string)
    requires i < |s| && s[i] !in Spaces && s[i] != '(' && s[i] != '"' && Collected(s, o, args, i)
    requires end == RunEnd(s, i) && value == s[i..end]
    ensures Collected(s, o, args + [StringArgument(value)], end + 1)
  {
    BareTokenStep(s, i);
    PrependAllStep(args, StringArgument(value), ArgumentsFrom(s, end + 1));
  }

  lemma PrependAllNothing(r: Result<seq<Argument>, SyntaxError>)
    ensures PrependAll([], r) == r
  {
    if r.Ok? {
      assert [] + r.value == r.value;
    }
  }

  /** Collecting one more argument keeps the invariant of the argument loop. */
  lemma PrependAllStep(args: seq<Argument>, a: Argument, rest: Result<seq<Argument>, SyntaxError>)
    ensures PrependAll(args, Prepend(a, rest)) == PrependAll(args + [a], rest)
  {
    if rest.Ok? {
      assert args + ([a] + rest.value) == (args + [a]) + rest.value;
    }
  }

  // ---------------------------------------------------------------------------
  // parseCommand

  /** What `parseCommand` returns: the name, then the arguments scanned from `|name| + 1`. */
  ghost function CommandOf(s: string): Result<Command, SyntaxError>
    decreases |s|, 2, 0
  {
    match CommandNameOf(s)
    case Err(e) => Err(e)
    case Ok(name) =>
      match ArgumentsFrom(s, |name| + 1)
      case Err(e) => Err(e)
      case Ok(args) => Ok(Command(name, args))
  }

  method ParseCommand(input: string) returns (r: Result<Command, SyntaxError>)
    ensures r == CommandOf(input)
    decreases |input|, 2
  {
    var commandName := ParseCommandName(input);
    if commandName.Err? {
      return Err(commandName.error);
    }
    var arguments := ParseCommandArguments(input, |commandName.value| + 1);
    if arguments.Err? {
      return Err(arguments.error);
    }
    r := Ok(Command(commandName.value, arguments.value));
  }

  // ---------------------------------------------------------------------------
  // isIgnoreLine

  /** Scanning from `i`: ignorable unless an uppercase letter comes before any `#`. */
  ghost function IgnorableFrom(s: string, i: nat): bool
    decreases |s| - i
  {
    if i >= |s| then true
    else if s[i] in Uppercase then false
    else if s[i] == '#' then true
    else IgnorableFrom(s, i + 1)
  }

  ghost predicate Ignorable(s: string)
  {
    IgnorableFrom(s, 0)
  }

  method IsIgnoreLine(input: string) returns (ignore: bool)
    ensures ignore == Ignorable(input)
  {
    for i := 0 to |input|
      invariant IgnorableFrom(input, 0) == IgnorableFrom(input, i)
    {
      var c := input[i];
      if c in Uppercase {
        return false;
      }
      if c == '#' {
        return true;
      }
    }
    return true;
  }

  // ---------------------------------------------------------------------------
  // parse

  /** The position of the first line feed at or after `i`, or the end of the text. */
  function LineEnd(text: string, i: nat): (e: nat)
    requires i <= |text|
    ensures i <= e <= |text|
    ensures forall k :: i <= k < e ==> text[k] != '\n'
    ensures e < |text| ==> text[e] == '\n'
    decreases |text| - i
  {
    if i == |text| || text[i] == '\n' then i else LineEnd(text, i + 1)
  }

  /** `text.split('\n')`: the pieces between line feeds; never empty. */
  function Lines(text: string): (lines: seq<string>)
    ensures |lines| >= 1
    ensures forall k :: 0 <= k < |lines| ==> '\n' !in lines[k]
    decreases |text|
  {
    var e := LineEnd(text, 0);
    if e == |text| then [text] else [text[..e]] + Lines(text[e + 1..])
  }

  /** The inverse of `Lines`: the pieces glued back with line feeds. */
  ghost function Join(lines: seq<string>): string
    requires |lines| >= 1
  {
    if |lines| == 1 then lines[0] else lines[0] + "\n" + Join(lines[1..])
  }

  /** The commands of the given lines, in order, or the first line's syntax error. */
  ghost function CommandsOf(lines: seq<string>): Result<seq<Command>, SyntaxError>
  {
    if lines == [] then Ok([])
    else
      match CommandsOf(lines[..|lines| - 1])
      case Err(e) => Err(e)
      case Ok(commands) =>
        var last := lines[|lines| - 1];
        if Ignorable(last) then Ok(commands)
        else match CommandOf(last)
          case Err(e) => Err(e)
          case Ok(c) => Ok(commands + [c])
  }

  /** What `parse` returns for a whole source text. */
  ghost function ProgramOf(text: string): Result<seq<Command>, SyntaxError>
  {
    CommandsOf(Lines(text))
  }

  /** A syntax error in the lines read so far is the result of the whole parse. */
  lemma {:induction false} ErrorAborts(lines: seq<string>, k: nat)
    requires k <= |lines| && CommandsOf(lines[..k]).Err?
    ensures CommandsOf(lines) == CommandsOf(lines[..k])
    decreases |lines| - k
  {
    if k < |lines| {
      assert lines[..k + 1][..k] == lines[..k];
      ErrorAborts(lines, k + 1);
    } else {
      assert lines[..k] == lines;
    }
  }

  method Parse(input: string) returns (r: Result<seq<Command>, SyntaxError>)
    ensures r == ProgramOf(input)
  {
    var rawCommands := Lines(input);
    var commands: seq<Command> := [];
    for k := 0 to |rawCommands|
      invariant CommandsOf(rawCommands[..k]) == Ok(commands)
    {
      assert rawCommands[..k + 1][..k] == rawCommands[..k];
      var ignore := IsIgnoreLine(rawCommands[k]);
      if !ignore {
        var command := ParseCommand(rawCommands[k]);
        if command.Err? {
          ErrorAborts(rawCommands, k + 1);
          return Err(command.error);
        }
        commands := commands + [command.value];
      }
    }
    assert rawCommands[..|rawCommands|] == rawCommands;
    r := Ok(commands);
  }
}
