/**
 * What the parser of src/KyotamdParser.ts promises, proved about the
 * specification functions of module Parser (which its methods are proved
 * equal to).
 */
module ParserProperties {
  import opened Wrappers
  import opened CharSets
  import opened Parser

  // ---------------------------------------------------------------------------
  // Command names

  /**
   * The naming convention: a non-empty run without spaces that starts with an
   * uppercase letter, where every later uppercase letter follows a `-` and
   * every `-` is followed by an uppercase letter or a digit.
   */
  ghost predicate WellFormedName(n: string)
  {
    && |n| >= 1
    && n[0] in Uppercase
    && (forall k :: 0 <= k < |n| ==> n[k] !in Spaces)
    && (forall k :: 0 < k < |n| && n[k] in Uppercase ==> n[k - 1] == '-')
    && (forall k :: 0 <= k < |n| && n[k] == '-' ==> k + 1 < |n| && (n[k + 1] in Uppercase || n[k + 1] in DecimalDigits))
  }

  lemma {:induction false} FirstNameErrorIsAWordError(s: string, i: nat)
    requires 0 < i
    ensures FirstNameError(s, i) != Some(MustStartWithUppercase)
    decreases |s| - i
  {
    if i < |s| && s[i] !in Spaces && NameCharError(s, i).None? {
      FirstNameErrorIsAWordError(s, i + 1);
    }
  }

  lemma {:induction false} FirstNameErrorNone(s: string, i: nat)
    requires 0 < i
    ensures FirstNameError(s, i).None? <==> forall k :: i <= k < RunEnd(s, i) ==> NameCharError(s, k).None?
    decreases |s| - i
  {
    if i < |s| && s[i] !in Spaces {
      FirstNameErrorNone(s, i + 1);
    }
  }

  /**
   * `parseCommandName` raises "must start with an uppercase letter" exactly
   * when the first character after the leading spaces is missing or is not
   * an uppercase letter; in particular on an empty or all-space line.
   */
  lemma CommandNameStartRule(s: string)
    ensures CommandNameOf(s) == Err(MustStartWithUppercase)
        <==> LeadingSpaces(s) == |s| || s[LeadingSpaces(s)] !in Uppercase
    ensures (forall k :: 0 <= k < |s| ==> s[k] in Spaces) ==> CommandNameOf(s) == Err(MustStartWithUppercase)
  {
    var o := LeadingSpaces(s);
    if o < |s| {
      FirstNameErrorIsAWordError(s, o + 1);
    }
  }

  /** One position of the name loop, read on the run `s[o..e]`. */
  lemma NameCharAt(s: string, o: nat, e: nat, k: nat)
    requires o < |s| && e == RunEnd(s, o + 1) && 0 < k < e - o
    ensures NameCharError(s, o + k).None?
        <==> ((s[o..e][k] in Uppercase ==> s[o..e][k - 1] == '-')
          && (s[o..e][k] == '-' ==> k + 1 < e - o && (s[o..e][k + 1] in Uppercase || s[o..e][k + 1] in DecimalDigits)))
  {
    var n := s[o..e];
    var i := o + k;
    TablesAreDisjoint();
    assert s[i] == n[k] && s[i - 1] == n[k - 1];
    if i + 1 < |s| && (s[i + 1] in Uppercase || s[i + 1] in DecimalDigits) {
      assert s[i + 1] !in Spaces;
      assert i + 1 < e;
      assert n[k + 1] == s[i + 1];
    }
    if k + 1 < |n| {
      assert n[k + 1] == s[i + 1];
    }
  }

  lemma NoNameErrorIsWellFormed(s: string, o: nat)
    requires o < |s| && s[o] in Uppercase && FirstNameError(s, o + 1).None?
    ensures WellFormedName(s[o..RunEnd(s, o + 1)])
  {
    var e := RunEnd(s, o + 1);
    var n := s[o..e];
    FirstNameErrorNone(s, o + 1);
    assert n[0] == s[o];
    assert n[0] != '-' by {
      DelimitersAreInNoTable();
      assert '-' in "-#()\"\\";
    }
    TablesAreDisjoint();
    assert n[0] !in Spaces;
    forall k | 0 < k < |n|
      ensures n[k] !in Spaces
      ensures n[k] in Uppercase ==> n[k - 1] == '-'
    {
      NameCharAt(s, o, e, k);
      assert n[k] == s[o + k];
    }
    forall k | 0 <= k < |n| && n[k] == '-'
      ensures k + 1 < |n| && (n[k + 1] in Uppercase || n[k + 1] in DecimalDigits)
    {
      if k > 0 {
        NameCharAt(s, o, e, k);
      }
    }
  }

  lemma WellFormedHasNoNameError(s: string, o: nat)
    requires o < |s| && WellFormedName(s[o..RunEnd(s, o + 1)])
    ensures FirstNameError(s, o + 1).None?
  {
    var e := RunEnd(s, o + 1);
    FirstNameErrorNone(s, o + 1);
    forall i | o + 1 <= i < e
      ensures NameCharError(s, i).None?
    {
      NameCharAt(s, o, e, i - o);
    }
  }

  /**
   * A name is accepted exactly when the run of non-space characters after the
   * leading spaces follows the naming convention, and the accepted name is
   * that whole run: it ends at a space or at the end of the line.
   */
  lemma CommandNameConvention(s: string)
    ensures CommandNameOf(s).Ok?
        <==> (LeadingSpaces(s) < |s| && WellFormedName(s[LeadingSpaces(s)..RunEnd(s, LeadingSpaces(s) + 1)]))
    ensures CommandNameOf(s).Ok? ==>
      var o := LeadingSpaces(s);
      var n := CommandNameOf(s).value;
      && n == s[o..RunEnd(s, o + 1)]
      && (o + |n| == |s| || s[o + |n|] in Spaces)
  {
    var o := LeadingSpaces(s);
    if o < |s| {
      if s[o] in Uppercase && FirstNameError(s, o + 1).None? {
        NoNameErrorIsWellFormed(s, o);
      } else if s[o] in Uppercase {
        if WellFormedName(s[o..RunEnd(s, o + 1)]) {
          WellFormedHasNoNameError(s, o);
        }
      }
    }
  }

  // ---------------------------------------------------------------------------
  // String literals

  /** Where the literal scan from `i` stops: the closing quote, or past the end of the line. */
  ghost function LiteralStop(s: string, i: nat): (stop: nat)
    ensures i <= stop
    ensures stop < |s| ==> s[stop] == '"'
    decreases |s| + 1 - i
  {
    if i >= |s| then i
    else if s[i] == '\\' then LiteralStop(s, i + 2)
    else if s[i] == '"' then i
    else LiteralStop(s, i + 1)
  }

  lemma {:induction false} LiteralBodySpan(s: string, i: nat)
    requires LiteralStop(s, i) < |s|
    ensures |LiteralBody(s, i).text| + LiteralBody(s, i).backslashes == LiteralStop(s, i) - i
    decreases |s| + 1 - i
  {
    if s[i] == '\\' {
      LiteralBodySpan(s, i + 2);
    } else if s[i] != '"' {
      LiteralBodySpan(s, i + 1);
    }
  }

  /**
   * For a literal whose closing quote is on the line, `indexCount` is the
   * number of characters from the opening quote to the closing quote
   * inclusive.
   */
  lemma StringLiteralSpan(s: string, o: nat)
    requires LiteralStop(s, o + 1) < |s|
    ensures s[LiteralStop(s, o + 1)] == '"'
    ensures StringLiteralOf(s, o).indexCount == LiteralStop(s, o + 1) - o + 1
  {
    LiteralBodySpan(s, o + 1);
  }

  /** How a character is written inside a literal so that it decodes to itself. */
  function EscapeChar(c: char): (e: string)
    ensures 1 <= |e| <= 2
  {
    if c == '"' || c == '\\' then ['\\', c]
    else if c == '\n' then "\\n"
    else [c]
  }

  /** The body of a literal that decodes to `v`. */
  function Escape(v: string): (e: string)
    ensures |v| <= |e|
  {
    if v == [] then [] else EscapeChar(v[0]) + Escape(v[1..])
  }

  /** Decoding one escaped character at `i`. */
  lemma DecodeEscapedChar(t: string, i: nat, c: char)
    requires i + |EscapeChar(c)| < |t|
    requires forall j :: 0 <= j < |EscapeChar(c)| ==> t[i + j] == EscapeChar(c)[j]
    ensures var rest := LiteralBody(t, i + |EscapeChar(c)|);
      LiteralBody(t, i) == Body([c] + rest.text, rest.backslashes + |EscapeChar(c)| - 1)
  {
    assert t[i] == EscapeChar(c)[0];
    if |EscapeChar(c)| == 2 {
      assert t[i + 1] == EscapeChar(c)[1];
    }
  }

  lemma {:induction false} LiteralBodyOfEscape(t: string, i: nat, v: string)
    requires i + |Escape(v)| < |t|
    requires forall j :: 0 <= j < |Escape(v)| ==> t[i + j] == Escape(v)[j]
    requires t[i + |Escape(v)|] == '"'
    ensures LiteralBody(t, i) == Body(v, |Escape(v)| - |v|)
    decreases |v|
  {
    if v != [] {
      var head := EscapeChar(v[0]);
      var tail := Escape(v[1..]);
      assert Escape(v) == head + tail;
      forall j | 0 <= j < |tail|
        ensures t[i + |head| + j] == tail[j]
      {
        assert t[i + (|head| + j)] == Escape(v)[|head| + j];
      }
      LiteralBodyOfEscape(t, i + |head|, v[1..]);
      forall j | 0 <= j < |head|
        ensures t[i + j] == head[j]
      {
        assert t[i + j] == Escape(v)[j];
      }
      DecodeEscapedChar(t, i, v[0]);
      assert [v[0]] + v[1..] == v;
    }
  }

  /**
   * Decoding inverts escaping: the literal `"` + Escape(v) + `"` decodes to
   * `v`, whatever follows it, and consumes exactly its own length.
   */
  lemma StringLiteralRoundTrip(v: string, rest: string)
    ensures StringLiteralOf("\"" + Escape(v) + "\"" + rest, 0) == StringLiteral(v, |Escape(v)| + 2)
  {
    var t := "\"" + Escape(v) + "\"" + rest;
    forall j | 0 <= j < |Escape(v)|
      ensures t[1 + j] == Escape(v)[j]
    {
    }
    LiteralBodyOfEscape(t, 1, v);
  }

  // ---------------------------------------------------------------------------
  // Parentheses

  /** The number of occurrences of `c` in `t`. */
  ghost function Count(t: string, c: char): nat
  {
    if t == [] then 0 else (if t[0] == c then 1 else 0) + Count(t[1..], c)
  }

  lemma CountFront(s: string, i: nat, j: nat, c: char)
    requires i < j <= |s|
    ensures Count(s[i..j], c) == (if s[i] == c then 1 else 0) + Count(s[i + 1..j], c)
  {
    assert s[i..j][1..] == s[i + 1..j];
  }

  lemma {:induction false} MatchEndDepth(s: string, i: nat, depth: nat)
    requires depth >= 1 && i <= |s|
    ensures forall j :: i <= j <= MatchEnd(s, i, depth) ==> Count(s[i..j], ')') < depth + Count(s[i..j], '(')
    ensures MatchEnd(s, i, depth) < |s| ==>
      depth + Count(s[i..MatchEnd(s, i, depth)], '(') == Count(s[i..MatchEnd(s, i, depth)], ')') + 1
    decreases |s| - i
  {
    var m := MatchEnd(s, i, depth);
    if i < |s| && !(s[i] == ')' && depth == 1) {
      var next := if s[i] == '(' then depth + 1 else if s[i] == ')' then depth - 1 else depth;
      MatchEndDepth(s, i + 1, next);
      assert m == MatchEnd(s, i + 1, next);
      forall j | i < j <= m
        ensures Count(s[i..j], ')') < depth + Count(s[i..j], '(')
      {
        CountFront(s, i, j, ')');
        CountFront(s, i, j, '(');
      }
      if m < |s| {
        CountFront(s, i, m, ')');
        CountFront(s, i, m, '(');
      }
    }
  }

  /**
   * The raw text of a parenthesised argument is balanced: every prefix has
   * at least as many `(` as `)`. When the matching `)` is found, the counts
   * are equal and `indexCount` spans from `(` to `)` inclusive.
   */
  lemma ParenthesisBalance(s: string, o: nat)
    requires o < |s|
    ensures var raw := RawCommand(s, o);
      forall k :: 0 <= k <= |raw| ==> Count(raw[..k], ')') <= Count(raw[..k], '(')
    ensures var raw := RawCommand(s, o);
      MatchEnd(s, o + 1, 1) < |s| ==>
        && s[o + 1 + |raw|] == ')'
        && Count(raw, '(') == Count(raw, ')')
        && (ParenthesisOf(s, o).Ok? ==> ParenthesisOf(s, o).value.indexCount == |raw| + 2)
  {
    var raw := RawCommand(s, o);
    var m := MatchEnd(s, o + 1, 1);
    MatchEndDepth(s, o + 1, 1);
    forall k | 0 <= k <= |raw|
      ensures Count(raw[..k], ')') <= Count(raw[..k], '(')
    {
      assert raw[..k] == s[o + 1..o + 1 + k];
    }
  }

  // ---------------------------------------------------------------------------
  // Arguments

  /** The maximal runs of non-space characters of `t`, in order. */
  ghost function Words(t: string): (words: seq<string>)
    ensures forall k :: 0 <= k < |words| ==> |words[k]| > 0 && forall j :: 0 <= j < |words[k]| ==> words[k][j] !in Spaces
    decreases |t|
  {
    if t == [] then []
    else if t[0] in Spaces then Words(t[1..])
    else
      var e := RunEnd(t, 0);
      [t[..e]] + Words(t[e..])
  }

  ghost function AsArguments(words: seq<string>): (args: seq<Argument>)
    ensures |args| == |words|
    ensures forall k :: 0 <= k < |words| ==> args[k] == StringArgument(words[k])
  {
    if words == [] then [] else [StringArgument(words[0])] + AsArguments(words[1..])
  }

  lemma RunEndShift(s: string, i: nat, k: nat)
    requires i + k <= |s|
    ensures RunEnd(s[i..], k) == RunEnd(s, i + k) - i
    decreases |s| - i - k
  {
    if i + k < |s| && s[i + k] !in Spaces {
      RunEndShift(s, i, k + 1);
    }
  }

  /**
   * On a line without quotes or parentheses from `i` on, the arguments are
   * the whitespace-separated words of the rest of the line: each one
   * non-empty and free of spaces.
   */
  lemma {:induction false} BareArgumentsAreWords(s: string, i: nat)
    requires i <= |s|
    requires forall k :: i <= k < |s| ==> s[k] != '(' && s[k] != '"'
    ensures ArgumentsFrom(s, i) == Ok(AsArguments(Words(s[i..])))
    decreases |s| - i
  {
    if i < |s| {
      assert s[i..][0] == s[i];
      if s[i] in Spaces {
        SpaceStep(s, i);
        BareArgumentsAreWords(s, i + 1);
        assert s[i..][1..] == s[i + 1..];
      } else {
        var e := RunEnd(s, i);
        BareTokenStep(s, i);
        RunEndShift(s, i, 0);
        assert s[i..][..e - i] == s[i..e];
        if e < |s| {
          BareArgumentsAreWords(s, e + 1);
          assert s[i..][e - i..] == s[e..];
          assert s[e..][0] in Spaces;
          assert s[e..][1..] == s[e + 1..];
        } else {
          assert s[i..][e - i..] == [];
        }
        assert AsArguments([s[i..e]] + Words(s[e..])) == [StringArgument(s[i..e])] + AsArguments(Words(s[e..]));
      }
    }
  }

  /**
   * After a quoted argument whose closing quote is at `q`, the scan resumes
   * at `q + 2`: the character right after the closing quote is skipped.
   */
  lemma ResumeAfterLiteral(s: string, o: nat)
    requires o < |s| && s[o] == '"' && LiteralStop(s, o + 1) < |s|
    ensures ArgumentsFrom(s, o)
         == Prepend(StringArgument(StringLiteralOf(s, o).value), ArgumentsFrom(s, LiteralStop(s, o + 1) + 2))
  {
    LiteralStep(s, o);
    StringLiteralSpan(s, o);
  }

  /**
   * After a parenthesised argument whose matching `)` is at `m`, the scan
   * resumes at `m + 2`: the character right after `)` is skipped.
   */
  lemma ResumeAfterParenthesis(s: string, o: nat)
    requires o < |s| && s[o] == '(' && MatchEnd(s, o + 1, 1) < |s| && ParenthesisOf(s, o).Ok?
    ensures ArgumentsFrom(s, o)
         == Prepend(CommandArgument(ParenthesisOf(s, o).value.command), ArgumentsFrom(s, MatchEnd(s, o + 1, 1) + 2))
  {
    var m := MatchEnd(s, o + 1, 1);
    assert |RawCommand(s, o)| == m - (o + 1);
    match ParenthesisOf(s, o)
    case Ok(p) =>
      assert p.indexCount == m - o + 1;
      ParenthesisStep(s, o);
  }

  /** Two adjacent literals: the opening quote of the second one is skipped. */
  lemma AdjacentLiteralsLoseAQuote()
    ensures ArgumentsFrom("\"a\"\"b\"", 0) == Ok([StringArgument("a"), StringArgument("b\"")])
  {
    var s := "\"a\"\"b\"";
    assert 'b' !in Spaces && '"' !in Spaces;
    LiteralStep(s, 0);
    assert LiteralBody(s, 1) == Body("a", 0) by {
      assert LiteralBody(s, 2) == Body("", 0);
    }
    assert StringLiteralOf(s, 0) == StringLiteral("a", 3);
    assert RunEnd(s, 4) == 6 by {
      assert RunEnd(s, 6) == 6;
      assert RunEnd(s, 5) == 6;
    }
    BareTokenStep(s, 4);
    assert ArgumentsFrom(s, 4) == Prepend(StringArgument(s[4..6]), ArgumentsFrom(s, 7));
    assert s[4..6] == "b\"";
    assert ArgumentsFrom(s, 7) == Ok([]);
    assert [StringArgument("b\"")] + [] == [StringArgument("b\"")];
    assert ArgumentsFrom(s, 4) == Ok([StringArgument("b\"")]);
    assert ArgumentsFrom(s, 0) == Prepend(StringArgument("a"), ArgumentsFrom(s, 4));
    assert [StringArgument("a")] + [StringArgument("b\"")] == [StringArgument("a"), StringArgument("b\"")];
  }

  // ---------------------------------------------------------------------------
  // Commands

  /**
   * `parseCommand` takes the name from `parseCommandName` and scans the
   * arguments from offset `|name| + 1`, whatever the indentation. Without
   * leading spaces that offset is just past the one character that ends
   * the name.
   */
  lemma CommandArgumentsStartAfterName(s: string)
    ensures CommandOf(s).Ok? ==>
      var c := CommandOf(s).value;
      CommandNameOf(s) == Ok(c.name) && ArgumentsFrom(s, |c.name| + 1) == Ok(c.arguments)
    ensures CommandOf(s).Ok? && LeadingSpaces(s) == 0 ==>
      var n := CommandOf(s).value.name;
      |n| <= |s| && s[..|n|] == n && (|n| == |s| || s[|n|] in Spaces)
  {
    if CommandOf(s).Ok? {
      CommandNameConvention(s);
    }
  }

  /** With indentation, the tail of the name is scanned again as an argument. */
  lemma IndentedCommandRescansName()
    ensures CommandOf("  Ab") == Ok(Command("Ab", [StringArgument("b")]))
  {
    var s := "  Ab";
    assert CommandNameOf(s) == Ok("Ab") by {
      assert ' ' in Spaces && 'A' in Uppercase && 'b' !in Spaces && 'b' !in Uppercase;
      assert LeadingSpaces(s) == 2 by {
        assert s[1..][1..] == s[2..];
        assert LeadingSpaces(s[2..]) == 0;
      }
      assert RunEnd(s, 3) == 4;
      assert FirstNameError(s, 3) == None by {
        assert NameCharError(s, 3) == None;
      }
      assert s[2..4] == "Ab";
    }
    assert ArgumentsFrom(s, 3) == Ok([StringArgument("b")]) by {
      assert 'b' !in Spaces && RunEnd(s, 3) == 4;
      BareTokenStep(s, 3);
      assert s[3..4] == "b";
      assert ArgumentsFrom(s, 5) == Ok([]);
      assert [StringArgument("b")] + [] == [StringArgument("b")];
    }
  }

  // ---------------------------------------------------------------------------
  // Ignorable lines and whole texts

  lemma {:induction false} IgnorableFromRule(s: string, i: nat)
    ensures !IgnorableFrom(s, i)
        <==> exists k :: i <= k < |s| && s[k] in Uppercase && forall j :: i <= j < k ==> s[j] != '#'
    decreases |s| - i
  {
    DelimitersAreInNoTable();
    assert '#' in "-#()\"\\";
    if i < |s| {
      IgnorableFromRule(s, i + 1);
      if s[i] !in Uppercase && s[i] != '#' {
        if !IgnorableFrom(s, i + 1) {
          var k :| i + 1 <= k < |s| && s[k] in Uppercase && forall j :: i + 1 <= j < k ==> s[j] != '#';
          assert forall j :: i <= j < k ==> s[j] != '#';
        }
      }
    }
  }

  /**
   * `isIgnoreLine` is false exactly when an uppercase letter occurs before
   * any `#`; a line without uppercase letters (blank, lowercase) is ignored.
   */
  lemma IgnoreLineRule(s: string)
    ensures !Ignorable(s) <==> exists k :: 0 <= k < |s| && s[k] in Uppercase && '#' !in s[..k]
    ensures (forall k :: 0 <= k < |s| ==> s[k] !in Uppercase) ==> Ignorable(s)
  {
    IgnorableFromRule(s, 0);
    if !Ignorable(s) {
      var k :| 0 <= k < |s| && s[k] in Uppercase && forall j :: 0 <= j < k ==> s[j] != '#';
      assert '#' !in s[..k];
    } else {
      forall k | 0 <= k < |s| && s[k] in Uppercase
        ensures '#' in s[..k]
      {
        var j :| 0 <= j < k && s[j] == '#';
        assert s[..k][j] == '#';
      }
    }
  }

  /** Gluing the lines of a text back with line feeds gives the text. */
  lemma {:induction false} LinesJoinRoundTrip(text: string)
    ensures Join(Lines(text)) == text
    decreases |text|
  {
    var e := LineEnd(text, 0);
    if e < |text| {
      LinesJoinRoundTrip(text[e + 1..]);
      assert text == text[..e] + "\n" + text[e + 1..];
    }
  }

  /** Splitting lines that hold no line feed after joining them gives them back. */
  lemma {:induction false} JoinLinesRoundTrip(lines: seq<string>)
    requires |lines| >= 1
    requires forall k :: 0 <= k < |lines| ==> '\n' !in lines[k]
    ensures Lines(Join(lines)) == lines
    decreases |lines|
  {
    var text := Join(lines);
    var first := lines[0];
    var e := LineEnd(text, 0);
    if |lines| > 1 {
      JoinLinesRoundTrip(lines[1..]);
      assert text == first + "\n" + Join(lines[1..]);
      assert text[|first|] == '\n';
      assert forall k :: 0 <= k < |first| ==> text[k] == first[k];
      assert e == |first|;
      assert text[..e] == first;
      assert text[e + 1..] == Join(lines[1..]);
    }
  }

  /** The lines `parse` keeps: the non-ignorable ones, in order. */
  ghost function Kept(lines: seq<string>): (kept: seq<string>)
    ensures forall k :: 0 <= k < |kept| ==> !Ignorable(kept[k])
  {
    if lines == [] then []
    else Kept(lines[..|lines| - 1]) + (if Ignorable(lines[|lines| - 1]) then [] else [lines[|lines| - 1]])
  }

  /**
   * `parse` yields one command per kept line, in line order, and succeeds
   * exactly when every kept line parses; otherwise it fails with the error
   * of the first kept line that does not.
   */
  lemma {:induction false} OneCommandPerKeptLine(lines: seq<string>)
    ensures CommandsOf(lines).Ok? <==> forall k :: 0 <= k < |Kept(lines)| ==> CommandOf(Kept(lines)[k]).Ok?
    ensures CommandsOf(lines).Ok? ==>
      && |CommandsOf(lines).value| == |Kept(lines)|
      && forall k :: 0 <= k < |Kept(lines)| ==> CommandOf(Kept(lines)[k]) == Ok(CommandsOf(lines).value[k])
    ensures CommandsOf(lines).Err? ==>
      exists k :: 0 <= k < |Kept(lines)| && CommandOf(Kept(lines)[k]) == Err(CommandsOf(lines).error)
        && forall j :: 0 <= j < k ==> CommandOf(Kept(lines)[j]).Ok?
    decreases |lines|
  {
    if lines != [] {
      var init := lines[..|lines| - 1];
      var last := lines[|lines| - 1];
      OneCommandPerKeptLine(init);
      var kept := Kept(lines);
      assert Kept(init) == kept[..|Kept(init)|];
      if CommandsOf(init).Err? {
        var k :| 0 <= k < |Kept(init)| && CommandOf(Kept(init)[k]) == Err(CommandsOf(init).error)
          && forall j :: 0 <= j < k ==> CommandOf(Kept(init)[j]).Ok?;
        assert kept[k] == Kept(init)[k];
      } else if !Ignorable(last) {
        assert kept == Kept(init) + [last];
        if CommandOf(last).Err? {
          assert kept[|Kept(init)|] == last;
        }
      }
    }
  }

  /** A whole text: the commands of its kept lines, in order. */
  lemma ParseOneCommandPerLine(text: string)
    ensures ProgramOf(text).Ok? <==> forall k :: 0 <= k < |Kept(Lines(text))| ==> CommandOf(Kept(Lines(text))[k]).Ok?
    ensures ProgramOf(text).Ok? ==>
      && |ProgramOf(text).value| == |Kept(Lines(text))|
      && forall k :: 0 <= k < |Kept(Lines(text))| ==> CommandOf(Kept(Lines(text))[k]) == Ok(ProgramOf(text).value[k])
    ensures ProgramOf(text).Err? ==>
      exists k :: 0 <= k < |Kept(Lines(text))| && CommandOf(Kept(Lines(text))[k]) == Err(ProgramOf(text).error)
        && forall j :: 0 <= j < k ==> CommandOf(Kept(Lines(text))[j]).Ok?
  {
    OneCommandPerKeptLine(Lines(text));
  }
}
