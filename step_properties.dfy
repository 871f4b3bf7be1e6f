/** Properties of one `next_token` step: the indent stack, the bracket
    stack, the indentation checks, the blocks, and the tokens it builds. */
module StepProperties {
  import opened Tokens
  import opened Lexicon
  import opened Matchers
  import opened Blocks
  import opened ScanSpec

  /** The indent stack holds strictly increasing, positive widths. */
  ghost predicate StrictlyIncreasing(stack: seq<int>) {
    (forall i :: 0 <= i < |stack| ==> 0 < stack[i])
    && (forall i, j :: 0 <= i < j < |stack| ==> stack[i] < stack[j])
  }

  /** A push above the top or a pop keeps the stack strictly increasing. */
  lemma StackStepKeepsIncreasing(s: State, token: Option<Token>, t: State)
    requires StrictlyIncreasing(s.indentStack) && StackStep(s, token, t)
    ensures StrictlyIncreasing(t.indentStack)
  {
    if token.Some? && token.value.kind == Indent {
      var w := |token.value.value|;
      forall i | 0 <= i < |s.indentStack| ensures s.indentStack[i] < w {
        if i < |s.indentStack| - 1 {
          assert s.indentStack[i] < s.indentStack[|s.indentStack| - 1];
        }
      }
    }
  }

  /** Every `next_token` step changes the indentation stacks only as
      `StackStep` allows; an indentation token comes only from the
      indentation check at a line head outside brackets, after which the
      line counts as checked. */
  lemma NextTokenStackStep(c: Config, s: State)
    requires ValidConfig(c) && WellFormed(c.text, s) && s.idx < |c.text|
    ensures var o := NextToken(c, s);
      StackStep(s, o.token, o.next)
      && (o.token.Some? && IsIndentKind(o.token.value) ==>
            AtLineHead(s) && o.next.checkedIndent && o.next.ln == s.ln)
  {
    if AtLineHead(s) {
      var s' := s.(checkedIndent := true);
      CheckIndentationFacts(c, s');
    } else {
      ClassifyFacts(c, s);
      ClassifiedStackStep(c.text, s, Classify(c, s));
    }
  }

  /** The advance after a classification step moves the cursor only. */
  lemma ClassifiedStackStep(text: string, s: State, r: Scan)
    requires Classified(s, r) && 0 <= r.state.idx <= |text| && (r.steps == 1 ==> |text| > 0)
    ensures var o := Finish(text, r);
      StackStep(s, o.token, o.next) && (o.token.Some? ==> !IsIndentKind(o.token.value))
  {
  }

  /** Hence the indent stack stays strictly increasing with positive
      entries. */
  lemma NextTokenKeepsIncreasing(c: Config, s: State)
    requires ValidConfig(c) && WellFormed(c.text, s) && s.idx < |c.text|
    requires StrictlyIncreasing(s.indentStack)
    ensures StrictlyIncreasing(NextToken(c, s).next.indentStack)
  {
    NextTokenStackStep(c, s);
    var o := NextToken(c, s);
    StackStepKeepsIncreasing(s, o.token, o.next);
  }

  /** Lines only move forward, and a line is checked once: a step never
      goes back a line, and a step from a line whose indentation is already
      checked builds no INDENT or OUTDENT and, while it stays on that line,
      keeps it checked. */
  lemma NextTokenLines(c: Config, s: State)
    requires ValidConfig(c) && WellFormed(c.text, s) && s.idx < |c.text|
    ensures var o := NextToken(c, s);
      s.ln <= o.next.ln
      && (s.checkedIndent && o.next.ln == s.ln ==> o.next.checkedIndent)
      && (s.checkedIndent && o.token.Some? ==> !IsIndentKind(o.token.value))
  {
    NextTokenStackStep(c, s);
    if AtLineHead(s) {
      CheckIndentationFacts(c, s.(checkedIndent := true));
    } else {
      ClassifyFacts(c, s);
      var r := Classify(c, s);
      if r.errors == [] {
        AdvanceKeepsPosition(c.text, r.state, r.steps);
      }
    }
  }

  // ---------------------------------------------------------------------
  // The line head

  /** A cached or freshly computed line is the stretch from its start to the
      next line break. */
  lemma LineEndIsNextBreak(text: string, k: int, line: Line)
    requires IsLineOf(text, k, line)
    ensures line.end == FindLineBreak(text, line.begin)
  {
  }

  /** At the start of a line, `current_line` gives the text up to the next
      line break. */
  lemma CurrentLineAtHead(text: string, s: State)
    requires WellFormed(text, s) && s.idx < |text| && s.col == 0
    ensures var e := FindLineBreak(text, s.idx);
      CurrentLine(text, s).0 == Line(text[s.idx..e], s.idx, e)
  {
    LineEndIsNextBreak(text, s.ln, CurrentLine(text, s).0);
  }

  /** The line head as the indentation branch sees it: the current line
      runs to the next line break and gets cached; a blank line is skipped,
      any other line goes to the indent checks. */
  lemma NextTokenAtHead(c: Config, s: State)
    requires ValidConfig(c) && WellFormed(c.text, s) && s.idx < |c.text| && AtLineHead(s)
    ensures var e := FindLineBreak(c.text, s.idx);
      var line := Line(c.text[s.idx..e], s.idx, e);
      var t := s.(checkedIndent := true, lines := s.lines[s.ln := line]);
      WellFormed(c.text, t) && IsLineOf(c.text, s.ln, line)
      && NextToken(c, s) ==
        match FirstNonSpace(c.text, s.idx, e)
        case None => BlankLine(c, t, line)
        case Some(first) => IndentedLine(c, t, line, first)
  {
    var s' := s.(checkedIndent := true);
    CurrentLineFacts(c.text, s');
    CurrentLineAtHead(c.text, s');
  }

  /** A blank or all-space line at a line head is consumed up to its line
      break, with no token, no error and no change to any stack, the token
      list or the blocks. */
  lemma BlankLineSkipped(c: Config, s: State)
    requires ValidConfig(c) && WellFormed(c.text, s) && s.idx < |c.text| && AtLineHead(s)
    requires AllSpace(c.text, s.idx, FindLineBreak(c.text, s.idx))
    ensures var o := NextToken(c, s);
      o.errors == [] && o.token.None? && o.next.idx == FindLineBreak(c.text, s.idx) && o.next.ln == s.ln
      && o.next.indentStack == s.indentStack && o.next.indentTokens == s.indentTokens
      && o.next.parens == s.parens && o.next.blocks == s.blocks && o.next.tokens == s.tokens
  {
    NextTokenAtHead(c, s);
    var e := FindLineBreak(c.text, s.idx);
    var line := Line(c.text[s.idx..e], s.idx, e);
    var t := s.(checkedIndent := true, lines := s.lines[s.ln := line]);
    assert FirstNonSpace(c.text, s.idx, e).None?;
    BlankLineOutcome(c, t, line);
  }

  /** Skipping a blank line moves the cursor to the line's end and changes
      nothing else. */
  lemma BlankLineOutcome(c: Config, t: State, line: Line)
    requires PositionOK(c.text, t) && line.begin == t.idx <= line.end <= |c.text|
    requires |line.value| == line.end - line.begin && NoBreak(c.text, line.begin, line.end)
    ensures var o := BlankLine(c, t, line);
      o.errors == [] && o.token.None?
      && o.next == t.(idx := line.end, currentChar := CharAt(c.text, line.end), col := t.col + |line.value|)
  {
    if |line.value| == 1 {
      assert c.text[t.idx] != '\n';
    }
    AdvanceInLine(c.text, t, |line.value|);
  }

  /** With no block open, a line head is an error exactly when the line
      starts with white space and is not blank; the error leaves the cursor
      where it is. No token comes out either way. */
  lemma TopLevelIndentIsError(c: Config, s: State)
    requires ValidConfig(c) && WellFormed(c.text, s) && s.idx < |c.text| && AtLineHead(s)
    requires |s.blocks| == 0
    ensures var o := NextToken(c, s);
      var indented := IsSpace(c.text[s.idx]) && !AllSpace(c.text, s.idx, FindLineBreak(c.text, s.idx));
      o.token.None?
      && (o.errors != [] <==> indented)
      && (indented ==> o.errors == [Error(IndentingTopLevel, s)] && o.next.idx == s.idx)
  {
    NextTokenAtHead(c, s);
    var e := FindLineBreak(c.text, s.idx);
    match FirstNonSpace(c.text, s.idx, e)
    case None =>
    case Some(first) =>
      assert !AllSpace(c.text, s.idx, e);
      assert first > s.idx <==> IsSpace(c.text[s.idx]);
  }

  /** Inside a block, at a line head that is not blank, the indent is the
      white space before the first non-space character. It is checked (and
      may yield INDENT or OUTDENT) unless the line starts flush with `#`,
      `,`, `;`, `:`, `)`, `]` or `"`; a flush line with such a start is
      left for the classification branches, without a token or an error. */
  lemma IndentInsideBlock(c: Config, s: State)
    requires ValidConfig(c) && WellFormed(c.text, s) && s.idx < |c.text| && AtLineHead(s)
    requires |s.blocks| > 0 && !AllSpace(c.text, s.idx, FindLineBreak(c.text, s.idx))
    ensures FirstNonSpace(c.text, s.idx, FindLineBreak(c.text, s.idx)).Some?
    ensures var e := FindLineBreak(c.text, s.idx);
      var first := FirstNonSpace(c.text, s.idx, e).value;
      var line := Line(c.text[s.idx..e], s.idx, e);
      var captured := c.text[s.idx..first];
      var s' := s.(checkedIndent := true, lines := s.lines[s.ln := line]);
      var o := NextToken(c, s);
      FirstNonSpace(line.value, 0, |line.value|).Some?
      && if c.text[s.idx] == ' ' || c.text[s.idx] == '\t' || c.text[first] !in {'#', ',', ';', ':', ')', ']', '"'}
         then o == IndentLevels(c, s', line, captured)
         else o == Outcome([], None, s')
  {
    NextTokenAtHead(c, s);
    var e := FindLineBreak(c.text, s.idx);
    var line := Line(c.text[s.idx..e], s.idx, e);
    var first := FirstNonSpace(c.text, s.idx, e).value;
    LineHasWord(c.text, line, first);
    assert line.value[0] == c.text[s.idx];
  }

  /** The checks on an indent inside a block report at most one error: the
      wrong indent character, checked first, excludes the others; an indent
      deeper than the header's must be a multiple of the indent size (any
      width when the size is 1); one no deeper than the header's is expected
      to be deeper while the block has no indent size, and otherwise
      allowed only before `end`, `else` or `else_if`. */
  lemma IndentChecks(c: Config, s: State, block: BlockValue, line: Line, captured: string)
    requires ValidConfig(c) && FirstNonSpace(line.value, 0, |line.value|).Some?
    ensures var e := IndentErrors(c, s, block, line, captured);
      var w := |captured|;
      var hi := HeaderIndentWidth(block);
      |e| <= 1
      && (OppositeChar(c, captured) ==> e == [Error(OppositeIndentChar, s)])
      && (!OppositeChar(c, captured) && hi < w ==>
            e == if c.indentSize != 1 && w % c.indentSize != 0 then [Error(InvalidIndentMultiple, s)] else [])
      && (!OppositeChar(c, captured) && w <= hi ==>
            e == if !IsSet(block.indentSize) then [Error(ExpectedIndentation, s)]
                 else if FirstWord(line.value) !in DEDENT_WORDS then [Error(UnexpectedIndentation, s)]
                 else [])
  {
  }

  /** Accepted indentation: an indent wider than the stack's top yields an
      INDENT, a narrower one an OUTDENT, an equal one no token; the cursor
      then moves past the indent. Rejected indentation moves nothing. */
  lemma IndentLevelsOutcome(c: Config, s: State, line: Line, captured: string)
    requires ValidConfig(c) && |s.blocks| > 0 && FirstNonSpace(line.value, 0, |line.value|).Some?
    requires WellFormed(c.text, s) && s.idx + |captured| <= |c.text|
    requires captured == c.text[s.idx..s.idx + |captured|] && NoBreak(c.text, s.idx, s.idx + |captured|)
    requires AllSpace(c.text, s.idx, s.idx + |captured|)
    ensures var o := IndentLevels(c, s, line, captured);
      var w := |captured|;
      o.errors == IndentErrors(c, s, Last(s.blocks), line, captured)
      && (o.errors != [] ==> o.token.None? && o.next == s)
      && (o.errors == [] ==>
            o.next.idx == s.idx + w && o.next.ln == s.ln
            && (o.token.None? <==> w == Top(s.indentStack))
            && (o.token.Some? ==> o.token.value == Lexeme(if w < Top(s.indentStack) then Outdent else Indent, s, captured)))
  {
    IndentLevelsFacts(c, s, line, captured);
    var o := IndentLevels(c, s, line, captured);
    if o.errors == [] {
      var d := Dent(s, captured);
      SameCursorPositionOK(c.text, s, d.state);
      AdvanceKeepsPosition(c.text, d.state, |captured|);
    }
  }

  // ---------------------------------------------------------------------
  // Characters no branch recognises

  /** Away from a line head, a character that starts no line break,
      comment, string, name, number, operator or separator is skipped: one
      step along the line, with no token, no error and nothing else
      changed. */
  lemma UnknownCharSkipped(c: Config, s: State)
    requires ValidConfig(c) && WellFormed(c.text, s) && s.idx < |c.text| && !AtLineHead(s)
    requires c.text[s.idx] !in {'\n', '#', '"'}
    requires NameLength(c.text, s.idx) == 0 && NumberLength(c.text, s.idx) == 0
    requires OperatorLength(c.text, s.idx) == 0 && SeparatorLength(c.text, s.idx) == 0
    ensures var o := NextToken(c, s);
      o.errors == [] && o.token.None?
      && o.next == s.(idx := s.idx + 1, col := s.col + 1, currentChar := CharAt(c.text, s.idx + 1))
  {
    assert s.currentChar == [c.text[s.idx]];
  }

  // ---------------------------------------------------------------------
  // Brackets

  /** A bracket away from a line head is read by the separator branch. */
  lemma BracketIsSeparator(c: Config, s: State)
    requires ValidConfig(c) && WellFormed(c.text, s) && s.idx < |c.text| && !AtLineHead(s)
    requires IsOpener(c.text[s.idx]) || IsCloser(c.text[s.idx])
    ensures SeparatorLength(c.text, s.idx) == 1
    ensures NextToken(c, s) == Finish(c.text, ScanSeparator(c.text, s))
  {
    BracketSeparator(c.text, s.idx);
    BracketClassified(c, s);
  }

  /** The classification of a bracket falls through to the separator branch. */
  lemma BracketClassified(c: Config, s: State)
    requires WellFormed(c.text, s) && s.idx < |c.text|
    requires IsOpener(c.text[s.idx]) || IsCloser(c.text[s.idx])
    ensures Classify(c, s) == ScanSeparator(c.text, s)
  {
    assert s.currentChar == [c.text[s.idx]];
    BracketIsNoWord(c.text, s.idx);
    BracketSeparator(c.text, s.idx);
  }

  /** No name, number or operator starts with a bracket. */
  lemma BracketIsNoWord(text: string, i: int)
    requires 0 <= i < |text| && (IsOpener(text[i]) || IsCloser(text[i]))
    ensures NameLength(text, i) == 0 && NumberLength(text, i) == 0 && OperatorLength(text, i) == 0
  {
    var n := OperatorLength(text, i);
    if n > 0 {
      OperatorsAvoidBrackets(text[i..i + n]);
    }
  }

  lemma BracketSeparator(text: string, i: int)
    requires 0 <= i < |text| && (IsOpener(text[i]) || IsCloser(text[i]))
    ensures SeparatorLength(text, i) == 1
  {
    var ch := text[i];
    assert text[i..i + 1] == [ch];
    assert [ch] in SEPARATORS by {
      if ch == '(' { assert [ch] == "("; }
      else if ch == '[' { assert [ch] == "["; }
      else if ch == ')' { assert [ch] == ")"; }
      else { assert [ch] == "]"; }
    }
  }

  /** An opening bracket is pushed on the bracket stack and consumed, and
      it turns a block header still being read into a multi-line header;
      after `end` on the same line it is an error instead. */
  lemma OpenerPushes(c: Config, s: State)
    requires ValidConfig(c) && WellFormed(c.text, s) && s.idx < |c.text| && !AtLineHead(s)
    requires IsOpener(c.text[s.idx])
    ensures var o := NextToken(c, s);
      var tok := Lexeme(Separator, s, [c.text[s.idx]]);
      o.token == Some(tok)
      && (o.errors == [] <==> !s.endString)
      && (o.errors != [] ==> o.errors == [Error(MultiLinedEnd, s)] && o.next.idx == s.idx
                             && o.next.blocks == s.blocks)
      && (o.errors == [] ==> o.next.parens == s.parens + [tok] && o.next.idx == s.idx + 1)
      && (o.errors == [] && |s.blocks| > 0 && !Last(s.blocks).headerComplete ==>
            o.next.blocks == SetLast(s.blocks, Last(s.blocks).(headerType := MultiLine)))
      && (o.errors == [] && (|s.blocks| == 0 || Last(s.blocks).headerComplete) ==> o.next.blocks == s.blocks)
  {
    BracketIsSeparator(c, s);
    var tok := Lexeme(Separator, s, [c.text[s.idx]]);
    assert ScanSeparator(c.text, s) == OpenBracket(c.text, s, tok);
    OpenBracketOutcome(c.text, s, tok);
  }

  /** The advance after an opening bracket. */
  lemma OpenBracketOutcome(text: string, s: State, tok: Token)
    requires WellFormed(text, s) && s.idx < |text| && IsOpener(text[s.idx])
    ensures var o := Finish(text, OpenBracket(text, s, tok));
      (o.errors == [] <==> !s.endString)
      && (o.errors != [] ==> o.errors == [Error(MultiLinedEnd, s)] && o.next.idx == s.idx
                             && o.next.blocks == s.blocks)
      && (o.errors == [] ==> o.next.parens == s.parens + [tok] && o.next.idx == s.idx + 1)
      && (o.errors == [] && |s.blocks| > 0 && !Last(s.blocks).headerComplete ==>
            o.next.blocks == SetLast(s.blocks, Last(s.blocks).(headerType := MultiLine)))
      && (o.errors == [] && (|s.blocks| == 0 || Last(s.blocks).headerComplete) ==> o.next.blocks == s.blocks)
  {
    var r := OpenBracket(text, s, tok);
    if !s.endString {
      AdvanceInLine(text, r.state, 1);
    }
  }

  /** A closing bracket with an open bracket pops exactly one entry,
      whichever kind of bracket it is, and joins and completes the innermost
      block's header; with none open it is an error that yields no token and
      leaves the cursor where it is. */
  lemma CloserPops(c: Config, s: State)
    requires ValidConfig(c) && WellFormed(c.text, s) && s.idx < |c.text| && !AtLineHead(s)
    requires IsCloser(c.text[s.idx])
    ensures var o := NextToken(c, s);
      if |s.parens| == 0 then
        o.errors == [Error(UnmatchedCloser, s)] && o.token.None? && o.next.idx == s.idx
        && o.next.parens == s.parens
      else
        var tok := Lexeme(Separator, s, [c.text[s.idx]]);
        o.token == Some(tok)
        && o.next.parens == s.parens[..|s.parens| - 1]
        && (o.errors == [] <==> !s.endString)
        && (o.errors != [] ==> o.next.blocks == s.blocks)
        && (o.errors == [] ==> o.next.idx == s.idx + 1)
        && (o.errors == [] && |s.blocks| > 0 ==>
              o.next.blocks == SetLast(s.blocks, AddToHeader(Last(s.blocks), tok).(headerComplete := true)))
        && (o.errors == [] && |s.blocks| == 0 ==> o.next.blocks == s.blocks)
  {
    BracketIsSeparator(c, s);
    if |s.parens| > 0 {
      var tok := Lexeme(Separator, s, [c.text[s.idx]]);
      assert ScanSeparator(c.text, s) == CloseBracket(s, tok);
    }
  }

  /** A block keyword outside brackets opens a new block: a single-line
      header holding just the keyword, already complete for `else`, whose
      header indent is the last INDENT or OUTDENT token. Inside brackets it
      is the `MultiLiningBlockHeader` error, which opens nothing and leaves
      the state as it was. */
  lemma KeywordOpensBlock(c: Config, s: State)
    requires ValidConfig(c) && WellFormed(c.text, s) && s.idx < |c.text| && !AtLineHead(s)
    requires var n := NameLength(c.text, s.idx); var v := c.text[s.idx..s.idx + n];
      0 < n && v in KEYWORDS && v !in WORD_OPERATORS && v in c.blockStatements
    ensures var n := NameLength(c.text, s.idx); var v := c.text[s.idx..s.idx + n];
      var kw := Lexeme(Keyword, s, v);
      var o := NextToken(c, s);
      o.token == Some(kw)
      && (|s.parens| == 0 ==>
            o.errors == [] && o.next.idx == s.idx + n
            && o.next.blocks == s.blocks + [NewBlock([kw], v == "else", SingleLine,
                                  if |s.indentTokens| == 0 then None else Some(Last(s.indentTokens)), None)])
      && (|s.parens| > 0 ==> o.errors == [Error(MultiLiningBlockHeader, s)] && o.next == s)
  {
    var text := c.text;
    var n := NameLength(text, s.idx);
    var v := text[s.idx..s.idx + n];
    var kw := Lexeme(Keyword, s, v);
    assert s.currentChar == [text[s.idx]];
    assert Classify(c, s) == ScanWord(c, s, n);
    WordIsKeyword(c, s, n);
    EndIsNoKeyword();
    assert NextToken(c, s) == Finish(text, ScanKeyword(c, s, kw));
    BlockKeywordOutcome(c, s, kw);
  }

  /** A word in `KEYWORDS` but not in `WORD_OPERATORS` is scanned as a keyword. */
  lemma WordIsKeyword(c: Config, s: State, n: nat)
    requires 0 <= s.idx && s.idx + n <= |c.text|
    requires var v := c.text[s.idx..s.idx + n]; v in KEYWORDS && v !in WORD_OPERATORS
    ensures ScanWord(c, s, n) == ScanKeyword(c, s, Lexeme(Keyword, s, c.text[s.idx..s.idx + n]))
  {
  }

  /** The outcome of a block keyword other than `end`, once scanned. */
  lemma BlockKeywordOutcome(c: Config, s: State, kw: Token)
    requires WellFormed(c.text, s) && s.idx + |kw.value| <= |c.text| && |kw.value| > 0
    requires NoBreak(c.text, s.idx, s.idx + |kw.value|)
    requires kw.value != "end" && kw.value in c.blockStatements
    ensures var o := Finish(c.text, ScanKeyword(c, s, kw));
      o.token == Some(kw)
      && (|s.parens| == 0 ==>
            o.errors == [] && o.next.idx == s.idx + |kw.value|
            && o.next.blocks == s.blocks + [NewBlock([kw], kw.value == "else", SingleLine,
                                  if |s.indentTokens| == 0 then None else Some(Last(s.indentTokens)), None)])
      && (|s.parens| > 0 ==> o.errors == [Error(MultiLiningBlockHeader, s)] && o.next == s)
  {
    if |s.parens| == 0 {
      var indent := if |s.indentTokens| == 0 then None else Some(Last(s.indentTokens));
      var t := s.(blocks := s.blocks + [NewBlock([kw], kw.value == "else", SingleLine, indent, None)]);
      assert ScanKeyword(c, s, kw) == Scan([], Some(kw), |kw.value|, t);
      AdvanceInLine(c.text, t, |kw.value|);
    }
  }

  /** While a bracket is open the indentation check never runs: the step is
      a classification step, which builds no INDENT or OUTDENT and leaves
      the indent stack alone. */
  lemma NoIndentationInsideBrackets(c: Config, s: State)
    requires ValidConfig(c) && WellFormed(c.text, s) && s.idx < |c.text| && |s.parens| > 0
    ensures Classify(c, s).state.idx == s.idx
    ensures var o := NextToken(c, s);
      o == Finish(c.text, Classify(c, s))
      && (o.token.Some? ==> !IsIndentKind(o.token.value))
      && o.next.indentStack == s.indentStack
  {
    ClassifyFacts(c, s);
  }
}
