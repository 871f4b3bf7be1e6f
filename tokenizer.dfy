/** The `Tokenizer` class of tokenizer.py: the scanner's state as fields
    updated in place, each method proved to do exactly what the matching
    function of `ScanSpec` does to the state's value. */
module Scanner {
  import opened Tokens
  import opened Lexicon
  import opened Matchers
  import opened Blocks
  import opened ScanSpec

  /** The values of a list of block objects. */
  ghost function Values(bs: seq<Block>): seq<BlockValue>
    reads bs
  {
    seq(|bs|, i requires 0 <= i < |bs| reads bs => bs[i].View())
  }

  /** The scanner only appends blocks and only updates the last one, so
      all it needs is that the last block is none of the others. */
  ghost predicate LastIsOwn(bs: seq<Block>) {
    |bs| > 0 ==> bs[|bs| - 1] !in bs[..|bs| - 1]
  }

  /** Every block is an old one or a new one. */
  twostate predicate OldOrFresh(before: seq<Block>, new after: seq<Block>) {
    forall i :: 0 <= i < |after| ==> after[i] in before || fresh(after[i])
  }

  /** Marking the line head checked keeps the state well formed. */
  lemma CheckedWellFormed(text: string, s: State)
    requires WellFormed(text, s)
    ensures WellFormed(text, s.(checkedIndent := true))
  {
  }

  /** When only the last block changed, only the last value changed. */
  twostate lemma ValuesAfterLast(bs: seq<Block>)
    requires |bs| > 0 && LastIsOwn(bs)
    requires unchanged(bs[..|bs| - 1])
    ensures Values(bs) == SetLast(old(Values(bs)), bs[|bs| - 1].View())
  {
    forall i | 0 <= i < |bs| - 1 ensures Values(bs)[i] == old(Values(bs))[i] {
      assert bs[i] in bs[..|bs| - 1];
      assert old(bs[i].View()) == bs[i].View();
    }
  }

  /** A scanner whose fields hold a well-formed state is valid. */
  lemma StillValid(tk: Tokenizer, t: State)
    requires ValidConfig(tk.Options()) && WellFormed(tk.text, t) && tk.View() == t
    ensures tk.Valid()
  {
  }

  class Tokenizer {
    const text: string
    const indentType: char
    const indentSize: int
    const blockStatements: set<string>

    var currentChar: string
    var idx: int
    var ln: int
    var col: int
    var tokens: seq<Token>
    var indentStack: seq<int>
    var indentTokens: seq<Token>
    var checkedIndent: bool
    var lines: map<int, Line>
    var lastLineBreak: int
    var done: bool
    var parens: seq<Token>
    var blocks: seq<Block>
    var endString: bool

    function Options(): Config {
      Config(text, indentType, indentSize, blockStatements)
    }

    /** The scanner state these fields hold. */
    ghost function View(): State
      reads this, blocks
    {
      State(idx, col, ln, currentChar, tokens, indentStack, indentTokens, checkedIndent, lines,
            lastLineBreak, done, parens, Values(blocks), endString)
    }

    /** `Tokenizer.pos`. */
    function Position(): Pos
      reads this
    {
      Pos(idx, col, ln)
    }

    /** A token of `value` at the cursor. */
    function Lexeme(kind: TokenKind, value: string): Token
      reads this
    {
      Token(kind, value, Position(), Pos(idx + |value|, col + |value|, ln))
    }

    ghost predicate Valid()
      reads this, blocks
    {
      ValidConfig(Options()) && WellFormed(text, View())
    }

    /** `Tokenizer.__init__`; an indent type other than a space or a tab is
        refused. */
    constructor (text: string, indentType: char, indentSize: int, blockStatements: set<string>)
      requires indentType == ' ' || indentType == '\t'
      requires indentSize != 0
      ensures Valid() && View() == Init(Options())
      ensures Options() == Config(text, indentType, indentSize, blockStatements)
    {
      this.text := text;
      this.indentType := indentType;
      this.indentSize := indentSize;
      this.blockStatements := blockStatements;
      this.currentChar := if |text| != 0 then [text[0]] else "";
      this.idx, this.ln, this.col := 0, 0, 0;
      this.tokens := [];
      this.indentStack := [];
      this.indentTokens := [];
      this.checkedIndent := false;
      this.lines := map[];
      this.lastLineBreak := -1;
      this.done := false;
      this.parens := [];
      this.blocks := [];
      this.endString := false;
      new;
      assert text[..0] == [];
    }

    /** `Tokenizer.advance`: move the cursor `steps` characters on, but not
        past the end of the text; a single step over a line break starts
        the next line. */
    method Advance(steps: int)
      requires 0 <= idx <= |text| && 0 <= steps && (steps == 1 ==> |text| > 0)
      modifies this
      ensures View() == ScanSpec.Advance(text, old(View()), steps)
      ensures blocks == old(blocks)
    {
      var i := if idx + steps < |text| then idx + steps else |text|;
      if steps == 1 && text[i - 1] == '\n' {
        StartLine(i);
      } else {
        MoveTo(i, steps);
      }
    }

    /** The cursor lands just after the line break at `i - 1`. */
    method StartLine(i: int)
      requires 0 < i <= |text|
      modifies this
      ensures View() == old(View()).(idx := i, currentChar := CharAt(text, i), lastLineBreak := i - 1,
                                     checkedIndent := false, col := 0, ln := old(ln) + 1)
      ensures blocks == old(blocks)
    {
      SetIndex(i);
      lastLineBreak, checkedIndent := i - 1, false;
      col, ln := 0, ln + 1;
    }

    /** The cursor moves `steps` columns on, to `i`, on the same line. */
    method MoveTo(i: int, steps: int)
      requires 0 <= i <= |text|
      modifies this
      ensures View() == old(View()).(idx := i, currentChar := CharAt(text, i), col := old(col) + steps)
      ensures blocks == old(blocks)
    {
      SetIndex(i);
      col := col + steps;
    }

    /** The cursor index and the character under it. */
    method SetIndex(i: int)
      requires 0 <= i <= |text|
      modifies this
      ensures View() == old(View()).(idx := i, currentChar := CharAt(text, i))
      ensures blocks == old(blocks)
    {
      idx, currentChar := i, if i < |text| then [text[i]] else "";
    }

    /** `Tokenizer.current_line`: the cached line for `ln`, or the line from
        just after the last line break to the next one, which is then
        cached. */
    method CurrentLine() returns (line: Line)
      requires Valid() && idx < |text|
      modifies this
      ensures Valid() && (line, View()) == ScanSpec.CurrentLine(text, old(View()))
      ensures blocks == old(blocks)
    {
      ghost var s0 := View();
      if ln in lines {
        line := lines[ln];
      } else {
        var begin := lastLineBreak + 1;
        var end;
        if text[idx] == '\n' {
          end := idx;
        } else {
          end := FindLineBreak(text, idx + 1);
        }
        line := Line(text[begin..end], begin, end);
        CacheLine(line);
      }
      CurrentLineFacts(text, s0);
      StillValid(this, ScanSpec.CurrentLine(text, s0).1);
    }

    /** Records `line` as the text of line `ln`. */
    method CacheLine(line: Line)
      modifies this
      ensures View() == old(View()).(lines := old(lines)[old(ln) := line])
      ensures blocks == old(blocks)
    {
      lines := lines[ln := line];
    }

    // -------------------------------------------------------------------
    // The classification branches of next_token

    method LineBreakStep() returns (token: Option<Token>, steps: nat)
      requires LastIsOwn(blocks)
      modifies this, blocks
      ensures Scan([], token, steps, View()) == ScanLineBreak(old(View()))
      ensures blocks == old(blocks)
    {
      token := Some(Lexeme(LineBreak, "\n"));
      if |blocks| > 0 {
        var b := blocks[|blocks| - 1];
        if b.headerType == SingleLine {
          b.headerComplete := true;
          ValuesAfterLast(blocks);
        }
      }
      endString := false;
      steps := 1;
    }

    method CommentStep() returns (token: Option<Token>, steps: nat)
      requires 0 <= idx <= |text|
      ensures ghost var v := View(); Scan([], token, steps, v) == ScanComment(text, v)
    {
      var nextNewLine := FindLineBreak(text, idx);
      var value := text[idx..nextNewLine];
      token := Some(Lexeme(Comment, value));
      steps := |value|;
    }

    method StringStep() returns (errors: seq<Diagnostic>, token: Option<Token>, steps: nat)
      requires Valid() && idx < |text| && text[idx] == '"'
      modifies this
      ensures Scan(errors, token, steps, View()) == ScanString(text, old(View()))
      ensures blocks == old(blocks)
    {
      errors, token, steps := [], None, 1;
      match StringLength(text, idx)
      case Some(n) =>
        var value := text[idx..idx + n];
        if endString {
          token := Some(Lexeme(EndLabelString, value));
          endString := false;
        } else {
          token := Some(Lexeme(String, value));
        }
        steps := n;
      case None =>
        errors := [Diagnostic(UnclosedString, ln, col)];
        var _ := CurrentLine();
    }

    method WordStep(n: nat) returns (errors: seq<Diagnostic>, token: Option<Token>, steps: nat)
      requires 0 <= idx && idx + n <= |text| && LastIsOwn(blocks)
      modifies this
      ensures Scan(errors, token, steps, View()) == ScanWord(Options(), old(View()), n)
      ensures LastIsOwn(blocks) && OldOrFresh(old(blocks), blocks)
    {
      ghost var s0 := View();
      errors := [];
      var value := text[idx..idx + n];
      assert value == Options().text[s0.idx..s0.idx + n];
      if value in KEYWORDS {
        if value in WORD_OPERATORS {
          token := Some(Lexeme(Operator, value));
          assert ScanWord(Options(), s0, n) == Scan([], token, n, s0);
        } else {
          var kw := Lexeme(Keyword, value);
          assert ScanWord(Options(), s0, n) == ScanKeyword(Options(), s0, kw);
          errors := KeywordStep(kw);
          token := Some(kw);
        }
      } else {
        token := Some(Lexeme(Name, value));
        assert ScanWord(Options(), s0, n) == Scan([], token, n, s0);
      }
      steps := n;
    }

    method KeywordStep(kw: Token) returns (errors: seq<Diagnostic>)
      requires kw.kind == Keyword && LastIsOwn(blocks)
      modifies this
      ensures Scan(errors, Some(kw), |kw.value|, View()) == ScanKeyword(Options(), old(View()), kw)
      ensures LastIsOwn(blocks) && OldOrFresh(old(blocks), blocks)
    {
      errors := [];
      if kw.value == "end" {
        if |parens| > 0 {
          errors := [Diagnostic(MultiLinedEnd, ln, col)];
        } else {
          endString := true;
        }
      } else if kw.value in blockStatements {
        if |parens| > 0 {
          errors := [Diagnostic(MultiLiningBlockHeader, ln, col)];
        } else {
          OpenBlock(kw);
        }
      }
    }

    /** Appends a new single-line block headed by `kw`, whose header indent
        is the last recorded indentation token. */
    method OpenBlock(kw: Token)
      modifies this
      ensures View() == old(View()).(blocks := old(View()).blocks
        + [NewBlock([kw], kw.value == "else", SingleLine,
                    if |indentTokens| == 0 then None else Some(Last(indentTokens)), None)])
      ensures LastIsOwn(blocks) && OldOrFresh(old(blocks), blocks)
    {
      var indent := if |indentTokens| == 0 then None else Some(indentTokens[|indentTokens| - 1]);
      var b := new Block([kw], kw.value == "else", SingleLine, indent, None);
      blocks := blocks + [b];
      assert blocks[..|blocks| - 1] == old(blocks);
    }

    method NumberStep(n: nat) returns (token: Option<Token>, steps: nat)
      requires 0 <= idx && idx + n <= |text|
      ensures ghost var v := View(); Scan([], token, steps, v) == ScanNumber(text, v, n)
    {
      var value := text[idx..idx + n];
      if IsIntLiteral(value) {
        token := Some(Lexeme(IntNumber, value));
      } else {
        token := Some(Lexeme(FloatNumber, value));
      }
      steps := |value|;
    }

    method OperatorStep(n: nat) returns (token: Option<Token>, steps: nat)
      requires 0 <= idx && idx + n <= |text|
      ensures ghost var v := View(); Scan([], token, steps, v) == ScanOperator(text, v, n)
    {
      var value := text[idx..idx + n];
      token := Some(Lexeme(Operator, value));
      steps := |value|;
    }

    method SeparatorStep() returns (errors: seq<Diagnostic>, token: Option<Token>, steps: nat)
      requires Valid() && idx < |text| && LastIsOwn(blocks)
      modifies this, blocks
      ensures Scan(errors, token, steps, View()) == ScanSeparator(text, old(View()))
      ensures blocks == old(blocks)
    {
      var ch := text[idx];
      if IsCloser(ch) && |parens| == 0 {
        errors, token, steps := [Diagnostic(UnmatchedCloser, ln, col)], None, 1;
        var _ := CurrentLine();
      } else {
        var tok := Lexeme(Separator, [ch]);
        if IsOpener(ch) {
          errors := OpenBracketStep(tok);
        } else if IsCloser(ch) {
          errors := CloseBracketStep(tok);
        } else {
          errors := [];
        }
        token, steps := Some(tok), 1;
      }
    }

    method OpenBracketStep(tok: Token) returns (errors: seq<Diagnostic>)
      requires Valid() && idx < |text| && LastIsOwn(blocks)
      modifies this, blocks
      ensures Scan(errors, Some(tok), 1, View()) == OpenBracket(text, old(View()), tok)
      ensures blocks == old(blocks)
    {
      if endString {
        errors := [Diagnostic(MultiLinedEnd, ln, col)];
        var _ := CurrentLine();
      } else {
        errors := [];
        PushParen(tok);
        if |blocks| > 0 {
          var b := blocks[|blocks| - 1];
          if !b.headerComplete {
            b.headerType := MultiLine;
            ValuesAfterLast(blocks);
          }
        }
      }
    }

    method CloseBracketStep(tok: Token) returns (errors: seq<Diagnostic>)
      requires |parens| > 0 && LastIsOwn(blocks)
      modifies this, blocks
      ensures Scan(errors, Some(tok), 1, View()) == CloseBracket(old(View()), tok)
      ensures blocks == old(blocks)
    {
      if endString {
        errors := [Diagnostic(MultiLinedEnd, ln, col)];
      } else {
        errors := [];
        if |blocks| > 0 {
          var b := blocks[|blocks| - 1];
          b.Add(tok);
          b.headerComplete := true;
          ValuesAfterLast(blocks);
        }
      }
      PopParen();
    }

    /** Pushes an opening bracket on the bracket stack. */
    method PushParen(tok: Token)
      modifies this
      ensures View() == old(View()).(parens := old(parens) + [tok])
      ensures blocks == old(blocks)
    {
      parens := parens + [tok];
    }

    /** Pops the bracket stack. */
    method PopParen()
      requires |parens| > 0
      modifies this
      ensures View() == old(View()).(parens := old(parens)[..|old(parens)| - 1])
      ensures blocks == old(blocks)
    {
      parens := parens[..|parens| - 1];
    }

    /** The classification branches of `next_token`, in their order. */
    method Classify() returns (errors: seq<Diagnostic>, token: Option<Token>, steps: nat)
      requires Valid() && idx < |text| && LastIsOwn(blocks)
      modifies this, blocks
      ensures Scan(errors, token, steps, View()) == ScanSpec.Classify(Options(), old(View()))
      ensures LastIsOwn(blocks) && OldOrFresh(old(blocks), blocks)
    {
      errors := [];
      if currentChar == "\n" {
        token, steps := LineBreakStep();
      } else if currentChar == "#" {
        token, steps := CommentStep();
      } else if currentChar == "\"" {
        errors, token, steps := StringStep();
      } else if NameLength(text, idx) > 0 {
        errors, token, steps := WordStep(NameLength(text, idx));
      } else if NumberLength(text, idx) > 0 {
        token, steps := NumberStep(NumberLength(text, idx));
      } else if OperatorLength(text, idx) > 0 {
        token, steps := OperatorStep(OperatorLength(text, idx));
      } else if SeparatorLength(text, idx) > 0 {
        errors, token, steps := SeparatorStep();
      } else {
        token, steps := None, 1;
      }
    }

    // -------------------------------------------------------------------
    // The indentation branch of next_token

    /** The indentation check at a line head (the line already counts as
        checked): a blank line is consumed whole, any other goes to the
        indent checks. */
    method CheckIndentation() returns (errors: seq<Diagnostic>, token: Option<Token>)
      requires Valid() && idx < |text| && col == 0 && LastIsOwn(blocks)
      modifies this, blocks
      ensures Outcome(errors, token, View()) == ScanSpec.CheckIndentation(Options(), old(View()))
      ensures blocks == old(blocks)
    {
      var line := CurrentLine();
      match FirstNonSpace(text, idx, line.end)
      case None =>
        errors, token := [], None;
        Advance(|line.value|);
      case Some(first) =>
        errors, token := IndentedLine(line, first);
    }

    /** A line whose first non-space character is at `first`. */
    method IndentedLine(line: Line, first: int) returns (errors: seq<Diagnostic>, token: Option<Token>)
      requires ValidConfig(Options()) && LastIsOwn(blocks)
      requires 0 <= line.begin == idx <= first < line.end <= |text| && line.value == text[line.begin..line.end]
      requires !IsSpace(text[first])
      modifies this, blocks
      ensures Outcome(errors, token, View()) == ScanSpec.IndentedLine(Options(), old(View()), line, first)
      ensures blocks == old(blocks)
    {
      var captured := text[idx..first];
      if |parens| == 0 && |blocks| == 0 && |captured| > 0 {
        errors, token := [Diagnostic(IndentingTopLevel, ln, col)], None;
      } else if |blocks| > 0
        && (line.value[0] == ' ' || line.value[0] == '\t' || text[first] !in {'#', ',', ';', ':', ')', ']', '"'})
      {
        LineHasWord(text, line, first);
        errors, token := IndentLevels(line, captured);
      } else {
        errors, token := [], None;
      }
    }

    /** The indent checks and, when they pass, INDENT or OUTDENT and the
        advance over the indent. */
    method IndentLevels(line: Line, captured: string) returns (errors: seq<Diagnostic>, token: Option<Token>)
      requires ValidConfig(Options()) && |blocks| > 0 && LastIsOwn(blocks)
      requires FirstNonSpace(line.value, 0, |line.value|).Some?
      requires 0 <= idx && idx + |captured| <= |text|
      modifies this, blocks
      ensures Outcome(errors, token, View()) == ScanSpec.IndentLevels(Options(), old(View()), line, captured)
      ensures blocks == old(blocks)
    {
      errors := IndentErrorsOf(line, captured);
      if errors == [] {
        token := Dent(captured);
        Advance(|captured|);
      } else {
        token := None;
      }
    }

    /** The diagnostics of an indent inside the innermost block, collected
        one check after the other. */
    method IndentErrorsOf(line: Line, captured: string) returns (errors: seq<Diagnostic>)
      requires ValidConfig(Options()) && |blocks| > 0 && FirstNonSpace(line.value, 0, |line.value|).Some?
      ensures errors == IndentErrors(Options(), View(), Last(View().blocks), line, captured)
    {
      var block := blocks[|blocks| - 1];
      var width := |captured|;
      var headerIndent := HeaderIndentWidth(block.View());
      errors := [];
      var opposite := OppositeChar(Options(), captured);
      if opposite {
        errors := errors + [Diagnostic(OppositeIndentChar, ln, col)];
      }
      if !opposite && headerIndent < width && indentSize != 1 && width % indentSize != 0 {
        errors := errors + [Diagnostic(InvalidIndentMultiple, ln, col)];
      }
      if !opposite {
        var nextThing := FirstWord(line.value);
        if IsSet(block.indentSize) && width <= headerIndent && nextThing !in DEDENT_WORDS {
          errors := errors + [Diagnostic(UnexpectedIndentation, ln, col)];
        } else if !IsSet(block.indentSize) && width <= headerIndent {
          errors := errors + [Diagnostic(ExpectedIndentation, ln, col)];
        }
      }
    }

    /** OUTDENT below the top of the indent stack, INDENT above it, nothing
        at its level. */
    method Dent(captured: string) returns (token: Option<Token>)
      requires |blocks| > 0 && LastIsOwn(blocks)
      modifies this, blocks
      ensures Scan([], token, |captured|, View()) == ScanSpec.Dent(old(View()), captured)
      ensures blocks == old(blocks)
    {
      var width := |captured|;
      var level := if |indentStack| == 0 then 0 else indentStack[|indentStack| - 1];
      if width < level {
        var tok := Lexeme(Outdent, captured);
        PopIndent(tok);
        token := Some(tok);
      } else if level < width {
        var tok := Lexeme(Indent, captured);
        PushIndent(tok);
        token := Some(tok);
      } else {
        token := None;
      }
    }

    /** Pops the indent stack and keeps the OUTDENT token. */
    method PopIndent(tok: Token)
      requires |indentStack| > 0
      modifies this
      ensures View() == old(View()).(indentStack := old(indentStack)[..|old(indentStack)| - 1],
                                     indentTokens := old(indentTokens) + [tok])
      ensures blocks == old(blocks)
    {
      indentStack := indentStack[..|indentStack| - 1];
      indentTokens := indentTokens + [tok];
    }

    /** Pushes the INDENT token's width, which becomes the innermost
        block's indent size, and keeps the token. */
    method PushIndent(tok: Token)
      requires |blocks| > 0 && LastIsOwn(blocks)
      modifies this, blocks
      ensures View() == old(View()).(indentStack := old(indentStack) + [|tok.value|],
                                     blocks := SetLast(old(View()).blocks,
                                                       Last(old(View()).blocks).(indentSize := Some(|tok.value|))),
                                     indentTokens := old(indentTokens) + [tok])
      ensures blocks == old(blocks)
    {
      indentStack := indentStack + [|tok.value|];
      var b := blocks[|blocks| - 1];
      b.indentSize := Some(|tok.value|);
      ValuesAfterLast(blocks);
      indentTokens := indentTokens + [tok];
    }

    // -------------------------------------------------------------------
    // next_token and tokenize

    /** `Tokenizer.next_token`: the indentation check at an unchecked line
        head outside brackets, a classification branch otherwise. */
    method NextToken() returns (errors: seq<Diagnostic>, token: Option<Token>)
      requires Valid() && idx < |text| && LastIsOwn(blocks)
      modifies this, blocks
      ensures Outcome(errors, token, View()) == ScanSpec.NextToken(Options(), old(View()))
      ensures Valid() && LastIsOwn(blocks) && OldOrFresh(old(blocks), blocks)
    {
      ghost var s0 := View();
      if col == 0 && !checkedIndent && |parens| == 0 {
        errors, token := HeadStep();
      } else {
        errors, token := BodyStep();
      }
      NextTokenWellFormed(Options(), s0);
      StillValid(this, ScanSpec.NextToken(Options(), s0).next);
    }

    /** The line head: mark it checked, then check its indentation. */
    method HeadStep() returns (errors: seq<Diagnostic>, token: Option<Token>)
      requires Valid() && idx < |text| && AtLineHead(View()) && LastIsOwn(blocks)
      modifies this, blocks
      ensures Outcome(errors, token, View()) == ScanSpec.NextToken(Options(), old(View()))
      ensures blocks == old(blocks)
    {
      ghost var s0 := View();
      MarkChecked();
      CheckedWellFormed(text, s0);
      StillValid(this, s0.(checkedIndent := true));
      errors, token := CheckIndentation();
    }

    /** Elsewhere: a classification branch, and the advance it asks for
        unless it found an error. */
    method BodyStep() returns (errors: seq<Diagnostic>, token: Option<Token>)
      requires Valid() && idx < |text| && !AtLineHead(View()) && LastIsOwn(blocks)
      modifies this, blocks
      ensures Outcome(errors, token, View()) == ScanSpec.NextToken(Options(), old(View()))
      ensures LastIsOwn(blocks) && OldOrFresh(old(blocks), blocks)
    {
      ClassifyKeepsIndex(Options(), View());
      var steps;
      errors, token, steps := Classify();
      if errors == [] {
        Advance(steps);
      }
    }

    /** The line head's indentation counts as checked. */
    method MarkChecked()
      modifies this
      ensures View() == old(View()).(checkedIndent := true)
      ensures blocks == old(blocks)
    {
      checkedIndent := true;
    }

    /** The bookkeeping of `tokenize` for a returned token. */
    method Record(token: Option<Token>)
      requires LastIsOwn(blocks)
      modifies this, blocks
      ensures View() == ScanSpec.Record(old(View()), token)
      ensures blocks == old(blocks)
    {
      match token
      case None =>
      case Some(t) =>
        AppendToken(t);
        if Contains("OUTDENT", t.kind.Label()) {
          KeepIndentToken(t);
        }
        if |blocks| > 0 {
          AddToInnermost(t);
        }
    }

    /** Offers `t` to the innermost block's header. */
    method AddToInnermost(t: Token)
      requires |blocks| > 0 && LastIsOwn(blocks)
      modifies blocks
      ensures View() == old(View()).(blocks := SetLast(old(View()).blocks, AddToHeader(Last(old(View()).blocks), t)))
      ensures blocks == old(blocks)
    {
      var b := blocks[|blocks| - 1];
      b.Add(t);
      ValuesAfterLast(blocks);
    }

    method AppendToken(t: Token)
      modifies this
      ensures View() == old(View()).(tokens := old(tokens) + [t])
      ensures blocks == old(blocks)
    {
      tokens := tokens + [t];
    }

    method KeepIndentToken(t: Token)
      modifies this
      ensures View() == old(View()).(indentTokens := old(indentTokens) + [t])
      ensures blocks == old(blocks)
    {
      indentTokens := indentTokens + [t];
    }

    /** One round of the `tokenize` loop: a `next_token` step, then its
        token goes to the token list, to the indentation-token stack when it
        is an OUTDENT, and to the innermost block's header. */
    method Step() returns (errors: seq<Diagnostic>)
      requires Valid() && idx < |text| && LastIsOwn(blocks)
      modifies this, blocks
      ensures (errors, View()) == ScanSpec.Step(Options(), old(View()))
      ensures Valid() && LastIsOwn(blocks) && OldOrFresh(old(blocks), blocks)
    {
      ghost var s0 := View();
      StepFacts(Options(), s0);
      var token;
      errors, token := NextToken();
      Record(token);
      StillValid(this, ScanSpec.Step(Options(), s0).1);
    }

    /** `Tokenizer.tokenize`: steps until the end of the text and marks the
        scanner done, or stops at the first step that reports diagnostics
        and returns them (where the program prints them and exits). */
    method Tokenize() returns (errors: seq<Diagnostic>)
      requires Valid() && LastIsOwn(blocks)
      modifies this, blocks
      ensures (errors, View()) == ScanSpec.Tokenize(Options(), old(View()))
    {
      while currentChar != ""
        invariant Valid() && LastIsOwn(blocks)
        invariant OldOrFresh(old(blocks), blocks)
        invariant ScanSpec.Tokenize(Options(), View()) == ScanSpec.Tokenize(Options(), old(View()))
        decreases |text| - idx, if checkedIndent then 0 else 1
      {
        ghost var s := View();
        errors := Step();
        StepFacts(Options(), s);
        if errors != [] {
          return;
        }
      }
      MarkDone();
      errors := [];
    }

    /** The scanner is done. */
    method MarkDone()
      modifies this
      ensures View() == old(View()).(done := true)
      ensures blocks == old(blocks)
    {
      done := true;
    }
  }
}
