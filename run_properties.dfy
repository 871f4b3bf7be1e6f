/** Properties of a whole `tokenize` run: what each `next_token` step keeps
    holds from the first step to the last. */
module RunProperties {
  import opened Tokens
  import opened Matchers
  import opened Blocks
  import opened ScanSpec
  import opened StepProperties

  /** Every recorded token is the text it claims to be. */
  ghost predicate AllSpan(text: string, tokens: seq<Token>) {
    forall i :: 0 <= i < |tokens| ==> Spans(text, tokens[i])
  }

  /** Every open block has the shape the scanner gives it. */
  ghost predicate AllScannerBlocks(blocks: seq<BlockValue>) {
    forall i :: 0 <= i < |blocks| ==> ScannerBlock(blocks[i])
  }

  /** Every INDENT and OUTDENT lies on a line before line `ln`, or on line
      `ln` itself once its indentation is `checked`. */
  ghost predicate DentsBehind(tokens: seq<Token>, ln: int, checked: bool) {
    forall i :: 0 <= i < |tokens| && IsIndentKind(tokens[i]) ==>
      tokens[i].begin.ln < ln || (tokens[i].begin.ln == ln && checked)
  }

  /** At most one INDENT or OUTDENT per line, in line order. */
  ghost predicate OneDentPerLine(tokens: seq<Token>) {
    forall i, j :: 0 <= i < j < |tokens| && IsIndentKind(tokens[i]) && IsIndentKind(tokens[j]) ==>
      tokens[i].begin.ln < tokens[j].begin.ln
  }

  /** The number of tokens of `kind`. */
  function Count(kind: TokenKind, tokens: seq<Token>): nat {
    if tokens == [] then 0
    else Count(kind, tokens[..|tokens| - 1]) + (if Last(tokens).kind == kind then 1 else 0)
  }

  lemma {:induction false} CountAppend(kind: TokenKind, a: seq<Token>, b: seq<Token>)
    ensures Count(kind, a + b) == Count(kind, a) + Count(kind, b)
    decreases |b|
  {
    if b == [] {
      assert a + b == a;
    } else {
      assert (a + b)[..|a + b| - 1] == a + b[..|b| - 1];
      CountAppend(kind, a, b[..|b| - 1]);
    }
  }

  /** From `s` to `t` the token list grew, and the indent stack grew by the
      INDENTs and shrank by the OUTDENTs among the new tokens. */
  ghost predicate Balanced(s: State, t: State) {
    s.tokens <= t.tokens
    && |t.indentStack| + Count(Outdent, t.tokens[|s.tokens|..]) == |s.indentStack| + Count(Indent, t.tokens[|s.tokens|..])
  }

  /** What holds of every state of a run. */
  ghost predicate RunInvariant(c: Config, s: State) {
    WellFormed(c.text, s) && StrictlyIncreasing(s.indentStack) && AllSpan(c.text, s.tokens)
    && AllScannerBlocks(s.blocks) && DentsBehind(s.tokens, s.ln, s.checkedIndent) && OneDentPerLine(s.tokens)
  }

  // ---------------------------------------------------------------------
  // One round

  /** One round of the loop keeps the run invariant, only appends to the
      token list, and moves the indent stack by the INDENT or OUTDENT it
      appends. */
  lemma StepKeeps(c: Config, s: State)
    requires ValidConfig(c) && s.idx < |c.text| && RunInvariant(c, s)
    ensures var (_, t) := Step(c, s); RunInvariant(c, t) && Balanced(s, t)
  {
    StepFacts(c, s);
    NextTokenFacts(c, s);
    NextTokenKeepsIncreasing(c, s);
    NextTokenKeepsTokens(c, s);
    NextTokenKeepsShape(c, s);
    NextTokenDents(c, s);
    var o := NextToken(c, s);
    RecordKeeps(c.text, o.next, o.token);
  }

  /** The indentation tokens of one step: the stack moves by the token, and
      a new INDENT or OUTDENT starts a line of its own. */
  lemma NextTokenDents(c: Config, s: State)
    requires ValidConfig(c) && WellFormed(c.text, s) && s.idx < |c.text|
    requires DentsBehind(s.tokens, s.ln, s.checkedIndent) && OneDentPerLine(s.tokens)
    ensures var o := NextToken(c, s);
      var added := if o.token.Some? then [o.token.value] else [];
      DentsBehind(s.tokens + added, o.next.ln, o.next.checkedIndent) && OneDentPerLine(s.tokens + added)
      && |o.next.indentStack| + Count(Outdent, added) == |s.indentStack| + Count(Indent, added)
  {
    NextTokenFacts(c, s);
    NextTokenStackStep(c, s);
    NextTokenLines(c, s);
    var o := NextToken(c, s);
    if o.token.Some? {
      var added := [o.token.value];
      assert added[..0] == [];
      assert o.token.value.begin.ln == s.ln;
      DentsStep(s.tokens, s.ln, s.checkedIndent, o.token.value, o.next.ln, o.next.checkedIndent);
    }
  }

  /** Appending the token of a step keeps the INDENT and OUTDENT tokens one
      per line. */
  lemma DentsStep(tokens: seq<Token>, ln: int, checked: bool, t: Token, ln': int, checked': bool)
    requires DentsBehind(tokens, ln, checked) && OneDentPerLine(tokens)
    requires ln <= ln' && (checked && ln' == ln ==> checked')
    requires t.begin.ln == ln
    requires IsIndentKind(t) ==> !checked && checked' && ln' == ln
    ensures DentsBehind(tokens + [t], ln', checked') && OneDentPerLine(tokens + [t])
  {
  }

  /** The bookkeeping appends the returned token, if any, adds it to the
      innermost block's header when it fits there, and leaves the cursor
      and the indent stack alone. */
  lemma RecordKeeps(text: string, s: State, token: Option<Token>)
    requires AllSpan(text, s.tokens) && (token.Some? ==> Spans(text, token.value))
    requires AllScannerBlocks(s.blocks)
    ensures var t := Record(s, token);
      AllSpan(text, t.tokens) && AllScannerBlocks(t.blocks)
      && t.tokens == s.tokens + (if token.Some? then [token.value] else [])
      && t.indentStack == s.indentStack && t.ln == s.ln && t.checkedIndent == s.checkedIndent
  {
    if token.Some? && |s.blocks| > 0 {
      AddKeepsScannerBlock(Last(s.blocks), token.value);
      SetLastKeepsShape(s.blocks, AddToHeader(Last(s.blocks), token.value));
    }
  }

  /** Replacing the innermost block by a well-shaped one keeps every block
      well shaped. */
  lemma SetLastKeepsShape(blocks: seq<BlockValue>, b: BlockValue)
    requires AllScannerBlocks(blocks) && |blocks| > 0 && ScannerBlock(b)
    ensures AllScannerBlocks(SetLast(blocks, b))
  {
    var r := SetLast(blocks, b);
    forall i | 0 <= i < |r| - 1 ensures r[i] == blocks[i] {
      assert r[..|r| - 1][i] == blocks[..|blocks| - 1][i];
    }
  }

  // ---------------------------------------------------------------------
  // What next_token leaves alone

  /** `next_token` itself never touches the token list. */
  lemma NextTokenKeepsTokens(c: Config, s: State)
    requires ValidConfig(c) && WellFormed(c.text, s) && s.idx < |c.text|
    ensures NextToken(c, s).next.tokens == s.tokens
  {
    if AtLineHead(s) {
      CheckIndentationKeeps(c, s.(checkedIndent := true));
    } else {
      ClassifyKeepsTokens(c, s);
    }
  }

  lemma ClassifyKeepsTokens(c: Config, s: State)
    requires WellFormed(c.text, s) && s.idx < |c.text|
    ensures Classify(c, s).state.tokens == s.tokens
  {
    var text := c.text;
    if s.currentChar == "\n" || s.currentChar == "#" || s.currentChar == "\"" {
    } else if NameLength(text, s.idx) > 0 {
      var n := NameLength(text, s.idx);
      assert ScanWord(c, s, n).state.tokens == s.tokens;
    } else if SeparatorLength(text, s.idx) > 0 && NumberLength(text, s.idx) == 0 && OperatorLength(text, s.idx) == 0 {
      assert ScanSeparator(text, s).state.tokens == s.tokens;
    }
  }

  /** Every block `next_token` opens or changes keeps the scanner's block
      shape. */
  lemma NextTokenKeepsShape(c: Config, s: State)
    requires ValidConfig(c) && WellFormed(c.text, s) && s.idx < |c.text| && AllScannerBlocks(s.blocks)
    ensures AllScannerBlocks(NextToken(c, s).next.blocks)
  {
    if AtLineHead(s) {
      CheckIndentationKeeps(c, s.(checkedIndent := true));
    } else {
      ClassifyKeepsShape(c, s);
    }
  }

  lemma ClassifyKeepsShape(c: Config, s: State)
    requires WellFormed(c.text, s) && s.idx < |c.text| && AllScannerBlocks(s.blocks)
    ensures AllScannerBlocks(Classify(c, s).state.blocks)
  {
    var text := c.text;
    if s.currentChar == "\n" {
      if |s.blocks| > 0 && Last(s.blocks).headerType == SingleLine {
        SetLastKeepsShape(s.blocks, Last(s.blocks).(headerComplete := true));
      }
    } else if s.currentChar == "#" || s.currentChar == "\"" {
    } else if NameLength(text, s.idx) > 0 {
      WordKeepsShape(c, s, NameLength(text, s.idx));
    } else if SeparatorLength(text, s.idx) > 0 && NumberLength(text, s.idx) == 0 && OperatorLength(text, s.idx) == 0 {
      SeparatorKeepsShape(text, s);
    }
  }

  lemma WordKeepsShape(c: Config, s: State, n: nat)
    requires 0 <= s.idx && s.idx + n <= |c.text| && AllScannerBlocks(s.blocks)
    ensures AllScannerBlocks(ScanWord(c, s, n).state.blocks)
  {
    var kw := Lexeme(Keyword, s, c.text[s.idx..s.idx + n]);
    var r := ScanWord(c, s, n);
    assert r.state == s || r == ScanKeyword(c, s, kw);
    KeywordKeepsShape(c, s, kw);
  }

  lemma KeywordKeepsShape(c: Config, s: State, kw: Token)
    requires AllScannerBlocks(s.blocks)
    ensures AllScannerBlocks(ScanKeyword(c, s, kw).state.blocks)
  {
    var indent := if |s.indentTokens| == 0 then None else Some(Last(s.indentTokens));
    NewBlockIsScannerBlock(kw, kw.value == "else", SingleLine, indent, None);
  }

  lemma SeparatorKeepsShape(text: string, s: State)
    requires WellFormed(text, s) && s.idx < |text| && AllScannerBlocks(s.blocks)
    ensures AllScannerBlocks(ScanSeparator(text, s).state.blocks)
  {
    var ch := text[s.idx];
    var tok := Lexeme(Separator, s, [ch]);
    if IsCloser(ch) && |s.parens| > 0 && !s.endString && |s.blocks| > 0 {
      AddKeepsScannerBlock(Last(s.blocks), tok);
      SetLastKeepsShape(s.blocks, AddToHeader(Last(s.blocks), tok).(headerComplete := true));
    } else if IsOpener(ch) && !s.endString && |s.blocks| > 0 && !Last(s.blocks).headerComplete {
      SetLastKeepsShape(s.blocks, Last(s.blocks).(headerType := MultiLine));
    }
  }

  /** The indentation branch keeps the token list, and the only block it
      changes gets an indent size. */
  lemma CheckIndentationKeeps(c: Config, s: State)
    requires ValidConfig(c) && WellFormed(c.text, s) && s.idx < |c.text| && s.col == 0
    ensures var o := CheckIndentation(c, s);
      o.next.tokens == s.tokens && (AllScannerBlocks(s.blocks) ==> AllScannerBlocks(o.next.blocks))
  {
    var (line, t) := CurrentLine(c.text, s);
    match FirstNonSpace(c.text, s.idx, line.end)
    case None =>
    case Some(first) =>
      IndentedLineKeeps(c, t, line, first);
  }

  lemma IndentedLineKeeps(c: Config, s: State, line: Line, first: int)
    requires ValidConfig(c)
    requires 0 <= line.begin == s.idx <= first < line.end <= |c.text| && line.value == c.text[line.begin..line.end]
    requires !IsSpace(c.text[first])
    ensures var o := IndentedLine(c, s, line, first);
      o.next.tokens == s.tokens && (AllScannerBlocks(s.blocks) ==> AllScannerBlocks(o.next.blocks))
  {
    var captured := c.text[s.idx..first];
    if |s.blocks| > 0 {
      LineHasWord(c.text, line, first);
      if IndentErrors(c, s, Last(s.blocks), line, captured) == [] && AllScannerBlocks(s.blocks) {
        DentKeepsShape(s, captured);
      }
    }
  }

  lemma DentKeepsShape(s: State, captured: string)
    requires |s.blocks| > 0 && AllScannerBlocks(s.blocks)
    ensures AllScannerBlocks(Dent(s, captured).state.blocks)
  {
    if Top(s.indentStack) < |captured| {
      SetLastKeepsShape(s.blocks, Last(s.blocks).(indentSize := Some(|captured|)));
    }
  }

  // ---------------------------------------------------------------------
  // The whole run

  lemma BalancedTrans(s: State, u: State, t: State)
    requires Balanced(s, u) && Balanced(u, t)
    ensures Balanced(s, t)
  {
    assert t.tokens[|s.tokens|..] == u.tokens[|s.tokens|..] + t.tokens[|u.tokens|..];
    CountAppend(Indent, u.tokens[|s.tokens|..], t.tokens[|u.tokens|..]);
    CountAppend(Outdent, u.tokens[|s.tokens|..], t.tokens[|u.tokens|..]);
  }

  /** A `tokenize` run from a state that satisfies the run invariant keeps
      it: the state stays well formed, the indent stack strictly increasing,
      every recorded token spans its text, every block keeps its shape, and
      INDENT and OUTDENT stay one per line; it only appends tokens, the
      indent stack moves by the INDENTs and OUTDENTs it appends, and a run
      that reports nothing has consumed the whole text and is done. */
  lemma {:induction false} TokenizeKeeps(c: Config, s: State)
    requires ValidConfig(c) && RunInvariant(c, s)
    ensures var (errors, t) := Tokenize(c, s);
      RunInvariant(c, t) && Balanced(s, t) && (errors == [] ==> t.done && t.idx == |c.text|)
    decreases |c.text| - s.idx, if s.checkedIndent then 0 else 1
  {
    if s.currentChar != "" {
      StepFacts(c, s);
      StepKeeps(c, s);
      var (errors, u) := Step(c, s);
      if errors == [] {
        TokenizeKeeps(c, u);
        BalancedTrans(s, u, Tokenize(c, u).1);
      }
    } else {
      assert s.tokens[|s.tokens|..] == [];
    }
  }

  /** In particular a run from the initial state: no token is ever invented,
      the indent stack never holds a width twice, and its depth is the
      number of INDENTs less the number of OUTDENTs; every block header
      starts with its keyword; no line yields two INDENT or OUTDENT
      tokens. */
  lemma TokenizeFromInit(c: Config)
    requires ValidConfig(c)
    ensures var (errors, t) := Tokenize(c, Init(c));
      AllSpan(c.text, t.tokens) && StrictlyIncreasing(t.indentStack)
      && |t.indentStack| == Count(Indent, t.tokens) - Count(Outdent, t.tokens)
      && AllScannerBlocks(t.blocks) && OneDentPerLine(t.tokens)
      && (errors == [] ==> t.done && t.idx == |c.text|)
  {
    InitWellFormed(c);
    TokenizeKeeps(c, Init(c));
    var t := Tokenize(c, Init(c)).1;
    assert t.tokens[0..] == t.tokens;
  }
}
