/** Value types of the scanner: positions, cached lines, tokens and
    diagnostics (tokenizer.py, `Pos`, `Line`, `Token`). */
module Tokens {

  datatype Option<T> = None | Some(value: T)

  /** A cursor position: offset into the text, column and line (both from 0). */
  datatype Pos = Pos(idx: int, col: int, ln: int)

  /** A line of the text without its line break, with its offset bounds. */
  datatype Line = Line(value: string, begin: int, end: int)

  datatype TokenKind =
    | LineBreak | Comment | String | EndLabelString | Keyword | Operator
    | Name | IntNumber | FloatNumber | Separator | Indent | Outdent
  {
    /** The token name the scanner writes into `Token.name`. */
    function Label(): string {
      match this
      case LineBreak => "LINE_BREAK"
      case Comment => "COMMENT"
      case String => "STRING"
      case EndLabelString => "END_LABEL_STRING"
      case Keyword => "KEYWORD"
      case Operator => "OPERATOR"
      case Name => "NAME"
      case IntNumber => "INT_NUMBER"
      case FloatNumber => "FLOAT_NUMBER"
      case Separator => "SEPARATOR"
      case Indent => "INDENT"
      case Outdent => "OUTDENT"
    }
  }

  datatype Token = Token(kind: TokenKind, value: string, begin: Pos, end: Pos)

  /** The categories of fatal diagnostics the scanner can report. */
  datatype ErrorKind =
    | IndentingTopLevel        // leading whitespace with no open block
    | OppositeIndentChar       // a tab in space mode, or a space in tab mode
    | InvalidIndentMultiple    // indent width not a multiple of the indent size
    | UnexpectedIndentation    // not deeper than the header, body indent known
    | ExpectedIndentation      // not deeper than the header, no body indent yet
    | UnclosedString
    | MultiLinedEnd            // `end` statement spread over brackets
    | MultiLiningBlockHeader   // block keyword inside an open bracket
    | UnmatchedCloser          // `)` or `]` with no open bracket

  /** A diagnostic: its category and the cursor's line and column. */
  datatype Diagnostic = Diagnostic(kind: ErrorKind, ln: int, col: int)

  /** Python's `needle in hay` on two strings: a substring test. */
  predicate Contains(hay: string, needle: string)
    decreases |hay|
  {
    |needle| <= |hay| && (hay[..|needle|] == needle || Contains(hay[1..], needle))
  }

  /** `tokenize` tests `token.name in ("OUTDENT")`, which is a substring test
      on a string, not membership in a tuple; among the token names only
      `OUTDENT` itself passes it. */
  lemma {:induction false} OutdentLabelTest(k: TokenKind)
    ensures Contains("OUTDENT", k.Label()) <==> k == Outdent
  {
    var hay := "OUTDENT";
    assert hay[..7] == hay;
    if k == Comment || k == Keyword {
      assert hay[..7] != k.Label();
      assert !Contains(hay[1..], k.Label());
    } else if k == Indent {
      assert hay[..6] == "OUTDEN";
      assert hay[1..][..6] == "UTDENT";
      assert hay[1..][1..] == "TDENT";
      assert !Contains(hay[1..][1..], "INDENT");
    } else if k == String {
      assert hay[..6] == "OUTDEN";
      assert hay[1..][..6] == "UTDENT";
      assert hay[1..][1..] == "TDENT";
      assert !Contains(hay[1..][1..], "STRING");
    } else if k == Outdent {
    } else if k == Name {
      assert hay[..4] == "OUTD";
      assert hay[1..][..4] == "UTDE";
      assert hay[1..][1..][..4] == "TDEN";
      assert hay[1..][1..][1..][..4] == "DENT";
      assert hay[1..][1..][1..][1..] == "ENT";
      assert !Contains(hay[1..][1..][1..][1..], "NAME");
    } else {
      assert |k.Label()| > 7;
      assert !Contains(hay, k.Label());
    }
  }
}
