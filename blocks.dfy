/** Open block headers (tokenizer.py, class `Block`). A block is created when
    a block keyword is scanned outside brackets; its header then collects
    tokens from the lines that follow until it is complete. */
module Blocks {
  import opened Tokens

  datatype HeaderType = SingleLine | MultiLine

  /** The value of a `Block` object's fields. */
  datatype BlockValue = BlockValue(
    header: seq<Token>,
    headerName: string,
    headerComplete: bool,
    headerType: HeaderType,
    headerIndent: Option<Token>,
    indentSize: Option<int>,
    lines: seq<int>)

  /** The distinct lines of `header`'s tokens, in order of first appearance. */
  function HeaderLines(header: seq<Token>): (r: seq<int>)
    ensures forall i :: 0 <= i < |header| ==> header[i].begin.ln in r
    ensures forall l :: l in r ==> exists i :: 0 <= i < |header| && header[i].begin.ln == l
    ensures forall i, j :: 0 <= i < j < |r| ==> r[i] != r[j]
  {
    if header == [] then []
    else
      var r := HeaderLines(header[..|header| - 1]);
      var l := header[|header| - 1].begin.ln;
      if l in r then r else r + [l]
  }

  /** `Block.__init__`. */
  function NewBlock(header: seq<Token>, complete: bool, kind: HeaderType,
                    indent: Option<Token>, size: Option<int>): BlockValue
    requires |header| > 0
  {
    BlockValue(header, header[0].value, complete, kind, indent, size, HeaderLines(header))
  }

  /** `Block.add`: the token joins the header only while the header is open,
      when it is not there yet, when it lies on none of the lines the header
      had at construction, and when it is not a line break. */
  function AddToHeader(b: BlockValue, t: Token): BlockValue {
    if !b.headerComplete && t !in b.header && t.begin.ln !in b.lines && t.value != "\n"
    then b.(header := b.header + [t])
    else b
  }

  /** The shape of every block the scanner builds: a header started by one
      keyword token, whose other tokens are distinct, lie on other lines than
      the keyword and are not line breaks. */
  ghost predicate ScannerBlock(b: BlockValue) {
    |b.header| >= 1 && b.headerName == b.header[0].value
    && b.lines == [b.header[0].begin.ln]
    && (forall i :: 1 <= i < |b.header| ==> b.header[i].value != "\n" && b.header[i].begin.ln != b.lines[0])
    && (forall i, j :: 0 <= i < j < |b.header| ==> b.header[i] != b.header[j])
  }

  lemma NewBlockIsScannerBlock(t: Token, complete: bool, kind: HeaderType, indent: Option<Token>, size: Option<int>)
    ensures ScannerBlock(NewBlock([t], complete, kind, indent, size))
  {
    assert [t][..|[t]| - 1] == [];
    assert HeaderLines([t]) == [t.begin.ln];
  }

  /** Adding to a header keeps its shape; the header grows by at most the
      added token and a complete header does not change. */
  lemma AddKeepsScannerBlock(b: BlockValue, t: Token)
    requires ScannerBlock(b)
    ensures ScannerBlock(AddToHeader(b, t))
    ensures AddToHeader(b, t).header == b.header || AddToHeader(b, t).header == b.header + [t]
    ensures b.headerComplete ==> AddToHeader(b, t) == b
    ensures AddToHeader(b, t).lines == b.lines && AddToHeader(b, t).headerComplete == b.headerComplete
  {
  }

  /** A block object. `header`, `headerComplete`, `headerType` and
      `indentSize` are updated in place by the scanner. */
  class Block {
    var header: seq<Token>
    const headerName: string
    var headerComplete: bool
    var headerType: HeaderType
    const headerIndent: Option<Token>
    var indentSize: Option<int>
    const lines: seq<int>

    function View(): BlockValue
      reads this
    {
      BlockValue(header, headerName, headerComplete, headerType, headerIndent, indentSize, lines)
    }

    constructor (header: seq<Token>, headerComplete: bool, headerType: HeaderType,
                 headerIndent: Option<Token>, indentSize: Option<int>)
      requires |header| > 0
      ensures View() == NewBlock(header, headerComplete, headerType, headerIndent, indentSize)
    {
      var ls: seq<int> := [];
      var k := 0;
      while k < |header|
        invariant 0 <= k <= |header|
        invariant ls == HeaderLines(header[..k])
      {
        assert header[..k + 1][..k] == header[..k];
        if header[k].begin.ln !in ls {
          ls := ls + [header[k].begin.ln];
        }
        k := k + 1;
      }
      assert header[..|header|] == header;
      this.header := header;
      this.headerName := header[0].value;
      this.headerComplete := headerComplete;
      this.headerType := headerType;
      this.headerIndent := headerIndent;
      this.indentSize := indentSize;
      this.lines := ls;
    }

    method Add(t: Token)
      modifies this
      ensures View() == AddToHeader(old(View()), t)
    {
      if !headerComplete && t !in header && t.begin.ln !in lines && t.value != "\n" {
        header := header + [t];
      }
    }
  }
}
