# Indentation-aware scanner of the Simple programming language

This project models the scanner in `tokenizer.py` and proves properties of the model. The scanner turns the source text of the Simple language into tokens. While it scans, it checks the layout rules of the language:

- one indentation character, either spaces or tabs;
- indents that are multiples of the indent size;
- no indented top-level code;
- block bodies indented deeper than their header;
- brackets that continue a statement over several lines.

## Structure

**`Tokens`** (tokens.dfy) holds the value types `Pos`, `Line`, `Token` and `Diagnostic`.
- A token kind is a datatype. `Label` gives the name the scanner writes into `Token.name`.
- A diagnostic is the category of a fatal error plus the cursor's line and column. The message text is not modelled.

**`Lexicon`** (lexicon.dfy) holds the tables of `const.py` as constant sets: `KEYWORDS`, `OPERATORS` and `SEPARATORS`.

**`Matchers`** (matchers.dfy) holds the patterns the scanner applies at the cursor. The source imports `STRING_PATTERN`, `NAME_PATTERN`, `NUMBER_PATTERN`, `INT_PATTERN`, `OPERATOR_PATTERN` and `SEPARATOR_PATTERN` from `const.py`, but `const.py` does not define them, so they are written out here:

| pattern | definition used |
|---|---|
| identifier | `[A-Za-z_][A-Za-z0-9_]*` |
| number | `[+-]?[0-9]+(\.[0-9]+)?`; an integer when it has no `.` |
| string | `"(\\.\|[^"\\\n])*"` |
| operator | the longest member of `OPERATORS` at the cursor |
| separator | one character of `SEPARATORS` |

The set of block keywords (`BLOCK_STATEMENTS`) is a parameter.

**`Blocks`** (blocks.dfy) holds block headers.
- `BlockValue` is the value of a `Block`'s fields.
- `NewBlock` and `AddToHeader` are `Block.__init__` and `Block.add` on values.
- The class `Block` keeps the same fields and updates them in place.

**`ScanSpec`** (scan_spec.dfy) is the scanner as functions over a `State` value. It has:
- `Advance`;
- `CurrentLine`;
- one function per branch of `next_token`;
- `Classify`, `CheckIndentation` and `NextToken`;
- `Record`, the bookkeeping done in `tokenize`;
- `Step` and `Tokenize`.

It also states two invariants as predicates:
- `WellFormed`: the cursor is consistent with the text, and the line cache holds true lines.
- `StackStep`: how one step may change the indent stack.

Lemmas establish what each step keeps.

**`StepProperties`** (step_properties.dfy) holds the properties of one `next_token` step:
- the indent stack;
- the line head;
- the indent checks;
- the bracket stack.

**`RunProperties`** (run_properties.dfy) holds the properties of a whole `tokenize` run.

**`Scanner`** (tokenizer.dfy) is the `Tokenizer` class. Its fields are updated in place. Each method's postcondition says the state after the call is the matching `ScanSpec` function applied to the state before it. For example, `Tokenizer.Tokenize` ensures `(errors, View()) == ScanSpec.Tokenize(Options(), old(View()))`, so every property proved about the functions also holds of the methods.

The functions follow the code, not the specification, where the two disagree:
- `"end"` is not in `KEYWORDS` (const.py:5-29). So the scanner never reads `end` as a keyword, never sets `end_string`, and never builds an `END_LABEL_STRING` token. The branches for these exist in the model as they do in the code, and `Lexicon.EndIsNoKeyword` records why they are never taken.
- Blocks are only ever appended (tokenizer.py:551-564). A dedent does not pop one.
- A character that no branch recognises is skipped silently with one step. It is not reported as an error.
- A closing bracket pops whatever is on the bracket stack, without comparing the kinds of bracket.
- There is a single check for the indent character that is not configured (tokenizer.py:283-307). There is no separate check for mixed indentation.
- The separators are those of `const.py`: `[ ] ( ) , :`.
- `tokenize` tests `token.name in ("OUTDENT")`. That is a substring test on a string, so each OUTDENT token is kept on the indentation-token stack a second time.
- A number is an integer exactly when it has no fractional part.

## Model

| member | source | states |
|---|---|---|
| Tokens.OutdentLabelTest | tokenizer.py:710-711 | the substring test `name in ("OUTDENT")` holds for the OUTDENT label and for no other token name |
| Lexicon.EndIsNoKeyword | const.py:5-29 | `end` is not a reserved word |
| Lexicon.WordOperatorsAreKeywords | const.py:12-14 | `not`, `and`, `or` are both reserved words and operators |
| Lexicon.OperatorsAreShort | const.py:32-67 | every operator has one to three characters and no line break, so a three-character look-ahead finds the longest one |
| Lexicon.OperatorsAvoidBrackets | const.py:32-67 | no operator starts with a bracket, so brackets always reach the separator branch |
| Lexicon.SeparatorsAreSingle | const.py:70 | every separator is one character other than a line break |
| Matchers.FirstNonSpace | tokenizer.py:239-241 | the result is the first non-white-space offset in the range, and everything before it is white space; no result means the whole range is white space |
| Matchers.FindLineBreak | tokenizer.py:428-438 | the result is the next line break at or after the offset, or the end of the text, with no line break before it |
| Matchers.NameLength | tokenizer.py:476-479 | the match is non-empty exactly when the cursor is on a letter or `_`; it holds only name characters, is maximal, and crosses no line break |
| Matchers.NumberLength | tokenizer.py:569-571 | a non-empty match starts with a digit or a sign, holds a digit, and crosses no line break |
| Matchers.NumberLengthMatches | tokenizer.py:569-587 | the match is non-empty exactly when a digit, or a sign followed by a digit, is at the cursor; a match without `.` is an integer text `[+-]?d+`, a match with `.` a float text `[+-]?d+.d+`; no digit follows the match, and no `.` followed by a digit follows an integer |
| Matchers.OperatorLength | tokenizer.py:589-594 | a non-empty match is an operator, and no longer operator starts at the cursor |
| Matchers.SeparatorLength | tokenizer.py:601-602 | the match is one character exactly when that character is a separator |
| Matchers.StringLength | tokenizer.py:448-450 | a match runs from the opening to a closing quote on the same line |
| Matchers.StringCloseMatches | tokenizer.py:448-450 | the closing quote found is the first one reachable through a string body, and is found whenever one exists |
| Matchers.StringLengthMatches | tokenizer.py:446-474 | a match is an opening quote, a string body of escapes and plain characters, and a closing quote; whenever such a closing quote exists the match ends at the first one, so no match means none exists on the line |
| Matchers.FirstWord | tokenizer.py:339 | the first word of a line with a non-space character starts at its first non-space character, is non-empty, holds no white space and is followed by white space or the end of the line |
| Blocks.HeaderLines | tokenizer.py:73-76 | the header's lines: every token's line is listed, only those lines are listed, and none is listed twice |
| Blocks.NewBlockIsScannerBlock | tokenizer.py:551-564 | a block made from one keyword token records that token's line as its only header line |
| Blocks.AddKeepsScannerBlock | tokenizer.py:92-103 | `add` appends the token or changes nothing; a complete header never changes; header tokens stay distinct, not line breaks, and off the keyword's line |
| Blocks.Block.constructor | tokenizer.py:49-82 | the new block's fields are those of `NewBlock`, with the line list computed by a loop over the header |
| Blocks.Block.Add | tokenizer.py:92-103 | the block's new value is `AddToHeader` of its old value |
| ScanSpec.InitWellFormed | tokenizer.py:128-158 | the initial state satisfies the cursor and cache invariant |
| ScanSpec.Advance | tokenizer.py:208-222 | an advance changes only the cursor fields |
| ScanSpec.AdvanceKeepsPosition | tokenizer.py:208-222 | an advance keeps the cursor invariant. A one-step advance over a line break sets column 0, adds one line, records the break and clears the indentation flag. Any other advance adds `steps` to the column on the same line. The current character becomes empty exactly at the end of the text |
| ScanSpec.CurrentLine | tokenizer.py:180-194 | the line returned is the cursor's line: from just after the last line break to the next one or the end of the text. It is stored in the cache under the cursor's line number |
| ScanSpec.CurrentLineTwice | tokenizer.py:180-194 | a second call returns the same line and leaves the state unchanged |
| ScanSpec.LexemeAt | tokenizer.py:383-389 | a token built at the cursor has the text it spans as its value, with end minus begin equal to its length in offset and in column, on one line |
| ScanSpec.ScanLineBreakOK | tokenizer.py:415-423 | the line-break branch returns a one-character `LINE_BREAK` token, advances by one, completes a single-line innermost header, clears any pending `end` label and changes nothing else |
| ScanSpec.ScanCommentOK | tokenizer.py:426-444 | the comment branch returns a COMMENT token holding exactly the text from `#` up to the next line break or the end of the text, consumes exactly that, and leaves the state alone |
| ScanSpec.ScanStringOK | tokenizer.py:446-474 | with a closing quote on the line, the branch returns the quoted literal of exactly the matched length, as an END_LABEL_STRING after `end` and a STRING otherwise, and clears the pending label; without one it reports an unclosed string, returns no token and only fills the line cache |
| ScanSpec.ScanWordOK | tokenizer.py:476-567 | the word branch returns the whole name as a NAME when it is no reserved word, an operator when it is a word operator, and a KEYWORD otherwise; it consumes the name; it reports multi-lining exactly for a block keyword inside brackets; it keeps the cursor and the indent stack and only appends blocks |
| ScanSpec.ScanNumberOK | tokenizer.py:569-587 | the number branch returns the whole match as an INT_NUMBER when it has no `.` and a FLOAT_NUMBER otherwise, consumes exactly the match and leaves the state alone |
| ScanSpec.ScanOperatorOK | tokenizer.py:589-599 | the operator branch returns the longest operator at the cursor as an OPERATOR token, consumes exactly it and leaves the state alone |
| ScanSpec.ScanSeparatorOK | tokenizer.py:601-669 | a closer with no bracket open is an unmatched-closer error with no token that only fills the line cache; any other separator is returned as a one-character SEPARATOR token consumed in one step; the cursor and the indent stack are kept |
| ScanSpec.ClassifyFacts | tokenizer.py:415-669 | every classification branch consumes at least one character, crosses no line break except a lone one, keeps the cursor and the indent stack, and only appends blocks; a token spans its text, has the form its kind demands (an INT_NUMBER `[+-]?d+`, a FLOAT_NUMBER `[+-]?d+.d+`, a quoted STRING, ...) and is exactly as long as the advance |
| ScanSpec.Dent | tokenizer.py:376-411 | the INDENT/OUTDENT decision keeps the cursor and asks for an advance over the whole indent |
| ScanSpec.DentStack | tokenizer.py:376-411 | an INDENT pushes its width and stores it as the innermost block's indent size. An OUTDENT pops exactly one entry. An indent equal to the top yields no token |
| ScanSpec.IndentLevelsFacts | tokenizer.py:275-411 | the indent checks and the decision keep the state well formed; rejected indentation leaves the state as it was |
| ScanSpec.CheckIndentationFacts | tokenizer.py:235-413 | the indentation branch keeps the state well formed and changes the indent stack only as `StackStep` allows; on error the cursor stays put |
| ScanSpec.NextTokenFacts | tokenizer.py:226-702 | one step keeps the state well formed. On success it moves the cursor or marks the line head checked, and a token returned without error leaves the cursor just after it. On error the cursor stays. Any token spans its text, and blocks are only appended |
| ScanSpec.StepFacts | tokenizer.py:704-718 | one round of the loop keeps the state well formed and, without errors, makes progress in the order `(|text| - idx, checked_indent)` |
| ScanSpec.RecordKeepsCursor | tokenizer.py:708-714 | the loop's bookkeeping touches neither the cursor nor the line cache |
| StepProperties.StackStepKeepsIncreasing | tokenizer.py:390-406 | a push above the top, or a pop, keeps the indent stack strictly increasing and positive |
| StepProperties.NextTokenStackStep | tokenizer.py:226-413 | every step changes the indent stacks only by a push of a deeper width or the pop of one entry of a non-empty stack. INDENT and OUTDENT come only from a line head outside brackets whose indentation is unchecked, and the step leaves the cursor on that line with its indentation marked checked (only an advance over a line break clears the mark, by `ScanSpec.AdvanceKeepsPosition`) |
| StepProperties.NextTokenKeepsIncreasing | tokenizer.py:376-411 | the indent stack stays strictly increasing with positive entries |
| StepProperties.NextTokenLines | tokenizer.py:226-234 | a step never moves back a line; on a line whose indentation is already checked, a step that stays on that line keeps it checked and builds no INDENT or OUTDENT |
| StepProperties.CurrentLineAtHead | tokenizer.py:180-194 | at a line head, the current line is the text up to the next line break |
| StepProperties.NextTokenAtHead | tokenizer.py:235-245 | at a line head, the line gets cached; a blank line is skipped, any other line goes to the indent checks |
| StepProperties.BlankLineSkipped | tokenizer.py:242-244 | a blank or all-space line is consumed up to its line break, with no token, no error and no change to the stacks, the token list or the blocks |
| StepProperties.TopLevelIndentIsError | tokenizer.py:250-266 | with no block open, a line head is an error exactly when the line starts with white space and is not blank; the error leaves the cursor where it is |
| StepProperties.IndentInsideBlock | tokenizer.py:270-274 | inside a block, the indent is checked unless the line starts flush with `#`, `,`, `;`, `:`, `)`, `]` or `"` |
| StepProperties.IndentChecks | tokenizer.py:283-371 | at most one indentation error. The wrong indent character excludes the other checks. An indent deeper than the header's must be a multiple of the indent size unless that size is 1. An indent no deeper than the header's is "expected indentation" while the block has no indent size. Otherwise it is "unexpected indentation" unless the line starts with `end`, `else` or `else_if` |
| StepProperties.IndentLevelsOutcome | tokenizer.py:373-411 | accepted indentation yields INDENT when wider than the top, OUTDENT when narrower and no token when equal, and the cursor moves past the indent; rejected indentation moves nothing |
| StepProperties.UnknownCharSkipped | tokenizer.py:227-228 | a character no branch recognises is skipped with one step, no token and no error |
| StepProperties.BracketIsSeparator | tokenizer.py:601-602 | away from a line head, a bracket is read by the separator branch |
| StepProperties.OpenerPushes | tokenizer.py:638-651 | an opening bracket is pushed and consumed, unless it follows `end`, which is an error that leaves the blocks alone; on success an innermost header that is not complete becomes multi-line, and otherwise the blocks are unchanged |
| StepProperties.CloserPops | tokenizer.py:603-667 | a closing bracket pops exactly one entry whatever its kind, adds itself to the innermost header and completes it; with none open it is an error with no token, and the cursor and the blocks stay |
| StepProperties.OpenBracketOutcome | tokenizer.py:638-651 | the opening-bracket outcome: an error exactly after `end`; otherwise the bracket is pushed, one character consumed, and an incomplete innermost header turned multi-line |
| StepProperties.KeywordOpensBlock | tokenizer.py:489-564 | away from a line head, a block keyword is returned as a KEYWORD; outside brackets it is consumed and appends exactly one new single-line block headed by it, complete only for `else`, whose header indent is the last indentation token; inside brackets it is a multi-lining error that changes nothing |
| StepProperties.NoIndentationInsideBrackets | tokenizer.py:230-234 | while a bracket is open, no indentation check runs, no INDENT or OUTDENT is built and the indent stack is unchanged |
| RunProperties.StepKeeps | tokenizer.py:704-714 | a round of the loop keeps the run invariant (state well formed, indent stack strictly increasing, every token spanning its text, every block shaped as the scanner builds it, at most one INDENT or OUTDENT per line), only appends tokens, and moves the indent stack by one for each INDENT and back by one for each OUTDENT it appends |
| RunProperties.NextTokenDents | tokenizer.py:226-411 | the token of one step moves the indent stack by one up for an INDENT, one down for an OUTDENT and not at all otherwise, and a new INDENT or OUTDENT is the first on its line |
| RunProperties.RecordKeeps | tokenizer.py:708-714 | the bookkeeping appends exactly the returned token and keeps the blocks scanner-shaped, leaving the cursor and indent stack alone |
| RunProperties.NextTokenKeepsTokens | tokenizer.py:226-702 | `next_token` never touches the token list |
| RunProperties.NextTokenKeepsShape | tokenizer.py:226-702 | every block left by `next_token` has the shape the scanner builds |
| RunProperties.CheckIndentationKeeps | tokenizer.py:235-413 | the indentation branch leaves the token list alone and keeps the blocks scanner-shaped |
| RunProperties.TokenizeKeeps | tokenizer.py:704-722 | a whole run keeps the run invariant (every recorded token spanning its text, the indent stack strictly increasing, blocks scanner-shaped, at most one INDENT or OUTDENT per line); the indent stack grows by the INDENTs and shrinks by the OUTDENTs recorded; a run without errors consumes the text and is done |
| RunProperties.TokenizeFromInit | tokenizer.py:704-722 | from a fresh scanner, every token of the run spans its text, as testing/test_tokens_list.py asserts; the indent stack left open is strictly increasing and holds as many entries as INDENTs minus OUTDENTs; every block is scanner-shaped; INDENT and OUTDENT tokens come one per line, in line order; a run without errors consumes the whole text and is done |
| Scanner.Tokenizer.constructor | tokenizer.py:118-164 | a new scanner is valid and holds the initial state |
| Scanner.Tokenizer.Advance | tokenizer.py:208-222 | the fields after the call are `ScanSpec.Advance` of the fields before it |
| Scanner.Tokenizer.CurrentLine | tokenizer.py:169-194 | the returned line and the new fields are `ScanSpec.CurrentLine` of the old fields |
| Scanner.Tokenizer.LineBreakStep | tokenizer.py:415-423 | the line-break branch on the fields, as `ScanLineBreak` |
| Scanner.Tokenizer.CommentStep | tokenizer.py:426-444 | the comment branch, as `ScanComment` |
| Scanner.Tokenizer.StringStep | tokenizer.py:446-474 | the string branch, as `ScanString` |
| Scanner.Tokenizer.WordStep | tokenizer.py:476-567 | the word branch, as `ScanWord`; new blocks are fresh objects |
| Scanner.Tokenizer.KeywordStep | tokenizer.py:489-564 | the keyword branch, as `ScanKeyword` |
| Scanner.Tokenizer.NumberStep | tokenizer.py:569-587 | the number branch, as `ScanNumber` |
| Scanner.Tokenizer.OperatorStep | tokenizer.py:589-599 | the operator branch, as `ScanOperator` |
| Scanner.Tokenizer.SeparatorStep | tokenizer.py:601-669 | the separator branch, as `ScanSeparator` |
| Scanner.Tokenizer.OpenBracketStep | tokenizer.py:638-651 | an opening bracket, as `OpenBracket` |
| Scanner.Tokenizer.CloseBracketStep | tokenizer.py:652-667 | a closing bracket, as `CloseBracket`, updating the innermost block in place |
| Scanner.Tokenizer.Classify | tokenizer.py:415-669 | the classification branches in order, as `ScanSpec.Classify` |
| Scanner.Tokenizer.CheckIndentation | tokenizer.py:235-245 | the indentation branch, as `ScanSpec.CheckIndentation` |
| Scanner.Tokenizer.IndentedLine | tokenizer.py:245-274 | an indented line, as `ScanSpec.IndentedLine` |
| Scanner.Tokenizer.IndentLevels | tokenizer.py:275-411 | the checks and the INDENT/OUTDENT decision, as `ScanSpec.IndentLevels` |
| Scanner.Tokenizer.IndentErrorsOf | tokenizer.py:277-371 | the diagnostics collected one check after another are `IndentErrors` |
| Scanner.Tokenizer.Dent | tokenizer.py:376-411 | the stack update, as `ScanSpec.Dent` |
| Scanner.Tokenizer.NextToken | tokenizer.py:226-702 | one step on the fields, as `ScanSpec.NextToken`; the scanner stays valid |
| Scanner.Tokenizer.Record | tokenizer.py:708-714 | the loop's bookkeeping, as `ScanSpec.Record` |
| Scanner.Tokenizer.Step | tokenizer.py:705-718 | one round of the loop, as `ScanSpec.Step` |
| Scanner.Tokenizer.Tokenize | tokenizer.py:704-722 | the whole loop, as `ScanSpec.Tokenize`; by `RunProperties.TokenizeKeeps`, its tokens span the text and its indent stack stays strictly increasing |

## Left out

- The command line (tokenizer.py:730-817), `__iter__`, `pos` rendering, `line_indented` and the `__repr__` methods. They are argument parsing, output and display.
- Printing the diagnostic and `exit(0)` in `tokenize`. The model returns the diagnostics of the first failing step instead, and the run stops there.
- The text of diagnostics and the tips block (tokenizer.py:675-700). A diagnostic keeps only its category, line and column. The crashes inside message rendering are not modelled:
  - with an unmatched closer on a line that starts with white space, `re.match(...).start()` fails on `None`;
  - the multi-line `end` message reads cache entries that were never filled.
- The file name and `supplied_spaces_explicitly`. They only appear in message texts.
- The regular-expression engine. The patterns are not defined in the repository; the matchers above stand in for them.
- `Block.lines_dict` and `make_header` (tokenizer.py:47, 84-90, 164). They are shared display state. The model therefore does not capture a crash they cause: `Block.__init__` calls `make_header` (tokenizer.py:82), which reads `Block.lines_dict[ln]`, the line cache, for every header line. The cache only holds lines whose head was checked outside brackets or that reported an error. A block keyword on a line that started inside brackets, as in `(1,\n2) if x`, makes the source fail with `KeyError`; the model appends the block.
- The multi-lining message for a block keyword inside brackets reads `self.lines[left_par_line]` (tokenizer.py:546). When the bracket was opened on a line that began inside brackets, that line is not cached and the source fails with `KeyError`, as in `(\n(if`. The model reports the multi-lining error instead.
- `simple.py`, `syntax_analyzer.py` and the test harnesses. Only the span property asserted in `testing/test_tokens_list.py` is modelled, as `RunProperties.TokenizeFromInit`.
- Scanner.Tokenizer.constructor: requires a space or tab indent type where the source raises `ValueError`. It also requires a non-zero indent size, where the source would fail with `ZeroDivisionError` on the first indent check.
- Scanner.Tokenizer.NextToken: requires the cursor to be before the end of the text, where `tokenize` calls it. At the end of the text the source behaves differently by position: at a line head whose line is not cached, `current_line` reads `self.text[self.idx]` (tokenizer.py:185) and fails with `IndexError`; anywhere else no branch matches and the step falls through, advancing by one.
