/** The lexical patterns the scanner applies at the cursor. The repository's
    tokenizer imports them from a constants module that does not define them,
    so they are written out here: identifiers `[A-Za-z_][A-Za-z0-9_]*`,
    numbers `[+-]?[0-9]+(\.[0-9]+)?`, strings `"(\\.|[^"\\\n])*"`, the
    longest operator of `OPERATORS` and one character of `SEPARATORS`.
    Each matcher answers with the length of the match at an offset (0 or
    `None` when it declines). */
module Matchers {
  import opened Tokens
  import opened Lexicon

  /** Python's `\s` for text patterns. */
  predicate IsSpace(c: char) {
    c == ' ' || c == '\t' || c == '\n' || c == '\r' || c == '\U{0B}' || c == '\U{0C}'
    || ('\U{1C}' <= c <= '\U{1F}') || c == '\U{85}' || c == '\U{A0}' || c == '\U{1680}'
    || ('\U{2000}' <= c <= '\U{200A}') || c == '\U{2028}' || c == '\U{2029}'
    || c == '\U{202F}' || c == '\U{205F}' || c == '\U{3000}'
  }

  predicate IsDigit(c: char) { '0' <= c <= '9' }
  predicate IsNameStart(c: char) { ('A' <= c <= 'Z') || ('a' <= c <= 'z') || c == '_' }
  predicate IsNameChar(c: char) { IsNameStart(c) || IsDigit(c) }

  /** No line break in `text[i..j]`. */
  ghost predicate NoBreak(text: string, i: int, j: int)
    requires 0 <= i && j <= |text|
  {
    forall k :: i <= k < j ==> text[k] != '\n'
  }

  lemma NoBreakOfSlice(text: string, i: int, j: int)
    requires 0 <= i <= j <= |text| && '\n' !in text[i..j]
    ensures NoBreak(text, i, j)
  {
    forall k | i <= k < j ensures text[k] != '\n' { assert text[k] == text[i..j][k - i]; }
  }

  lemma SliceOfNoBreak(text: string, i: int, j: int)
    requires 0 <= i <= j <= |text| && NoBreak(text, i, j)
    ensures '\n' !in text[i..j]
  {
    assert forall k :: 0 <= k < j - i ==> text[i..j][k] == text[i + k];
  }

  ghost predicate AllSpace(text: string, i: int, j: int)
    requires 0 <= i && j <= |text|
  {
    forall k :: i <= k < j ==> IsSpace(text[k])
  }

  /** `re.compile(r"[^\s]").search(text, lo, hi)`: the first offset in
      `[lo, hi)` holding a non-space character. */
  function FirstNonSpace(text: string, lo: int, hi: int): (r: Option<int>)
    requires 0 <= lo <= hi <= |text|
    ensures r.Some? ==> lo <= r.value < hi && !IsSpace(text[r.value]) && AllSpace(text, lo, r.value)
    ensures r.None? ==> AllSpace(text, lo, hi)
    decreases hi - lo
  {
    if lo == hi then None
    else if !IsSpace(text[lo]) then Some(lo)
    else FirstNonSpace(text, lo + 1, hi)
  }

  /** `text.find("\n", lo)`, with "not found" given as `|text|`. */
  function FindLineBreak(text: string, lo: int): (r: int)
    requires 0 <= lo <= |text|
    ensures lo <= r <= |text| && NoBreak(text, lo, r)
    ensures r < |text| ==> text[r] == '\n'
    decreases |text| - lo
  {
    if lo == |text| || text[lo] == '\n' then lo else FindLineBreak(text, lo + 1)
  }

  /** The length of the longest run starting at `i` of characters that satisfy `p`. */
  function RunLength(text: string, i: int, p: char -> bool): (n: nat)
    requires 0 <= i <= |text|
    ensures i + n <= |text|
    ensures forall k :: i <= k < i + n ==> p(text[k])
    ensures i + n < |text| ==> !p(text[i + n])
    decreases |text| - i
  {
    if i < |text| && p(text[i]) then 1 + RunLength(text, i + 1, p) else 0
  }

  /** The length of the digit run starting at `i`. */
  function DigitRun(text: string, i: int): (n: nat)
    requires 0 <= i <= |text|
    ensures i + n <= |text|
    ensures forall k :: i <= k < i + n ==> IsDigit(text[k])
    ensures i + n < |text| ==> !IsDigit(text[i + n])
    decreases |text| - i
  {
    if i < |text| && IsDigit(text[i]) then 1 + DigitRun(text, i + 1) else 0
  }

  /** Identifier match: `[A-Za-z_][A-Za-z0-9_]*`, 0 when there is none. */
  function NameLength(text: string, i: int): (n: nat)
    requires 0 <= i <= |text|
    ensures i + n <= |text| && NoBreak(text, i, i + n)
    ensures n > 0 <==> i < |text| && IsNameStart(text[i])
    ensures forall k :: i < k < i + n ==> IsNameChar(text[k])
    ensures n > 0 && i + n < |text| ==> !IsNameChar(text[i + n])
  {
    if i < |text| && IsNameStart(text[i]) then 1 + RunLength(text, i + 1, IsNameChar) else 0
  }

  /** Number match: an optional sign, digits, and a fraction when a `.` is
      followed by a digit; 0 when there is no digit after the sign. */
  function NumberLength(text: string, i: int): (n: nat)
    requires 0 <= i <= |text|
    ensures i + n <= |text| && NoBreak(text, i, i + n)
    ensures n > 0 ==> exists k :: i <= k < i + n && IsDigit(text[k])
    ensures n > 0 ==> IsDigit(text[i]) || text[i] == '+' || text[i] == '-'
  {
    var sign := if i < |text| && (text[i] == '+' || text[i] == '-') then 1 else 0;
    var digits := DigitRun(text, i + sign);
    if digits == 0 then 0
    else
      var j := i + sign + digits;
      assert IsDigit(text[i + sign]);
      if j + 1 < |text| && text[j] == '.' && IsDigit(text[j + 1]) then
        sign + digits + 1 + DigitRun(text, j + 1)
      else sign + digits
  }

  /** A matched number is an integer when it has no fractional part. */
  predicate IsIntLiteral(v: string) { '.' !in v }

  predicate IsSign(c: char) { c == '+' || c == '-' }

  /** `v` is `[+-]?[0-9]+`: an optional sign and at least one digit. */
  predicate IsIntText(v: string) {
    |v| > 0 && (IsDigit(v[0]) || (IsSign(v[0]) && |v| > 1))
    && forall k :: 0 < k < |v| ==> IsDigit(v[k])
  }

  /** `v` is `[+-]?[0-9]+\.[0-9]+` with its point at `k`. */
  predicate IsFloatTextAt(v: string, k: int) {
    0 < k < |v| - 1 && v[k] == '.' && IsIntText(v[..k])
    && forall m :: k < m < |v| ==> IsDigit(v[m])
  }

  ghost predicate IsFloatText(v: string) {
    exists k :: IsFloatTextAt(v, k)
  }

  /** What the number matcher accepts: a match exactly when a digit, or a
      sign and then a digit, is at `i`; the match is an integer literal when
      it has no point and a float literal otherwise; and it is the longest
      one, so neither a digit nor (after an integer) a point and a digit
      follows it. */
  lemma NumberLengthMatches(text: string, i: int)
    requires 0 <= i <= |text|
    ensures var n := NumberLength(text, i);
      (n > 0 <==> (i < |text| && IsDigit(text[i])) || (i + 1 < |text| && IsSign(text[i]) && IsDigit(text[i + 1])))
      && (n > 0 && '.' !in text[i..i + n] ==> IsIntText(text[i..i + n]))
      && (n > 0 && '.' in text[i..i + n] ==> IsFloatText(text[i..i + n]))
      && (n > 0 && i + n < |text| ==> !IsDigit(text[i + n]))
      && (n > 0 && '.' !in text[i..i + n] && i + n + 1 < |text| ==> !(text[i + n] == '.' && IsDigit(text[i + n + 1])))
  {
    var sign := if i < |text| && (text[i] == '+' || text[i] == '-') then 1 else 0;
    var digits := DigitRun(text, i + sign);
    if digits > 0 {
      var j := i + sign + digits;
      IntegerPart(text, i, j);
      if j + 1 < |text| && text[j] == '.' && IsDigit(text[j + 1]) {
        NumberWithFraction(text, i, sign, digits);
      } else {
        NumberWithoutFraction(text, i, sign, digits);
      }
    }
  }

  /** The number matcher when no point and digit follow the digits after the sign. */
  lemma NumberWithoutFraction(text: string, i: int, sign: int, digits: int)
    requires 0 <= i < |text| && sign == (if IsSign(text[i]) then 1 else 0)
    requires i + sign <= |text| && 0 < digits == DigitRun(text, i + sign)
    requires var j := i + sign + digits; !(j + 1 < |text| && text[j] == '.' && IsDigit(text[j + 1]))
    ensures NumberLength(text, i) == sign + digits
    ensures i + sign + digits < |text| ==> !IsDigit(text[i + sign + digits])
  {
  }

  /** The number matcher when the digits after the sign are followed by a
      point and a digit. */
  lemma NumberWithFraction(text: string, i: int, sign: int, digits: int)
    requires 0 <= i < |text| && sign == (if IsSign(text[i]) then 1 else 0)
    requires i + sign <= |text| && 0 < digits == DigitRun(text, i + sign)
    requires var j := i + sign + digits; j + 1 < |text| && text[j] == '.' && IsDigit(text[j + 1])
    requires IsIntText(text[i..i + sign + digits])
    ensures var n := NumberLength(text, i);
      IsFloatText(text[i..i + n]) && '.' in text[i..i + n]
      && (i + n < |text| ==> !IsDigit(text[i + n]))
  {
    var j := i + sign + digits;
    var f := DigitRun(text, j + 1);
    assert NumberLength(text, i) == sign + digits + 1 + f;
    FractionPart(text, i, j, j + 1 + f - i);
  }

  /** A sign (or none) and a digit run form an integer literal with no point. */
  lemma IntegerPart(text: string, i: int, j: int)
    requires 0 <= i < j <= |text|
    requires IsDigit(text[i]) || (IsSign(text[i]) && i + 1 < j)
    requires forall k :: i < k < j ==> IsDigit(text[k])
    ensures IsIntText(text[i..j]) && '.' !in text[i..j]
  {
    var v := text[i..j];
    assert forall k :: 0 <= k < |v| ==> v[k] == text[i + k];
  }

  /** An integer literal, a point and a digit run form a float literal. */
  lemma FractionPart(text: string, i: int, j: int, n: int)
    requires 0 <= i < j < i + n <= |text| && j + 1 < i + n
    requires IsIntText(text[i..j]) && text[j] == '.'
    requires forall k :: j < k < i + n ==> IsDigit(text[k])
    ensures IsFloatText(text[i..i + n]) && '.' in text[i..i + n]
  {
    var v := text[i..i + n];
    assert v[j - i] == '.';
    assert v[..j - i] == text[i..j];
    assert forall m :: j - i < m < |v| ==> v[m] == text[i + m];
    assert IsFloatTextAt(v, j - i);
  }

  /** An operator of `OPERATORS` of length `m` starts at `i`. */
  predicate IsOperatorAt(text: string, i: int, m: int)
    requires 0 <= i <= |text|
  {
    0 <= m && i + m <= |text| && text[i..i + m] in OPERATORS
  }

  /** Operator match: the longest prefix at `i` that is an operator. */
  function OperatorLength(text: string, i: int): (n: nat)
    requires 0 <= i <= |text|
    ensures i + n <= |text| && NoBreak(text, i, i + n)
    ensures n > 0 ==> IsOperatorAt(text, i, n)
    ensures forall m :: n < m ==> !IsOperatorAt(text, i, m)
  {
    forall m | 3 < m ensures !IsOperatorAt(text, i, m) {
      if IsOperatorAt(text, i, m) { OperatorsAreShort(text[i..i + m]); }
    }
    if IsOperatorAt(text, i, 3) then
      OperatorsAreShort(text[i..i + 3]);
      NoBreakOfSlice(text, i, i + 3);
      3
    else if IsOperatorAt(text, i, 2) then
      OperatorsAreShort(text[i..i + 2]);
      NoBreakOfSlice(text, i, i + 2);
      2
    else if IsOperatorAt(text, i, 1) then
      OperatorsAreShort(text[i..i + 1]);
      NoBreakOfSlice(text, i, i + 1);
      1
    else 0
  }

  /** Separator match: one character of `SEPARATORS`. */
  function SeparatorLength(text: string, i: int): (n: nat)
    requires 0 <= i <= |text|
    ensures n <= 1 && i + n <= |text| && NoBreak(text, i, i + n)
    ensures n == 1 <==> i < |text| && text[i..i + 1] in SEPARATORS
  {
    if i < |text| && text[i..i + 1] in SEPARATORS then
      SeparatorsAreSingle(text[i..i + 1]);
      NoBreakOfSlice(text, i, i + 1);
      1
    else 0
  }

  /** The end (one past the closing quote) of a string literal whose body
      starts at `j`: a backslash escapes any character but a line break, and
      a line break or the end of the text before the closing quote fails. */
  function StringClose(text: string, j: int): (r: Option<int>)
    requires 0 <= j <= |text|
    ensures r.Some? ==> j < r.value <= |text| && text[r.value - 1] == '"' && NoBreak(text, j, r.value)
    decreases |text| - j
  {
    if j == |text| then None
    else if text[j] == '"' then Some(j + 1)
    else if text[j] == '\n' then None
    else if text[j] == '\\' then
      (if j + 1 < |text| && text[j + 1] != '\n' then StringClose(text, j + 2) else None)
    else StringClose(text, j + 1)
  }

  /** `(\\.|[^"\\\n])*` matches `text[j..e]` exactly: escape pairs whose
      second character is no line break, and characters that are neither a
      quote, a backslash nor a line break. */
  ghost predicate StringBody(text: string, j: int, e: int)
    requires 0 <= j <= e <= |text|
    decreases e - j
  {
    j == e
    || (text[j] == '\\' && j + 1 < e && text[j + 1] != '\n' && StringBody(text, j + 2, e))
    || (text[j] != '"' && text[j] != '\\' && text[j] != '\n' && StringBody(text, j + 1, e))
  }

  /** The string body matcher closes at the first quote the body pattern
      reaches: its body is a `StringBody`, and every quote that ends a
      `StringBody` from `j` is the one it closes at, so it fails exactly
      when no such quote exists. */
  lemma {:induction false} StringCloseMatches(text: string, j: int)
    requires 0 <= j <= |text|
    ensures var r := StringClose(text, j);
      (r.Some? ==> StringBody(text, j, r.value - 1))
      && forall e :: j <= e < |text| && text[e] == '"' && StringBody(text, j, e) ==> r == Some(e + 1)
    decreases |text| - j
  {
    if j == |text| {
    } else if text[j] == '"' {
    } else if text[j] == '\n' {
    } else if text[j] == '\\' {
      if j + 1 < |text| && text[j + 1] != '\n' {
        StringCloseMatches(text, j + 2);
      }
    } else {
      StringCloseMatches(text, j + 1);
    }
  }

  /** String match at an opening quote: the length of the literal, quotes included. */
  function StringLength(text: string, i: int): (r: Option<nat>)
    requires 0 <= i < |text| && text[i] == '"'
    ensures r.Some? ==> 2 <= r.value && i + r.value <= |text| && text[i + r.value - 1] == '"'
    ensures r.Some? ==> NoBreak(text, i, i + r.value)
  {
    match StringClose(text, i + 1)
    case Some(e) => Some(e - i)
    case None => None
  }

  /** A string literal at `i` is matched exactly when a quote ends a
      `StringBody` after the opening quote; the first such quote closes it
      (no other quote does), and without one the literal is unclosed. */
  lemma StringLengthMatches(text: string, i: int)
    requires 0 <= i < |text| && text[i] == '"'
    ensures var r := StringLength(text, i);
      (r.Some? ==> StringBody(text, i + 1, i + r.value - 1))
      && (forall e :: i < e < |text| && text[e] == '"' && StringBody(text, i + 1, e) ==> r == Some(e + 1 - i))
  {
    StringCloseMatches(text, i + 1);
  }

  /** `re.compile(r"[^\s]+").search(line).group()`: the first word of a line
      that has a non-space character. */
  function FirstWord(line: string): (w: string)
    requires FirstNonSpace(line, 0, |line|).Some?
    ensures |w| > 0 && forall c :: c in w ==> !IsSpace(c)
    ensures var b := FirstNonSpace(line, 0, |line|).value;
      b + |w| <= |line| && w == line[b..b + |w|] && (b + |w| < |line| ==> IsSpace(line[b + |w|]))
  {
    var b := FirstNonSpace(line, 0, |line|).value;
    var n := RunLength(line, b, c => !IsSpace(c));
    line[b..b + n]
  }
}
