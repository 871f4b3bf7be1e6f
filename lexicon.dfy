/** The word and symbol tables of the language (const.py). */
module Lexicon {

  /** Reserved words. `"end"` is not among them. */
  const KEYWORDS: set<string> := {
    "var", "const", "int", "real", "string", "bool", "not", "and", "or",
    "true", "false", "array", "ref_of", "fn", "return", "if", "else",
    "else_if", "for", "while", "break", "continue", "pass"
  }

  /** `end` is not a reserved word, so the scanner never reads it as a
      keyword. */
  lemma EndIsNoKeyword()
    ensures "end" !in KEYWORDS
  {
  }

  /** Keywords that the scanner reports as operators. */
  const WORD_OPERATORS: set<string> := {"not", "and", "or"}

  /** The word operators are reserved words and operators both. */
  lemma WordOperatorsAreKeywords(v: string)
    requires v in WORD_OPERATORS
    ensures v in KEYWORDS && v in OPERATORS
  {
  }

  const OPERATORS: set<string> := {
    "+", "-", "*", "/", "~", "&", "|", "^", ">>", "<<",
    "==", "!=", "<", "<=", ">", ">=", "not", "and", "or",
    ":=", "=", "+=", "-=", "*=", "/=", "~=", "&=", "|=", "^=", ">>=", "<<="
  }

  const SEPARATORS: set<string> := {"[", "]", "(", ")", ",", ":"}

  /** No operator is longer than three characters, so a three-character
      look-ahead finds the longest one. */
  lemma OperatorsAreShort(o: string)
    requires o in OPERATORS
    ensures 1 <= |o| <= 3 && '\n' !in o
  {
  }

  /** Brackets are separators, never the start of an operator. */
  lemma OperatorsAvoidBrackets(o: string)
    requires o in OPERATORS
    ensures o[0] != '(' && o[0] != '[' && o[0] != ')' && o[0] != ']'
  {
  }

  lemma SeparatorsAreSingle(o: string)
    requires o in SEPARATORS
    ensures |o| == 1 && o[0] != '\n'
  {
  }
}
