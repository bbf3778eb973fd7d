/**
 * Lexical: the character classes, keyword table and lexeme shapes the scanner
 * recognises, stated as pure definitions the scanner's methods are proved against.
 */
module Lexical {
  import opened Wrappers
  import opened Tokens

  predicate IsDigit(c: char) { '0' <= c <= '9' }

  predicate IsAlpha(c: char) { 'a' <= c <= 'z' || 'A' <= c <= 'Z' || c == '_' }

  predicate IsAlphaNumeric(c: char) { IsDigit(c) || IsAlpha(c) }

  /**
   * The scanner's keyword dictionary: 18 reserved words and their categories,
   * listed as entries. No word is listed twice (KeywordTableDistinct), so
   * searching the list for a word is a dictionary lookup.
   */
  const KeywordTable: seq<(string, TokenType)> := [
    ("and", And), ("class", Class), ("else", Else), ("false", False),
    ("for", For), ("fun", Fun), ("if", If), ("nil", Nil), ("or", Or),
    ("print", Print), ("return", Return), ("super", Super), ("this", This),
    ("true", True), ("var", Var), ("while", While), ("break", Break),
    ("continue", Continue)
  ]

  /** The category of the first entry of `table` whose word is `w`, if any. */
  function Lookup(table: seq<(string, TokenType)>, w: string): Option<TokenType>
  {
    if table == [] then None
    else if table[0].0 == w then Some(table[0].1)
    else Lookup(table[1..], w)
  }

  /** The reserved-word category of `w`, or None when `w` is not reserved. */
  function Keyword(w: string): Option<TokenType>
  {
    Lookup(KeywordTable, w)
  }

  /** The category of a name-shaped word: its keyword category if reserved, IDENTIFIER otherwise. */
  function WordType(w: string): TokenType
  {
    if Keyword(w).Some? then Keyword(w).value else Identifier
  }

  /** A lookup answers with an entry of the table, and fails only when no entry has the word. */
  lemma {:induction false} LookupFindsEntry(table: seq<(string, TokenType)>, w: string)
    ensures Lookup(table, w).Some? ==> (w, Lookup(table, w).value) in table
    ensures Lookup(table, w).None? <==> forall e :: e in table ==> e.0 != w
  {
    if table != [] && table[0].0 != w {
      LookupFindsEntry(table[1..], w);
      assert forall e :: e in table ==> e == table[0] || e in table[1..];
    }
  }

  /** In a table with distinct words, each entry's word is looked up to that entry's category. */
  lemma {:induction false} LookupDistinct(table: seq<(string, TokenType)>, i: nat)
    requires i < |table|
    requires forall a, b :: 0 <= a < b < |table| ==> table[a].0 != table[b].0
    ensures Lookup(table, table[i].0) == Some(table[i].1)
  {
    if i > 0 {
      assert table[1..][i - 1] == table[i];
      LookupDistinct(table[1..], i - 1);
      assert table[0].0 != table[i].0;
    }
  }

  /** No word appears twice in the keyword dictionary. */
  lemma KeywordTableDistinct()
    ensures forall a, b :: 0 <= a < b < |KeywordTable| ==> KeywordTable[a].0 != KeywordTable[b].0
  {
  }

  /** The category of a one-character token that never extends to two characters. */
  function SingleCharType(c: char): Option<TokenType>
  {
    match c
    case '(' => Some(LeftParen)
    case ')' => Some(RightParen)
    case '{' => Some(LeftBrace)
    case '}' => Some(RightBrace)
    case ',' => Some(Comma)
    case '.' => Some(Dot)
    case '-' => Some(Minus)
    case '+' => Some(Plus)
    case ';' => Some(Semicolon)
    case '*' => Some(Star)
    case _ => None
  }

  /** For `!`, `=`, `<`, `>`: the one-character category and the one they form with a following `=`. */
  function OperatorPair(c: char): Option<(TokenType, TokenType)>
  {
    match c
    case '!' => Some((Bang, BangEqual))
    case '=' => Some((Equal, EqualEqual))
    case '<' => Some((Less, LessEqual))
    case '>' => Some((Greater, GreaterEqual))
    case _ => None
  }

  /** Each operator character spells its one-character category, and with `=` its two-character one. */
  lemma OperatorSpellings(c: char)
    requires OperatorPair(c).Some?
    ensures FixedLexeme(OperatorPair(c).value.0) == Some([c])
    ensures FixedLexeme(OperatorPair(c).value.1) == Some([c, '='])
  {
  }

  /** Each single-character category is spelled by the character that produces it. */
  lemma SingleCharSpelling(c: char)
    requires SingleCharType(c).Some?
    ensures FixedLexeme(SingleCharType(c).value) == Some([c])
  {
  }

  /** The only text a token of a fixed-spelling category can have. */
  function FixedLexeme(t: TokenType): Option<string>
  {
    match t
    case LeftParen => Some("(")
    case RightParen => Some(")")
    case LeftBrace => Some("{")
    case RightBrace => Some("}")
    case Comma => Some(",")
    case Dot => Some(".")
    case Minus => Some("-")
    case Plus => Some("+")
    case Semicolon => Some(";")
    case Slash => Some("/")
    case Star => Some("*")
    case Bang => Some("!")
    case BangEqual => Some("!=")
    case Equal => Some("=")
    case EqualEqual => Some("==")
    case Greater => Some(">")
    case GreaterEqual => Some(">=")
    case Less => Some("<")
    case LessEqual => Some("<=")
    case And => Some("and")
    case Class => Some("class")
    case Else => Some("else")
    case False => Some("false")
    case Fun => Some("fun")
    case For => Some("for")
    case If => Some("if")
    case Nil => Some("nil")
    case Or => Some("or")
    case Print => Some("print")
    case Return => Some("return")
    case Super => Some("super")
    case This => Some("this")
    case True => Some("true")
    case Var => Some("var")
    case While => Some("while")
    case Break => Some("break")
    case Continue => Some("continue")
    case Identifier => None
    case String => None
    case Number => None
    case Eof => None
  }

  predicate IsDigits(s: string)
  {
    |s| > 0 && forall i :: 0 <= i < |s| ==> IsDigit(s[i])
  }

  /** A number: a digit run, optionally followed by `.` and at least one more digit. */
  predicate IsNumberLexeme(s: string)
  {
    IsDigits(s) ||
    (var d := DotIndex(s); d < |s| && IsDigits(s[..d]) && IsDigits(s[d + 1..]))
  }

  /** A name: a letter or `_` followed by letters, digits and `_`. */
  predicate IsIdentifierLexeme(s: string)
  {
    |s| > 0 && IsAlpha(s[0]) && forall i :: 0 <= i < |s| ==> IsAlphaNumeric(s[i])
  }

  /** A terminated string: quotes at both ends and none in between. */
  predicate IsStringLexeme(s: string)
  {
    |s| >= 2 && s[0] == '"' && s[|s| - 1] == '"' && '"' !in s[1..|s| - 1]
  }

  function DigitValue(c: char): nat
    requires IsDigit(c)
  {
    (c as int - '0' as int) as nat
  }

  function Pow10(n: nat): (r: nat)
    ensures r >= 1
  {
    if n == 0 then 1 else 10 * Pow10(n - 1)
  }

  /** The value of a digit string read in base 10. */
  function DigitsValue(s: string): nat
    requires forall i :: 0 <= i < |s| ==> IsDigit(s[i])
  {
    if s == [] then 0 else 10 * DigitsValue(s[..|s| - 1]) + DigitValue(s[|s| - 1])
  }

  /** The position of the first `.`, or the length when there is none. */
  function DotIndex(s: string): (d: nat)
    ensures d <= |s|
    ensures d < |s| ==> s[d] == '.'
    ensures forall i :: 0 <= i < d ==> s[i] != '.'
  {
    if s == [] then 0 else if s[0] == '.' then 0 else 1 + DotIndex(s[1..])
  }

  /**
   * The exact decimal value of a number lexeme (the host parses it to the
   * nearest 64-bit float instead; that rounding is not modelled).
   */
  function NumberValue(s: string): real
    requires IsNumberLexeme(s)
  {
    NumberLexemeSplit(s);
    var d := DotIndex(s);
    if d == |s| then DigitsValue(s) as real
    else DigitsValue(s[..d]) as real + DigitsValue(s[d + 1..]) as real / Pow10(|s| - d - 1) as real
  }

  /** In a number lexeme every character but the (first) dot is a digit. */
  lemma NumberLexemeSplit(s: string)
    requires IsNumberLexeme(s)
    ensures var d := DotIndex(s);
      0 < d && (forall i :: 0 <= i < d ==> IsDigit(s[i])) &&
      (d < |s| ==> d + 1 < |s| && forall i :: d < i < |s| ==> IsDigit(s[i]))
  {
    var d := DotIndex(s);
    if d < |s| && IsDigits(s[..d]) && IsDigits(s[d + 1..]) {
      forall i | 0 <= i < d ensures IsDigit(s[i]) {
        assert s[..d][i] == s[i];
      }
      forall i | d < i < |s| ensures IsDigit(s[i]) {
        assert s[d + 1..][i - d - 1] == s[i];
      }
    } else {
      assert s[0] != '.';
    }
  }

  /**
   * What the scanner promises about every token it emits: the category
   * determines the shape of the lexeme, and the literal is derived from it.
   */
  predicate WellFormed(t: Token)
  {
    if t.tokenType == Number then
      IsNumberLexeme(t.lexeme) && t.literal == NumLit(NumberValue(t.lexeme))
    else if t.tokenType == String then
      IsStringLexeme(t.lexeme) && t.literal == StrLit(t.lexeme[1..|t.lexeme| - 1])
    else if t.tokenType == Identifier then
      IsIdentifierLexeme(t.lexeme) && Keyword(t.lexeme).None? && t.literal == NoLiteral
    else if t.tokenType == Eof then
      t.lexeme == "" && t.literal == NoLiteral
    else
      FixedLexeme(t.tokenType) == Some(t.lexeme) && t.literal == NoLiteral
  }

  /** The categories the keyword table produces. */
  predicate IsKeywordType(t: TokenType)
  {
    t.And? || t.Class? || t.Else? || t.False? || t.For? || t.Fun? || t.If? || t.Nil? || t.Or? ||
    t.Print? || t.Return? || t.Super? || t.This? || t.True? || t.Var? || t.While? ||
    t.Break? || t.Continue?
  }

  /** Every word of the keyword dictionary is shaped like an identifier. */
  lemma KeywordWords()
    ensures forall e :: e in KeywordTable ==> IsIdentifierLexeme(e.0)
  {
    forall e | e in KeywordTable ensures IsIdentifierLexeme(e.0) {
      LowerWord(e.0);
    }
  }

  /** A non-empty run of lower-case letters is shaped like a name. */
  lemma LowerWord(w: string)
    requires |w| > 0 && forall c :: c in w ==> 'a' <= c <= 'z'
    ensures IsIdentifierLexeme(w)
  {
    assert w[0] in w;
    forall i | 0 <= i < |w| ensures IsAlphaNumeric(w[i]) {
      assert w[i] in w;
    }
  }

  /** Every entry of the keyword dictionary pairs a keyword category with its fixed spelling. */
  lemma KeywordEntries()
    ensures forall e :: e in KeywordTable ==> IsKeywordType(e.1) && FixedLexeme(e.1) == Some(e.0)
  {
    forall i | 0 <= i < |KeywordTable|
      ensures IsKeywordType(KeywordTable[i].1) && FixedLexeme(KeywordTable[i].1) == Some(KeywordTable[i].0)
    {
      KeywordEntry(i);
    }
  }

  /**
   * One entry of the keyword dictionary pairs a keyword category with its
   * fixed spelling; the table is checked six entries at a time.
   */
  lemma KeywordEntry(i: nat)
    requires i < |KeywordTable|
    ensures IsKeywordType(KeywordTable[i].1) && FixedLexeme(KeywordTable[i].1) == Some(KeywordTable[i].0)
  {
    if i < 6 {
      DeclarationEntry(i);
    } else if i < 12 {
      MiddleEntry(i);
    } else {
      TrailingEntry(i);
    }
  }

  /** `KeywordEntry` for `and` through `fun`. */
  lemma DeclarationEntry(i: nat)
    requires i < 6
    ensures IsKeywordType(KeywordTable[i].1) && FixedLexeme(KeywordTable[i].1) == Some(KeywordTable[i].0)
  {
    match i
    case 0 => assert KeywordTable[0] == ("and", And);
    case 1 => assert KeywordTable[1] == ("class", Class);
    case 2 => assert KeywordTable[2] == ("else", Else);
    case 3 => assert KeywordTable[3] == ("false", False);
    case 4 => assert KeywordTable[4] == ("for", For);
    case _ => assert KeywordTable[5] == ("fun", Fun);
  }

  /** `KeywordEntry` for `if` through `super`. */
  lemma MiddleEntry(i: nat)
    requires 6 <= i < 12
    ensures IsKeywordType(KeywordTable[i].1) && FixedLexeme(KeywordTable[i].1) == Some(KeywordTable[i].0)
  {
    match i
    case 6 => assert KeywordTable[6] == ("if", If);
    case 7 => assert KeywordTable[7] == ("nil", Nil);
    case 8 => assert KeywordTable[8] == ("or", Or);
    case 9 => assert KeywordTable[9] == ("print", Print);
    case 10 => assert KeywordTable[10] == ("return", Return);
    case _ => assert KeywordTable[11] == ("super", Super);
  }

  /** `KeywordEntry` for `this` through `continue`. */
  lemma TrailingEntry(i: nat)
    requires 12 <= i < 18
    ensures IsKeywordType(KeywordTable[i].1) && FixedLexeme(KeywordTable[i].1) == Some(KeywordTable[i].0)
  {
    match i
    case 12 => assert KeywordTable[12] == ("this", This);
    case 13 => assert KeywordTable[13] == ("true", True);
    case 14 => assert KeywordTable[14] == ("var", Var);
    case 15 => assert KeywordTable[15] == ("while", While);
    case 16 => assert KeywordTable[16] == ("break", Break);
    case _ => assert KeywordTable[17] == ("continue", Continue);
  }


  /** Where each keyword category sits in the dictionary. */
  function KeywordIndex(t: TokenType): (i: nat)
    requires IsKeywordType(t)
    ensures i < |KeywordTable| && KeywordTable[i].1 == t
  {
    match t
    case And => 0 case Class => 1 case Else => 2 case False => 3 case For => 4
    case Fun => 5 case If => 6 case Nil => 7 case Or => 8 case Print => 9
    case Return => 10 case Super => 11 case This => 12 case True => 13
    case Var => 14 case While => 15 case Break => 16 case Continue => 17
  }

  /**
   * The keyword dictionary and the fixed spellings agree: a reserved word is
   * spelled as its category, and is itself shaped like an identifier.
   */
  lemma KeywordsAreFixedSpellings(w: string)
    requires Keyword(w).Some?
    ensures IsKeywordType(Keyword(w).value)
    ensures FixedLexeme(Keyword(w).value) == Some(w)
    ensures IsIdentifierLexeme(w)
  {
    LookupFindsEntry(KeywordTable, w);
    KeywordEntries();
    KeywordWords();
  }

  /** Conversely, every keyword category is what the dictionary gives its fixed spelling. */
  lemma KeywordSpelling(t: TokenType)
    requires IsKeywordType(t)
    ensures FixedLexeme(t).Some? && Keyword(FixedLexeme(t).value) == Some(t)
  {
    var i := KeywordIndex(t);
    KeywordTableDistinct();
    LookupDistinct(KeywordTable, i);
    KeywordEntries();
    assert KeywordTable[i] in KeywordTable;
  }

  /**
   * Longest match for numbers: if the scanner stops at `j` because the next
   * character cannot extend the number (not a digit, and not a `.` followed
   * by a digit after an integer part), then no longer prefix is a number.
   */
  lemma {:induction false} NumberIsLongestMatch(s: string, i: nat, j: nat)
    requires i < j <= |s|
    requires IsNumberLexeme(s[i..j])
    requires j < |s| ==> !IsDigit(s[j])
    requires j < |s| && IsDigits(s[i..j]) && s[j] == '.' ==> !(j + 1 < |s| && IsDigit(s[j + 1]))
    ensures forall k :: j < k <= |s| ==> !IsNumberLexeme(s[i..k])
  {
    forall k | j < k <= |s| ensures !IsNumberLexeme(s[i..k]) {
      var t := s[i..k];
      var u := s[i..j];
      var m := j - i;
      assert t[m] == s[j];
      assert !IsDigits(t);
      forall n | 0 <= n < m ensures t[n] == u[n] {
      }
      var q := DotIndex(u);
      if q < |u| {
        assert DotIndex(t) == q;
        assert t[q + 1..][m - q - 1] == t[m];
      } else if s[j] == '.' {
        assert DotIndex(t) == m;
        if k == j + 1 {
          assert t[m + 1..] == [];
        } else {
          assert t[m + 1..][0] == s[j + 1];
        }
      } else {
        var d := DotIndex(t);
        if d < |t| {
          assert d > m;
          assert t[..d][m] == t[m];
        }
      }
    }
  }

  /** Longest match for names: stopping at a non-identifier character leaves no longer name. */
  lemma IdentifierIsLongestMatch(s: string, i: nat, j: nat)
    requires i < j <= |s|
    requires IsIdentifierLexeme(s[i..j])
    requires j < |s| ==> !IsAlphaNumeric(s[j])
    ensures forall k :: j < k <= |s| ==> !IsIdentifierLexeme(s[i..k])
  {
    forall k | j < k <= |s| ensures !IsIdentifierLexeme(s[i..k]) {
      assert s[i..k][j - i] == s[j];
    }
  }
}
