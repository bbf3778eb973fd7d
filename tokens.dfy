/**
 * Tokens: the lexical categories, the literal values a token may carry, the
 * immutable token record and its one-line text rendering (`LoxToken.ToString`).
 */
module Tokens {

  /** The closed set of lexical categories used by the scanner and the parser. */
  datatype TokenType =
    | LeftParen | RightParen | LeftBrace | RightBrace
    | Comma | Dot | Minus | Plus | Semicolon | Slash | Star
    | Bang | BangEqual | Equal | EqualEqual
    | Greater | GreaterEqual | Less | LessEqual
    | Identifier | String | Number
    | And | Class | Else | False | Fun | For | If | Nil | Or
    | Print | Return | Super | This | True | Var | While | Break | Continue
    | Eof

  /**
   * The name the host enum gives each category, which is what `ToString`
   * prints: always a non-empty word without spaces.
   */
  function Name(t: TokenType): (r: string)
    ensures |r| > 0 && ' ' !in r
  {
    match t
    case LeftParen => "LEFT_PAREN"
    case RightParen => "RIGHT_PAREN"
    case LeftBrace => "LEFT_BRACE"
    case RightBrace => "RIGHT_BRACE"
    case Comma => "COMMA"
    case Dot => "DOT"
    case Minus => "MINUS"
    case Plus => "PLUS"
    case Semicolon => "SEMICOLON"
    case Slash => "SLASH"
    case Star => "STAR"
    case Bang => "BANG"
    case BangEqual => "BANG_EQUAL"
    case Equal => "EQUAL"
    case EqualEqual => "EQUAL_EQUAL"
    case Greater => "GREATER"
    case GreaterEqual => "GREATER_EQUAL"
    case Less => "LESS"
    case LessEqual => "LESS_EQUAL"
    case Identifier => "IDENTIFIER"
    case String => "STRING"
    case Number => "NUMBER"
    case And => "AND"
    case Class => "CLASS"
    case Else => "ELSE"
    case False => "FALSE"
    case Fun => "FUN"
    case For => "FOR"
    case If => "IF"
    case Nil => "NIL"
    case Or => "OR"
    case Print => "PRINT"
    case Return => "RETURN"
    case Super => "SUPER"
    case This => "THIS"
    case True => "TRUE"
    case Var => "VAR"
    case While => "WHILE"
    case Break => "BREAK"
    case Continue => "CONTINUE"
    case Eof => "EOF"
  }

  /**
   * The literal a token carries: none (`null`), a boolean (set by the parser
   * for `true`/`false`), a number or the contents of a string.  Numbers are
   * exact reals; the host's 64-bit rounding is not modelled.
   */
  datatype Literal = NoLiteral | BoolLit(b: bool) | NumLit(n: real) | StrLit(s: string)

  /** An immutable token: category, source text, literal and start position. */
  datatype Token = Token(tokenType: TokenType, lexeme: string, literal: Literal, line: int, column: int)

  /**
   * How the host prints a number with a given format string.  The formatting
   * rules are not modelled, so every rendering takes such a function.
   */
  type NumberFormat = real -> string

  /** `bool.ToString()` of the host: capitalised. */
  function HostBoolText(b: bool): string
  {
    if b then "True" else "False"
  }

  /** `StringifyLiteral`: `null` for no literal, the number format for numbers, else the host text. */
  function StringifyLiteral(lit: Literal, fmt: NumberFormat): (r: string)
    ensures lit.NoLiteral? ==> r == "null"
    ensures lit.StrLit? ==> r == lit.s
    ensures lit.NumLit? ==> r == fmt(lit.n)
    ensures lit.BoolLit? ==> r == (if lit.b then "True" else "False")
  {
    match lit
    case NoLiteral => "null"
    case NumLit(n) => fmt(n)
    case BoolLit(b) => HostBoolText(b)
    case StrLit(s) => s
  }

  /** The text up to (not including) the first space. */
  function FirstWord(s: string): (w: string)
    ensures |w| <= |s| && w == s[..|w|] && ' ' !in w
    ensures |w| < |s| ==> s[|w|] == ' '
  {
    if s == [] || s[0] == ' ' then [] else [s[0]] + FirstWord(s[1..])
  }

  lemma {:induction false} FirstWordOfJoin(a: string, b: string)
    requires ' ' !in a
    ensures FirstWord(a + " " + b) == a
  {
    if a != [] {
      assert (a + " " + b)[1..] == a[1..] + " " + b;
      FirstWordOfJoin(a[1..], b);
    }
  }

  /**
   * `LoxToken.ToString`: the type name, the lexeme and the literal's text,
   * each two separated by one space. The first word is the type name,
   * whatever spaces the lexeme or the literal hold.
   */
  function ToString(t: Token, fmt: NumberFormat): (r: string)
    ensures FirstWord(r) == Name(t.tokenType)
    ensures |r| == |Name(t.tokenType)| + |t.lexeme| + |StringifyLiteral(t.literal, fmt)| + 2
    ensures var n := |Name(t.tokenType)|;
      r[..n] == Name(t.tokenType) && r[n] == ' ' &&
      r[n + 1..n + 1 + |t.lexeme|] == t.lexeme && r[n + 1 + |t.lexeme|] == ' ' &&
      r[n + 2 + |t.lexeme|..] == StringifyLiteral(t.literal, fmt)
  {
    var rest := t.lexeme + " " + StringifyLiteral(t.literal, fmt);
    FirstWordOfJoin(Name(t.tokenType), rest);
    Name(t.tokenType) + " " + rest
  }

  /**
   * What the scanner, resolver and interpreter pass to their `Error` events:
   * a line, a column and a message.
   */
  datatype Diagnostic = Diagnostic(line: int, column: int, message: string)

  /** `previous() with { Literal = v }`: only the literal changes. */
  function WithLiteral(t: Token, lit: Literal): (r: Token)
    ensures r.literal == lit
    ensures r.tokenType == t.tokenType && r.lexeme == t.lexeme
    ensures r.line == t.line && r.column == t.column
  {
    t.(literal := lit)
  }
}
