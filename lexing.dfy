/**
 * Lexing: what `LoxScanner` computes, as functions of the source text.  A
 * scanner state is the token list, the reported diagnostics and the cursor
 * (index, line, column); `Step` is one `ScanToken`, `Run` the loop of
 * `ScanTokens`, and `Lex` the whole scan.  The `Scanner` class is proved to
 * compute exactly these functions; the properties of the scan are proved
 * here, about the functions.
 */
module Lexing {
  import opened Wrappers
  import opened Tokens
  import opened Lexical

  /** What `ScanTokens` gives back: the token list, or nothing because a host exception escaped. */
  datatype ScanResult = Scanned(tokens: seq<Token>) | Crashed

  /** A character `ScanToken` has no case for. */
  predicate Unexpected(c: char)
  {
    SingleCharType(c).None? && OperatorPair(c).None? &&
    c != '/' && c != ' ' && c != '\r' && c != '\t' && c != '\n' && c != '"' &&
    !IsDigit(c) && !IsAlpha(c)
  }

  const UnterminatedComment := "Unterminated block comment."
  const UnterminatedString := "Unterminated string."

  /** The number of line breaks in `s`. */
  function NewlineCount(s: string): nat
  {
    if s == [] then 0 else NewlineCount(s[..|s| - 1]) + (if s[|s| - 1] == '\n' then 1 else 0)
  }

  /**
   * The column after consuming `s` inside a string or a comment, starting at
   * `col`: every character advances the column by one, and a line break first
   * resets it to 1, so the character after a line break sits in column 2.
   */
  function InnerColumn(col: int, s: string): int
  {
    if s == [] then col
    else if s[|s| - 1] == '\n' then 2
    else InnerColumn(col, s[..|s| - 1]) + 1
  }

  // How a block comment whose body starts at `i` ends: closed by a `*/` with
  // scanning to resume at `next`, cut off by the end of the input, or aborted
  // because an `Advance` ran past the end (after reporting `errors`).
  datatype CommentEnd =
    | Closed(next: nat, line: int, column: int)
    | Unterminated(line: int, column: int)
    | Aborted(errors: seq<Diagnostic>)

  // `HandleBlockComment` as a function of the text: it looks for `*/` and
  // recurses on a nested `/*`; any other character is stepped over by
  // `AfterStep`, which is also where a nested comment's return lands.
  function BlockComment(s: string, i: nat, line: int, col: int): (r: CommentEnd)
    requires i <= |s|
    ensures r.Closed? ==> i + 2 <= r.next <= |s| && s[r.next - 2..r.next] == "*/"
    ensures r.Aborted? ==> r.errors == [] || (|r.errors| == 1 && r.errors[0].message == UnterminatedComment)
    decreases |s| - i, 1
  {
    if i == |s| then Unterminated(line, col)
    else if s[i] == '*' && i + 1 < |s| && s[i + 1] == '/' then Closed(i + 2, line, col + 2)
    else if s[i] == '/' && i + 1 < |s| && s[i + 1] == '*' then
      match BlockComment(s, i + 2, line, col + 2)
      case Unterminated(l, c) => AfterStep(s, |s|, l, c, [Diagnostic(l, c, UnterminatedComment)])
      case Aborted(es) => Aborted(es)
      case Closed(j, l, c) => AfterStep(s, j, l, c, [])
    else AfterStep(s, i, line, col, [])
  }

  // The tail of one loop iteration of `HandleBlockComment` at `p`: a line
  // break bumps the line and resets the column, then `Advance` consumes the
  // character, which raises when there is none (after `errors` were reported).
  function AfterStep(s: string, p: nat, line: int, col: int, errors: seq<Diagnostic>): (r: CommentEnd)
    requires p <= |s|
    requires p == |s| || errors == []
    requires errors == [] || (|errors| == 1 && errors[0].message == UnterminatedComment)
    ensures r.Closed? ==> p + 3 <= r.next <= |s| && s[r.next - 2..r.next] == "*/"
    ensures r.Aborted? ==> r.errors == [] || (|r.errors| == 1 && r.errors[0].message == UnterminatedComment)
    decreases |s| - p, 0
  {
    if p == |s| then Aborted(errors)
    else if s[p] == '\n' then BlockComment(s, p + 1, line + 1, 2)
    else BlockComment(s, p + 1, line, col + 1)
  }

  // The whole `/*` case of `ScanToken` for a `/*` at `i`: after `Match('*')`
  // one more character is skipped (without looking at it) before the body is
  // searched, and that skip raises when `/*` ends the input.
  function OpenComment(s: string, i: nat, line: int, col: int): (r: CommentEnd)
    requires i + 2 <= |s|
    ensures r.Closed? ==> i + 5 <= r.next <= |s|
  {
    if i + 2 == |s| then Aborted([]) else BlockComment(s, i + 3, line, col + 3)
  }

  /** Digits, a dot and more digits make a number lexeme that is not a bare digit run. */
  lemma FractionalNumber(s: string, i: nat, dot: nat, j: nat)
    requires i < dot && dot + 1 < j <= |s|
    requires IsDigits(s[i..dot]) && s[dot] == '.' && IsDigits(s[dot + 1..j])
    ensures IsNumberLexeme(s[i..j]) && !IsDigits(s[i..j])
  {
    var w := s[i..j];
    assert w[..dot - i] == s[i..dot];
    assert w[dot - i + 1..] == s[dot + 1..j];
    assert w[dot - i] == '.';
    assert forall n :: 0 <= n < dot - i ==> w[n] == s[i..dot][n];
    assert DotIndex(w) == dot - i;
  }

  /** A number lexeme with its value makes a well-formed NUMBER token. */
  lemma NumberTokenWellFormed(w: string, line: int, col: int)
    requires IsNumberLexeme(w)
    ensures WellFormed(Token(Number, w, NumLit(NumberValue(w)), line, col))
  {
  }

  /** A name-shaped lexeme makes a well-formed keyword or IDENTIFIER token, as the table decides. */
  lemma WordTokenWellFormed(w: string, line: int, col: int)
    requires IsIdentifierLexeme(w)
    ensures WellFormed(Token(WordType(w), w, NoLiteral, line, col))
    ensures (WordType(w)) != Eof
  {
    if Keyword(w).Some? {
      KeywordsAreFixedSpellings(w);
    }
  }

  /** A quoted lexeme with its contents makes a well-formed STRING token. */
  lemma StringTokenWellFormed(w: string, v: string, line: int, col: int)
    requires IsStringLexeme(w) && v == w[1..|w| - 1]
    ensures WellFormed(Token(String, w, StrLit(v), line, col))
  {
  }

  /** The text from an opening quote to the next quote is a string lexeme around the text between. */
  lemma QuotedSlice(s: string, i: nat, j: nat)
    requires i < j < |s| && s[i] == '"' && s[j] == '"' && '"' !in s[i + 1..j]
    ensures IsStringLexeme(s[i..j + 1]) && s[i..j + 1][1..j - i] == s[i + 1..j]
  {
    var w := s[i..j + 1];
    var inner, body := w[1..j - i], s[i + 1..j];
    forall n | 0 <= n < |body| ensures inner[n] == body[n] {
      assert w[1 + n] == s[i + 1 + n];
    }
    assert inner == body;
  }

  /** A category with a fixed spelling, spelled that way, makes a well-formed token. */
  lemma FixedTokenWellFormed(t: TokenType, w: string, line: int, col: int)
    requires FixedLexeme(t) == Some(w)
    ensures WellFormed(Token(t, w, NoLiteral, line, col))
  {
  }

  // ---------------------------------------------------------------------
  // Where the scanner's loops stop

  /** The end of the digit run starting at `i` (the loops of `HandleNumber`). */
  function DigitsEnd(s: string, i: nat): (j: nat)
    requires i <= |s|
    ensures i <= j <= |s|
    ensures forall k :: i <= k < j ==> IsDigit(s[k])
    ensures j < |s| ==> !IsDigit(s[j])
    decreases |s| - i
  {
    if i < |s| && IsDigit(s[i]) then DigitsEnd(s, i + 1) else i
  }

  /**
   * The end of the number starting with the digit at `i`: a digit run, then
   * a `.` and a second digit run only when a digit follows the dot.
   */
  function NumberEnd(s: string, i: nat): (j: nat)
    requires i < |s| && IsDigit(s[i])
    ensures i < j <= |s|
  {
    var d := DigitsEnd(s, i + 1);
    if d + 1 < |s| && s[d] == '.' && IsDigit(s[d + 1]) then DigitsEnd(s, d + 1) else d
  }

  /**
   * The number `NumberEnd` delimits is a number lexeme, and the longest one
   * at `i`: a `.` not followed by a digit is left for the next token.
   */
  lemma NumberEndIsLongestMatch(s: string, i: nat)
    requires i < |s| && IsDigit(s[i])
    ensures IsNumberLexeme(s[i..NumberEnd(s, i)])
    ensures forall k :: NumberEnd(s, i) < k <= |s| ==> !IsNumberLexeme(s[i..k])
  {
    var d := DigitsEnd(s, i + 1);
    var whole := s[i..d];
    assert IsDigits(whole) by {
      forall k | 0 <= k < |whole| ensures IsDigit(whole[k]) {
        assert whole[k] == s[i + k];
      }
    }
    if d + 1 < |s| && s[d] == '.' && IsDigit(s[d + 1]) {
      var j := DigitsEnd(s, d + 1);
      var frac := s[d + 1..j];
      assert IsDigits(frac) by {
        forall k | 0 <= k < |frac| ensures IsDigit(frac[k]) {
          assert frac[k] == s[d + 1 + k];
        }
      }
      FractionalNumber(s, i, d, j);
      NumberIsLongestMatch(s, i, j);
    } else {
      NumberIsLongestMatch(s, i, d);
    }
  }

  /** The end of the run of name characters starting at `i` (the loop of `HandleIdentifier`). */
  function NameEnd(s: string, i: nat): (j: nat)
    requires i <= |s|
    ensures i <= j <= |s|
    ensures forall k :: i <= k < j ==> IsAlphaNumeric(s[k])
    ensures j < |s| ==> !IsAlphaNumeric(s[j])
    decreases |s| - i
  {
    if i < |s| && IsAlphaNumeric(s[i]) then NameEnd(s, i + 1) else i
  }

  /** The run `NameEnd` delimits after a letter is a name lexeme, and the longest one at `i`. */
  lemma NameEndIsLongestMatch(s: string, i: nat)
    requires i < |s| && IsAlpha(s[i])
    ensures IsIdentifierLexeme(s[i..NameEnd(s, i + 1)])
    ensures forall k :: NameEnd(s, i + 1) < k <= |s| ==> !IsIdentifierLexeme(s[i..k])
  {
    var j := NameEnd(s, i + 1);
    var w := s[i..j];
    forall k | 0 <= k < |w| ensures IsAlphaNumeric(w[k]) {
      assert w[k] == s[i + k];
    }
    IdentifierIsLongestMatch(s, i, j);
  }

  /**
   * The first `c` at or after `i`, or the end of the text: the loop of
   * `HandleString` (with `"`) and of a `//` comment (with a line break).
   */
  function NextIndex(s: string, c: char, i: nat): (j: nat)
    requires i <= |s|
    ensures i <= j <= |s|
    ensures forall k :: i <= k < j ==> s[k] != c
    ensures j < |s| ==> s[j] == c
    decreases |s| - i
  {
    if i < |s| && s[i] != c then NextIndex(s, c, i + 1) else i
  }

  // ---------------------------------------------------------------------
  // The scanner state and one step of it

  /**
   * The scanner between two tokens: the tokens and diagnostics so far and the
   * cursor; or the state after a host exception escaped, when only the
   * diagnostics already reported remain.
   */
  datatype State =
    | Live(tokens: seq<Token>, errors: seq<Diagnostic>, pos: nat, line: int, column: int)
    | Raised(errors: seq<Diagnostic>)

  /** A fresh scanner: no tokens, line 1, column 1. */
  const Init := Live([], [], 0, 1, 1)

  /** Append the `n` characters at the cursor as a token of category `t` (no literal). */
  function Emit(src: string, s: State, t: TokenType, n: nat): State
    requires s.Live? && s.pos + n <= |src|
  {
    s.(tokens := s.tokens + [Token(t, src[s.pos..s.pos + n], NoLiteral, s.line, s.column)],
       pos := s.pos + n, column := s.column + n)
  }

  /** Continue after a block comment that ended as `r`. */
  function Resume(src: string, s: State, r: CommentEnd): State
    requires s.Live? && (r.Closed? ==> r.next <= |src|)
  {
    match r
    case Closed(j, l, c) => s.(pos := j, line := l, column := c)
    case Unterminated(l, c) =>
      s.(pos := |src|, line := l, column := c, errors := s.errors + [Diagnostic(l, c, UnterminatedComment)])
    case Aborted(es) => Raised(s.errors + es)
  }

  /** The `/` case of `ScanToken`: a line comment, a block comment, or SLASH. */
  function SlashCase(src: string, s: State): State
    requires s.Live? && s.pos < |src| && src[s.pos] == '/'
  {
    var i := s.pos;
    if i + 1 < |src| && src[i + 1] == '/' then
      var e := NextIndex(src, '\n', i + 2);
      s.(pos := e, column := s.column + (e - i))
    else if i + 1 < |src| && src[i + 1] == '*' then
      Resume(src, s, OpenComment(src, i, s.line, s.column))
    else
      Emit(src, s, Slash, 1)
  }

  /**
   * `HandleString` from the opening quote at the cursor: up to the next
   * quote a STRING token whose literal is the text in between; with no quote
   * left, "Unterminated string." at the end of the text and no token.
   */
  function StringCase(src: string, s: State): State
    requires s.Live? && s.pos < |src|
  {
    var i := s.pos;
    var q := NextIndex(src, '"', i + 1);
    var body := src[i + 1..q];
    var line := s.line + NewlineCount(body);
    var col := InnerColumn(s.column + 1, body);
    if q == |src| then
      s.(pos := q, line := line, column := col, errors := s.errors + [Diagnostic(line, col, UnterminatedString)])
    else
      s.(tokens := s.tokens + [Token(String, src[i..q + 1], StrLit(body), s.line, s.column)],
         pos := q + 1, line := line, column := col + 1)
  }

  /** `HandleNumber` from the first digit at the cursor. */
  function NumberCase(src: string, s: State): State
    requires s.Live? && s.pos < |src| && IsDigit(src[s.pos])
  {
    var j := NumberEnd(src, s.pos);
    var w := src[s.pos..j];
    NumberEndIsLongestMatch(src, s.pos);
    s.(tokens := s.tokens + [Token(Number, w, NumLit(NumberValue(w)), s.line, s.column)],
       pos := j, column := s.column + (j - s.pos))
  }

  /** `HandleIdentifier` from the first letter at the cursor. */
  function WordCase(src: string, s: State): State
    requires s.Live? && s.pos < |src|
  {
    var j := NameEnd(src, s.pos + 1);
    var w := src[s.pos..j];
    s.(tokens := s.tokens + [Token(WordType(w), w, NoLiteral, s.line, s.column)],
       pos := j, column := s.column + (j - s.pos))
  }

  /**
   * One `ScanToken` at the cursor.  It always consumes input or raises, it
   * only ever adds diagnostics, and it appends at most one token.
   */
  function Step(src: string, s: State): (r: State)
    requires s.Live? && s.pos < |src|
    ensures r.Raised? || s.pos < r.pos <= |src|
    ensures s.errors <= r.errors
    ensures r.Live? ==> s.tokens <= r.tokens && |r.tokens| <= |s.tokens| + 1
  {
    var c := src[s.pos];
    if SingleCharType(c).Some? then Emit(src, s, SingleCharType(c).value, 1)
    else if OperatorPair(c).Some? then
      if s.pos + 1 < |src| && src[s.pos + 1] == '=' then Emit(src, s, OperatorPair(c).value.1, 2)
      else Emit(src, s, OperatorPair(c).value.0, 1)
    else if c == '/' then SlashCase(src, s)
    else if c == ' ' || c == '\r' || c == '\t' then s.(pos := s.pos + 1, column := s.column + 1)
    else if c == '\n' then s.(pos := s.pos + 1, line := s.line + 1, column := 1)
    else if c == '"' then StringCase(src, s)
    else if IsDigit(c) then NumberCase(src, s)
    else if IsAlpha(c) then WordCase(src, s)
    else s.(pos := s.pos + 1, column := s.column + 1,
            errors := s.errors + [Diagnostic(s.line, s.column + 1, "Unexpected character: " + [c])])
  }

  /** The loop of `ScanTokens`: step until the input is used up or a host exception escapes. */
  function Run(src: string, s: State): (r: State)
    requires s.Live? ==> s.pos <= |src|
    ensures r.Live? ==> r.pos == |src|
    decreases if s.Live? then |src| - s.pos + 1 else 0
  {
    if s.Raised? || s.pos == |src| then s else Run(src, Step(src, s))
  }

  /** The end of `ScanTokens`: the END-OF-INPUT token at the final cursor is appended. */
  function Finish(s: State): (r: ScanResult)
    ensures r.Crashed? <==> s.Raised?
    ensures s.Live? ==>
      |r.tokens| == |s.tokens| + 1 && r.tokens[..|s.tokens|] == s.tokens &&
      r.tokens[|s.tokens|] == Token(Eof, "", NoLiteral, s.line, s.column)
  {
    match s
    case Raised(_) => Crashed
    case Live(ts, _, _, line, col) => Scanned(ts + [Token(Eof, "", NoLiteral, line, col)])
  }

  /** The whole scan of `src` by a fresh scanner. */
  function Lex(src: string): (r: ScanResult)
    ensures r.Scanned? <==> Run(src, Init).Live?
    ensures r.Scanned? ==> |r.tokens| > 0 && r.tokens[|r.tokens| - 1].tokenType == Eof
  {
    Finish(Run(src, Init))
  }

  /** The diagnostics a fresh scanner reports for `src`. */
  function LexErrors(src: string): seq<Diagnostic>
  {
    Run(src, Init).errors
  }

  // ---------------------------------------------------------------------
  // Properties of a step

  /**
   * What a step promises about the token it appends, if it appends one: it
   * is the text from the cursor to where the step stopped, it carries the
   * cursor position from before the step, it is well formed, and it is never
   * the end-of-input token.
   */
  predicate GoodAppend(src: string, s: State, r: State)
    requires s.Live? && (r.Live? ==> s.pos <= r.pos <= |src|)
  {
    r.Live? && |r.tokens| == |s.tokens| + 1 ==>
      var t := r.tokens[|s.tokens|];
      t.lexeme == src[s.pos..r.pos] && t.line == s.line && t.column == s.column &&
      WellFormed(t) && t.tokenType != Eof
  }

  lemma EmitFixed(src: string, s: State, t: TokenType, n: nat)
    requires s.Live? && s.pos + n <= |src| && FixedLexeme(t) == Some(src[s.pos..s.pos + n])
    ensures GoodAppend(src, s, Emit(src, s, t, n))
  {
    FixedTokenWellFormed(t, src[s.pos..s.pos + n], s.line, s.column);
  }

  lemma StringCaseToken(src: string, s: State)
    requires s.Live? && s.pos < |src| && src[s.pos] == '"'
    ensures StringCase(src, s).Live? && s.pos < StringCase(src, s).pos <= |src|
    ensures GoodAppend(src, s, StringCase(src, s))
  {
    var i := s.pos;
    var q := NextIndex(src, '"', i + 1);
    if q < |src| {
      assert '"' !in src[i + 1..q];
      QuotedSlice(src, i, q);
      StringTokenWellFormed(src[i..q + 1], src[i + 1..q], s.line, s.column);
    }
  }

  lemma NumberCaseToken(src: string, s: State)
    requires s.Live? && s.pos < |src| && IsDigit(src[s.pos])
    ensures GoodAppend(src, s, NumberCase(src, s))
  {
    NumberEndIsLongestMatch(src, s.pos);
    NumberTokenWellFormed(src[s.pos..NumberEnd(src, s.pos)], s.line, s.column);
  }

  lemma WordCaseToken(src: string, s: State)
    requires s.Live? && s.pos < |src| && IsAlpha(src[s.pos])
    ensures GoodAppend(src, s, WordCase(src, s))
  {
    NameEndIsLongestMatch(src, s.pos);
    WordTokenWellFormed(src[s.pos..NameEnd(src, s.pos + 1)], s.line, s.column);
  }

  lemma SlashCaseToken(src: string, s: State)
    requires s.Live? && s.pos < |src| && src[s.pos] == '/'
    ensures GoodAppend(src, s, SlashCase(src, s))
  {
    var i := s.pos;
    if !(i + 1 < |src| && (src[i + 1] == '/' || src[i + 1] == '*')) {
      assert src[i..i + 1] == "/";
      EmitFixed(src, s, Slash, 1);
    }
  }

  /** Every step appends only good tokens. */
  lemma StepToken(src: string, s: State)
    requires s.Live? && s.pos < |src|
    ensures GoodAppend(src, s, Step(src, s))
  {
    var c, i := src[s.pos], s.pos;
    if SingleCharType(c).Some? {
      SingleCharSpelling(c);
      assert src[i..i + 1] == [c];
      EmitFixed(src, s, SingleCharType(c).value, 1);
    } else if OperatorPair(c).Some? {
      OperatorSpellings(c);
      if i + 1 < |src| && src[i + 1] == '=' {
        assert src[i..i + 2] == [c, '='];
        EmitFixed(src, s, OperatorPair(c).value.1, 2);
      } else {
        assert src[i..i + 1] == [c];
        EmitFixed(src, s, OperatorPair(c).value.0, 1);
      }
    } else if c == '/' {
      SlashCaseToken(src, s);
    } else if c == '"' {
      StringCaseToken(src, s);
    } else if IsDigit(c) {
      NumberCaseToken(src, s);
    } else if IsAlpha(c) {
      WordCaseToken(src, s);
    }
  }

  // A step raises only inside a block comment: the token starts with `/*`.
  lemma StepRaisesOnlyInComments(src: string, s: State)
    requires s.Live? && s.pos < |src|
    ensures Step(src, s).Raised? ==> s.pos + 2 <= |src| && src[s.pos..s.pos + 2] == "/*"
  {
    var r := Step(src, s);
    if r.Raised? {
      assert src[s.pos] == '/' && src[s.pos + 1] == '*';
    }
  }

  /**
   * `!`, `=`, `<` and `>` take a following `=` into a two-character token and
   * otherwise make the one-character token, consuming nothing more.
   */
  lemma OperatorStep(src: string, s: State)
    requires s.Live? && s.pos < |src| && OperatorPair(src[s.pos]).Some?
    ensures var c, r := src[s.pos], Step(src, s);
      var two := s.pos + 1 < |src| && src[s.pos + 1] == '=';
      r.Live? && r.errors == s.errors && r.line == s.line &&
      r.pos == s.pos + (if two then 2 else 1) &&
      r.tokens == s.tokens + [Token(if two then OperatorPair(c).value.1 else OperatorPair(c).value.0,
                                    if two then [c, '='] else [c], NoLiteral, s.line, s.column)]
  {
    var c, i := src[s.pos], s.pos;
    if i + 1 < |src| && src[i + 1] == '=' {
      assert src[i..i + 2] == [c, '='];
    } else {
      assert src[i..i + 1] == [c];
    }
  }

  /**
   * Blanks produce nothing and move one column; a line break produces
   * nothing, moves to the next line and resets the column to 1.
   */
  lemma LayoutStep(src: string, s: State)
    requires s.Live? && s.pos < |src|
    requires var c := src[s.pos]; c == ' ' || c == '\r' || c == '\t' || c == '\n'
    ensures var r := Step(src, s);
      r.Live? && r.tokens == s.tokens && r.errors == s.errors && r.pos == s.pos + 1 &&
      (src[s.pos] == '\n' ==> r.line == s.line + 1 && r.column == 1) &&
      (src[s.pos] != '\n' ==> r.line == s.line && r.column == s.column + 1)
  {
  }

  /**
   * An unexpected character is reported at the cursor after it, with the
   * character in the message; no token is made and scanning resumes at the
   * next character.
   */
  lemma UnexpectedStep(src: string, s: State)
    requires s.Live? && s.pos < |src| && Unexpected(src[s.pos])
    ensures var r := Step(src, s);
      r.Live? && r.tokens == s.tokens && r.pos == s.pos + 1 && r.line == s.line && r.column == s.column + 1 &&
      r.errors == s.errors + [Diagnostic(r.line, r.column, "Unexpected character: " + [src[s.pos]])]
  {
  }

  /**
   * A `//` comment produces nothing and stops at the next line break, which
   * is left for the next step, or at the end of the text.
   */
  lemma LineCommentStep(src: string, s: State)
    requires s.Live? && s.pos + 1 < |src| && src[s.pos] == '/' && src[s.pos + 1] == '/'
    ensures var r := Step(src, s);
      r.Live? && r.tokens == s.tokens && r.errors == s.errors && r.line == s.line &&
      s.pos + 2 <= r.pos && '\n' !in src[s.pos..r.pos] && (r.pos < |src| ==> src[r.pos] == '\n')
  {
    var r := Step(src, s);
    assert forall k :: 0 <= k < r.pos - s.pos ==> src[s.pos..r.pos][k] == src[s.pos + k];
  }

  /**
   * A string: when a closing quote follows, one STRING token whose literal is
   * exactly the text between the quotes, with the line moved on by the line
   * breaks inside; otherwise no token and "Unterminated string." reported at
   * the end of the text.
   */
  lemma StringStep(src: string, s: State)
    requires s.Live? && s.pos < |src| && src[s.pos] == '"'
    ensures var r := Step(src, s);
      r.Live? &&
      if '"' in src[s.pos + 1..] then
        s.pos + 2 <= r.pos && src[r.pos - 1] == '"' && '"' !in src[s.pos + 1..r.pos - 1] &&
        r.errors == s.errors && r.line == s.line + NewlineCount(src[s.pos + 1..r.pos - 1]) &&
        r.tokens == s.tokens + [Token(String, src[s.pos..r.pos], StrLit(src[s.pos + 1..r.pos - 1]), s.line, s.column)]
      else
        r.pos == |src| && r.tokens == s.tokens && r.line == s.line + NewlineCount(src[s.pos + 1..]) &&
        r.errors == s.errors + [Diagnostic(r.line, r.column, UnterminatedString)]
  {
    var i := s.pos;
    var q := NextIndex(src, '"', i + 1);
    if q < |src| {
      assert src[i + 1..][q - i - 1] == '"';
    } else {
      assert src[i + 1..q] == src[i + 1..];
    }
  }

  /**
   * A name: the longest run of name characters from the cursor becomes one
   * token, of its keyword category when the word is reserved and IDENTIFIER
   * otherwise.
   */
  lemma WordStep(src: string, s: State)
    requires s.Live? && s.pos < |src| && IsAlpha(src[s.pos])
    ensures var r := Step(src, s);
      var w := src[s.pos..r.pos];
      r.Live? && s.pos < r.pos && IsIdentifierLexeme(w) &&
      (forall k :: r.pos < k <= |src| ==> !IsIdentifierLexeme(src[s.pos..k])) &&
      r.errors == s.errors && r.line == s.line && r.column == s.column + |w| &&
      |r.tokens| == |s.tokens| + 1 && r.tokens[..|s.tokens|] == s.tokens &&
      r.tokens[|s.tokens|].lexeme == w &&
      (r.tokens[|s.tokens|].tokenType == Identifier <==> Keyword(w).None?) &&
      (Keyword(w).Some? ==> r.tokens[|s.tokens|].tokenType == Keyword(w).value)
  {
    NameEndIsLongestMatch(src, s.pos);
    var w := src[s.pos..NameEnd(src, s.pos + 1)];
    WordDispatch(src, s);
    if Keyword(w).Some? {
      KeywordsAreFixedSpellings(w);
    }
  }

  /** A letter or `_` at the cursor sends `ScanToken` to `HandleIdentifier`. */
  lemma WordDispatch(src: string, s: State)
    requires s.Live? && s.pos < |src| && IsAlpha(src[s.pos])
    ensures Step(src, s) == WordCase(src, s)
  {
    var c := src[s.pos];
    assert SingleCharType(c).None? && OperatorPair(c).None? && !IsDigit(c);
  }

  /**
   * A number: the longest number lexeme from the cursor becomes one NUMBER
   * token carrying its value; a `.` not followed by a digit is not consumed.
   */
  lemma NumberStep(src: string, s: State)
    requires s.Live? && s.pos < |src| && IsDigit(src[s.pos])
    ensures var r := Step(src, s);
      var w := src[s.pos..r.pos];
      r.Live? && IsNumberLexeme(w) &&
      (forall k :: r.pos < k <= |src| ==> !IsNumberLexeme(src[s.pos..k])) &&
      r.errors == s.errors && r.line == s.line &&
      r.tokens == s.tokens + [Token(Number, w, NumLit(NumberValue(w)), s.line, s.column)]
  {
    NumberEndIsLongestMatch(src, s.pos);
  }

  // ---------------------------------------------------------------------
  // Properties of the whole scan

  /** Every token is well formed and none is the end-of-input token. */
  predicate TokensOk(ts: seq<Token>)
  {
    forall k :: 0 <= k < |ts| ==> WellFormed(ts[k]) && ts[k].tokenType != Eof
  }

  /** Running on keeps the tokens well formed, only appends tokens and only adds diagnostics. */
  lemma {:induction false} RunKeepsTokensOk(src: string, s: State)
    requires s.Live? ==> s.pos <= |src| && TokensOk(s.tokens)
    ensures var r := Run(src, s);
      s.errors <= r.errors && (r.Live? ==> s.Live? && s.tokens <= r.tokens && TokensOk(r.tokens))
    decreases if s.Live? then |src| - s.pos + 1 else 0
  {
    if s.Live? && s.pos < |src| {
      var n := Step(src, s);
      StepToken(src, s);
      assert GoodAppend(src, s, n);
      if n.Live? && |n.tokens| == |s.tokens| + 1 {
        assert n.tokens == s.tokens + [n.tokens[|s.tokens|]];
      }
      assert n.Live? ==> TokensOk(n.tokens);
      RunKeepsTokensOk(src, n);
    }
  }

  /**
   * A scan that returns a list ends it with exactly one END-OF-INPUT token,
   * with an empty lexeme, at the cursor position where the text ran out;
   * every token before it is well formed.
   */
  lemma LexEndsWithEof(src: string)
    ensures Lex(src).Scanned? ==>
      var ts, e := Lex(src).tokens, Run(src, Init);
      e.Live? && e.pos == |src| && |ts| > 0 &&
      ts[|ts| - 1] == Token(Eof, "", NoLiteral, e.line, e.column) &&
      forall k :: 0 <= k < |ts| - 1 ==> WellFormed(ts[k]) && ts[k].tokenType != Eof
  {
    RunKeepsTokensOk(src, Init);
  }

  // The text `/**/` is not a closed comment: the `*` right after the opening
  // `/*` is skipped unread, so the search for the closing pair starts at the `/`.
  lemma ShortestCommentIsUnterminated()
    ensures Lex("/**/") == Scanned([Token(Eof, "", NoLiteral, 1, 5)])
    ensures LexErrors("/**/") == [Diagnostic(1, 5, UnterminatedComment)]
  {
    var src := "/**/";
    assert BlockComment(src, 4, 1, 5) == Unterminated(1, 5);
    assert BlockComment(src, 3, 1, 4) == Unterminated(1, 5);
    assert OpenComment(src, 0, 1, 1) == Unterminated(1, 5);
    assert SlashCase(src, Init) == Live([], [Diagnostic(1, 5, UnterminatedComment)], 4, 1, 5);
    assert Step(src, Init) == Live([], [Diagnostic(1, 5, UnterminatedComment)], 4, 1, 5);
  }

  // An opening `/*` that ends the text raises: the skip after it reads past the end.
  lemma OpenCommentAtEndRaises()
    ensures Lex("/*") == Crashed && LexErrors("/*") == []
  {
    assert Step("/*", Init) == Raised([]);
  }
}
