/**
 * Scanning: `LoxScanner`, a cursor over the source text that appends tokens
 * to a list and reports errors through a callback without stopping.  The
 * callback is modelled as a list of diagnostics.  Two `Advance` calls of the
 * source can run past the end of the text, which raises a host exception that
 * nothing catches; the class records that in `crashed`.  Every method is
 * proved to compute the corresponding function of `Lexing`.
 */
module Scanning {
  import opened Wrappers
  import opened Tokens
  import opened Lexical
  import opened Lexing

  class Scanner {
    const source: string
    /** The tokens appended so far. */
    var tokens: seq<Token>
    /** The diagnostics reported through the error event so far. */
    var errors: seq<Diagnostic>
    var start: nat
    var startLine: int
    var startColumn: int
    var current: nat
    var currentLine: int
    var currentColumn: int
    /** An index past the end of the source raised; nothing is returned. */
    var crashed: bool

    /** The scanner as a value of `Lexing.State`. */
    function Snapshot(): State
      reads this
    {
      if crashed then Raised(errors) else Live(tokens, errors, current, currentLine, currentColumn)
    }

    /** The state at the start of the token being scanned (tokens and errors as they are now). */
    function AtStart(): State
      reads this
    {
      Live(tokens, errors, start, startLine, startColumn)
    }

    /** The cursor never passes the end of the text while no exception escaped. */
    predicate Valid()
      reads this
    {
      !crashed ==> start <= current <= |source|
    }

    constructor(source: string)
      ensures this.source == source
      ensures Snapshot() == Init && Valid()
    {
      this.source := source;
      tokens := [];
      errors := [];
      start := 0;
      startLine := 0;
      startColumn := 0;
      current := 0;
      currentLine := 1;
      currentColumn := 1;
      crashed := false;
    }

    predicate AtEnd()
      reads this
    {
      current >= |source|
    }

    /** The text of the token being scanned. */
    function Text(): string
      reads this
      requires start <= current <= |source|
    {
      source[start..current]
    }

    /** The character under the cursor, or NUL once the input is used up. */
    function Peek(): (c: char)
      reads this
      ensures current < |source| ==> c == source[current]
      ensures current >= |source| ==> c == '\0'
    {
      if current >= |source| then '\0' else source[current]
    }

    /** The character after the cursor, or NUL when there is none. */
    function PeekNext(): (c: char)
      reads this
      ensures current + 1 < |source| ==> c == source[current + 1]
      ensures current + 1 >= |source| ==> c == '\0'
    {
      if current + 1 >= |source| then '\0' else source[current + 1]
    }

    /** Consume one character; the column moves with it. */
    method Advance() returns (c: char)
      requires current < |source|
      modifies this`current, this`currentColumn
      ensures c == source[old(current)]
      ensures current == old(current) + 1 && currentColumn == old(currentColumn) + 1
    {
      currentColumn := currentColumn + 1;
      c := source[current];
      current := current + 1;
    }

    /** Consume the next character exactly when it is `expected`. */
    method Match(expected: char) returns (b: bool)
      modifies this`current, this`currentColumn
      ensures b <==> old(current) < |source| && source[old(current)] == expected
      ensures b ==> current == old(current) + 1 && currentColumn == old(currentColumn) + 1
      ensures !b ==> current == old(current) && currentColumn == old(currentColumn)
    {
      if current >= |source| {
        return false;
      }
      if source[current] != expected {
        return false;
      }
      var _ := Advance();
      return true;
    }

    /** Mark the start of a token at the cursor. */
    method StartToken()
      modifies this`start, this`startLine, this`startColumn
      ensures start == current && startLine == currentLine && startColumn == currentColumn
    {
      start := current;
      startLine := currentLine;
      startColumn := currentColumn;
    }

    /** Append a token whose lexeme is the current text and whose position is the token start. */
    method AddToken(t: TokenType, literal: Literal)
      requires start <= current <= |source|
      modifies this`tokens
      ensures tokens == old(tokens) + [Token(t, source[start..current], literal, startLine, startColumn)]
    {
      tokens := tokens + [Token(t, Text(), literal, startLine, startColumn)];
    }

    /** Report a diagnostic at the cursor's position (not the token's). */
    method HandleError(message: string)
      modifies this`errors
      ensures errors == old(errors) + [Diagnostic(currentLine, currentColumn, message)]
    {
      errors := errors + [Diagnostic(currentLine, currentColumn, message)];
    }

    /** The digit-run loop `HandleNumber` runs before and after the dot. */
    method SkipDigits()
      requires current <= |source|
      modifies this`current, this`currentColumn
      ensures current == DigitsEnd(source, old(current))
      ensures currentColumn == old(currentColumn) + (current - old(current))
    {
      while IsDigit(Peek()) && !AtEnd()
        invariant old(current) <= current <= |source|
        invariant DigitsEnd(source, current) == DigitsEnd(source, old(current))
        invariant currentColumn == old(currentColumn) + (current - old(current))
        decreases |source| - current
      {
        var _ := Advance();
      }
    }

    /** The cursor part of `HandleNumber`. */
    method ConsumeNumber()
      requires current == start + 1 <= |source| && IsDigit(source[start])
      modifies this`current, this`currentColumn
      ensures current == NumberEnd(source, start)
      ensures currentColumn == old(currentColumn) + (current - old(current))
    {
      SkipDigits();
      if Peek() == '.' && IsDigit(PeekNext()) {
        var _ := Advance();
        SkipDigits();
      }
    }

    method HandleNumber()
      requires !crashed && current == start + 1 <= |source| && IsDigit(source[start])
      requires currentColumn == startColumn + 1 && currentLine == startLine
      modifies this`current, this`currentColumn, this`tokens
      ensures Snapshot() == NumberCase(source, old(AtStart()))
    {
      ConsumeNumber();
      NumberEndIsLongestMatch(source, start);
      AddToken(Number, NumLit(NumberValue(Text())));
    }

    /** The loop of `HandleIdentifier`: extend the name while name characters follow. */
    method SkipName()
      requires current <= |source|
      modifies this`current, this`currentColumn
      ensures current == NameEnd(source, old(current))
      ensures currentColumn == old(currentColumn) + (current - old(current))
    {
      while IsAlphaNumeric(Peek())
        invariant old(current) <= current <= |source|
        invariant NameEnd(source, current) == NameEnd(source, old(current))
        invariant currentColumn == old(currentColumn) + (current - old(current))
        decreases |source| - current
      {
        var _ := Advance();
      }
    }

    method HandleIdentifier()
      requires !crashed && current == start + 1 <= |source|
      requires currentColumn == startColumn + 1 && currentLine == startLine
      modifies this`current, this`currentColumn, this`tokens
      ensures Snapshot() == WordCase(source, old(AtStart()))
    {
      SkipName();
      var keyword := Keyword(Text());
      if keyword.Some? {
        AddToken(keyword.value, NoLiteral);
        return;
      }
      AddToken(Identifier, NoLiteral);
    }

    /** The loop of `HandleString`: run to the closing quote or the end, counting lines. */
    method SkipStringBody()
      requires current <= |source|
      modifies this`current, this`currentLine, this`currentColumn
      ensures current == NextIndex(source, '"', old(current))
      ensures currentLine == old(currentLine) + NewlineCount(source[old(current)..current])
      ensures currentColumn == InnerColumn(old(currentColumn), source[old(current)..current])
    {
      while Peek() != '"' && !AtEnd()
        invariant old(current) <= current <= |source|
        invariant NextIndex(source, '"', current) == NextIndex(source, '"', old(current))
        invariant currentLine == old(currentLine) + NewlineCount(source[old(current)..current])
        invariant currentColumn == InnerColumn(old(currentColumn), source[old(current)..current])
        decreases |source| - current
      {
        if Peek() == '\n' {
          currentLine := currentLine + 1;
          currentColumn := 1;
        }
        var _ := Advance();
        assert source[old(current)..current][..current - old(current) - 1] == source[old(current)..current - 1];
      }
    }

    method HandleString()
      requires !crashed && current == start + 1 <= |source|
      requires currentColumn == startColumn + 1 && currentLine == startLine
      modifies this`current, this`currentLine, this`currentColumn, this`tokens, this`errors
      ensures Snapshot() == StringCase(source, old(AtStart()))
    {
      SkipStringBody();
      if AtEnd() {
        HandleError(UnterminatedString);
        return;
      }
      var _ := Advance();
      var value := source[start + 1..current - 1];
      AddToken(String, StrLit(value));
    }

    /** The scanner's state agrees with how a comment ended, given the diagnostics before it. */
    predicate AfterComment(r: CommentEnd, errors0: seq<Diagnostic>)
      reads this
    {
      match r
      case Closed(j, l, c) =>
        !crashed && current == j && currentLine == l && currentColumn == c && errors == errors0
      case Unterminated(l, c) =>
        !crashed && current == |source| && currentLine == l && currentColumn == c &&
        errors == errors0 + [Diagnostic(l, c, UnterminatedComment)]
      case Aborted(es) =>
        crashed && errors == errors0 + es
    }

    /** `HandleBlockComment` ends as `Lexing.BlockComment` says. */
    method HandleBlockComment()
      requires current <= |source| && !crashed
      modifies this`current, this`currentLine, this`currentColumn, this`errors, this`crashed
      ensures AfterComment(BlockComment(source, old(current), old(currentLine), old(currentColumn)), old(errors))
      decreases |source| - current
    {
      ghost var goal := BlockComment(source, current, currentLine, currentColumn);
      while !AtEnd()
        invariant old(current) <= current <= |source|
        invariant BlockComment(source, current, currentLine, currentColumn) == goal
        invariant errors == old(errors) && !crashed
        decreases |source| - current
      {
        if Peek() == '*' && PeekNext() == '/' {
          var _ := Advance();
          var _ := Advance();
          return;
        }
        ghost var errs: seq<Diagnostic> := [];
        if Peek() == '/' && PeekNext() == '*' {
          var _ := Advance();
          var _ := Advance();
          ghost var inner := BlockComment(source, current, currentLine, currentColumn);
          HandleBlockComment();
          if crashed {
            return;
          }
          if inner.Unterminated? {
            errs := [Diagnostic(inner.line, inner.column, UnterminatedComment)];
          }
        }
        assert AfterStep(source, current, currentLine, currentColumn, errs) == goal;
        assert errors == old(errors) + errs;
        CommentCharacter(errs);
        if crashed {
          return;
        }
      }
      HandleError(UnterminatedComment);
    }

    /**
     * The tail of one iteration of the comment loop: a line break bumps the
     * line and resets the column, then `Advance` steps over the character,
     * or raises when the input has run out.
     */
    method CommentCharacter(ghost errs: seq<Diagnostic>)
      requires current <= |source| && !crashed
      requires current == |source| || errs == []
      requires errs == [] || (|errs| == 1 && errs[0].message == UnterminatedComment)
      modifies this`current, this`currentLine, this`currentColumn, this`crashed
      ensures crashed <==> old(current) == |source|
      ensures crashed ==> AfterStep(source, old(current), old(currentLine), old(currentColumn), errs) == Aborted(errs)
      ensures !crashed ==> (current == old(current) + 1 &&
        AfterStep(source, old(current), old(currentLine), old(currentColumn), errs) ==
          BlockComment(source, current, currentLine, currentColumn))
    {
      if Peek() == '\n' {
        currentLine := currentLine + 1;
        currentColumn := 1;
      }
      if AtEnd() {
        // `Advance` indexes past the end: the host exception escapes.
        crashed := true;
        return;
      }
      var _ := Advance();
    }

    /** The loop of a `//` comment: run to the next line break or the end. */
    method SkipLine()
      requires current <= |source|
      modifies this`current, this`currentColumn
      ensures current == NextIndex(source, '\n', old(current))
      ensures currentColumn == old(currentColumn) + (current - old(current))
    {
      while Peek() != '\n' && !AtEnd()
        invariant old(current) <= current <= |source|
        invariant NextIndex(source, '\n', current) == NextIndex(source, '\n', old(current))
        invariant currentColumn == old(currentColumn) + (current - old(current))
        decreases |source| - current
      {
        var _ := Advance();
      }
    }

    /** The `/` case of `ScanToken`, entered with the `/` consumed. */
    method HandleSlash()
      requires !crashed && current == start + 1 <= |source| && source[start] == '/'
      requires currentColumn == startColumn + 1 && currentLine == startLine
      modifies this`current, this`currentLine, this`currentColumn, this`tokens, this`errors, this`crashed
      ensures Snapshot() == SlashCase(source, old(AtStart()))
    {
      var line := Match('/');
      if line {
        SkipLine();
      } else {
        var block := Match('*');
        if block {
          if AtEnd() {
            // The extra `Advance` after `/*` indexes past the end.
            crashed := true;
            return;
          }
          var _ := Advance();
          HandleBlockComment();
        } else {
          AddToken(Slash, NoLiteral);
        }
      }
    }

    /** Scan one lexeme (or skip one piece of layout) from the cursor. */
    method ScanToken()
      requires !crashed && current < |source|
      modifies this
      ensures Snapshot() == Step(source, old(Snapshot()))
    {
      StartToken();
      var c := Advance();
      var single := SingleCharType(c);
      var pair := OperatorPair(c);
      if single.Some? {
        AddToken(single.value, NoLiteral);
      } else if pair.Some? {
        var m := Match('=');
        AddToken(if m then pair.value.1 else pair.value.0, NoLiteral);
      } else if c == '/' {
        HandleSlash();
      } else if c == ' ' || c == '\r' || c == '\t' {
      } else if c == '\n' {
        currentLine := currentLine + 1;
        currentColumn := 1;
      } else if c == '"' {
        HandleString();
      } else if IsDigit(c) {
        HandleNumber();
      } else if IsAlpha(c) {
        HandleIdentifier();
      } else {
        HandleError("Unexpected character: " + [c]);
      }
    }

    /**
     * Scan the rest of the source, then append the end-of-input token at the
     * final cursor position.  The list is returned unless a host exception
     * escaped; the diagnostics are those of the same run.
     */
    method ScanTokens() returns (r: ScanResult)
      requires Valid() && !crashed
      modifies this
      ensures r == Finish(Run(source, old(Snapshot())))
      ensures errors == Run(source, old(Snapshot())).errors
    {
      ghost var goal := Run(source, Snapshot());
      while !AtEnd()
        invariant !crashed && current <= |source|
        invariant Run(source, Snapshot()) == goal
        decreases |source| - current
      {
        ScanToken();
        if crashed {
          return Crashed;
        }
      }
      StartToken();
      assert source[current..current] == "";
      AddToken(Eof, NoLiteral);
      return Scanned(tokens);
    }
  }
}
