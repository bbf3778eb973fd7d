/**
 * Semantics: what the implemented part of `src/LoxInterpreter.cs` computes,
 * written as functions over a chain of frames (innermost first), the lines
 * printed so far and an injected number format.
 *
 * `Eval` and `Exec` follow the visitors case by case.  The node kinds whose
 * visitors throw `NotImplementedException` (call, get, set, super, this,
 * class, function, if, return, while), the two statement kinds the
 * interpreter has no visitor for (break, continue), an operator a visitor's
 * `switch` does not list, and the self-recursive logical visitor (a stack
 * overflow) all end in `Crash`.
 */
module Semantics {
  import opened Wrappers
  import opened Tokens
  import opened Ast
  import opened Runtime

  const NotNumbers: string := "Operands must be numbers."
  const NotNumbersOrStrings: string := "Operands must be either two numbers or two strings."
  const DivideByZero: string := "Divide by 0 detected."
  const NotNumber: string := "Operand must be a number."

  /** `IsTruthy`: `nil` and `false` are false, every other value is true. */
  function IsTruthy(v: Value): (b: bool)
    ensures !b <==> v.Nil? || v == Bool(false)
  {
    match v
    case Nil => false
    case Bool(b) => b
    case _ => true
  }

  /** `IsEqual`: `nil` equals only `nil`; otherwise the host's value equality. */
  function IsEqual(a: Value, b: Value): (r: bool)
    ensures a.Nil? && b.Nil? ==> r
    ensures a.Nil? != b.Nil? ==> !r
    ensures r <==> a == b
  {
    if a.Nil? then b.Nil? else a == b
  }

  /** `Stringify`: the text `print` writes for a value. */
  function Stringify(v: Value, fmt: NumberFormat): (r: string)
    ensures v.Nil? ==> r == "nil"
    ensures v.Bool? ==> r == (if v.b then "true" else "false")
    ensures v.Num? ==> r == fmt(v.n)
    ensures v.Str? ==> r == v.s
    ensures v.FunctionValue? ==> |r| >= 5 && r[..4] == "<fn " && r[4..|r| - 1] == v.fn.declaration.name.lexeme
    ensures v.ClassValue? ==> r == v.klass.token.lexeme
    ensures v.InstanceValue? ==> |r| >= 9 && r[|r| - 9..] == " instance"
  {
    match v
    case Nil => "nil"
    case Bool(b) => if b then "true" else "false"
    case Num(n) => fmt(n)
    case Str(s) => s
    case FunctionValue(f) => FunctionText(f)
    case ClassValue(c) => ClassText(c)
    case InstanceValue(i) => InstanceText(i.klass)
  }

  /** The value a literal node yields: its token's literal. */
  function LiteralValue(lit: Literal): Value
  {
    match lit
    case NoLiteral => Value.Nil
    case BoolLit(b) => Bool(b)
    case NumLit(n) => Num(n)
    case StrLit(s) => Str(s)
  }

  /** An abrupt outcome carried over to another result type. */
  function Abrupt<T, U>(o: Outcome<T>): (r: Outcome<U>)
    requires !o.Normal?
    ensures r.Crash? == o.Crash? && (o.Raised? ==> r == Raised(o.error))
  {
    match o
    case Raised(d) => Raised(d)
    case Crash => Crash
  }

  /** The operators that demand two numbers. */
  const NumericOperators: seq<TokenType> := [Greater, GreaterEqual, Less, LessEqual, Minus, Star, Slash]

  /** `VisitBinaryExpr` once both operands have been evaluated. */
  function BinaryValue(op: Token, left: Value, right: Value): (r: Outcome<Value>)
    ensures op.tokenType in NumericOperators && !(left.Num? && right.Num?) ==>
      r == Raised(ErrorAt(op, NotNumbers))
    ensures op.tokenType == Plus ==>
      (r.Normal? <==> (left.Num? && right.Num?) || (left.Str? && right.Str?))
    ensures op.tokenType == Plus && left.Str? && right.Str? ==> r == Normal(Str(left.s + right.s))
    ensures op.tokenType == Slash ==>
      (r == Raised(ErrorAt(op, DivideByZero)) <==> left.Num? && right.Num? && right.n == 0.0)
    ensures op.tokenType in {EqualEqual, BangEqual} ==>
      r == Normal(Bool(IsEqual(left, right) == (op.tokenType == EqualEqual)))
    ensures r.Raised? ==> r.error.line == op.line && r.error.column == op.column
    ensures r.Crash? <==> op.tokenType !in NumericOperators + [EqualEqual, BangEqual, Plus]
  {
    match op.tokenType
    case Greater => if left.Num? && right.Num? then Normal(Bool(left.n > right.n)) else Raised(ErrorAt(op, NotNumbers))
    case GreaterEqual => if left.Num? && right.Num? then Normal(Bool(left.n >= right.n)) else Raised(ErrorAt(op, NotNumbers))
    case Less => if left.Num? && right.Num? then Normal(Bool(left.n < right.n)) else Raised(ErrorAt(op, NotNumbers))
    case LessEqual => if left.Num? && right.Num? then Normal(Bool(left.n <= right.n)) else Raised(ErrorAt(op, NotNumbers))
    case Minus => if left.Num? && right.Num? then Normal(Num(left.n - right.n)) else Raised(ErrorAt(op, NotNumbers))
    case EqualEqual => Normal(Bool(IsEqual(left, right)))
    case BangEqual => Normal(Bool(!IsEqual(left, right)))
    case Plus =>
      if left.Num? && right.Num? then Normal(Num(left.n + right.n))
      else if left.Str? && right.Str? then Normal(Str(left.s + right.s))
      else Raised(ErrorAt(op, NotNumbersOrStrings))
    case Star => if left.Num? && right.Num? then Normal(Num(left.n * right.n)) else Raised(ErrorAt(op, NotNumbers))
    case Slash =>
      if !(left.Num? && right.Num?) then Raised(ErrorAt(op, NotNumbers))
      else if right.n == 0.0 then Raised(ErrorAt(op, DivideByZero))
      else Normal(Num(left.n / right.n))
    case _ => Crash
  }

  /** `VisitUnaryExpr` once the operand has been evaluated. */
  function UnaryValue(op: Token, right: Value): (r: Outcome<Value>)
    ensures op.tokenType == Bang ==> r == Normal(Bool(!IsTruthy(right)))
    ensures op.tokenType == Minus ==>
      (r.Normal? <==> right.Num?) && (r.Normal? ==> r.value == Num(-right.n)) &&
      (!r.Normal? ==> r == Raised(ErrorAt(op, NotNumber)))
    ensures r.Crash? <==> op.tokenType !in {Bang, Minus}
  {
    match op.tokenType
    case Bang => Normal(Bool(!IsTruthy(right)))
    case Minus => if right.Num? then Normal(Num(-right.n)) else Raised(ErrorAt(op, NotNumber))
    case _ => Crash
  }

  /** Same number of frames, and every frame binds the same names. */
  predicate SameShape(before: seq<Frame>, after: seq<Frame>)
  {
    |after| == |before| &&
    forall k :: 0 <= k < |before| ==> after[k].Keys == before[k].Keys
  }

  /** An evaluation's outcome and the frames it leaves behind. */
  datatype Evaluated = Evaluated(outcome: Outcome<Value>, frames: seq<Frame>)

  /**
   * `Evaluate`.  Only assignment changes the frames, and it never creates a
   * binding, so no evaluation changes which names are bound where.
   */
  function Eval(e: Expr, frames: seq<Frame>): (r: Evaluated)
    ensures SameShape(frames, r.frames)
    decreases e
  {
    match e
    case LiteralExpr(token) => Evaluated(Normal(LiteralValue(token.literal)), frames)
    case GroupingExpr(inner) => Eval(inner, frames)
    case UnaryExpr(op, right) =>
      var r1 := Eval(right, frames);
      if !r1.outcome.Normal? then r1
      else Evaluated(UnaryValue(op, r1.outcome.value), r1.frames)
    case BinaryExpr(left, op, right) =>
      var l := Eval(left, frames);
      if !l.outcome.Normal? then l
      else
        var r1 := Eval(right, l.frames);
        if !r1.outcome.Normal? then r1
        else Evaluated(BinaryValue(op, l.outcome.value, r1.outcome.value), r1.frames)
    case AssignExpr(name, value) =>
      var r1 := Eval(value, frames);
      if !r1.outcome.Normal? then r1
      else
        var (o, after) := AssignResult(r1.frames, name, r1.outcome.value);
        Evaluated(if o.Normal? then r1.outcome else Abrupt(o), after)
    case VariableExpr(name) => Evaluated(VariableValue(frames, name), frames)
    case _ => Evaluated(Crash, frames)
  }

  /** Frames after a statement: as many as before, new names only in the innermost. */
  predicate Grows(before: seq<Frame>, after: seq<Frame>)
  {
    |before| > 0 && |after| == |before| &&
    before[0].Keys <= after[0].Keys &&
    forall k :: 1 <= k < |before| ==> after[k].Keys == before[k].Keys
  }

  /** An execution's outcome, the frames it leaves behind and the printed lines. */
  datatype Executed = Executed(outcome: Outcome<()>, frames: seq<Frame>, output: seq<string>)

  /**
   * `Execute`.  A statement defines names only in the innermost frame, and
   * the lines printed before it are kept.
   */
  function Exec(s: Stmt, frames: seq<Frame>, out: seq<string>, fmt: NumberFormat): (r: Executed)
    requires |frames| > 0
    ensures Grows(frames, r.frames) && out <= r.output
    decreases s
  {
    match s
    case ExpressionStmt(expr) =>
      var r1 := Eval(expr, frames);
      Executed(if r1.outcome.Normal? then Normal(()) else Abrupt(r1.outcome), r1.frames, out)
    case PrintStmt(expr) =>
      var r1 := Eval(expr, frames);
      if r1.outcome.Normal? then Executed(Normal(()), r1.frames, out + [Stringify(r1.outcome.value, fmt)])
      else Executed(Abrupt(r1.outcome), r1.frames, out)
    case VarStmt(name, initializer) =>
      if initializer.None? then Executed(Normal(()), WithDefinition(frames, name.lexeme, Value.Nil), out)
      else
        var r1 := Eval(initializer.value, frames);
        if r1.outcome.Normal? then
          Executed(Normal(()), WithDefinition(r1.frames, name.lexeme, r1.outcome.value), out)
        else Executed(Abrupt(r1.outcome), r1.frames, out)
    case BlockStmt(_, statements) => ExecBlock(statements, frames, out, fmt)
    case _ => Executed(Crash, frames, out)
  }

  /**
   * `ExecuteBlock` with a fresh child of the current scope: the statements
   * run with one more frame, which is dropped on every exit path.
   */
  function ExecBlock(statements: seq<Stmt>, frames: seq<Frame>, out: seq<string>, fmt: NumberFormat): (r: Executed)
    requires |frames| > 0
    ensures SameShape(frames, r.frames) && out <= r.output
    decreases statements, 1
  {
    var inner := ExecStmts(statements, [map[]] + frames, out, fmt);
    Executed(inner.outcome, inner.frames[1..], inner.output)
  }

  /** Statements in order, stopping at the first that does not end normally. */
  function ExecStmts(ss: seq<Stmt>, frames: seq<Frame>, out: seq<string>, fmt: NumberFormat): (r: Executed)
    requires |frames| > 0
    ensures Grows(frames, r.frames) && out <= r.output
    decreases ss, 0
  {
    if |ss| == 0 then Executed(Normal(()), frames, out)
    else
      var r1 := Exec(ss[0], frames, out, fmt);
      if !r1.outcome.Normal? then r1 else ExecStmts(ss[1..], r1.frames, r1.output, fmt)
  }

  /**
   * `Interpret(statements)`: run them; a runtime error is reported once,
   * and a crash ends the process.
   */
  datatype Interpreted = Interpreted(frames: seq<Frame>, output: seq<string>, errors: seq<Diagnostic>, crashed: bool)

  function Interpret(ss: seq<Stmt>, frames: seq<Frame>, out: seq<string>, fmt: NumberFormat): (r: Interpreted)
    requires |frames| > 0
    ensures out <= r.output && |r.frames| == |frames|
    ensures |r.errors| <= 1 && !(r.crashed && |r.errors| > 0)
  {
    var run := ExecStmts(ss, frames, out, fmt);
    Interpreted(run.frames, run.output, if run.outcome.Raised? then [run.outcome.error] else [], run.outcome.Crash?)
  }

  /** `Interpret(expression)`: print the value, or report the runtime error. */
  function InterpretExpression(e: Expr, frames: seq<Frame>, out: seq<string>, fmt: NumberFormat): (r: Interpreted)
    ensures r.frames == Eval(e, frames).frames && |r.errors| <= 1
    ensures Eval(e, frames).outcome.Normal? ==> r.output == out + [Stringify(Eval(e, frames).outcome.value, fmt)]
    ensures !Eval(e, frames).outcome.Normal? ==> r.output == out
    ensures r.errors != [] <==> Eval(e, frames).outcome.Raised?
    ensures r.crashed <==> Eval(e, frames).outcome.Crash?
  {
    var r1 := Eval(e, frames);
    match r1.outcome
    case Normal(v) => Interpreted(r1.frames, out + [Stringify(v, fmt)], [], false)
    case Raised(d) => Interpreted(r1.frames, out, [d], false)
    case Crash => Interpreted(r1.frames, out, [], true)
  }

  // ---------------------------------------------------------------------
  // What the evaluator guarantees
  // ---------------------------------------------------------------------

  /** Running `ss` then `rest` is running `ss`, then `rest` only if `ss` ended normally. */
  lemma {:induction false} ExecStmtsAppend(ss: seq<Stmt>, rest: seq<Stmt>, frames: seq<Frame>, out: seq<string>, fmt: NumberFormat)
    requires |frames| > 0
    ensures var r := ExecStmts(ss, frames, out, fmt);
      ExecStmts(ss + rest, frames, out, fmt) ==
        if r.outcome.Normal? then ExecStmts(rest, r.frames, r.output, fmt) else r
    decreases ss
  {
    if |ss| == 0 {
      assert ss + rest == rest;
    } else {
      assert (ss + rest)[0] == ss[0] && (ss + rest)[1..] == ss[1..] + rest;
      var r1 := Exec(ss[0], frames, out, fmt);
      if r1.outcome.Normal? {
        ExecStmtsAppend(ss[1..], rest, r1.frames, r1.output, fmt);
      }
    }
  }

  /**
   * `Interpret` stops at the first statement that raises a runtime error:
   * that error is the only one reported, at its own line and column, the
   * statements after it never run, and what ran before it keeps its effects.
   */
  lemma InterpretReportsFirstError(done: seq<Stmt>, s: Stmt, rest: seq<Stmt>, frames: seq<Frame>, out: seq<string>, fmt: NumberFormat)
    requires |frames| > 0
    requires ExecStmts(done, frames, out, fmt).outcome.Normal?
    requires var d := ExecStmts(done, frames, out, fmt); Exec(s, d.frames, d.output, fmt).outcome.Raised?
    ensures var d := ExecStmts(done, frames, out, fmt);
      var e := Exec(s, d.frames, d.output, fmt);
      Interpret(done + [s] + rest, frames, out, fmt) == Interpreted(e.frames, e.output, [e.outcome.error], false)
  {
    var d := ExecStmts(done, frames, out, fmt);
    assert done + [s] + rest == done + ([s] + rest);
    ExecStmtsAppend(done, [s] + rest, frames, out, fmt);
    assert ([s] + rest)[0] == s;
  }

  /** Whether evaluating `e` runs an assignment. */
  predicate Assigns(e: Expr)
  {
    match e
    case AssignExpr(_, _) => true
    case GroupingExpr(inner) => Assigns(inner)
    case UnaryExpr(_, right) => Assigns(right)
    case BinaryExpr(left, _, right) => Assigns(left) || Assigns(right)
    case _ => false
  }

  /** Without an assignment, evaluation leaves every binding as it was. */
  lemma {:induction false} EvalWithoutAssignmentKeepsFrames(e: Expr, frames: seq<Frame>)
    requires !Assigns(e)
    ensures Eval(e, frames).frames == frames
    decreases e
  {
    match e
    case GroupingExpr(inner) => EvalWithoutAssignmentKeepsFrames(inner, frames);
    case UnaryExpr(_, right) => EvalWithoutAssignmentKeepsFrames(right, frames);
    case BinaryExpr(left, _, right) =>
      EvalWithoutAssignmentKeepsFrames(left, frames);
      EvalWithoutAssignmentKeepsFrames(right, frames);
    case _ =>
  }

  /**
   * A block's scope is discarded when it exits, whatever way it exits: a
   * name bound nowhere before the block is bound nowhere after it.
   */
  lemma BlockDefinitionsDoNotLeak(brace: Token, ss: seq<Stmt>, frames: seq<Frame>, out: seq<string>, fmt: NumberFormat, name: string)
    requires |frames| > 0
    requires forall k :: 0 <= k < |frames| ==> name !in frames[k]
    ensures Lookup(Exec(BlockStmt(brace, ss), frames, out, fmt).frames, name) == None
  {
    var after := Exec(BlockStmt(brace, ss), frames, out, fmt).frames;
    assert forall k :: 0 <= k < |after| ==> after[k].Keys == frames[k].Keys;
    LookupMissesUnbound(after, name);
  }

  // Concrete programs, all on line 1.

  function Ident(text: string, column: int): Token
  {
    Token(Identifier, text, NoLiteral, 1, column)
  }

  function NumberToken(text: string, value: real, column: int): Token
  {
    Token(Number, text, NumLit(value), 1, column)
  }

  function StringToken(text: string, column: int): Token
  {
    Token(String, "\"" + text + "\"", StrLit(text), 1, column)
  }

  function OperatorToken(t: TokenType, text: string, column: int): Token
  {
    Token(t, text, NoLiteral, 1, column)
  }

  // Single steps of the evaluator, for running the programs below.

  /** An operator between two literals applies to the literals' values. */
  lemma LiteralOperands(left: Token, op: Token, right: Token, frames: seq<Frame>)
    ensures Eval(BinaryExpr(LiteralExpr(left), op, LiteralExpr(right)), frames) ==
      Evaluated(BinaryValue(op, LiteralValue(left.literal), LiteralValue(right.literal)), frames)
  {
  }

  /** A declaration whose initializer yields `v` binds the name to `v` in the innermost frame. */
  lemma DeclareStep(name: Token, init: Expr, frames: seq<Frame>, out: seq<string>, fmt: NumberFormat, v: Value)
    requires |frames| > 0 && Eval(init, frames) == Evaluated(Normal(v), frames)
    ensures Exec(VarStmt(name, Some(init)), frames, out, fmt) ==
      Executed(Normal(()), WithDefinition(frames, name.lexeme, v), out)
  {
  }

  /** A program of one `print` whose expression yields `v` prints `v` and reports nothing. */
  lemma PrintOnly(e: Expr, frames: seq<Frame>, out: seq<string>, fmt: NumberFormat, v: Value)
    requires |frames| > 0 && Eval(e, frames) == Evaluated(Normal(v), frames)
    ensures Interpret([PrintStmt(e)], frames, out, fmt) == Interpreted(frames, out + [Stringify(v, fmt)], [], false)
  {
    var printed := Executed(Normal(()), frames, out + [Stringify(v, fmt)]);
    assert Exec(PrintStmt(e), frames, out, fmt) == printed;
    assert [PrintStmt(e)][0] == PrintStmt(e) && [PrintStmt(e)][1..] == [];
    assert ExecStmts([], frames, printed.output, fmt) == printed;
    assert ExecStmts([PrintStmt(e)], frames, out, fmt) == printed;
  }

  /** `5 / 0` fails at the operator; `5 / 2` is 2.5. */
  lemma Division()
    ensures var slash := OperatorToken(Slash, "/", 3);
      Eval(BinaryExpr(LiteralExpr(NumberToken("5", 5.0, 1)), slash, LiteralExpr(NumberToken("0", 0.0, 5))), [map[]]).outcome ==
        Raised(Diagnostic(1, 3, DivideByZero)) &&
      Eval(BinaryExpr(LiteralExpr(NumberToken("5", 5.0, 1)), slash, LiteralExpr(NumberToken("2", 2.0, 5))), [map[]]).outcome ==
        Normal(Num(2.5))
  {
    var slash := OperatorToken(Slash, "/", 3);
    LiteralOperands(NumberToken("5", 5.0, 1), slash, NumberToken("0", 0.0, 5), [map[]]);
    LiteralOperands(NumberToken("5", 5.0, 1), slash, NumberToken("2", 2.0, 5), [map[]]);
  }

  /** `"a" + "b"` is `"ab"`; `1 + "b"` fails with the two-types message. */
  lemma Concatenation()
    ensures var plus := OperatorToken(Plus, "+", 5);
      Eval(BinaryExpr(LiteralExpr(StringToken("a", 1)), plus, LiteralExpr(StringToken("b", 7))), [map[]]).outcome ==
        Normal(Str("ab")) &&
      Eval(BinaryExpr(LiteralExpr(NumberToken("1", 1.0, 1)), plus, LiteralExpr(StringToken("b", 5))), [map[]]).outcome ==
        Raised(Diagnostic(1, 5, NotNumbersOrStrings))
  {
    var plus := OperatorToken(Plus, "+", 5);
    LiteralOperands(StringToken("a", 1), plus, StringToken("b", 7), [map[]]);
    LiteralOperands(NumberToken("1", 1.0, 1), plus, StringToken("b", 5), [map[]]);
    assert "a" + "b" == "ab";
  }

  /** `print 1 == "1";` prints `false`: no coercion between types. */
  lemma NoCoercion(fmt: NumberFormat)
    ensures var test := BinaryExpr(LiteralExpr(NumberToken("1", 1.0, 7)), OperatorToken(EqualEqual, "==", 9), LiteralExpr(StringToken("1", 12)));
      Interpret([PrintStmt(test)], [map[]], [], fmt) == Interpreted([map[]], ["false"], [], false)
  {
    var left, op, right := NumberToken("1", 1.0, 7), OperatorToken(EqualEqual, "==", 9), StringToken("1", 12);
    LiteralOperands(left, op, right, [map[]]);
    assert BinaryValue(op, Num(1.0), Str("1")) == Normal(Bool(false));
    PrintOnly(BinaryExpr(LiteralExpr(left), op, LiteralExpr(right)), [map[]], [], fmt, Bool(false));
  }

  /** `a + 1` where the nearest `a` is 1 (the frames hold the scenario below). */
  lemma OuterPlusOne(e: Expr, frames: seq<Frame>)
    requires e == BinaryExpr(VariableExpr(Ident("a", 22)), OperatorToken(Plus, "+", 24), LiteralExpr(NumberToken("1", 1.0, 26)))
    requires frames == [map[], map["a" := Num(1.0)]]
    ensures Eval(e, frames) == Evaluated(Normal(Num(2.0)), frames)
  {
    assert Eval(e.left, frames) == Evaluated(Normal(Num(1.0)), frames) by {
      assert Lookup(frames, "a") == Some(Num(1.0));
    }
    assert Eval(e.right, frames) == Evaluated(Normal(Num(1.0)), frames);
    assert BinaryValue(e.operator, Num(1.0), Num(1.0)) == Normal(Num(2.0));
  }

  /** Inside the block, `var a = a + 1;` defines the inner `a` as 2. */
  lemma ShadowingDeclaration(fmt: NumberFormat, declare: Stmt, frames: seq<Frame>)
    requires declare == VarStmt(Ident("a", 18), Some(BinaryExpr(VariableExpr(Ident("a", 22)),
                                 OperatorToken(Plus, "+", 24), LiteralExpr(NumberToken("1", 1.0, 26)))))
    requires frames == [map[], map["a" := Num(1.0)]]
    ensures Exec(declare, frames, [], fmt) == Executed(Normal(()), [map["a" := Num(2.0)], map["a" := Num(1.0)]], [])
  {
    OuterPlusOne(declare.initializer.value, frames);
    DeclareStep(declare.name, declare.initializer.value, frames, [], fmt, Num(2.0));
    assert WithDefinition(frames, "a", Num(2.0)) == [map["a" := Num(2.0)], map["a" := Num(1.0)]];
  }

  /** `print a;` prints the value of the innermost `a`. */
  lemma PrintInnermost(fmt: NumberFormat, show: Stmt, frames: seq<Frame>, out: seq<string>, v: real)
    requires show.PrintStmt? && show.expr.VariableExpr? && show.expr.name.lexeme == "a"
    requires |frames| > 0 && frames[0] == map["a" := Num(v)]
    ensures Exec(show, frames, out, fmt) == Executed(Normal(()), frames, out + [fmt(v)])
  {
    assert Lookup(frames, "a") == Some(Num(v));
  }

  /** The whole block: the inner `a` is 2 while it runs, and dropped afterwards. */
  lemma ShadowingBlock(fmt: NumberFormat, block: Stmt, frames: seq<Frame>)
    requires block == BlockStmt(OperatorToken(LeftBrace, "{", 12),
      [VarStmt(Ident("a", 18), Some(BinaryExpr(VariableExpr(Ident("a", 22)),
                                   OperatorToken(Plus, "+", 24), LiteralExpr(NumberToken("1", 1.0, 26))))),
       PrintStmt(VariableExpr(Ident("a", 35)))])
    requires frames == [map["a" := Num(1.0)]]
    ensures Exec(block, frames, [], fmt) == Executed(Normal(()), frames, [fmt(2.0)])
  {
    var declare, show := block.statements[0], block.statements[1];
    var nested: seq<Frame> := [map["a" := Num(2.0)], map["a" := Num(1.0)]];
    ShadowingDeclaration(fmt, declare, [map[]] + frames);
    PrintInnermost(fmt, show, nested, [], 2.0);
    assert block.statements[1..] == [show] && [show][1..] == [];
    assert ExecStmts([show], nested, [], fmt) == Executed(Normal(()), nested, [fmt(2.0)]);
  }

  /**
   * `var a = 1; { var a = a + 1; print a; } print a;` prints 2 then 1: the
   * inner initializer reads the outer `a`, the inner `a` shadows it inside
   * the block and disappears with the block.
   */
  lemma ShadowingInBlock(fmt: NumberFormat)
    ensures var one := LiteralExpr(NumberToken("1", 1.0, 9));
      var inner := [VarStmt(Ident("a", 18), Some(BinaryExpr(VariableExpr(Ident("a", 22)),
                      OperatorToken(Plus, "+", 24), LiteralExpr(NumberToken("1", 1.0, 26))))),
                    PrintStmt(VariableExpr(Ident("a", 35)))];
      var program := [VarStmt(Ident("a", 5), Some(one)), BlockStmt(OperatorToken(LeftBrace, "{", 12), inner),
                      PrintStmt(VariableExpr(Ident("a", 46)))];
      Interpret(program, [map[]], [], fmt) == Interpreted([map["a" := Num(1.0)]], [fmt(2.0), fmt(1.0)], [], false)
  {
    var one := LiteralExpr(NumberToken("1", 1.0, 9));
    var inner := [VarStmt(Ident("a", 18), Some(BinaryExpr(VariableExpr(Ident("a", 22)),
                    OperatorToken(Plus, "+", 24), LiteralExpr(NumberToken("1", 1.0, 26))))),
                  PrintStmt(VariableExpr(Ident("a", 35)))];
    var block := BlockStmt(OperatorToken(LeftBrace, "{", 12), inner);
    var last := PrintStmt(VariableExpr(Ident("a", 46)));
    var program := [VarStmt(Ident("a", 5), Some(one)), block, last];
    var global: seq<Frame> := [map["a" := Num(1.0)]];
    assert Exec(program[0], [map[]], [], fmt) == Executed(Normal(()), global, []);
    ShadowingBlock(fmt, block, global);
    PrintInnermost(fmt, last, global, [fmt(2.0)], 1.0);
    assert program[1..] == [block, last] && program[1..][1..] == [last] && [last][1..] == [];
    assert ExecStmts([last], global, [fmt(2.0)], fmt) == Executed(Normal(()), global, [fmt(2.0), fmt(1.0)]);
    assert ExecStmts([block, last], global, [], fmt) == Executed(Normal(()), global, [fmt(2.0), fmt(1.0)]);
  }

  /** `print a;` with no `a` anywhere fails with the undefined-variable error at the name. */
  lemma UndefinedVariableIsReported(fmt: NumberFormat)
    ensures Interpret([PrintStmt(VariableExpr(Ident("a", 7)))], [map[]], ["x"], fmt) ==
      Interpreted([map[]], ["x"], [Diagnostic(1, 7, "Undefined variable 'a'.")], false)
  {
    assert Lookup([map[]], "a") == None;
    assert UndefinedVariable(Ident("a", 7)) == Diagnostic(1, 7, "Undefined variable 'a'.");
    assert [PrintStmt(VariableExpr(Ident("a", 7)))][1..] == [];
  }
}
