/**
 * Interpreting: the interpreter object of `src/LoxInterpreter.cs`.  It holds
 * the current scope, which `ExecuteBlock` swaps and restores, the lines
 * `print` has written and the runtime errors `Interpret` has reported.
 * Every method is proved to do what the functions of `Semantics` say to the
 * chain of scopes it works on.
 */
module Interpreting {
  import opened Wrappers
  import opened Tokens
  import opened Ast
  import opened Runtime
  import opened Semantics

  class Interpreter {
    /** The scope statements currently run in (`_environment`). */
    var environment: Environment
    /** Every line written by `print`, in order. */
    var output: seq<string>
    /** Every invocation of the `Error` event, in order. */
    var errors: seq<Diagnostic>
    /** How `print` renders a number (`"0.##########"`). */
    const format: NumberFormat

    /** A new interpreter starts in an empty global scope. */
    constructor (format: NumberFormat)
      ensures environment.Valid() && fresh(environment.Repr)
      ensures environment.Frames() == [map[]]
      ensures output == [] && errors == [] && this.format == format
    {
      environment := new Environment(null);
      output := [];
      errors := [];
      this.format := format;
    }

    /** `Evaluate`: the visitor for `e`, run against the current scope chain. */
    method Evaluate(e: Expr) returns (r: Outcome<Value>)
      requires environment.Valid()
      modifies environment.Repr
      ensures Evaluated(r, environment.Frames()) == Eval(e, old(environment.Frames()))
      decreases e, 1
    {
      match e
      case LiteralExpr(token) =>
        r := Normal(LiteralValue(token.literal));
      case GroupingExpr(inner) =>
        r := Evaluate(inner);
      case UnaryExpr(_, _) =>
        r := EvaluateUnary(e);
      case BinaryExpr(_, _, _) =>
        r := EvaluateBinary(e);
      case AssignExpr(_, _) =>
        r := EvaluateAssign(e);
      case VariableExpr(name) =>
        r := environment.Get(name);
      case _ =>
        r := Crash;
    }

    /** The unary visitor: the operand, then the operator. */
    method EvaluateUnary(e: Expr) returns (r: Outcome<Value>)
      requires e.UnaryExpr? && environment.Valid()
      modifies environment.Repr
      ensures Evaluated(r, environment.Frames()) == Eval(e, old(environment.Frames()))
      decreases e, 0
    {
      r := Evaluate(e.right);
      if r.Normal? {
        r := UnaryValue(e.operator, r.value);
      }
    }

    /** The binary visitor: left operand, then right operand, then the operator. */
    method EvaluateBinary(e: Expr) returns (r: Outcome<Value>)
      requires e.BinaryExpr? && environment.Valid()
      modifies environment.Repr
      ensures Evaluated(r, environment.Frames()) == Eval(e, old(environment.Frames()))
      decreases e, 0
    {
      var lhs := Evaluate(e.left);
      if !lhs.Normal? {
        return lhs;
      }
      var rhs := Evaluate(e.right);
      if !rhs.Normal? {
        return rhs;
      }
      r := BinaryValue(e.operator, lhs.value, rhs.value);
    }

    /** The assignment visitor: the value is stored in the nearest scope binding the name. */
    method EvaluateAssign(e: Expr) returns (r: Outcome<Value>)
      requires e.AssignExpr? && environment.Valid()
      modifies environment.Repr
      ensures Evaluated(r, environment.Frames()) == Eval(e, old(environment.Frames()))
      decreases e, 0
    {
      r := Evaluate(e.value);
      if r.Normal? {
        var stored := environment.Assign(e.name, r.value);
        if !stored.Normal? {
          r := Abrupt(stored);
        }
      }
    }

    /** `Execute`: the visitor for `s`; a block leaves the current scope as it found it. */
    method Execute(s: Stmt) returns (r: Outcome<()>)
      requires environment.Valid()
      modifies this`environment, this`output, environment.Repr
      ensures environment == old(environment)
      ensures Executed(r, environment.Frames(), output) == Exec(s, old(environment.Frames()), old(output), format)
      decreases s
    {
      match s
      case ExpressionStmt(expr) =>
        var v := Evaluate(expr);
        r := if v.Normal? then Normal(()) else Abrupt(v);
      case PrintStmt(_) =>
        r := ExecutePrint(s);
      case VarStmt(_, _) =>
        r := ExecuteVar(s);
      case BlockStmt(_, statements) =>
        var scoped := new Environment(environment);
        r := ExecuteBlock(statements, scoped);
        assert scoped.Frames() == [scoped.values] + environment.Frames();
      case _ =>
        r := Crash;
    }

    /** The `print` visitor: the value's text is appended to the output. */
    method ExecutePrint(s: Stmt) returns (r: Outcome<()>)
      requires s.PrintStmt? && environment.Valid()
      modifies this`output, environment.Repr
      ensures environment == old(environment)
      ensures Executed(r, environment.Frames(), output) == Exec(s, old(environment.Frames()), old(output), format)
    {
      var v := Evaluate(s.expr);
      if !v.Normal? {
        return Abrupt(v);
      }
      output := output + [Stringify(v.value, format)];
      r := Normal(());
    }

    /** The `var` visitor: the initializer's value, or `nil`, is defined in the current scope. */
    method ExecuteVar(s: Stmt) returns (r: Outcome<()>)
      requires s.VarStmt? && environment.Valid()
      modifies environment.Repr
      ensures environment == old(environment)
      ensures Executed(r, environment.Frames(), output) == Exec(s, old(environment.Frames()), old(output), format)
    {
      var value := Value.Nil;
      if s.initializer.Some? {
        var v := Evaluate(s.initializer.value);
        if !v.Normal? {
          return Abrupt(v);
        }
        value := v.value;
      }
      environment.Define(s.name.lexeme, value);
      r := Normal(());
    }

    /**
     * `ExecuteBlock`: run the statements in `scoped`, then put the previous
     * scope back, whether they finished or failed.
     */
    method ExecuteBlock(statements: seq<Stmt>, scoped: Environment) returns (r: Outcome<()>)
      requires scoped.Valid()
      modifies this`environment, this`output, scoped.Repr
      ensures environment == old(environment)
      ensures Executed(r, scoped.Frames(), output) == ExecStmts(statements, old(scoped.Frames()), old(output), format)
      decreases statements, 1
    {
      var previous := environment;
      environment := scoped;
      r := ExecuteStatements(statements);
      environment := previous;
    }

    /** The `foreach` over the statements, left early by the first error. */
    method ExecuteStatements(statements: seq<Stmt>) returns (r: Outcome<()>)
      requires environment.Valid()
      modifies this`environment, this`output, environment.Repr
      ensures environment == old(environment)
      ensures Executed(r, environment.Frames(), output) == ExecStmts(statements, old(environment.Frames()), old(output), format)
      decreases statements, 0
    {
      var i := 0;
      r := Normal(());
      while i < |statements| && r.Normal?
        invariant 0 <= i <= |statements|
        invariant environment == old(environment)
        invariant r.Normal? ==> r == Normal(())
        invariant r.Normal? ==>
          ExecStmts(statements[i..], environment.Frames(), output, format) ==
          ExecStmts(statements, old(environment.Frames()), old(output), format)
        invariant !r.Normal? ==>
          Executed(r, environment.Frames(), output) == ExecStmts(statements, old(environment.Frames()), old(output), format)
      {
        assert statements[i..][0] == statements[i] && statements[i..][1..] == statements[i + 1..];
        var o := Execute(statements[i]);
        r := if o.Normal? then Normal(()) else o;
        i := i + 1;
      }
      assert r.Normal? ==> statements[i..] == [];
    }

    /**
     * `Interpret(statements)`: run them in order; the first runtime error
     * stops the run and is reported once.  A crash is returned, since it
     * ends the process.
     */
    method Interpret(statements: seq<Stmt>) returns (crashed: bool)
      requires environment.Valid()
      modifies this`environment, this`output, this`errors, environment.Repr
      ensures environment == old(environment)
      ensures var run := Semantics.Interpret(statements, old(environment.Frames()), old(output), format);
        environment.Frames() == run.frames && output == run.output &&
        errors == old(errors) + run.errors && crashed == run.crashed
    {
      var r := ExecuteStatements(statements);
      if r.Raised? {
        errors := errors + [r.error];
      }
      crashed := r.Crash?;
    }

    /** `Interpret(expression)`: print the value, or report the runtime error. */
    method InterpretExpression(e: Expr) returns (crashed: bool)
      requires environment.Valid()
      modifies this`output, this`errors, environment.Repr
      ensures var run := Semantics.InterpretExpression(e, old(environment.Frames()), old(output), format);
        environment.Frames() == run.frames && output == run.output &&
        errors == old(errors) + run.errors && crashed == run.crashed
    {
      var r := Evaluate(e);
      if r.Normal? {
        output := output + [Stringify(r.value, format)];
      } else if r.Raised? {
        errors := errors + [r.error];
      }
      crashed := r.Crash?;
    }
  }
}
