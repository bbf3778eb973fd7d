/**
 * Printing: the debugging printer of `src/AstPrinter.cs`, which renders a
 * tree as a parenthesized prefix form, `(+ 1 (* 2 3))`.
 *
 * `Parenthesize` puts a space before each operand's rendering;
 * `Parenthesize2` does the same through `Transform`, whose parts are
 * renderings, plain words, or a nested list of parts (only a call's
 * argument list is one), and a nested list adds one more space of its own.
 *
 * The printer has no visitor for `break` and `continue`, so only trees
 * without them are rendered.  Number literals are rendered with the host's
 * `"0.0#########"` format, which is a parameter here.
 *
 * The property proved is that the rendering is a well-formed parenthesized
 * form whenever the words it copies (lexemes, string literals, numbers)
 * hold no parentheses of their own.
 */
module Printing {
  import opened Wrappers
  import opened Tokens
  import opened Ast
  import opened Parens
  import Semantics

  /** One part handed to `Transform`. */
  datatype Part = Text(text: string) | Nested(parts: seq<Part>)

  /** `Transform`: a space, then the part's text, for every part. */
  function Transform(parts: seq<Part>): (r: string)
    ensures r == "" <==> |parts| == 0
    ensures |parts| > 0 ==> r[0] == ' '
    decreases parts
  {
    if |parts| == 0 then ""
    else " " + PartText(parts[0]) + Transform(parts[1..])
  }

  function PartText(p: Part): string
    decreases p
  {
    match p
    case Text(text) => text
    case Nested(parts) => Transform(parts)
  }

  /** A space before each rendering, as `Parenthesize` and a block append them. */
  function Spaced(renderings: seq<string>): (r: string)
    ensures r == "" <==> |renderings| == 0
    ensures |renderings| > 0 ==> r[0] == ' '
  {
    if |renderings| == 0 then ""
    else " " + renderings[0] + Spaced(renderings[1..])
  }

  /** The renderings one after another, as a function body appends them. */
  function Concat(renderings: seq<string>): string
  {
    if |renderings| == 0 then ""
    else renderings[0] + Concat(renderings[1..])
  }

  /** The names with a single space between each two, as the parameter loop writes them. */
  function Joined(names: seq<string>): string
  {
    if |names| == 0 then ""
    else if |names| == 1 then names[0]
    else names[0] + " " + Joined(names[1..])
  }

  /** `Parenthesize`: the name and a space before each rendering, in parentheses. */
  function Parenthesize(name: string, renderings: seq<string>): (r: string)
    ensures |r| >= |name| + 2 && r[..|name| + 1] == "(" + name && r[|r| - 1] == ')'
    ensures |renderings| > 0 <==> |r| > |name| + 2
    ensures |renderings| > 0 ==> r[|name| + 1] == ' '
  {
    "(" + name + Spaced(renderings) + ")"
  }

  /** `Parenthesize2`: the name and what `Transform` writes for the parts, in parentheses. */
  function Parenthesize2(name: string, parts: seq<Part>): (r: string)
    ensures |r| >= |name| + 2 && r[..|name| + 1] == "(" + name && r[|r| - 1] == ')'
    ensures |parts| > 0 <==> |r| > |name| + 2
    ensures |parts| > 0 ==> r[|name| + 1] == ' '
  {
    "(" + name + Transform(parts) + ")"
  }

  /** `VisitLiteralExpr`: the host's text of the token's literal value. */
  function LiteralText(literal: Literal, fmt: NumberFormat): (r: string)
    ensures !literal.NumLit? ==> r == Semantics.Stringify(Semantics.LiteralValue(literal), fmt)
    ensures literal.NumLit? ==> r == fmt(literal.n)
  {
    match literal
    case NoLiteral => "nil"
    case BoolLit(b) => if b then "true" else "false"
    case NumLit(n) => fmt(n)
    case StrLit(s) => s
  }

  /** The visitors of the expression nodes. */
  function PrintExpr(e: Expr, fmt: NumberFormat): (r: string)
    decreases e, 1
  {
    match e
    case AssignExpr(name, value) => Parenthesize2("=", [Text(name.lexeme), Text(PrintExpr(value, fmt))])
    case BinaryExpr(left, operator, right) => Parenthesize(operator.lexeme, [PrintExpr(left, fmt), PrintExpr(right, fmt)])
    case CallExpr(callee, _, arguments) =>
      Parenthesize2("call", [Text(PrintExpr(callee, fmt)), Nested(Texts(PrintExprs(arguments, fmt)))])
    case GetExpr(obj, name) => Parenthesize2(".", [Text(PrintExpr(obj, fmt)), Text(name.lexeme)])
    case GroupingExpr(inner) => Parenthesize("group", [PrintExpr(inner, fmt)])
    case LiteralExpr(token) => LiteralText(token.literal, fmt)
    case LogicalExpr(left, operator, right) => Parenthesize(operator.lexeme, [PrintExpr(left, fmt), PrintExpr(right, fmt)])
    case SetExpr(obj, name, value) =>
      Parenthesize2("=", [Text(PrintExpr(obj, fmt)), Text(name.lexeme), Text(PrintExpr(value, fmt))])
    case SuperExpr(_, methodName) => Parenthesize2("super", [Text(methodName.lexeme)])
    case ThisExpr(_) => "this"
    case UnaryExpr(operator, right) => Parenthesize(operator.lexeme, [PrintExpr(right, fmt)])
    case VariableExpr(name) => name.lexeme
  }

  function PrintExprs(es: seq<Expr>, fmt: NumberFormat): (r: seq<string>)
    ensures |r| == |es| && forall i :: 0 <= i < |es| ==> r[i] == PrintExpr(es[i], fmt)
    decreases es, 0
  {
    if |es| == 0 then [] else [PrintExpr(es[0], fmt)] + PrintExprs(es[1..], fmt)
  }

  function Texts(renderings: seq<string>): (r: seq<Part>)
    ensures |r| == |renderings| && forall i :: 0 <= i < |r| ==> r[i] == Text(renderings[i])
  {
    if |renderings| == 0 then [] else [Text(renderings[0])] + Texts(renderings[1..])
  }

  /** A tree the printer has a visitor for at every statement: no `break`, no `continue`. */
  predicate Printable(s: Stmt)
    decreases s, 1
  {
    match s
    case BlockStmt(_, statements) => AllPrintable(statements)
    case ClassStmt(_, _, methods) => forall i :: 0 <= i < |methods| ==> AllPrintable(methods[i].body)
    case FunctionStmt(decl) => AllPrintable(decl.body)
    case IfStmt(_, thenBranch, elseBranch) =>
      Printable(thenBranch) && (elseBranch.Some? ==> Printable(elseBranch.value))
    case WhileStmt(_, body) => Printable(body)
    case BreakStmt(_) => false
    case ContinueStmt(_) => false
    case _ => true
  }

  predicate AllPrintable(ss: seq<Stmt>)
    decreases ss, 0
  {
    forall i :: 0 <= i < |ss| ==> Printable(ss[i])
  }

  /** The visitors of the statement nodes. */
  function PrintStmt(s: Stmt, fmt: NumberFormat): (r: string)
    requires Printable(s)
    decreases s, 2
  {
    match s
    case BlockStmt(_, statements) => "(block" + Spaced(PrintStmts(statements, fmt)) + ")"
    case ClassStmt(name, superclass, methods) =>
      "(class " + name.lexeme + "!" +
      (if superclass.Some? then " < " + superclass.value.lexeme else "") +
      Spaced(PrintFuns(methods, fmt)) + ")"
    case ExpressionStmt(expr) => Parenthesize(";", [PrintExpr(expr, fmt)])
    case FunctionStmt(decl) => PrintFun(decl, fmt)
    case IfStmt(condition, thenBranch, elseBranch) =>
      if elseBranch.None? then Parenthesize2("if", [Text(PrintExpr(condition, fmt)), Text(PrintStmt(thenBranch, fmt))])
      else Parenthesize2("if-else", [Text(PrintExpr(condition, fmt)), Text(PrintStmt(thenBranch, fmt)), Text(PrintStmt(elseBranch.value, fmt))])
    case PrintStmt(expr) => Parenthesize("print", [PrintExpr(expr, fmt)])
    case ReturnStmt(_, value) =>
      if value.None? then "(return)" else Parenthesize("return", [PrintExpr(value.value, fmt)])
    case VarStmt(name, initializer) =>
      if initializer.None? then Parenthesize2("var", [Text(name.lexeme)])
      else Parenthesize2("var", [Text(name.lexeme), Text("="), Text(PrintExpr(initializer.value, fmt))])
    case WhileStmt(condition, body) => Parenthesize2("while", [Text(PrintExpr(condition, fmt)), Text(PrintStmt(body, fmt))])
  }

  function PrintStmts(ss: seq<Stmt>, fmt: NumberFormat): (r: seq<string>)
    requires AllPrintable(ss)
    ensures |r| == |ss| && forall i :: 0 <= i < |ss| ==> r[i] == PrintStmt(ss[i], fmt)
    decreases ss, 1
  {
    if |ss| == 0 then [] else [PrintStmt(ss[0], fmt)] + PrintStmts(ss[1..], fmt)
  }

  /** `VisitFunctionStmt`: name, parameters, then the body's renderings with nothing between them. */
  function PrintFun(d: FunDecl, fmt: NumberFormat): (r: string)
    requires AllPrintable(d.body)
    decreases d, 2
  {
    "(fun " + d.name.lexeme + "!(" + Joined(Lexemes(d.params)) + ") " + Concat(PrintStmts(d.body, fmt)) + ")"
  }

  function PrintFuns(ds: seq<FunDecl>, fmt: NumberFormat): (r: seq<string>)
    requires forall i :: 0 <= i < |ds| ==> AllPrintable(ds[i].body)
    ensures |r| == |ds| && forall i :: 0 <= i < |ds| ==> r[i] == PrintFun(ds[i], fmt)
    decreases ds
  {
    if |ds| == 0 then [] else [PrintFun(ds[0], fmt)] + PrintFuns(ds[1..], fmt)
  }

  function Lexemes(ts: seq<Token>): (r: seq<string>)
    ensures |r| == |ts| && forall i :: 0 <= i < |r| ==> r[i] == ts[i].lexeme
  {
    if |ts| == 0 then [] else [ts[0].lexeme] + Lexemes(ts[1..])
  }

  /** Every word the printer copies into the rendering of `e` is free of parentheses. */
  predicate PlainExpr(e: Expr, fmt: NumberFormat)
    decreases e
  {
    match e
    case AssignExpr(name, value) => ParenFree(name.lexeme) && PlainExpr(value, fmt)
    case BinaryExpr(left, operator, right) => ParenFree(operator.lexeme) && PlainExpr(left, fmt) && PlainExpr(right, fmt)
    case CallExpr(callee, _, arguments) =>
      PlainExpr(callee, fmt) && forall i :: 0 <= i < |arguments| ==> PlainExpr(arguments[i], fmt)
    case GetExpr(obj, name) => PlainExpr(obj, fmt) && ParenFree(name.lexeme)
    case GroupingExpr(inner) => PlainExpr(inner, fmt)
    case LiteralExpr(token) => ParenFree(LiteralText(token.literal, fmt))
    case LogicalExpr(left, operator, right) => ParenFree(operator.lexeme) && PlainExpr(left, fmt) && PlainExpr(right, fmt)
    case SetExpr(obj, name, value) => PlainExpr(obj, fmt) && ParenFree(name.lexeme) && PlainExpr(value, fmt)
    case SuperExpr(_, methodName) => ParenFree(methodName.lexeme)
    case ThisExpr(_) => true
    case UnaryExpr(operator, right) => ParenFree(operator.lexeme) && PlainExpr(right, fmt)
    case VariableExpr(name) => ParenFree(name.lexeme)
  }

  predicate PlainStmt(s: Stmt, fmt: NumberFormat)
    decreases s, 0
  {
    match s
    case BlockStmt(_, statements) => forall i :: 0 <= i < |statements| ==> PlainStmt(statements[i], fmt)
    case ClassStmt(name, superclass, methods) =>
      ParenFree(name.lexeme) && (superclass.Some? ==> ParenFree(superclass.value.lexeme)) &&
      forall i :: 0 <= i < |methods| ==> PlainFun(methods[i], fmt)
    case ExpressionStmt(expr) => PlainExpr(expr, fmt)
    case FunctionStmt(decl) => PlainFun(decl, fmt)
    case IfStmt(condition, thenBranch, elseBranch) =>
      PlainExpr(condition, fmt) && PlainStmt(thenBranch, fmt) && (elseBranch.Some? ==> PlainStmt(elseBranch.value, fmt))
    case PrintStmt(expr) => PlainExpr(expr, fmt)
    case ReturnStmt(_, value) => value.Some? ==> PlainExpr(value.value, fmt)
    case VarStmt(name, initializer) => ParenFree(name.lexeme) && (initializer.Some? ==> PlainExpr(initializer.value, fmt))
    case WhileStmt(condition, body) => PlainExpr(condition, fmt) && PlainStmt(body, fmt)
    case BreakStmt(_) => true
    case ContinueStmt(_) => true
  }

  predicate PlainFun(d: FunDecl, fmt: NumberFormat)
    decreases d, 0
  {
    ParenFree(d.name.lexeme) && (forall i :: 0 <= i < |d.params| ==> ParenFree(d.params[i].lexeme)) &&
    forall i :: 0 <= i < |d.body| ==> PlainStmt(d.body[i], fmt)
  }

  lemma {:induction false} SpacedBalanced(renderings: seq<string>)
    requires forall i :: 0 <= i < |renderings| ==> Balanced(renderings[i])
    ensures Balanced(Spaced(renderings))
    decreases |renderings|
  {
    if |renderings| == 0 {
      ParenFreeBalanced("");
    } else {
      SpacedBalanced(renderings[1..]);
      ParenFreeBalanced(" ");
      BalancedAppend(" ", renderings[0]);
      BalancedAppend(" " + renderings[0], Spaced(renderings[1..]));
    }
  }

  lemma {:induction false} ConcatBalanced(renderings: seq<string>)
    requires forall i :: 0 <= i < |renderings| ==> Balanced(renderings[i])
    ensures Balanced(Concat(renderings))
    decreases |renderings|
  {
    if |renderings| == 0 {
      ParenFreeBalanced("");
    } else {
      ConcatBalanced(renderings[1..]);
      BalancedAppend(renderings[0], Concat(renderings[1..]));
    }
  }

  lemma {:induction false} TransformBalanced(parts: seq<Part>)
    requires forall i :: 0 <= i < |parts| ==> Balanced(PartText(parts[i]))
    ensures Balanced(Transform(parts))
    decreases |parts|
  {
    if |parts| == 0 {
      ParenFreeBalanced("");
    } else {
      TransformBalanced(parts[1..]);
      ParenFreeBalanced(" ");
      BalancedAppend(" ", PartText(parts[0]));
      BalancedAppend(" " + PartText(parts[0]), Transform(parts[1..]));
    }
  }

  lemma {:induction false} JoinedParenFree(names: seq<string>)
    requires forall i :: 0 <= i < |names| ==> ParenFree(names[i])
    ensures ParenFree(Joined(names))
    decreases |names|
  {
    if |names| == 0 {
    } else if |names| == 1 {
    } else {
      JoinedParenFree(names[1..]);
      ParenFreeAppend(names[0], " ");
      ParenFreeAppend(names[0] + " ", Joined(names[1..]));
    }
  }

  /** `name` and the enclosed text in parentheses. */
  lemma Enclosed(name: string, inner: string)
    requires ParenFree(name) && Balanced(inner)
    ensures Balanced("(" + name + inner + ")")
  {
    ParenFreeBalanced(name);
    BalancedAppend(name, inner);
    BalancedWrap(name + inner);
    assert "(" + name + inner + ")" == "(" + (name + inner) + ")";
  }

  lemma ParenthesizeBalanced(name: string, renderings: seq<string>)
    requires ParenFree(name) && forall i :: 0 <= i < |renderings| ==> Balanced(renderings[i])
    ensures Balanced(Parenthesize(name, renderings))
  {
    SpacedBalanced(renderings);
    Enclosed(name, Spaced(renderings));
  }

  lemma Parenthesize2Balanced(name: string, parts: seq<Part>)
    requires ParenFree(name) && forall i :: 0 <= i < |parts| ==> Balanced(PartText(parts[i]))
    ensures Balanced(Parenthesize2(name, parts))
  {
    TransformBalanced(parts);
    Enclosed(name, Transform(parts));
  }

  /** Every word here is a literal without parentheses. */
  lemma Words(w: string)
    requires w in {"=", "call", ".", "group", "super", "this", ";", "print", "return", "var", "if", "if-else", "while", " < ", "block", "class ", "!", "fun ", " ", ""}
    ensures ParenFree(w)
  {
  }

  /**
   * The rendering of an expression is a well-formed parenthesized form
   * when the words it copies have no parentheses.
   */
  lemma {:induction false} ExprBalanced(e: Expr, fmt: NumberFormat)
    requires PlainExpr(e, fmt)
    ensures Balanced(PrintExpr(e, fmt))
    decreases e
  {
    match e
    case AssignExpr(name, value) =>
      ExprBalanced(value, fmt);
      ParenFreeBalanced(name.lexeme);
      Words("=");
      Parenthesize2Balanced("=", [Text(name.lexeme), Text(PrintExpr(value, fmt))]);
    case BinaryExpr(left, operator, right) =>
      ExprBalanced(left, fmt);
      ExprBalanced(right, fmt);
      ParenthesizeBalanced(operator.lexeme, [PrintExpr(left, fmt), PrintExpr(right, fmt)]);
    case CallExpr(callee, _, arguments) =>
      ExprBalanced(callee, fmt);
      forall i | 0 <= i < |arguments| ensures Balanced(PrintExpr(arguments[i], fmt)) {
        ExprBalanced(arguments[i], fmt);
      }
      var nested := Texts(PrintExprs(arguments, fmt));
      TransformBalanced(nested);
      Words("call");
      Parenthesize2Balanced("call", [Text(PrintExpr(callee, fmt)), Nested(nested)]);
    case GetExpr(obj, name) =>
      ExprBalanced(obj, fmt);
      ParenFreeBalanced(name.lexeme);
      Words(".");
      Parenthesize2Balanced(".", [Text(PrintExpr(obj, fmt)), Text(name.lexeme)]);
    case GroupingExpr(inner) =>
      ExprBalanced(inner, fmt);
      Words("group");
      ParenthesizeBalanced("group", [PrintExpr(inner, fmt)]);
    case LiteralExpr(token) =>
      ParenFreeBalanced(LiteralText(token.literal, fmt));
    case LogicalExpr(left, operator, right) =>
      ExprBalanced(left, fmt);
      ExprBalanced(right, fmt);
      ParenthesizeBalanced(operator.lexeme, [PrintExpr(left, fmt), PrintExpr(right, fmt)]);
    case SetExpr(obj, name, value) =>
      ExprBalanced(obj, fmt);
      ExprBalanced(value, fmt);
      ParenFreeBalanced(name.lexeme);
      Words("=");
      Parenthesize2Balanced("=", [Text(PrintExpr(obj, fmt)), Text(name.lexeme), Text(PrintExpr(value, fmt))]);
    case SuperExpr(_, methodName) =>
      ParenFreeBalanced(methodName.lexeme);
      Words("super");
      Parenthesize2Balanced("super", [Text(methodName.lexeme)]);
    case ThisExpr(_) =>
      Words("this");
      ParenFreeBalanced("this");
    case UnaryExpr(operator, right) =>
      ExprBalanced(right, fmt);
      ParenthesizeBalanced(operator.lexeme, [PrintExpr(right, fmt)]);
    case VariableExpr(name) =>
      ParenFreeBalanced(name.lexeme);
  }

  /** The same for statements the printer can render. */
  lemma {:induction false} StmtBalanced(s: Stmt, fmt: NumberFormat)
    requires Printable(s) && PlainStmt(s, fmt)
    ensures Balanced(PrintStmt(s, fmt))
    decreases s, 1
  {
    match s
    case BlockStmt(_, _) =>
      BlockBalanced(s, fmt);
    case ClassStmt(_, _, _) =>
      ClassStmtBalanced(s, fmt);
    case ExpressionStmt(_) =>
      WrappedExprBalanced(s, fmt);
    case FunctionStmt(decl) =>
      FunBalanced(decl, fmt);
    case IfStmt(_, _, _) =>
      IfBalanced(s, fmt);
    case PrintStmt(_) =>
      WrappedExprBalanced(s, fmt);
    case ReturnStmt(_, _) =>
      WrappedExprBalanced(s, fmt);
    case VarStmt(_, _) =>
      VarBalanced(s, fmt);
    case WhileStmt(_, _) =>
      WhileBalanced(s, fmt);
  }

  /** Expression and print statements and returns: one expression, if any, in a prefix form. */
  lemma WrappedExprBalanced(s: Stmt, fmt: NumberFormat)
    requires s.ExpressionStmt? || s.PrintStmt? || s.ReturnStmt?
    requires Printable(s) && PlainStmt(s, fmt)
    ensures Balanced(PrintStmt(s, fmt))
  {
    match s
    case ExpressionStmt(expr) =>
      ExprBalanced(expr, fmt);
      Words(";");
      ParenthesizeBalanced(";", [PrintExpr(expr, fmt)]);
    case PrintStmt(expr) =>
      ExprBalanced(expr, fmt);
      Words("print");
      ParenthesizeBalanced("print", [PrintExpr(expr, fmt)]);
    case ReturnStmt(_, value) =>
      if value.None? {
        Words("");
        Enclosed("return", "");
        assert "(" + "return" + "" + ")" == "(return)";
      } else {
        ExprBalanced(value.value, fmt);
        Words("return");
        ParenthesizeBalanced("return", [PrintExpr(value.value, fmt)]);
      }
  }

  lemma {:induction false} WhileBalanced(s: Stmt, fmt: NumberFormat)
    requires s.WhileStmt? && Printable(s) && PlainStmt(s, fmt)
    ensures Balanced(PrintStmt(s, fmt))
    decreases s, 0
  {
    ExprBalanced(s.condition, fmt);
    StmtBalanced(s.body, fmt);
    Words("while");
    Parenthesize2Balanced("while", [Text(PrintExpr(s.condition, fmt)), Text(PrintStmt(s.body, fmt))]);
  }

  lemma {:induction false} BlockBalanced(s: Stmt, fmt: NumberFormat)
    requires s.BlockStmt? && Printable(s) && PlainStmt(s, fmt)
    ensures Balanced(PrintStmt(s, fmt))
    decreases s, 0
  {
    var statements := s.statements;
    forall i | 0 <= i < |statements| ensures Balanced(PrintStmt(statements[i], fmt)) {
      StmtBalanced(statements[i], fmt);
    }
    SpacedBalanced(PrintStmts(statements, fmt));
    Words("block");
    Enclosed("block", Spaced(PrintStmts(statements, fmt)));
    assert "(" + "block" == "(block";
  }

  lemma {:induction false} ClassStmtBalanced(s: Stmt, fmt: NumberFormat)
    requires s.ClassStmt? && Printable(s) && PlainStmt(s, fmt)
    ensures Balanced(PrintStmt(s, fmt))
    decreases s, 0
  {
    var methods := s.methods;
    forall i | 0 <= i < |methods| ensures Balanced(PrintFun(methods[i], fmt)) {
      FunBalanced(methods[i], fmt);
    }
    SpacedBalanced(PrintFuns(methods, fmt));
    ClassBalanced(s.name.lexeme, if s.superclass.Some? then " < " + s.superclass.value.lexeme else "",
                  Spaced(PrintFuns(methods, fmt)));
  }

  lemma {:induction false} IfBalanced(s: Stmt, fmt: NumberFormat)
    requires s.IfStmt? && Printable(s) && PlainStmt(s, fmt)
    ensures Balanced(PrintStmt(s, fmt))
    decreases s, 0
  {
    var condition, thenBranch, elseBranch := s.condition, s.thenBranch, s.elseBranch;
    ExprBalanced(condition, fmt);
    StmtBalanced(thenBranch, fmt);
    if elseBranch.None? {
      Words("if");
      Parenthesize2Balanced("if", [Text(PrintExpr(condition, fmt)), Text(PrintStmt(thenBranch, fmt))]);
    } else {
      Words("if-else");
      StmtBalanced(elseBranch.value, fmt);
      Parenthesize2Balanced("if-else", [Text(PrintExpr(condition, fmt)), Text(PrintStmt(thenBranch, fmt)),
                                        Text(PrintStmt(elseBranch.value, fmt))]);
    }
  }

  lemma {:induction false} VarBalanced(s: Stmt, fmt: NumberFormat)
    requires s.VarStmt? && Printable(s) && PlainStmt(s, fmt)
    ensures Balanced(PrintStmt(s, fmt))
  {
    var name, initializer := s.name, s.initializer;
    ParenFreeBalanced(name.lexeme);
    Words("var");
    if initializer.None? {
      Parenthesize2Balanced("var", [Text(name.lexeme)]);
    } else {
      ExprBalanced(initializer.value, fmt);
      Words("=");
      ParenFreeBalanced("=");
      Parenthesize2Balanced("var", [Text(name.lexeme), Text("="), Text(PrintExpr(initializer.value, fmt))]);
    }
  }

  /** The class layout: name, optional superclass, then the methods. */
  lemma ClassBalanced(name: string, superText: string, methods: string)
    requires ParenFree(name) && ParenFree(superText) && Balanced(methods)
    ensures Balanced("(class " + name + "!" + superText + methods + ")")
  {
    Words("class ");
    Words("!");
    ParenFreeAppend("class ", name);
    ParenFreeAppend("class " + name, "!");
    ParenFreeAppend("class " + name + "!", superText);
    var head := "class " + name + "!" + superText;
    Enclosed(head, methods);
    assert "(class " + name + "!" + superText + methods + ")" == "(" + head + methods + ")";
  }

  /** The function layout: name, parameters in parentheses, then the body. */
  lemma FunLayoutBalanced(name: string, params: string, body: string)
    requires ParenFree(name) && ParenFree(params) && Balanced(body)
    ensures Balanced("(fun " + name + "!(" + params + ") " + body + ")")
  {
    Words("fun ");
    Words("!");
    ParenFreeAppend("fun ", name);
    ParenFreeAppend("fun " + name, "!");
    var head := "fun " + name + "!";
    ParenFreeBalanced(params);
    BalancedWrap(params);
    ParenFreeBalanced(" ");
    BalancedAppend("(" + params + ")", " ");
    BalancedAppend("(" + params + ")" + " ", body);
    var inner := "(" + params + ")" + " " + body;
    Enclosed(head, inner);
    assert "(fun " + name + "!(" + params + ") " + body + ")" == "(" + head + inner + ")";
  }

  lemma {:induction false} FunBalanced(d: FunDecl, fmt: NumberFormat)
    requires AllPrintable(d.body) && PlainFun(d, fmt)
    ensures Balanced(PrintFun(d, fmt))
    decreases d, 0
  {
    forall i | 0 <= i < |d.body| ensures Balanced(PrintStmt(d.body[i], fmt)) {
      StmtBalanced(d.body[i], fmt);
    }
    ConcatBalanced(PrintStmts(d.body, fmt));
    JoinedParenFree(Lexemes(d.params));
    FunLayoutBalanced(d.name.lexeme, Joined(Lexemes(d.params)), Concat(PrintStmts(d.body, fmt)));
  }

  /** A list of plain renderings goes through `Transform` exactly as `Parenthesize` spaces them. */
  lemma {:induction false} TransformTexts(renderings: seq<string>)
    ensures Transform(Texts(renderings)) == Spaced(renderings)
    decreases |renderings|
  {
    if |renderings| > 0 {
      TransformTexts(renderings[1..]);
      assert Texts(renderings)[1..] == Texts(renderings[1..]);
    }
  }

  /**
   * A call's arguments are a nested list, so they are preceded by one space
   * more than the callee: `(call f  a b)`, and `(call f )` without arguments.
   */
  lemma CallLayout(callee: Expr, paren: Token, arguments: seq<Expr>, fmt: NumberFormat)
    ensures PrintExpr(CallExpr(callee, paren, arguments), fmt) ==
      "(call " + PrintExpr(callee, fmt) + " " + Spaced(PrintExprs(arguments, fmt)) + ")"
    ensures arguments == [] ==> PrintExpr(CallExpr(callee, paren, arguments), fmt) == "(call " + PrintExpr(callee, fmt) + " )"
  {
    var c := PrintExpr(callee, fmt);
    var args := PrintExprs(arguments, fmt);
    var nested := Texts(args);
    var parts := [Text(c), Nested(nested)];
    assert PrintExpr(CallExpr(callee, paren, arguments), fmt) == Parenthesize2("call", parts);
    TransformTexts(args);
    TwoParts(c, nested);
    CallText(c, Spaced(args));
    if arguments == [] {
      assert Spaced(args) == "";
    }
  }

  lemma TwoParts(first: string, nested: seq<Part>)
    ensures Transform([Text(first), Nested(nested)]) == " " + first + (" " + Transform(nested))
  {
    var parts := [Text(first), Nested(nested)];
    assert parts[1..] == [Nested(nested)] && parts[1..][1..] == [];
    assert Transform(parts[1..]) == " " + Transform(nested) + "";
    assert " " + Transform(nested) + "" == " " + Transform(nested);
  }

  lemma CallText(callee: string, arguments: string)
    ensures "(" + "call" + (" " + callee + (" " + arguments)) + ")" == "(call " + callee + " " + arguments + ")"
  {
    assert "(" + "call" + " " == "(call ";
  }

  lemma ParenthesizeOne(name: string, x: string)
    ensures Parenthesize(name, [x]) == "(" + name + " " + x + ")"
  {
    assert [x][1..] == [];
    assert Spaced([x]) == " " + x + "";
    assert " " + x + "" == " " + x;
  }

  lemma ParenthesizeTwo(name: string, x: string, y: string)
    ensures Parenthesize(name, [x, y]) == "(" + name + " " + x + " " + y + ")"
  {
    assert [x, y][1..] == [y] && [y][1..] == [];
    assert Spaced([y]) == " " + y + "";
    assert " " + y + "" == " " + y;
    assert Spaced([x, y]) == " " + x + (" " + y);
  }

  lemma TransformTwo(name: string, x: string, y: string)
    ensures Parenthesize2(name, [Text(x), Text(y)]) == "(" + name + " " + x + " " + y + ")"
  {
    var parts := [Text(x), Text(y)];
    assert parts[1..] == [Text(y)] && parts[1..][1..] == [];
    assert Transform(parts[1..]) == " " + y + "";
    assert " " + y + "" == " " + y;
    assert Transform(parts) == " " + x + (" " + y);
  }

  lemma TransformThree(name: string, x: string, y: string, z: string)
    ensures Parenthesize2(name, [Text(x), Text(y), Text(z)]) == "(" + name + " " + x + " " + y + " " + z + ")"
  {
    var parts := [Text(x), Text(y), Text(z)];
    assert parts[1..] == [Text(y), Text(z)] && parts[1..][1..] == [Text(z)] && parts[1..][1..][1..] == [];
    assert Transform(parts[1..][1..]) == " " + z + "";
    assert " " + z + "" == " " + z;
    assert Transform(parts[1..]) == " " + y + (" " + z);
    assert Transform(parts) == " " + x + (" " + y + (" " + z));
  }

  /**
   * Operators print in prefix form with their lexeme as head, `(- 1 2)`;
   * a grouping prints with head `group`.
   */
  lemma OperatorLayouts(left: Expr, op: Token, right: Expr, fmt: NumberFormat)
    ensures PrintExpr(BinaryExpr(left, op, right), fmt) ==
      "(" + op.lexeme + " " + PrintExpr(left, fmt) + " " + PrintExpr(right, fmt) + ")"
    ensures PrintExpr(LogicalExpr(left, op, right), fmt) ==
      "(" + op.lexeme + " " + PrintExpr(left, fmt) + " " + PrintExpr(right, fmt) + ")"
    ensures PrintExpr(UnaryExpr(op, right), fmt) == "(" + op.lexeme + " " + PrintExpr(right, fmt) + ")"
    ensures PrintExpr(GroupingExpr(right), fmt) == "(group " + PrintExpr(right, fmt) + ")"
  {
    var l, r := PrintExpr(left, fmt), PrintExpr(right, fmt);
    ParenthesizeTwo(op.lexeme, l, r);
    ParenthesizeOne(op.lexeme, r);
    ParenthesizeOne("group", r);
    assert "(" + "group" + " " == "(group ";
  }

  /**
   * A bare `return` prints `(return)`; an `if` prints with head `if`, or
   * `if-else` when it has an else branch; an empty block prints `(block)`.
   */
  lemma StatementLayouts(keyword: Token, brace: Token, condition: Expr, thenBranch: Stmt, elseBranch: Stmt, fmt: NumberFormat)
    requires Printable(thenBranch) && Printable(elseBranch)
    ensures PrintStmt(ReturnStmt(keyword, None), fmt) == "(return)"
    ensures PrintStmt(ReturnStmt(keyword, Some(condition)), fmt) == "(return " + PrintExpr(condition, fmt) + ")"
    ensures PrintStmt(IfStmt(condition, thenBranch, None), fmt) ==
      "(if " + PrintExpr(condition, fmt) + " " + PrintStmt(thenBranch, fmt) + ")"
    ensures PrintStmt(IfStmt(condition, thenBranch, Some(elseBranch)), fmt) ==
      "(if-else " + PrintExpr(condition, fmt) + " " + PrintStmt(thenBranch, fmt) + " " + PrintStmt(elseBranch, fmt) + ")"
    ensures PrintStmt(BlockStmt(brace, []), fmt) == "(block)"
  {
    ReturnLayouts(keyword, condition, fmt);
    IfThenLayout(condition, thenBranch, fmt);
    IfElseLayout(condition, thenBranch, elseBranch, fmt);
    assert PrintStmts([], fmt) == [];
    assert "(block" + "" + ")" == "(block)";
  }

  lemma ReturnLayouts(keyword: Token, value: Expr, fmt: NumberFormat)
    ensures PrintStmt(ReturnStmt(keyword, None), fmt) == "(return)"
    ensures PrintStmt(ReturnStmt(keyword, Some(value)), fmt) == "(return " + PrintExpr(value, fmt) + ")"
  {
    ParenthesizeOne("return", PrintExpr(value, fmt));
    assert "(" + "return" + " " == "(return ";
  }

  lemma IfThenLayout(condition: Expr, thenBranch: Stmt, fmt: NumberFormat)
    requires Printable(thenBranch)
    ensures PrintStmt(IfStmt(condition, thenBranch, None), fmt) ==
      "(if " + PrintExpr(condition, fmt) + " " + PrintStmt(thenBranch, fmt) + ")"
  {
    TransformTwo("if", PrintExpr(condition, fmt), PrintStmt(thenBranch, fmt));
    assert "(" + "if" + " " == "(if ";
  }

  lemma IfElseLayout(condition: Expr, thenBranch: Stmt, elseBranch: Stmt, fmt: NumberFormat)
    requires Printable(thenBranch) && Printable(elseBranch)
    ensures PrintStmt(IfStmt(condition, thenBranch, Some(elseBranch)), fmt) ==
      "(if-else " + PrintExpr(condition, fmt) + " " + PrintStmt(thenBranch, fmt) + " " + PrintStmt(elseBranch, fmt) + ")"
  {
    TransformThree("if-else", PrintExpr(condition, fmt), PrintStmt(thenBranch, fmt), PrintStmt(elseBranch, fmt));
    assert "(" + "if-else" + " " == "(if-else ";
  }

  /** A class header writes `!` straight after the name. */
  lemma ClassHeader(name: Token, fmt: NumberFormat)
    ensures PrintStmt(ClassStmt(name, None, []), fmt) == "(class " + name.lexeme + "!)"
  {
    assert PrintFuns([], fmt) == [];
    assert Spaced([]) == "";
    assert "(class " + name.lexeme + "!" + "" + "" + ")" == "(class " + name.lexeme + "!)";
  }

  lemma JoinedPair(x: string, y: string)
    ensures Joined([x, y]) == x + " " + y
  {
    assert [x, y][1..] == [y];
  }

  lemma ConcatPair(x: string, y: string)
    ensures Concat([x, y]) == x + y
  {
    assert [x, y][1..] == [y] && [y][1..] == [];
    assert Concat([y]) == y + "";
    assert y + "" == y;
  }

  lemma StmtsPair(s: Stmt, t: Stmt, fmt: NumberFormat)
    requires Printable(s) && Printable(t)
    ensures PrintStmts([s, t], fmt) == [PrintStmt(s, fmt), PrintStmt(t, fmt)]
  {
    var rendered := PrintStmts([s, t], fmt);
    assert rendered[0] == PrintStmt(s, fmt) && rendered[1] == PrintStmt(t, fmt);
  }

  lemma FunParts(d: FunDecl, fmt: NumberFormat, params: string, body: string)
    requires AllPrintable(d.body)
    requires params == Joined(Lexemes(d.params)) && body == Concat(PrintStmts(d.body, fmt))
    ensures PrintFun(d, fmt) == "(fun " + d.name.lexeme + "!(" + params + ") " + body + ")"
  {
  }

  /**
   * A function header writes `!` straight after the name; the parameters
   * are separated by single spaces and the body's renderings follow one
   * another with nothing between them.
   */
  lemma FunHeader(name: Token, a: Token, b: Token, s: Stmt, t: Stmt, fmt: NumberFormat)
    requires Printable(s) && Printable(t)
    ensures PrintFun(FunDecl(name, [a, b], [s, t]), fmt) ==
      "(fun " + name.lexeme + "!(" + (a.lexeme + " " + b.lexeme) + ") " + (PrintStmt(s, fmt) + PrintStmt(t, fmt)) + ")"
  {
    var d := FunDecl(name, [a, b], [s, t]);
    var x, y := PrintStmt(s, fmt), PrintStmt(t, fmt);
    assert Lexemes(d.params) == [a.lexeme, b.lexeme];
    JoinedPair(a.lexeme, b.lexeme);
    StmtsPair(s, t, fmt);
    ConcatPair(x, y);
    FunParts(d, fmt, a.lexeme + " " + b.lexeme, x + y);
  }

  /**
   * The printer renders a literal as `print` renders the value it denotes,
   * except numbers, which the two write with different formats.
   */
  lemma LiteralAgreesWithPrint(literal: Literal, fmt: NumberFormat, printFormat: NumberFormat)
    ensures !literal.NumLit? ==> LiteralText(literal, fmt) == Semantics.Stringify(Semantics.LiteralValue(literal), printFormat)
    ensures literal.NumLit? ==>
      LiteralText(literal, fmt) == fmt(literal.n) &&
      Semantics.Stringify(Semantics.LiteralValue(literal), printFormat) == printFormat(literal.n)
  {
  }
}
