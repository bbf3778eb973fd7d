/**
 * Resolution: the static pass of `src/LoxResolver.cs`.
 *
 * The resolver walks a program with a stack of scopes, each mapping a name
 * to whether its declaration is finished.  It reports misuse through its
 * `Error` event and tells the interpreter, for every variable use and
 * assignment it finds in a local scope, how many scopes up the variable
 * lives.  That interpreter call is recorded here as a `Resolution` log
 * entry.  `Get`, `Set`, `super`, `this` and classes raise
 * `NotImplementedException`, and redeclaring a name in one scope makes
 * `Dictionary.Add` throw after the report.  Both escape the resolver, and
 * are modelled by the `crashed` flag.
 *
 * The pass is first written as functions on an `RState`; the class
 * `Resolver` does the same work on its fields, and each of its methods is
 * proved to match its function.
 */
module Resolution {
  import opened Wrappers
  import opened Tokens
  import opened Ast

  /** The kind of code being resolved (`FunctionTypes` in the source). */
  datatype FunctionKind = TopLevel | InFunction

  /** A call `Interpreter.Resolve(expr, distance)`. */
  datatype Resolution = Resolution(expr: Expr, distance: nat)

  const ReadInOwnInitializer: string := "Can't read local variable in its own initializer."
  const AlreadyDeclared: string := "Variable with this name already declared in this scope."
  const ReturnAtTopLevel: string := "Can't return from top-level code."

  /** The scope stack is a sequence whose last element is the top. */
  type Scopes = seq<map<string, bool>>

  datatype RState = RState(
    scopes: Scopes,
    current: FunctionKind,
    errors: seq<Diagnostic>,
    resolutions: seq<Resolution>,
    crashed: bool)

  const Start: RState := RState([], TopLevel, [], [], false)

  function Top(scopes: Scopes): map<string, bool>
    requires |scopes| > 0
  {
    scopes[|scopes| - 1]
  }

  /** The stack with its top scope replaced. */
  function WithTop(scopes: Scopes, top: map<string, bool>): (r: Scopes)
    requires |scopes| > 0
    ensures |r| == |scopes| && Top(r) == top
    ensures r[..|r| - 1] == scopes[..|scopes| - 1]
  {
    scopes[..|scopes| - 1] + [top]
  }

  /** `TriggerError`: report at the token's position. */
  function Report(st: RState, token: Token, message: string): RState
  {
    st.(errors := st.errors + [Diagnostic(token.line, token.column, message)])
  }

  function AfterBeginScope(st: RState): RState
  {
    st.(scopes := st.scopes + [map[]])
  }

  function AfterEndScope(st: RState): RState
    requires |st.scopes| > 0
  {
    st.(scopes := st.scopes[..|st.scopes| - 1])
  }

  /**
   * A change confined to the top scope: the logs only grow, the stack keeps
   * its depth and everything below the top, and the function kind stays.
   */
  predicate Local(st: RState, r: RState)
  {
    st.errors <= r.errors && st.resolutions <= r.resolutions &&
    |r.scopes| == |st.scopes| && r.current == st.current &&
    (|st.scopes| > 0 ==> r.scopes[..|r.scopes| - 1] == st.scopes[..|st.scopes| - 1])
  }

  /**
   * `Declare`: nothing at global level; a name already in the top scope is
   * reported and then crashes `Dictionary.Add`; otherwise it is entered as
   * not yet defined.
   */
  function AfterDeclare(st: RState, name: Token): (r: RState)
    ensures Local(st, r) && r.resolutions == st.resolutions
    ensures |st.scopes| == 0 ==> r == st
    ensures |st.scopes| > 0 && name.lexeme in Top(st.scopes) ==>
      r.crashed && r.scopes == st.scopes &&
      r.errors == st.errors + [Diagnostic(name.line, name.column, AlreadyDeclared)]
    ensures |st.scopes| > 0 && name.lexeme !in Top(st.scopes) ==>
      r.crashed == st.crashed && r.errors == st.errors &&
      Top(r.scopes) == Top(st.scopes)[name.lexeme := false]
  {
    if |st.scopes| == 0 then st
    else if name.lexeme in Top(st.scopes) then Report(st, name, AlreadyDeclared).(crashed := true)
    else st.(scopes := WithTop(st.scopes, Top(st.scopes)[name.lexeme := false]))
  }

  /** `Define`: mark the name finished in the top scope, if there is one. */
  function AfterDefine(st: RState, name: Token): (r: RState)
    ensures Local(st, r) && r.errors == st.errors && r.resolutions == st.resolutions
    ensures r.crashed == st.crashed
    ensures |st.scopes| == 0 ==> r == st
    ensures |st.scopes| > 0 ==> Top(r.scopes) == Top(st.scopes)[name.lexeme := true]
  {
    if |st.scopes| == 0 then st
    else st.(scopes := WithTop(st.scopes, Top(st.scopes)[name.lexeme := true]))
  }

  /** How many scopes down from the top the innermost declaration of `name` is. */
  function Distance(scopes: Scopes, name: string): (r: Option<nat>)
    ensures r.Some? ==> r.value < |scopes|
  {
    if |scopes| == 0 then None
    else if name in Top(scopes) then Some(0)
    else match Distance(scopes[..|scopes| - 1], name)
      case Some(d) => Some(d + 1)
      case None => None
  }

  /** `ResolveLocal`: record the distance of a local variable; globals are left alone. */
  function AfterResolveLocal(st: RState, e: Expr, name: Token): (r: RState)
    ensures r.scopes == st.scopes && r.errors == st.errors && r.crashed == st.crashed && r.current == st.current
    ensures Distance(st.scopes, name.lexeme).None? <==> r.resolutions == st.resolutions
    ensures Distance(st.scopes, name.lexeme).Some? ==>
      r.resolutions == st.resolutions + [Resolution(e, Distance(st.scopes, name.lexeme).value)]
  {
    match Distance(st.scopes, name.lexeme)
    case Some(d) => st.(resolutions := st.resolutions + [Resolution(e, d)])
    case None => st
  }

  /** A step of the pass never shrinks the logs and keeps the scope stack. */
  predicate ExprStep(st: RState, r: RState)
  {
    r.scopes == st.scopes && r.current == st.current &&
    st.errors <= r.errors && st.resolutions <= r.resolutions &&
    (st.crashed ==> r == st)
  }

  function AfterExpr(e: Expr, st: RState): (r: RState)
    ensures ExprStep(st, r)
    decreases e
  {
    if st.crashed then st
    else match e
      case AssignExpr(name, value) =>
        var s1 := AfterExpr(value, st);
        if s1.crashed then s1 else AfterResolveLocal(s1, e, name)
      case BinaryExpr(left, _, right) => AfterExpr(right, AfterExpr(left, st))
      case CallExpr(callee, _, arguments) => AfterExprs(arguments, AfterExpr(callee, st))
      case GetExpr(_, _) => st.(crashed := true)
      case GroupingExpr(inner) => AfterExpr(inner, st)
      case LiteralExpr(_) => st
      case LogicalExpr(left, _, right) => AfterExpr(right, AfterExpr(left, st))
      case SetExpr(_, _, _) => st.(crashed := true)
      case SuperExpr(_, _) => st.(crashed := true)
      case ThisExpr(_) => st.(crashed := true)
      case UnaryExpr(_, right) => AfterExpr(right, st)
      case VariableExpr(name) =>
        var s1 :=
          if |st.scopes| > 0 && name.lexeme in Top(st.scopes) && !Top(st.scopes)[name.lexeme]
          then Report(st, name, ReadInOwnInitializer) else st;
        AfterResolveLocal(s1, e, name)
  }

  function AfterExprs(es: seq<Expr>, st: RState): (r: RState)
    ensures ExprStep(st, r)
    decreases es
  {
    if |es| == 0 then st else AfterExprs(es[1..], AfterExpr(es[0], st))
  }

  /**
   * A statement leaves the stack as deep as it found it, touches only the
   * top scope, restores the function kind and never shrinks the logs.
   */
  predicate StmtStep(st: RState, r: RState)
  {
    st.errors <= r.errors && st.resolutions <= r.resolutions &&
    (st.crashed ==> r == st) &&
    (!r.crashed ==> Local(st, r))
  }

  function AfterStmt(s: Stmt, st: RState): (r: RState)
    ensures StmtStep(st, r)
    ensures s.BlockStmt? && !r.crashed ==> r.scopes == st.scopes
    decreases s
  {
    if st.crashed then st
    else match s
      case BlockStmt(_, statements) => AfterBlock(statements, st)
      case ClassStmt(_, _, _) => st.(crashed := true)
      case ExpressionStmt(expr) => AfterExpr(expr, st)
      case FunctionStmt(decl) => AfterFunctionStmt(decl, st)
      case IfStmt(condition, thenBranch, elseBranch) =>
        var s1 := AfterStmt(thenBranch, AfterExpr(condition, st));
        if elseBranch.Some? then AfterStmt(elseBranch.value, s1) else s1
      case PrintStmt(expr) => AfterExpr(expr, st)
      case ReturnStmt(keyword, value) => AfterReturn(keyword, value, st)
      case BreakStmt(_) => st
      case ContinueStmt(_) => st
      case VarStmt(name, initializer) => AfterVar(name, initializer, st)
      case WhileStmt(condition, body) => AfterStmt(body, AfterExpr(condition, st))
  }

  /** A block resolves its statements in a scope of their own. */
  function AfterBlock(statements: seq<Stmt>, st: RState): (r: RState)
    requires !st.crashed
    ensures StmtStep(st, r) && (!r.crashed ==> r.scopes == st.scopes)
    decreases statements, 1
  {
    var s1 := AfterStmts(statements, AfterBeginScope(st));
    if s1.crashed then s1 else AfterEndScope(s1)
  }

  /** A function's name is declared and defined before its body is resolved. */
  function AfterFunctionStmt(decl: FunDecl, st: RState): (r: RState)
    requires !st.crashed
    ensures StmtStep(st, r)
    decreases decl, 1
  {
    var s1 := AfterDeclare(st, decl.name);
    if s1.crashed then s1 else AfterFunction(decl, InFunction, AfterDefine(s1, decl.name))
  }

  /** `return` outside a function is reported; its value is resolved anyway. */
  function AfterReturn(keyword: Token, value: Option<Expr>, st: RState): (r: RState)
    requires !st.crashed
    ensures StmtStep(st, r)
    ensures st.current == TopLevel ==>
      |r.errors| > |st.errors| &&
      r.errors[|st.errors|] == Diagnostic(keyword.line, keyword.column, ReturnAtTopLevel)
    ensures st.current == InFunction ==>
      r == (if value.Some? then AfterExpr(value.value, st) else st)
  {
    var s1 := if st.current == TopLevel then Report(st, keyword, ReturnAtTopLevel) else st;
    if value.Some? then AfterExpr(value.value, s1) else s1
  }

  /**
   * `var`: declared (not yet usable) while its initializer is resolved,
   * defined afterwards.
   */
  function AfterVar(name: Token, initializer: Option<Expr>, st: RState): (r: RState)
    requires !st.crashed
    ensures StmtStep(st, r)
    ensures |st.scopes| == 0 ==>
      r == (if initializer.Some? then AfterExpr(initializer.value, st) else st)
    ensures |st.scopes| > 0 && name.lexeme in Top(st.scopes) ==>
      r == Report(st, name, AlreadyDeclared).(crashed := true)
    ensures |st.scopes| > 0 && name.lexeme !in Top(st.scopes) && !r.crashed ==>
      Top(r.scopes) == Top(st.scopes)[name.lexeme := true]
  {
    var s1 := AfterDeclare(st, name);
    var s2 := if initializer.Some? then AfterExpr(initializer.value, s1) else s1;
    if s2.crashed then s2 else AfterDefine(s2, name)
  }

  /** `Resolve(List<LoxStatementBase>)`: the statements in order. */
  function AfterStmts(ss: seq<Stmt>, st: RState): (r: RState)
    ensures StmtStep(st, r)
    decreases ss, 0
  {
    if |ss| == 0 then st else AfterStmts(ss[1..], AfterStmt(ss[0], st))
  }

  /** Parameters are declared and defined one after the other. */
  function AfterParams(params: seq<Token>, st: RState): (r: RState)
    ensures StmtStep(st, r)
    decreases |params|
  {
    if |params| == 0 || st.crashed then st
    else
      var s1 := AfterDeclare(st, params[0]);
      if s1.crashed then s1 else AfterParams(params[1..], AfterDefine(s1, params[0]))
  }

  /**
   * `ResolveFunction`: a new scope holding the parameters, the body
   * resolved as `kind`, then the scope and the enclosing kind restored.
   */
  function AfterFunction(decl: FunDecl, kind: FunctionKind, st: RState): (r: RState)
    ensures StmtStep(st, r) && (!r.crashed ==> r.scopes == st.scopes)
    decreases decl, 0
  {
    if st.crashed then st
    else
      var s1 := AfterParams(decl.params, AfterBeginScope(st.(current := kind)));
      var s2 := AfterStmts(decl.body, s1);
      if s2.crashed then s2 else AfterEndScope(s2).(current := st.current)
  }

  /** `Resolve(statements)` on a fresh resolver. */
  function Resolve(program: seq<Stmt>): (r: RState)
    ensures !r.crashed ==> r.scopes == [] && r.current == TopLevel
  {
    AfterStmts(program, Start)
  }

  // ---------------------------------------------------------------------
  // What the pass guarantees
  // ---------------------------------------------------------------------

  /**
   * `Distance` finds the innermost scope holding the name, counted from the
   * top, and finds nothing exactly when no scope holds it.
   */
  lemma {:induction false} DistanceIsInnermost(scopes: Scopes, name: string)
    ensures Distance(scopes, name).Some? ==>
      var d := Distance(scopes, name).value;
      name in scopes[|scopes| - 1 - d] &&
      forall k :: |scopes| - 1 - d < k < |scopes| ==> name !in scopes[k]
    ensures Distance(scopes, name).None? <==> forall k :: 0 <= k < |scopes| ==> name !in scopes[k]
  {
    if |scopes| == 0 || name in Top(scopes) {
    } else {
      var below := scopes[..|scopes| - 1];
      DistanceIsInnermost(below, name);
      assert forall k :: 0 <= k < |below| ==> below[k] == scopes[k];
    }
  }

  /** At global level (no scope open) an expression records nothing and reports nothing. */
  lemma {:induction false} GlobalExprsAreLeftAlone(e: Expr, st: RState)
    requires st.scopes == []
    ensures AfterExpr(e, st).resolutions == st.resolutions
    ensures AfterExpr(e, st).errors == st.errors
    decreases e
  {
    if !st.crashed {
      match e
      case AssignExpr(_, value) => GlobalExprsAreLeftAlone(value, st);
      case BinaryExpr(left, _, right) =>
        GlobalExprsAreLeftAlone(left, st);
        GlobalExprsAreLeftAlone(right, AfterExpr(left, st));
      case CallExpr(callee, _, arguments) =>
        GlobalExprsAreLeftAlone(callee, st);
        GlobalArgumentsAreLeftAlone(arguments, AfterExpr(callee, st));
      case GroupingExpr(inner) => GlobalExprsAreLeftAlone(inner, st);
      case LogicalExpr(left, _, right) =>
        GlobalExprsAreLeftAlone(left, st);
        GlobalExprsAreLeftAlone(right, AfterExpr(left, st));
      case UnaryExpr(_, right) => GlobalExprsAreLeftAlone(right, st);
      case _ =>
    }
  }

  lemma {:induction false} GlobalArgumentsAreLeftAlone(es: seq<Expr>, st: RState)
    requires st.scopes == []
    ensures AfterExprs(es, st).resolutions == st.resolutions
    ensures AfterExprs(es, st).errors == st.errors
    decreases es
  {
    if |es| > 0 {
      GlobalExprsAreLeftAlone(es[0], st);
      GlobalArgumentsAreLeftAlone(es[1..], AfterExpr(es[0], st));
    }
  }

  // Concrete programs, all on line 1.

  function Name(text: string, column: int): Token
  {
    Token(Identifier, text, NoLiteral, 1, column)
  }

  function Keyword(t: TokenType, text: string, column: int): Token
  {
    Token(t, text, NoLiteral, 1, column)
  }

  lemma OneStatement(s: Stmt, st: RState)
    ensures AfterStmts([s], st) == AfterStmt(s, st)
  {
    assert [s][1..] == [];
  }

  lemma TwoStatements(s: Stmt, t: Stmt, st: RState)
    ensures AfterStmts([s, t], st) == AfterStmt(t, AfterStmt(s, st))
  {
    assert [s, t][1..] == [t];
    OneStatement(t, AfterStmt(s, st));
  }

  /** Declaring then defining a fresh name in a new scope leaves it defined. */
  lemma DeclareThenDefine(st: RState, name: Token)
    requires !st.crashed && st.scopes == [map[]]
    ensures AfterDeclare(st, name) == st.(scopes := [map[name.lexeme := false]])
    ensures AfterDefine(AfterDeclare(st, name), name) == st.(scopes := [map[name.lexeme := true]])
  {
    assert map[name.lexeme := false][name.lexeme := true] == map[name.lexeme := true];
  }

  /**
   * Reading a name that the top scope maps to false (declared, initializer
   * not finished) is reported, and still resolved to the top scope.
   */
  lemma UnfinishedReadIsReported(st: RState, use: Token)
    requires !st.crashed && |st.scopes| > 0
    requires use.lexeme in Top(st.scopes) && !Top(st.scopes)[use.lexeme]
    ensures AfterExpr(VariableExpr(use), st) ==
      Report(st, use, ReadInOwnInitializer).(resolutions := st.resolutions + [Resolution(VariableExpr(use), 0)])
  {
    assert Distance(st.scopes, use.lexeme) == Some(0);
  }

  /**
   * In any scope that does not hold `a` yet, `var a = a;` resolves its
   * initializer while `a` is mapped to false: the use is reported and
   * resolved to the top scope, and `a` ends up mapped to true.
   */
  lemma SelfInitializerStep(st: RState, a: Token, use: Token)
    requires !st.crashed && |st.scopes| > 0 && a.lexeme !in Top(st.scopes)
    requires a.lexeme == use.lexeme
    ensures AfterStmt(VarStmt(a, Some(VariableExpr(use))), st) ==
      st.(scopes := WithTop(st.scopes, Top(st.scopes)[a.lexeme := true]),
          errors := st.errors + [Diagnostic(use.line, use.column, ReadInOwnInitializer)],
          resolutions := st.resolutions + [Resolution(VariableExpr(use), 0)])
  {
    var declared := AfterDeclare(st, a);
    UnfinishedReadIsReported(declared, use);
    var used := AfterExpr(VariableExpr(use), declared);
    var defined := AfterDefine(used, a);
    assert Top(declared.scopes)[a.lexeme := true] == Top(st.scopes)[a.lexeme := true];
    assert defined.scopes == WithTop(st.scopes, Top(st.scopes)[a.lexeme := true]);
  }

  /**
   * `{ var a = a; }`: the initializer's `a` is reported, and still
   * resolved to the block's own scope.
   */
  lemma OwnInitializerIsReported()
    ensures var use := VariableExpr(Name("a", 11));
      var program := [BlockStmt(Keyword(LeftBrace, "{", 1), [VarStmt(Name("a", 7), Some(use))])];
      var r := Resolve(program);
      !r.crashed && r.errors == [Diagnostic(1, 11, ReadInOwnInitializer)] &&
      r.resolutions == [Resolution(use, 0)] && r.scopes == []
  {
    var declaration := VarStmt(Name("a", 7), Some(VariableExpr(Name("a", 11))));
    var block := BlockStmt(Keyword(LeftBrace, "{", 1), [declaration]);
    SelfInitializerStep(AfterBeginScope(Start), Name("a", 7), Name("a", 11));
    OneStatement(declaration, AfterBeginScope(Start));
    OneStatement(block, Start);
  }

  /** `{ var a; var a; }`: the second declaration is reported, then crashes. */
  lemma RedeclarationCrashes()
    ensures var program := [BlockStmt(Keyword(LeftBrace, "{", 1),
                                      [VarStmt(Name("a", 7), None), VarStmt(Name("a", 14), None)])];
      var r := Resolve(program);
      r.crashed && r.errors == [Diagnostic(1, 14, AlreadyDeclared)]
  {
    var first, second := VarStmt(Name("a", 7), None), VarStmt(Name("a", 14), None);
    var block := BlockStmt(Keyword(LeftBrace, "{", 1), [first, second]);
    var inner := AfterBeginScope(Start);
    DeclareThenDefine(inner, Name("a", 7));
    var once := AfterStmt(first, inner);
    assert once == inner.(scopes := [map["a" := true]]);
    var twice := AfterStmt(second, once);
    assert twice == Report(once, Name("a", 14), AlreadyDeclared).(crashed := true);
    TwoStatements(first, second, inner);
    OneStatement(block, Start);
  }

  /** The names a list of parameters spells. */
  function Lexemes(params: seq<Token>): set<string>
  {
    set i | 0 <= i < |params| :: params[i].lexeme
  }

  lemma LexemesCons(params: seq<Token>)
    requires |params| > 0
    ensures Lexemes(params) == {params[0].lexeme} + Lexemes(params[1..])
  {
    var rest := params[1..];
    forall k | k in Lexemes(params) ensures k in {params[0].lexeme} + Lexemes(rest) {
      var i :| 0 <= i < |params| && params[i].lexeme == k;
      if i > 0 {
        assert rest[i - 1] == params[i];
      }
    }
    forall k | k in Lexemes(rest) ensures k in Lexemes(params) {
      var i :| 0 <= i < |rest| && rest[i].lexeme == k;
      assert params[i + 1] == rest[i];
    }
  }

  /**
   * The first parameter whose name is already `taken` or spelled by an
   * earlier parameter, if any.
   */
  function FirstClash(params: seq<Token>, taken: set<string>): (r: Option<nat>)
    ensures r.Some? ==> r.value < |params|
    ensures r.Some? ==>
      params[r.value].lexeme in taken || exists j :: 0 <= j < r.value && params[j].lexeme == params[r.value].lexeme
    ensures forall i :: 0 <= i < (if r.Some? then r.value else |params|) ==>
      params[i].lexeme !in taken && forall j :: 0 <= j < i ==> params[j].lexeme != params[i].lexeme
    decreases |params|
  {
    if |params| == 0 then None
    else if params[0].lexeme in taken then Some(0)
    else match FirstClash(params[1..], taken + {params[0].lexeme})
      case Some(i) =>
        assert params[i + 1] == params[1..][i];
        Some(i + 1)
      case None => None
  }

  /** One round of the parameter loop on a name the top scope does not hold. */
  lemma ParamStep(params: seq<Token>, st: RState)
    requires !st.crashed && |st.scopes| > 0 && |params| > 0 && params[0].lexeme !in Top(st.scopes)
    ensures var next := AfterDefine(AfterDeclare(st, params[0]), params[0]);
      AfterParams(params, st) == AfterParams(params[1..], next) &&
      !next.crashed && next.errors == st.errors && next.resolutions == st.resolutions &&
      |next.scopes| == |st.scopes| &&
      Top(next.scopes) == Top(st.scopes)[params[0].lexeme := true] &&
      Top(next.scopes).Keys == Top(st.scopes).Keys + {params[0].lexeme}
  {
    var p := params[0];
    var declared := AfterDeclare(st, p);
    assert !declared.crashed && declared.errors == st.errors;
    var next := AfterDefine(declared, p);
    assert Top(next.scopes) == Top(st.scopes)[p.lexeme := false][p.lexeme := true];
    assert Top(st.scopes)[p.lexeme := false][p.lexeme := true] == Top(st.scopes)[p.lexeme := true];
  }

  /**
   * The parameter loop of `ResolveFunction`, from any state with a scope,
   * when no parameter clashes: every parameter ends up mapped to true in
   * the top scope, the names already there keep their marks, and nothing
   * is reported.
   */
  lemma {:induction false} ParamsAreDeclared(params: seq<Token>, st: RState)
    requires !st.crashed && |st.scopes| > 0
    requires FirstClash(params, Top(st.scopes).Keys).None?
    ensures var r := AfterParams(params, st);
      !r.crashed && r.errors == st.errors && r.resolutions == st.resolutions && |r.scopes| == |st.scopes|
    ensures Top(AfterParams(params, st).scopes).Keys == Top(st.scopes).Keys + Lexemes(params)
    ensures forall i :: 0 <= i < |params| ==> Top(AfterParams(params, st).scopes)[params[i].lexeme]
    ensures forall k :: k in Top(st.scopes) ==> Top(AfterParams(params, st).scopes)[k] == Top(st.scopes)[k]
    decreases |params|
  {
    if |params| > 0 {
      var p, rest := params[0], params[1..];
      var next := AfterDefine(AfterDeclare(st, p), p);
      ParamStep(params, st);
      var before, middle := Top(st.scopes), Top(next.scopes);
      assert FirstClash(rest, middle.Keys).None?;
      ParamsAreDeclared(rest, next);
      var r := AfterParams(rest, next);
      var after := Top(r.scopes);
      LexemesCons(params);
      assert after.Keys == before.Keys + Lexemes(params);
      forall k | k in before ensures after[k] == before[k] {
        assert k != p.lexeme && middle[k] == before[k];
      }
      forall i | 0 <= i < |params| ensures after[params[i].lexeme] {
        if i > 0 {
          assert params[i] == rest[i - 1];
        } else {
          assert p.lexeme in middle && middle[p.lexeme];
        }
      }
    }
  }

  /**
   * The parameter loop stops at the first clashing parameter: it is
   * reported as already declared, and nothing else is.
   */
  lemma {:induction false} ParamClashIsReported(params: seq<Token>, st: RState)
    requires !st.crashed && |st.scopes| > 0
    requires FirstClash(params, Top(st.scopes).Keys).Some?
    ensures var c := FirstClash(params, Top(st.scopes).Keys).value;
      var r := AfterParams(params, st);
      r.crashed && r.errors == st.errors + [Diagnostic(params[c].line, params[c].column, AlreadyDeclared)]
    decreases |params|
  {
    if params[0].lexeme !in Top(st.scopes) {
      var p := params[0];
      ParamStep(params, st);
      ParamClashIsReported(params[1..], AfterDefine(AfterDeclare(st, p), p));
    }
  }

  /** `return;` outside any function is reported. */
  lemma TopLevelReturnIsReported()
    ensures var r := Resolve([ReturnStmt(Keyword(Return, "return", 1), None)]);
      !r.crashed && r.errors == [Diagnostic(1, 1, ReturnAtTopLevel)]
  {
    OneStatement(ReturnStmt(Keyword(Return, "return", 1), None), Start);
  }

  /** One parameter is declared and defined in the function's fresh scope. */
  lemma OneParameter(x: Token)
    ensures var scoped := AfterBeginScope(Start.(current := InFunction));
      AfterParams([x], scoped) == scoped.(scopes := [map[x.lexeme := true]])
  {
    var scoped := AfterBeginScope(Start.(current := InFunction));
    DeclareThenDefine(scoped, x);
    assert [x][1..] == [];
  }

  /** Inside a function, `return x;` with `x` defined in the top scope resolves `x` to it. */
  lemma ReturnOfParameter(keyword: Token, use: Token)
    ensures var withParam := RState([map[use.lexeme := true]], InFunction, [], [], false);
      AfterStmts([ReturnStmt(keyword, Some(VariableExpr(use)))], withParam) ==
        withParam.(resolutions := [Resolution(VariableExpr(use), 0)])
  {
    var withParam := RState([map[use.lexeme := true]], InFunction, [], [], false);
    assert Distance(withParam.scopes, use.lexeme) == Some(0);
    var ret := ReturnStmt(keyword, Some(VariableExpr(use)));
    assert AfterStmt(ret, withParam) == AfterExpr(VariableExpr(use), withParam);
    OneStatement(ret, withParam);
  }

  /** `fun f(x) { return x; }`: the parameter is found in the function's own scope. */
  lemma ParameterResolvesInFunctionScope()
    ensures var use := VariableExpr(Name("x", 25));
      var decl := FunDecl(Name("f", 5), [Name("x", 7)], [ReturnStmt(Keyword(Return, "return", 18), Some(use))]);
      var r := Resolve([FunctionStmt(decl)]);
      !r.crashed && r.errors == [] && r.resolutions == [Resolution(use, 0)] && r.current == TopLevel
  {
    var x, f := Name("x", 7), Name("f", 5);
    var use := VariableExpr(Name("x", 25));
    var decl := FunDecl(f, [x], [ReturnStmt(Keyword(Return, "return", 18), Some(use))]);
    var scoped := AfterBeginScope(Start.(current := InFunction));
    OneParameter(x);
    var withParam := AfterParams(decl.params, scoped);
    assert withParam == RState([map["x" := true]], InFunction, [], [], false);
    ReturnOfParameter(Keyword(Return, "return", 18), Name("x", 25));
    var resolved := AfterStmts(decl.body, withParam);
    assert resolved == RState([map["x" := true]], InFunction, [], [Resolution(use, 0)], false);
    assert AfterFunction(decl, InFunction, Start) == AfterEndScope(resolved).(current := TopLevel);
    assert AfterStmt(FunctionStmt(decl), Start) == AfterFunction(decl, InFunction, Start);
    OneStatement(FunctionStmt(decl), Start);
  }

  // ---------------------------------------------------------------------
  // The resolver object
  // ---------------------------------------------------------------------

  class Resolver {
    /** The scope stack; the last element is the top (`_scopes.Peek()`). */
    var scopes: Scopes
    var current: FunctionKind
    /** Every invocation of the `Error` event, in order. */
    var errors: seq<Diagnostic>
    /** Every call to `Interpreter.Resolve`, in order. */
    var resolutions: seq<Resolution>
    /** An exception escaped: the pass stopped at that point. */
    var crashed: bool

    function State(): RState
      reads this
    {
      RState(scopes, current, errors, resolutions, crashed)
    }

    constructor ()
      ensures State() == Start
    {
      scopes := [];
      current := TopLevel;
      errors := [];
      resolutions := [];
      crashed := false;
    }

    method TriggerError(token: Token, message: string)
      modifies this`errors
      ensures State() == Report(old(State()), token, message)
    {
      errors := errors + [Diagnostic(token.line, token.column, message)];
    }

    method BeginScope()
      modifies this`scopes
      ensures State() == AfterBeginScope(old(State()))
    {
      scopes := scopes + [map[]];
    }

    method EndScope()
      requires |scopes| > 0
      modifies this`scopes
      ensures State() == AfterEndScope(old(State()))
    {
      scopes := scopes[..|scopes| - 1];
    }

    method Declare(name: Token)
      modifies this
      ensures State() == AfterDeclare(old(State()), name)
    {
      if |scopes| == 0 {
        return;
      }
      var scope := Top(scopes);
      if name.lexeme in scope {
        TriggerError(name, AlreadyDeclared);
        crashed := true;
        return;
      }
      scopes := WithTop(scopes, scope[name.lexeme := false]);
    }

    method Define(name: Token)
      modifies this`scopes
      ensures State() == AfterDefine(old(State()), name)
    {
      if |scopes| == 0 {
        return;
      }
      scopes := WithTop(scopes, Top(scopes)[name.lexeme := true]);
    }

    /** Walk the stack from the top, counting the scopes passed. */
    method ResolveLocal(e: Expr, name: Token)
      modifies this`resolutions
      ensures State() == AfterResolveLocal(old(State()), e, name)
    {
      var distance := 0;
      var k := |scopes|;
      assert scopes[..k] == scopes;
      while k > 0
        invariant 0 <= k <= |scopes| && distance == |scopes| - k
        invariant resolutions == old(resolutions)
        invariant Distance(scopes, name.lexeme) ==
          match Distance(scopes[..k], name.lexeme)
          case Some(d) => Some(d + distance)
          case None => None
      {
        if name.lexeme in scopes[k - 1] {
          resolutions := resolutions + [Resolution(e, distance)];
          return;
        }
        assert scopes[..k][..k - 1] == scopes[..k - 1];
        distance := distance + 1;
        k := k - 1;
      }
    }

    method ResolveExpr(e: Expr)
      modifies this
      ensures State() == AfterExpr(e, old(State()))
      decreases e
    {
      if crashed {
        return;
      }
      match e
      case AssignExpr(name, value) =>
        ResolveExpr(value);
        if !crashed {
          ResolveLocal(e, name);
        }
      case BinaryExpr(left, _, right) =>
        ResolveExpr(left);
        ResolveExpr(right);
      case CallExpr(callee, _, arguments) =>
        ResolveExpr(callee);
        ResolveExprs(arguments);
      case GetExpr(_, _) => crashed := true;
      case GroupingExpr(inner) => ResolveExpr(inner);
      case LiteralExpr(_) =>
      case LogicalExpr(left, _, right) =>
        ResolveExpr(left);
        ResolveExpr(right);
      case SetExpr(_, _, _) => crashed := true;
      case SuperExpr(_, _) => crashed := true;
      case ThisExpr(_) => crashed := true;
      case UnaryExpr(_, right) => ResolveExpr(right);
      case VariableExpr(name) =>
        if |scopes| > 0 && name.lexeme in Top(scopes) && !Top(scopes)[name.lexeme] {
          TriggerError(name, ReadInOwnInitializer);
        }
        ResolveLocal(e, name);
    }

    /** `Arguments.ForEach(Resolve)`. */
    method ResolveExprs(es: seq<Expr>)
      modifies this
      ensures State() == AfterExprs(es, old(State()))
      decreases es
    {
      var k := 0;
      while k < |es|
        invariant 0 <= k <= |es|
        invariant AfterExprs(es[k..], State()) == AfterExprs(es, old(State()))
      {
        assert es[k..][1..] == es[k + 1..];
        ResolveExpr(es[k]);
        k := k + 1;
      }
    }

    method ResolveStmt(s: Stmt)
      modifies this
      ensures State() == AfterStmt(s, old(State()))
      decreases s
    {
      if crashed {
        return;
      }
      match s
      case BlockStmt(_, statements) => ResolveBlock(statements);
      case ClassStmt(_, _, _) => crashed := true;
      case ExpressionStmt(expr) => ResolveExpr(expr);
      case FunctionStmt(decl) =>
        Declare(decl.name);
        if !crashed {
          Define(decl.name);
          ResolveFunction(decl, InFunction);
        }
      case IfStmt(condition, thenBranch, elseBranch) =>
        ResolveExpr(condition);
        ResolveStmt(thenBranch);
        if elseBranch.Some? {
          ResolveStmt(elseBranch.value);
        }
      case PrintStmt(expr) => ResolveExpr(expr);
      case ReturnStmt(keyword, value) =>
        if current == TopLevel {
          TriggerError(keyword, ReturnAtTopLevel);
        }
        if value.Some? {
          ResolveExpr(value.value);
        }
      case BreakStmt(_) =>
      case ContinueStmt(_) =>
      case VarStmt(name, initializer) =>
        Declare(name);
        if initializer.Some? {
          ResolveExpr(initializer.value);
        }
        if !crashed {
          Define(name);
        }
      case WhileStmt(condition, body) =>
        ResolveExpr(condition);
        ResolveStmt(body);
    }

    method ResolveBlock(statements: seq<Stmt>)
      requires !crashed
      modifies this
      ensures State() == AfterBlock(statements, old(State()))
      decreases statements, 1
    {
      BeginScope();
      ResolveStmts(statements);
      if !crashed {
        EndScope();
      }
    }

    /** `Resolve(List<LoxStatementBase>)`: `statements.ForEach(Resolve)`. */
    method ResolveStmts(ss: seq<Stmt>)
      modifies this
      ensures State() == AfterStmts(ss, old(State()))
      decreases ss, 0
    {
      var k := 0;
      while k < |ss|
        invariant 0 <= k <= |ss|
        invariant AfterStmts(ss[k..], State()) == AfterStmts(ss, old(State()))
      {
        assert ss[k..][1..] == ss[k + 1..];
        ResolveStmt(ss[k]);
        k := k + 1;
      }
    }

    method ResolveFunction(decl: FunDecl, kind: FunctionKind)
      modifies this
      ensures State() == AfterFunction(decl, kind, old(State()))
      decreases decl, 0
    {
      if crashed {
        return;
      }
      var enclosing := current;
      current := kind;
      BeginScope();
      DeclareParams(decl.params);
      ResolveStmts(decl.body);
      if !crashed {
        EndScope();
        current := enclosing;
      }
    }

    /** The `foreach` over the parameters: each is declared, then defined. */
    method DeclareParams(params: seq<Token>)
      modifies this
      ensures State() == AfterParams(params, old(State()))
    {
      var k := 0;
      while k < |params|
        invariant 0 <= k <= |params|
        invariant AfterParams(params[k..], State()) == AfterParams(params, old(State()))
      {
        if crashed {
          return;
        }
        assert params[k..][1..] == params[k + 1..];
        Declare(params[k]);
        if crashed {
          return;
        }
        Define(params[k]);
        k := k + 1;
      }
    }
  }
}
