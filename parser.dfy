/**
 * Parsing: the recursive-descent expression parser of `src/LoxParser.cs`.
 *
 * The grammar is first written as pure functions over a token list and a
 * cursor (`Expression`, `Binary`, `Continue`, `Operand`, `Unary`, `Primary`);
 * the class `Parser` then does the same work by moving its cursor, and each
 * of its methods is proved to agree with the function of the same rule.
 * What the grammar guarantees (the tree spells exactly the tokens it
 * consumed, precedence and left associativity, where errors are reported)
 * is proved about the functions.
 */
module Parsing {
  import opened Wrappers
  import opened Tokens
  import opened Ast

  /** A token list as the scanner produces it: never empty, EOF last. */
  predicate Terminated(ts: seq<Token>)
  {
    |ts| > 0 && ts[|ts| - 1].tokenType == Eof
  }

  predicate AtEnd(ts: seq<Token>, i: nat)
    requires i < |ts|
  {
    ts[i].tokenType == Eof
  }

  /** `check`: the token under the cursor has type `t`; never true at EOF. */
  predicate CheckAt(ts: seq<Token>, i: nat, t: TokenType)
    requires i < |ts|
  {
    !AtEnd(ts, i) && ts[i].tokenType == t
  }

  /** `match`: the token under the cursor has one of `types`. */
  predicate MatchAt(ts: seq<Token>, i: nat, types: seq<TokenType>)
    requires i < |ts|
  {
    !AtEnd(ts, i) && ts[i].tokenType in types
  }

  /**
   * The operators of the four binary levels, loosest first: equality,
   * comparison, term and factor.
   */
  function Operators(level: nat): seq<TokenType>
    requires level < 4
  {
    if level == 0 then [BangEqual, EqualEqual]
    else if level == 1 then [Greater, GreaterEqual, Less, LessEqual]
    else if level == 2 then [Minus, Plus]
    else [Slash, Star]
  }

  const UnaryOperators: seq<TokenType> := [Bang, Minus]
  const PlainLiterals: seq<TokenType> := [Number, String, Nil]

  const ExpectExpression: string := "Expect expression."
  const ExpectRightParen: string := "Expect ')' after expression."

  /** A token that can begin a primary expression. */
  predicate StartsPrimary(t: TokenType)
  {
    t in [False, True, Number, String, Nil, LeftParen]
  }

  /** A token that can begin an expression. */
  predicate StartsExpression(t: TokenType)
  {
    StartsPrimary(t) || t in UnaryOperators
  }

  /**
   * The result of one grammar rule started at some cursor: a tree and the
   * cursor after it; a "Expect expression." report at a token (the parse
   * error exception); or the plain exception `consume` throws.
   */
  datatype Parsed =
    | Parsed(e: Expr, next: nat)
    | Reported(at: nat)
    | Thrown(message: string)

  /**
   * What `primary` guarantees: it moves forward and stays before EOF, and a
   * report names a token no primary expression begins with.
   */
  predicate Moves(ts: seq<Token>, i: nat, r: Parsed)
  {
    (r.Parsed? ==> i < r.next < |ts|) &&
    (r.Reported? ==> i <= r.at < |ts| && !StartsPrimary(ts[r.at].tokenType)) &&
    (r.Thrown? ==> r.message == ExpectRightParen)
  }

  /** What every other rule guarantees: a report names a token no expression begins with. */
  predicate Progress(ts: seq<Token>, i: nat, r: Parsed)
  {
    Moves(ts, i, r) && (r.Reported? ==> !StartsExpression(ts[r.at].tokenType))
  }

  /** `expression`: an equality. */
  function ExpressionAt(ts: seq<Token>, i: nat): (r: Parsed)
    requires Terminated(ts) && i < |ts|
    ensures Progress(ts, i, r)
    decreases |ts| - i, 20
  {
    BinaryAt(ts, 0, i)
  }

  /** `equality`, `comparison`, `term` and `factor`: an operand, then a loop. */
  function BinaryAt(ts: seq<Token>, level: nat, i: nat): (r: Parsed)
    requires Terminated(ts) && i < |ts| && level < 4
    ensures Progress(ts, i, r)
    decreases |ts| - i, 10 - 2 * level
  {
    match OperandAt(ts, level, i)
    case Parsed(left, j) => ContinueAt(ts, level, left, j)
    case other => other
  }

  /** The operand of a binary level: the next level, or `unary` below factor. */
  function OperandAt(ts: seq<Token>, level: nat, i: nat): (r: Parsed)
    requires Terminated(ts) && i < |ts| && level < 4
    ensures Progress(ts, i, r)
    decreases |ts| - i, 9 - 2 * level
  {
    if level == 3 then UnaryAt(ts, i) else BinaryAt(ts, level + 1, i)
  }

  /**
   * The `while (match(...))` loop of a binary level: `left` is the tree so
   * far; each matched operator folds the next operand in on the right.
   */
  function ContinueAt(ts: seq<Token>, level: nat, left: Expr, i: nat): (r: Parsed)
    requires Terminated(ts) && i < |ts| && level < 4
    ensures r.Parsed? ==> i <= r.next < |ts|
    ensures r.Reported? ==> i <= r.at < |ts| && !StartsExpression(ts[r.at].tokenType)
    ensures r.Thrown? ==> r.message == ExpectRightParen
    decreases |ts| - i, 0
  {
    if MatchAt(ts, i, Operators(level)) then
      match OperandAt(ts, level, i + 1)
      case Parsed(right, j) => ContinueAt(ts, level, BinaryExpr(left, ts[i], right), j)
      case other => other
    else
      Parsed(left, i)
  }

  /** `unary`: prefix `!` and `-` nest to the right. */
  function UnaryAt(ts: seq<Token>, i: nat): (r: Parsed)
    requires Terminated(ts) && i < |ts|
    ensures Progress(ts, i, r)
    decreases |ts| - i, 2
  {
    if MatchAt(ts, i, UnaryOperators) then
      match UnaryAt(ts, i + 1)
      case Parsed(right, j) => Parsed(UnaryExpr(ts[i], right), j)
      case other => other
    else
      PrimaryAt(ts, i)
  }

  /**
   * `primary`: `false` and `true` get a boolean literal attached, numbers,
   * strings and `nil` are kept as scanned, `(` needs a closing `)`, and any
   * other token is reported.
   */
  function PrimaryAt(ts: seq<Token>, i: nat): (r: Parsed)
    requires Terminated(ts) && i < |ts|
    ensures Moves(ts, i, r)
    ensures r.Reported? ==> r.at == i || !StartsExpression(ts[r.at].tokenType)
    decreases |ts| - i, 1
  {
    if MatchAt(ts, i, [False]) then
      Parsed(LiteralExpr(WithLiteral(ts[i], BoolLit(false))), i + 1)
    else if MatchAt(ts, i, [True]) then
      Parsed(LiteralExpr(WithLiteral(ts[i], BoolLit(true))), i + 1)
    else if MatchAt(ts, i, PlainLiterals) then
      Parsed(LiteralExpr(ts[i]), i + 1)
    else if MatchAt(ts, i, [LeftParen]) then
      match ExpressionAt(ts, i + 1)
      case Parsed(inner, j) =>
        if CheckAt(ts, j, RightParen) then Parsed(GroupingExpr(inner), j + 1)
        else Thrown(ExpectRightParen)
      case other => other
    else
      Reported(i)
  }

  /** A message raised through the parser's `Error` event. */
  datatype Report = Report(token: Token, message: string)

  /** What `Parse` returns: a tree, `null` after a report, or a crash. */
  datatype ParseOutcome = Tree(e: Expr) | NoTree | Crash(message: string)

  function OutcomeOf(p: Parsed): ParseOutcome
  {
    match p
    case Parsed(e, _) => Tree(e)
    case Reported(_) => NoTree
    case Thrown(m) => Crash(m)
  }

  /** The reports a rule's result raised: one for a parse error, else none. */
  function ReportsOf(ts: seq<Token>, p: Parsed): seq<Report>
  {
    if p.Reported? && p.at < |ts| then [Report(ts[p.at], ExpectExpression)] else []
  }

  /** `Parse` on a fresh parser. */
  function Parse(ts: seq<Token>): (r: ParseOutcome)
    requires Terminated(ts)
    ensures r.Crash? ==> r.message == ExpectRightParen
    ensures r.NoTree? <==> |ParseReports(ts)| == 1
  {
    OutcomeOf(ExpressionAt(ts, 0))
  }

  function ParseReports(ts: seq<Token>): (r: seq<Report>)
    requires Terminated(ts)
    ensures |r| <= 1
    ensures forall k :: 0 <= k < |r| ==>
      r[k].message == ExpectExpression && !StartsExpression(r[k].token.tokenType)
  {
    ReportsOf(ts, ExpressionAt(ts, 0))
  }

  // ---------------------------------------------------------------------
  // What the grammar guarantees
  // ---------------------------------------------------------------------

  /** The token types a tree is written with, in source order. */
  function Spelling(e: Expr): seq<TokenType>
    decreases e
  {
    match e
    case AssignExpr(name, value) => [name.tokenType, Equal] + Spelling(value)
    case BinaryExpr(left, operator, right) => Spelling(left) + [operator.tokenType] + Spelling(right)
    case CallExpr(callee, paren, arguments) =>
      Spelling(callee) + [LeftParen] + ArgumentsSpelling(arguments) + [paren.tokenType]
    case GetExpr(obj, name) => Spelling(obj) + [Dot, name.tokenType]
    case GroupingExpr(inner) => [LeftParen] + Spelling(inner) + [RightParen]
    case LiteralExpr(token) => [token.tokenType]
    case LogicalExpr(left, operator, right) => Spelling(left) + [operator.tokenType] + Spelling(right)
    case SetExpr(obj, name, value) => Spelling(obj) + [Dot, name.tokenType, Equal] + Spelling(value)
    case SuperExpr(keyword, methodName) => [keyword.tokenType, Dot, methodName.tokenType]
    case ThisExpr(keyword) => [keyword.tokenType]
    case UnaryExpr(operator, right) => [operator.tokenType] + Spelling(right)
    case VariableExpr(name) => [name.tokenType]
  }

  /** Call arguments, separated by commas. */
  function ArgumentsSpelling(arguments: seq<Expr>): seq<TokenType>
    decreases arguments
  {
    if |arguments| == 0 then []
    else if |arguments| == 1 then Spelling(arguments[0])
    else Spelling(arguments[0]) + [Comma] + ArgumentsSpelling(arguments[1..])
  }

  function TypesOf(ts: seq<Token>): (r: seq<TokenType>)
    ensures |r| == |ts|
    ensures forall k :: 0 <= k < |ts| ==> r[k] == ts[k].tokenType
  {
    seq(|ts|, k requires 0 <= k < |ts| => ts[k].tokenType)
  }

  lemma TypesOfSplit(ts: seq<Token>, i: nat, j: nat, k: nat)
    requires i <= j <= k <= |ts|
    ensures TypesOf(ts[i..k]) == TypesOf(ts[i..j]) + TypesOf(ts[j..k])
  {
    var whole, front, back := ts[i..k], ts[i..j], ts[j..k];
    assert forall n :: 0 <= n < |whole| ==>
      TypesOf(whole)[n] == (TypesOf(front) + TypesOf(back))[n] by {
      forall n | 0 <= n < |whole|
        ensures TypesOf(whole)[n] == (TypesOf(front) + TypesOf(back))[n]
      {
        if n < |front| {
          assert whole[n] == front[n];
        } else {
          assert whole[n] == back[n - |front|];
        }
      }
    }
  }

  /** The binary level an operator belongs to, if it is a binary operator. */
  function Precedence(t: TokenType): (r: Option<nat>)
    ensures r.Some? ==> r.value < 4 && t in Operators(r.value)
  {
    match t
    case BangEqual => Some(0)
    case EqualEqual => Some(0)
    case Greater => Some(1)
    case GreaterEqual => Some(1)
    case Less => Some(1)
    case LessEqual => Some(1)
    case Minus => Some(2)
    case Plus => Some(2)
    case Slash => Some(3)
    case Star => Some(3)
    case _ => None
  }

  lemma OperatorPrecedence(t: TokenType, level: nat)
    requires level < 4 && t in Operators(level)
    ensures Precedence(t) == Some(level)
  {
  }

  /**
   * The trees the grammar builds at `level` (0 equality ... 3 factor, 4 for
   * a unary operand): a binary node binds at least as tightly as `level`,
   * its left operand at its own level (so equal operators lean left) and
   * its right operand strictly tighter; a parenthesised group starts over at
   * the loosest level; `true` and `false` carry their boolean value.
   */
  predicate Canonical(e: Expr, level: nat)
    decreases e
  {
    match e
    case BinaryExpr(left, operator, right) =>
      var p := Precedence(operator.tokenType);
      p.Some? && level <= p.value && Canonical(left, p.value) && Canonical(right, p.value + 1)
    case UnaryExpr(operator, right) =>
      operator.tokenType in UnaryOperators && Canonical(right, 4)
    case GroupingExpr(inner) => Canonical(inner, 0)
    case LiteralExpr(token) =>
      token.tokenType in [False, True, Number, String, Nil] &&
      (token.tokenType == False ==> token.literal == BoolLit(false)) &&
      (token.tokenType == True ==> token.literal == BoolLit(true))
    case _ => false
  }

  lemma CanonicalWeakens(e: Expr, level: nat, lower: nat)
    requires lower <= level && Canonical(e, level)
    ensures Canonical(e, lower)
  {
  }

  /** A successful rule spells the tokens it consumed and builds a canonical tree. */
  predicate Sound(ts: seq<Token>, i: nat, level: nat, r: Parsed)
  {
    r.Parsed? ==>
      i <= r.next <= |ts| && Spelling(r.e) == TypesOf(ts[i..r.next]) && Canonical(r.e, level)
  }

  lemma ExpressionSound(ts: seq<Token>, i: nat)
    requires Terminated(ts) && i < |ts|
    ensures Sound(ts, i, 0, ExpressionAt(ts, i))
    decreases |ts| - i, 20
  {
    BinarySound(ts, 0, i);
  }

  lemma BinarySound(ts: seq<Token>, level: nat, i: nat)
    requires Terminated(ts) && i < |ts| && level < 4
    ensures Sound(ts, i, level, BinaryAt(ts, level, i))
    decreases |ts| - i, 10 - 2 * level
  {
    OperandSound(ts, level, i);
    match OperandAt(ts, level, i)
    case Parsed(left, j) =>
      CanonicalWeakens(left, level + 1, level);
      ContinueSound(ts, level, left, j);
      var r := ContinueAt(ts, level, left, j);
      if r.Parsed? {
        TypesOfSplit(ts, i, j, r.next);
      }
    case _ =>
  }

  lemma OperandSound(ts: seq<Token>, level: nat, i: nat)
    requires Terminated(ts) && i < |ts| && level < 4
    ensures Sound(ts, i, level + 1, OperandAt(ts, level, i))
    decreases |ts| - i, 9 - 2 * level
  {
    if level == 3 {
      UnarySound(ts, i);
    } else {
      BinarySound(ts, level + 1, i);
    }
  }

  lemma ContinueSound(ts: seq<Token>, level: nat, left: Expr, i: nat)
    requires Terminated(ts) && i < |ts| && level < 4 && Canonical(left, level)
    ensures var r := ContinueAt(ts, level, left, i);
      r.Parsed? ==> (i <= r.next <= |ts| && Canonical(r.e, level) &&
        Spelling(r.e) == Spelling(left) + TypesOf(ts[i..r.next]))
    decreases |ts| - i, 0
  {
    if MatchAt(ts, i, Operators(level)) {
      OperandSound(ts, level, i + 1);
      var operand := OperandAt(ts, level, i + 1);
      if operand.Parsed? {
        var right, j := operand.e, operand.next;
        OperatorPrecedence(ts[i].tokenType, level);
        var folded := BinaryExpr(left, ts[i], right);
        FoldSpelling(ts, left, right, i, j);
        ContinueSound(ts, level, folded, j);
        var r := ContinueAt(ts, level, folded, j);
        assert ContinueAt(ts, level, left, i) == r;
        if r.Parsed? {
          ExtendSpelling(ts, Spelling(left), Spelling(folded), Spelling(r.e), i, j, r.next);
        }
      }
    } else {
      assert ts[i..i] == [];
    }
  }

  lemma FoldSpelling(ts: seq<Token>, left: Expr, right: Expr, i: nat, j: nat)
    requires i < j <= |ts| && Spelling(right) == TypesOf(ts[i + 1..j])
    ensures Spelling(BinaryExpr(left, ts[i], right)) == Spelling(left) + TypesOf(ts[i..j])
  {
    TypesOfSplit(ts, i, i + 1, j);
    TypesOfOne(ts, i);
    var l, op, r := Spelling(left), [ts[i].tokenType], Spelling(right);
    assert TypesOf(ts[i..j]) == op + r;
    assert Spelling(BinaryExpr(left, ts[i], right)) == l + op + r;
    Associative(l, op, r);
  }

  lemma Associative<T>(a: seq<T>, b: seq<T>, c: seq<T>)
    ensures a + b + c == a + (b + c)
  {
  }

  lemma TypesOfOne(ts: seq<Token>, i: nat)
    requires i < |ts|
    ensures TypesOf(ts[i..i + 1]) == [ts[i].tokenType]
  {
    assert ts[i..i + 1][0] == ts[i];
  }

  lemma ExtendSpelling(ts: seq<Token>, prefix: seq<TokenType>, middle: seq<TokenType>,
                       whole: seq<TokenType>, i: nat, j: nat, k: nat)
    requires i <= j <= k <= |ts|
    requires middle == prefix + TypesOf(ts[i..j]) && whole == middle + TypesOf(ts[j..k])
    ensures whole == prefix + TypesOf(ts[i..k])
  {
    TypesOfSplit(ts, i, j, k);
    assert prefix + TypesOf(ts[i..j]) + TypesOf(ts[j..k]) == prefix + (TypesOf(ts[i..j]) + TypesOf(ts[j..k]));
  }

  lemma UnarySound(ts: seq<Token>, i: nat)
    requires Terminated(ts) && i < |ts|
    ensures Sound(ts, i, 4, UnaryAt(ts, i))
    decreases |ts| - i, 2
  {
    if MatchAt(ts, i, UnaryOperators) {
      UnarySound(ts, i + 1);
      match UnaryAt(ts, i + 1)
      case Parsed(right, j) => TypesOfSplit(ts, i, i + 1, j);
      case _ =>
    } else {
      PrimarySound(ts, i);
    }
  }

  lemma PrimarySound(ts: seq<Token>, i: nat)
    requires Terminated(ts) && i < |ts|
    ensures Sound(ts, i, 4, PrimaryAt(ts, i))
    decreases |ts| - i, 1
  {
    if MatchAt(ts, i, [False]) || MatchAt(ts, i, [True]) || MatchAt(ts, i, PlainLiterals) {
      assert ts[i..i + 1] == [ts[i]];
    } else if MatchAt(ts, i, [LeftParen]) {
      ExpressionSound(ts, i + 1);
      var inner := ExpressionAt(ts, i + 1);
      if inner.Parsed? && CheckAt(ts, inner.next, RightParen) {
        GroupSpelling(ts, inner.e, i, inner.next);
      }
    }
  }

  lemma GroupSpelling(ts: seq<Token>, inner: Expr, i: nat, j: nat)
    requires i < j < |ts| && ts[i].tokenType == LeftParen && ts[j].tokenType == RightParen
    requires Spelling(inner) == TypesOf(ts[i + 1..j])
    ensures Spelling(GroupingExpr(inner)) == TypesOf(ts[i..j + 1])
  {
    TypesOfSplit(ts, i, i + 1, j);
    TypesOfSplit(ts, i, j, j + 1);
    TypesOfOne(ts, i);
    TypesOfOne(ts, j);
    assert TypesOf(ts[i..j + 1]) == [LeftParen] + TypesOf(ts[i + 1..j]) + [RightParen];
  }

  /**
   * Literal tokens reach the tree as scanned, except that `true` and
   * `false` get their boolean value attached: the same token with only its
   * literal replaced.
   */
  lemma {:induction false} LiteralsKeepTheirToken(ts: seq<Token>, i: nat)
    requires Terminated(ts) && i < |ts|
    ensures ts[i].tokenType in PlainLiterals ==>
      PrimaryAt(ts, i) == Parsed(LiteralExpr(ts[i]), i + 1)
    ensures ts[i].tokenType == True ==>
      PrimaryAt(ts, i) == Parsed(LiteralExpr(ts[i].(literal := BoolLit(true))), i + 1)
    ensures ts[i].tokenType == False ==>
      PrimaryAt(ts, i) == Parsed(LiteralExpr(ts[i].(literal := BoolLit(false))), i + 1)
  {
  }

  /** Over a whole token list: a tree the parser returns spells a prefix of it. */
  lemma ParsedTreeSpellsPrefix(ts: seq<Token>)
    requires Terminated(ts) && Parse(ts).Tree?
    ensures exists n :: 0 < n < |ts| && Spelling(Parse(ts).e) == TypesOf(ts[..n])
    ensures Canonical(Parse(ts).e, 0)
  {
    ExpressionSound(ts, 0);
    var n := ExpressionAt(ts, 0).next;
    assert ts[0..n] == ts[..n];
  }

  // Concrete token lists, each on line 1 with EOF last.

  function Num(text: string, value: real, column: int): Token
  {
    Token(Number, text, NumLit(value), 1, column)
  }

  function Op(t: TokenType, text: string, column: int): Token
  {
    Token(t, text, NoLiteral, 1, column)
  }

  // Single steps of the rules, for evaluating them on the lists below.

  /** A number is a whole `unary`. */
  lemma {:induction false} NumberUnary(ts: seq<Token>, i: nat)
    requires Terminated(ts) && i < |ts| && ts[i].tokenType == Number
    ensures UnaryAt(ts, i) == Parsed(LiteralExpr(ts[i]), i + 1)
  {
    LiteralsKeepTheirToken(ts, i);
  }

  /** A number not followed by `*` or `/` is a whole `factor`. */
  lemma {:induction false} NumberFactor(ts: seq<Token>, i: nat)
    requires Terminated(ts) && i + 1 < |ts| && ts[i].tokenType == Number
    requires !MatchAt(ts, i + 1, Operators(3))
    ensures BinaryAt(ts, 3, i) == Parsed(LiteralExpr(ts[i]), i + 1)
  {
    NumberUnary(ts, i);
    ContinueStop(ts, 3, LiteralExpr(ts[i]), i + 1);
  }

  /** The loop of a level ends at a token that is not one of its operators. */
  lemma {:induction false} ContinueStop(ts: seq<Token>, level: nat, left: Expr, i: nat)
    requires Terminated(ts) && i < |ts| && level < 4 && !MatchAt(ts, i, Operators(level))
    ensures ContinueAt(ts, level, left, i) == Parsed(left, i)
  {
  }

  /** One iteration of the loop of a level folds the next operand in on the right. */
  lemma {:induction false} ContinueStep(ts: seq<Token>, level: nat, left: Expr, i: nat)
    requires Terminated(ts) && i + 1 < |ts| && level < 4 && MatchAt(ts, i, Operators(level))
    requires OperandAt(ts, level, i + 1).Parsed?
    ensures var o := OperandAt(ts, level, i + 1);
      ContinueAt(ts, level, left, i) == ContinueAt(ts, level, BinaryExpr(left, ts[i], o.e), o.next)
  {
  }

  /** A level parses its first operand, then runs its loop. */
  lemma {:induction false} BinaryStep(ts: seq<Token>, level: nat, i: nat)
    requires Terminated(ts) && i < |ts| && level < 4 && OperandAt(ts, level, i).Parsed?
    ensures var o := OperandAt(ts, level, i);
      BinaryAt(ts, level, i) == ContinueAt(ts, level, o.e, o.next)
  {
  }

  /** `1 - 2 - 3` groups to the left. */
  lemma SubtractionLeansLeft()
    ensures var ts := [Num("1", 1.0, 1), Op(Minus, "-", 3), Num("2", 2.0, 5), Op(Minus, "-", 7),
                       Num("3", 3.0, 9), Op(Eof, "", 10)];
      Parse(ts) == Tree(BinaryExpr(BinaryExpr(LiteralExpr(ts[0]), ts[1], LiteralExpr(ts[2])),
                                   ts[3], LiteralExpr(ts[4])))
  {
    var ts := [Num("1", 1.0, 1), Op(Minus, "-", 3), Num("2", 2.0, 5), Op(Minus, "-", 7),
               Num("3", 3.0, 9), Op(Eof, "", 10)];
    var inner := BinaryExpr(LiteralExpr(ts[0]), ts[1], LiteralExpr(ts[2]));
    var outer := BinaryExpr(inner, ts[3], LiteralExpr(ts[4]));
    NumberFactor(ts, 0);
    NumberFactor(ts, 2);
    NumberFactor(ts, 4);
    ContinueStep(ts, 2, LiteralExpr(ts[0]), 1);
    ContinueStep(ts, 2, inner, 3);
    ContinueStop(ts, 2, outer, 5);
    BinaryStep(ts, 2, 0);
    BinaryStep(ts, 1, 0);
    ContinueStop(ts, 1, outer, 5);
    BinaryStep(ts, 0, 0);
    ContinueStop(ts, 0, outer, 5);
  }

  /** `1 + 2 * 3`: the product is the right operand of the sum. */
  lemma ProductBindsTighter()
    ensures var ts := [Num("1", 1.0, 1), Op(Plus, "+", 3), Num("2", 2.0, 5), Op(Star, "*", 7),
                       Num("3", 3.0, 9), Op(Eof, "", 10)];
      Parse(ts) == Tree(BinaryExpr(LiteralExpr(ts[0]), ts[1],
                                   BinaryExpr(LiteralExpr(ts[2]), ts[3], LiteralExpr(ts[4]))))
  {
    SumOfProduct([Num("1", 1.0, 1), Op(Plus, "+", 3), Num("2", 2.0, 5), Op(Star, "*", 7),
                  Num("3", 3.0, 9), Op(Eof, "", 10)]);
  }

  /** Whatever the numbers, `a + b * c` parses as `a + (b * c)`. */
  lemma {:induction false} SumOfProduct(ts: seq<Token>)
    requires |ts| == 6 && ts[5].tokenType == Eof
    requires ts[0].tokenType == Number && ts[1].tokenType == Plus && ts[2].tokenType == Number
    requires ts[3].tokenType == Star && ts[4].tokenType == Number
    ensures Parse(ts) == Tree(BinaryExpr(LiteralExpr(ts[0]), ts[1],
                                         BinaryExpr(LiteralExpr(ts[2]), ts[3], LiteralExpr(ts[4]))))
  {
    var product := BinaryExpr(LiteralExpr(ts[2]), ts[3], LiteralExpr(ts[4]));
    var sum := BinaryExpr(LiteralExpr(ts[0]), ts[1], product);
    NumberFactor(ts, 0);
    ProductFactor(ts);
    BinaryStep(ts, 2, 0);
    ContinueStep(ts, 2, LiteralExpr(ts[0]), 1);
    ContinueStop(ts, 2, sum, 5);
    BinaryStep(ts, 1, 0);
    ContinueStop(ts, 1, sum, 5);
    BinaryStep(ts, 0, 0);
    ContinueStop(ts, 0, sum, 5);
  }

  /** The `factor` that starts at the second number of `a + b * c` is the product. */
  lemma {:induction false} ProductFactor(ts: seq<Token>)
    requires |ts| == 6 && ts[5].tokenType == Eof
    requires ts[2].tokenType == Number && ts[3].tokenType == Star && ts[4].tokenType == Number
    ensures BinaryAt(ts, 3, 2) == Parsed(BinaryExpr(LiteralExpr(ts[2]), ts[3], LiteralExpr(ts[4])), 5)
  {
    var product := BinaryExpr(LiteralExpr(ts[2]), ts[3], LiteralExpr(ts[4]));
    NumberUnary(ts, 2);
    NumberUnary(ts, 4);
    BinaryStep(ts, 3, 2);
    ContinueStep(ts, 3, LiteralExpr(ts[2]), 3);
    ContinueStop(ts, 3, product, 5);
  }

  /** `(1` crashes with the plain exception, and nothing is reported. */
  lemma UnclosedGroupCrashes()
    ensures var ts := [Op(LeftParen, "(", 1), Num("1", 1.0, 2), Op(Eof, "", 3)];
      Parse(ts) == Crash(ExpectRightParen) && ParseReports(ts) == []
  {
    var ts := [Op(LeftParen, "(", 1), Num("1", 1.0, 2), Op(Eof, "", 3)];
    var one := LiteralExpr(ts[1]);
    NumberFactor(ts, 1);
    BinaryStep(ts, 2, 1);
    ContinueStop(ts, 2, one, 2);
    BinaryStep(ts, 1, 1);
    ContinueStop(ts, 1, one, 2);
    BinaryStep(ts, 0, 1);
    ContinueStop(ts, 0, one, 2);
    assert PrimaryAt(ts, 0) == Thrown(ExpectRightParen);
    assert UnaryAt(ts, 0) == Thrown(ExpectRightParen);
    assert BinaryAt(ts, 3, 0) == Thrown(ExpectRightParen);
    assert BinaryAt(ts, 2, 0) == Thrown(ExpectRightParen);
    assert BinaryAt(ts, 1, 0) == Thrown(ExpectRightParen);
  }

  /** `)` alone is reported once, at that token, and `Parse` returns null. */
  lemma StrayParenIsReported()
    ensures var ts := [Op(RightParen, ")", 1), Op(Eof, "", 2)];
      Parse(ts) == NoTree && ParseReports(ts) == [Report(ts[0], ExpectExpression)]
  {
    var ts := [Op(RightParen, ")", 1), Op(Eof, "", 2)];
    assert PrimaryAt(ts, 0) == Reported(0);
    assert UnaryAt(ts, 0) == Reported(0);
  }

  // ---------------------------------------------------------------------
  // The parser object
  // ---------------------------------------------------------------------

  /** The outcome of a parsing method: a tree, the parse error, or a crash. */
  datatype Outcome<T> = Ok(value: T) | ParseError | Failure(message: string)

  class Parser {
    const tokens: seq<Token>
    var current: nat
    /** Every invocation of the `Error` event, in order. */
    var reports: seq<Report>

    ghost predicate Valid()
      reads this
    {
      Terminated(tokens) && current < |tokens|
    }

    constructor (tokens: seq<Token>)
      requires Terminated(tokens)
      ensures Valid() && this.tokens == tokens && current == 0 && reports == []
    {
      this.tokens := tokens;
      current := 0;
      reports := [];
    }

    /**
     * The method's result and new state match the rule's result `p`; the
     * cursor is only meaningful after a success, since an exception
     * abandons the parser.
     */
    ghost predicate Agrees(r: Outcome<Expr>, p: Parsed, before: seq<Report>)
      reads this
    {
      match p
      case Parsed(e, j) => r == Ok(e) && current == j && reports == before
      case Reported(at) => r == ParseError && reports == before + ReportsOf(tokens, p)
      case Thrown(m) => r == Failure(m) && reports == before
    }

    function IsAtEnd(): (b: bool)
      reads this
      requires Valid()
      ensures b <==> AtEnd(tokens, current)
    {
      Peek().tokenType == Eof
    }

    function Peek(): (t: Token)
      reads this
      requires Valid()
      ensures t == tokens[current]
      ensures t.tokenType == Eof <==> AtEnd(tokens, current)
    {
      tokens[current]
    }

    function Previous(): (t: Token)
      reads this
      requires Valid() && current > 0
      ensures t == tokens[current - 1]
    {
      tokens[current - 1]
    }

    function Check(t: TokenType): (b: bool)
      reads this
      requires Valid()
      ensures b <==> CheckAt(tokens, current, t)
    {
      if IsAtEnd() then false else Peek().tokenType == t
    }

    /** `advance`: never moves past EOF, returns the token before the cursor. */
    method Advance() returns (t: Token)
      requires Valid() && (current > 0 || !IsAtEnd())
      modifies this`current
      ensures Valid()
      ensures current == if old(IsAtEnd()) then old(current) else old(current) + 1
      ensures current > 0 && t == tokens[current - 1]
    {
      if !IsAtEnd() {
        current := current + 1;
      }
      t := Previous();
    }

    /** `match`: consume the token under the cursor if its type is one of `types`. */
    method Match(types: seq<TokenType>) returns (b: bool)
      requires Valid()
      modifies this`current
      ensures Valid()
      ensures b == MatchAt(tokens, old(current), types)
      ensures current == if b then old(current) + 1 else old(current)
    {
      var i := 0;
      while i < |types|
        invariant 0 <= i <= |types|
        invariant forall k :: 0 <= k < i ==> !Check(types[k])
        invariant current == old(current)
      {
        if Check(types[i]) {
          var _ := Advance();
          return true;
        }
        i := i + 1;
      }
      return false;
    }

    /** `consume`: the expected token, or the plain exception with `message`. */
    method Consume(t: TokenType, message: string) returns (r: Outcome<Token>)
      requires Valid()
      modifies this`current
      ensures Valid()
      ensures CheckAt(tokens, old(current), t) ==>
        r == Ok(tokens[old(current)]) && current == old(current) + 1
      ensures !CheckAt(tokens, old(current), t) ==> r == Failure(message)
    {
      if Check(t) {
        var token := Advance();
        return Ok(token);
      }
      return Failure(message);
    }

    /** `error`: raise the event; the caller then throws the parse error. */
    method Error(token: Token, message: string)
      modifies this`reports
      ensures reports == old(reports) + [Report(token, message)]
    {
      reports := reports + [Report(token, message)];
    }

    /** `Parse`: the expression, or `null` once a parse error was reported. */
    method ParseExpression() returns (r: ParseOutcome)
      requires Valid()
      modifies this`current, this`reports
      ensures Valid()
      ensures r == OutcomeOf(ExpressionAt(tokens, old(current)))
      ensures reports == old(reports) + ReportsOf(tokens, ExpressionAt(tokens, old(current)))
    {
      var e := Expression();
      match e
      case Ok(tree) => r := Tree(tree);
      case ParseError => r := NoTree;
      case Failure(m) => r := Crash(m);
    }

    method Expression() returns (r: Outcome<Expr>)
      requires Valid()
      modifies this`current, this`reports
      ensures Valid() && Agrees(r, ExpressionAt(tokens, old(current)), old(reports))
      decreases |tokens| - current, 20
    {
      r := Binary(0);
    }

    /** `equality`, `comparison`, `term` and `factor`. */
    method Binary(level: nat) returns (r: Outcome<Expr>)
      requires Valid() && level < 4
      modifies this`current, this`reports
      ensures Valid() && Agrees(r, BinaryAt(tokens, level, old(current)), old(reports))
      decreases |tokens| - current, 10 - 2 * level
    {
      ghost var goal := BinaryAt(tokens, level, current);
      r := Operand(level);
      if !r.Ok? {
        return;
      }
      var expr := r.value;
      var more := Match(Operators(level));
      while more
        invariant Valid() && reports == old(reports)
        invariant current > old(current)
        invariant more ==> current > 0 && MatchAt(tokens, current - 1, Operators(level))
        invariant !more ==> !MatchAt(tokens, current, Operators(level))
        invariant goal == ContinueAt(tokens, level, expr, if more then current - 1 else current)
        decreases |tokens| - current
      {
        var operator := Previous();
        ghost var at := current;
        r := Operand(level);
        if !r.Ok? {
          assert goal == OperandAt(tokens, level, at);
          return;
        }
        expr := BinaryExpr(expr, operator, r.value);
        more := Match(Operators(level));
      }
      assert goal == Parsed(expr, current);
      r := Ok(expr);
    }

    method Operand(level: nat) returns (r: Outcome<Expr>)
      requires Valid() && level < 4
      modifies this`current, this`reports
      ensures Valid() && Agrees(r, OperandAt(tokens, level, old(current)), old(reports))
      decreases |tokens| - current, 9 - 2 * level
    {
      if level == 3 {
        r := Unary();
      } else {
        r := Binary(level + 1);
      }
    }

    method Unary() returns (r: Outcome<Expr>)
      requires Valid()
      modifies this`current, this`reports
      ensures Valid() && Agrees(r, UnaryAt(tokens, old(current)), old(reports))
      decreases |tokens| - current, 2
    {
      var prefix := Match(UnaryOperators);
      if prefix {
        var operator := Previous();
        r := Unary();
        if r.Ok? {
          r := Ok(UnaryExpr(operator, r.value));
        }
        return;
      }
      r := Primary();
    }

    method Primary() returns (r: Outcome<Expr>)
      requires Valid()
      modifies this`current, this`reports
      ensures Valid() && Agrees(r, PrimaryAt(tokens, old(current)), old(reports))
      decreases |tokens| - current, 1
    {
      var found := Match([False]);
      if found {
        return Ok(LiteralExpr(WithLiteral(Previous(), BoolLit(false))));
      }
      found := Match([True]);
      if found {
        return Ok(LiteralExpr(WithLiteral(Previous(), BoolLit(true))));
      }
      found := Match(PlainLiterals);
      if found {
        return Ok(LiteralExpr(Previous()));
      }
      found := Match([LeftParen]);
      if found {
        r := Group();
        return;
      }
      Error(Peek(), ExpectExpression);
      return ParseError;
    }

    /** The parenthesised branch of `primary`, entered just after the `(`. */
    method Group() returns (r: Outcome<Expr>)
      requires Valid() && 0 < current && MatchAt(tokens, current - 1, [LeftParen])
      modifies this`current, this`reports
      ensures Valid() && Agrees(r, PrimaryAt(tokens, old(current) - 1), old(reports))
      decreases |tokens| - current, 21
    {
      r := Expression();
      if !r.Ok? {
        return;
      }
      var closing := Consume(RightParen, ExpectRightParen);
      if closing.Failure? {
        return Failure(closing.message);
      }
      return Ok(GroupingExpr(r.value));
    }
  }
}
