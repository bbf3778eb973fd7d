/**
 * Runtime: the values a Lox program computes with, the chain of variable
 * scopes (`LoxEnvironment`), the callable function and class objects and the
 * class instances with their mutable fields (`LoxInstance`).
 *
 * A scope chain is read, for specification, as a sequence of frames, the
 * innermost first: `Lookup`, `WithAssignment` and `WithDefinition` are what
 * `Get`, `Assign` and `Define` do to that sequence.
 */
module Runtime {
  import opened Wrappers
  import opened Tokens
  import opened Ast

  /**
   * A runtime value.  The host uses `object?`: `null`, a boolean, a 64-bit
   * float (an exact real here), a string, or one of the callable objects.
   */
  datatype Value =
    | Nil
    | Bool(b: bool)
    | Num(n: real)
    | Str(s: string)
    | FunctionValue(fn: LoxFunction)
    | ClassValue(klass: LoxClass)
    | InstanceValue(instance: LoxInstance)

  /** A user function: its declaration and the scope it closes over. */
  datatype LoxFunction = LoxFunction(declaration: FunDecl, closure: Environment)

  /** A class: its name token and its methods by name. */
  datatype LoxClass = LoxClass(token: Token, methods: map<string, LoxFunction>)

  /**
   * How a runtime step ends: normally with a value, by raising a
   * `LoxRuntimeErrorException` (its line, column and message), or by a host
   * exception that nothing in the interpreter catches and that ends the
   * process (`NotImplementedException`, an argument index out of range, the
   * stack overflow of a self-recursive visitor).
   */
  datatype Outcome<T> = Normal(value: T) | Raised(error: Diagnostic) | Crash

  /** The runtime error located at `t`. */
  function ErrorAt(t: Token, message: string): (d: Diagnostic)
    ensures d.line == t.line && d.column == t.column && d.message == message
  {
    Diagnostic(t.line, t.column, message)
  }

  function UndefinedVariable(name: Token): Diagnostic
  {
    ErrorAt(name, "Undefined variable '" + name.lexeme + "'.")
  }

  /** One scope's bindings. */
  type Frame = map<string, Value>

  /** The value bound to `name` in the innermost frame that binds it. */
  function Lookup(frames: seq<Frame>, name: string): (r: Option<Value>)
    ensures |frames| > 0 && name in frames[0] ==> r == Some(frames[0][name])
    ensures |frames| == 0 ==> r.None?
  {
    if |frames| == 0 then None
    else if name in frames[0] then Some(frames[0][name])
    else Lookup(frames[1..], name)
  }

  /** Rebinds `name` in the innermost frame that binds it; no frame binds it: nothing changes. */
  function WithAssignment(frames: seq<Frame>, name: string, v: Value): (r: seq<Frame>)
    ensures |r| == |frames|
    ensures forall k :: 0 <= k < |r| ==> r[k].Keys == frames[k].Keys
  {
    if |frames| == 0 then frames
    else if name in frames[0] then [frames[0][name := v]] + frames[1..]
    else [frames[0]] + WithAssignment(frames[1..], name, v)
  }

  /** Binds (or rebinds) `name` in the innermost frame only. */
  function WithDefinition(frames: seq<Frame>, name: string, v: Value): (r: seq<Frame>)
    requires |frames| > 0
    ensures |r| == |frames| && r[1..] == frames[1..]
    ensures r[0] == frames[0][name := v]
    ensures Lookup(r, name) == Some(v)
  {
    [frames[0][name := v]] + frames[1..]
  }

  /** `Get`: the innermost binding, or the undefined-variable error at the name. */
  function VariableValue(frames: seq<Frame>, name: Token): (r: Outcome<Value>)
    ensures !r.Crash?
    ensures r.Normal? <==> Lookup(frames, name.lexeme).Some?
    ensures r.Normal? ==> Lookup(frames, name.lexeme) == Some(r.value)
    ensures r.Raised? ==> r.error == Diagnostic(name.line, name.column, "Undefined variable '" + name.lexeme + "'.")
  {
    match Lookup(frames, name.lexeme)
    case Some(v) => Normal(v)
    case None => Raised(UndefinedVariable(name))
  }

  /** `Assign`: the new frames and how the assignment ended. */
  function AssignResult(frames: seq<Frame>, name: Token, v: Value): (r: (Outcome<()>, seq<Frame>))
    ensures !r.0.Crash? && |r.1| == |frames|
    ensures r.0.Normal? <==> Lookup(frames, name.lexeme).Some?
    ensures r.0.Normal? ==> Lookup(r.1, name.lexeme) == Some(v)
    ensures r.0.Raised? ==>
      r.1 == frames && r.0.error == Diagnostic(name.line, name.column, "Undefined variable '" + name.lexeme + "'.")
  {
    if Lookup(frames, name.lexeme).Some? then
      AssignThenLookup(frames, name.lexeme, v);
      (Normal(()), WithAssignment(frames, name.lexeme, v))
    else (Raised(UndefinedVariable(name)), frames)
  }

  /** The lookup finds the first frame, counted from the innermost, that binds the name. */
  lemma {:induction false} LookupFindsInnermost(frames: seq<Frame>, name: string, k: nat)
    requires k < |frames| && name in frames[k]
    requires forall j :: 0 <= j < k ==> name !in frames[j]
    ensures Lookup(frames, name) == Some(frames[k][name])
  {
    if k > 0 {
      LookupFindsInnermost(frames[1..], name, k - 1);
    }
  }

  /** A name no frame binds is not found. */
  lemma {:induction false} LookupMissesUnbound(frames: seq<Frame>, name: string)
    requires forall j :: 0 <= j < |frames| ==> name !in frames[j]
    ensures Lookup(frames, name) == None
  {
    if |frames| > 0 {
      LookupMissesUnbound(frames[1..], name);
    }
  }

  /** After an assignment to a bound name, reading it gives the assigned value. */
  lemma {:induction false} AssignThenLookup(frames: seq<Frame>, name: string, v: Value)
    requires Lookup(frames, name).Some?
    ensures Lookup(WithAssignment(frames, name, v), name) == Some(v)
  {
    if name !in frames[0] {
      AssignThenLookup(frames[1..], name, v);
    }
  }

  /** An assignment leaves every other name's binding as it was. */
  lemma {:induction false} AssignLeavesOthers(frames: seq<Frame>, name: string, v: Value, other: string)
    requires other != name
    ensures Lookup(WithAssignment(frames, name, v), other) == Lookup(frames, other)
  {
    if |frames| > 0 && name !in frames[0] {
      AssignLeavesOthers(frames[1..], name, v, other);
    }
  }

  /**
   * An assignment rewrites exactly one frame, the innermost that binds the
   * name, and only that name in it.
   */
  lemma {:induction false} AssignRewritesInnermost(frames: seq<Frame>, name: string, v: Value, k: nat)
    requires k < |frames| && name in frames[k]
    requires forall j :: 0 <= j < k ==> name !in frames[j]
    ensures WithAssignment(frames, name, v) == frames[k := frames[k][name := v]]
  {
    if k == 0 {
      UpdateHead(frames, frames[0][name := v]);
    } else {
      var rest := frames[1..];
      assert name !in frames[0];
      AssignRewritesInnermost(rest, name, v, k - 1);
      UpdateTail(frames, k, frames[k][name := v]);
    }
  }

  lemma UpdateHead<T>(s: seq<T>, x: T)
    requires |s| > 0
    ensures [x] + s[1..] == s[0 := x]
  {
    var shifted, updated := [x] + s[1..], s[0 := x];
    assert forall i :: 0 <= i < |s| ==> shifted[i] == updated[i];
  }

  lemma UpdateTail<T>(s: seq<T>, k: nat, x: T)
    requires 0 < k < |s|
    ensures [s[0]] + s[1..][k - 1 := x] == s[k := x]
  {
    var shifted, updated := [s[0]] + s[1..][k - 1 := x], s[k := x];
    assert forall i :: 0 <= i < |s| ==> shifted[i] == updated[i];
  }

  /** A definition in the innermost frame hides, without changing, any outer binding. */
  lemma DefinitionShadows(frames: seq<Frame>, name: string, v: Value, other: string)
    requires |frames| > 0 && other != name
    ensures Lookup(WithDefinition(frames, name, v), other) == Lookup(frames, other)
    ensures WithDefinition(frames, name, v)[1..] == frames[1..]
  {
  }

  /**
   * A scope (`LoxEnvironment`): its own bindings and the enclosing scope.
   * `Repr` is the chain from this scope outwards, `depth` its length minus
   * one; both are fixed at construction, so `Valid` reads no mutable state.
   */
  class Environment {
    const enclosing: Environment?
    var values: map<string, Value>
    ghost const Repr: set<Environment>
    ghost const depth: nat

    ghost predicate Valid()
      decreases depth
    {
      this in Repr &&
      if enclosing == null then
        Repr == {this} && depth == 0
      else
        this !in enclosing.Repr && Repr == {this} + enclosing.Repr &&
        enclosing.depth < depth && enclosing.Valid()
    }

    /** The bindings of the chain, this scope's first. */
    ghost function Frames(): (r: seq<Frame>)
      requires Valid()
      reads Repr
      ensures |r| > 0 && r[0] == values
      decreases depth
    {
      [values] + (if enclosing == null then [] else enclosing.Frames())
    }

    constructor(enclosing: Environment?)
      requires enclosing != null ==> enclosing.Valid()
      ensures Valid() && this.enclosing == enclosing
      ensures Frames() == [map[]] + (if enclosing == null then [] else enclosing.Frames())
      ensures enclosing != null ==> Repr == {this} + enclosing.Repr
      ensures enclosing == null ==> Repr == {this}
    {
      this.enclosing := enclosing;
      values := map[];
      if enclosing == null {
        Repr := {this};
        depth := 0;
      } else {
        Repr := {this} + enclosing.Repr;
        depth := enclosing.depth + 1;
      }
    }

    /** `Define`: binds the name in this scope, replacing any binding it had here. */
    method Define(name: string, value: Value)
      requires Valid()
      modifies this`values
      ensures Frames() == WithDefinition(old(Frames()), name, value)
    {
      values := values[name := value];
    }

    /** `Get`: searches this scope, then the enclosing ones. */
    method Get(name: Token) returns (r: Outcome<Value>)
      requires Valid()
      ensures r == VariableValue(Frames(), name)
      decreases depth
    {
      if name.lexeme in values {
        return Normal(values[name.lexeme]);
      }
      if enclosing != null {
        r := enclosing.Get(name);
        return;
      }
      assert Frames() == [values] && [values][1..] == [];
      assert Lookup(Frames(), name.lexeme) == None;
      return Raised(UndefinedVariable(name));
    }

    /** `Assign`: rebinds the name in the nearest scope that binds it. */
    method Assign(name: Token, value: Value) returns (r: Outcome<()>)
      requires Valid()
      modifies Repr
      ensures (r, Frames()) == AssignResult(old(Frames()), name, value)
      decreases depth
    {
      if name.lexeme in values {
        values := values[name.lexeme := value];
        return Normal(());
      }
      if enclosing != null {
        r := enclosing.Assign(name, value);
        return;
      }
      assert Frames() == [values] && [values][1..] == [];
      assert Lookup(Frames(), name.lexeme) == None;
      return Raised(UndefinedVariable(name));
    }
  }

  /** `LoxClass.FindMethod`: the method of that name, if the class has one. */
  function FindMethod(c: LoxClass, name: string): (r: Option<LoxFunction>)
    ensures r.Some? <==> name in c.methods
    ensures r.Some? ==> r.value == c.methods[name]
  {
    if name in c.methods then Some(c.methods[name]) else None
  }

  /** `LoxFunction.Arity`: the number of declared parameters. */
  function FunctionArity(f: LoxFunction): (r: nat)
    ensures r == |f.declaration.params|
  {
    |f.declaration.params|
  }

  /** `LoxClass.Arity`: the initializer's arity, zero without one. */
  function ClassArity(c: LoxClass): (r: nat)
    ensures "init" in c.methods ==> r == |c.methods["init"].declaration.params|
    ensures "init" !in c.methods ==> r == 0
  {
    match FindMethod(c, "init")
    case Some(init) => FunctionArity(init)
    case None => 0
  }

  /** `LoxFunction.ToString`. */
  function FunctionText(f: LoxFunction): (r: string)
    ensures |r| == |f.declaration.name.lexeme| + 5
    ensures r[..4] == "<fn " && r[4..|r| - 1] == f.declaration.name.lexeme && r[|r| - 1] == '>'
  {
    "<fn " + f.declaration.name.lexeme + ">"
  }

  /** `LoxClass.ToString`: the class name. */
  function ClassText(c: LoxClass): (r: string)
    ensures r == c.token.lexeme
  {
    c.token.lexeme
  }

  /** `LoxInstance.ToString`: the class name and " instance". */
  function InstanceText(c: LoxClass): (r: string)
    ensures |r| == |c.token.lexeme| + 9
    ensures r[..|c.token.lexeme|] == ClassText(c) && r[|c.token.lexeme|..] == " instance"
  {
    ClassText(c) + " instance"
  }

  /**
   * `LoxFunction.Bind` is called by `LoxInstance.Get` and `LoxClass.Call`
   * and is not defined in these files; it is modelled as the same
   * declaration, closing over a fresh scope that binds only `this` and is
   * enclosed by the method's closure.
   */
  function ThisFrame(instance: LoxInstance): (r: Frame)
    ensures r.Keys == {"this"} && r["this"] == InstanceValue(instance)
  {
    map["this" := InstanceValue(instance)]
  }

  /** `bound` is `m` bound to `instance`. */
  ghost predicate BindsTo(bound: LoxFunction, m: LoxFunction, instance: LoxInstance)
    reads bound.closure.Repr
  {
    bound.declaration == m.declaration && bound.closure.Valid() && bound.closure.enclosing == m.closure &&
    bound.closure.Frames() == [ThisFrame(instance)] + m.closure.Frames()
  }

  /** Binding never touches the method's own closure: the new scope is fresh. */
  method Bind(m: LoxFunction, instance: LoxInstance) returns (bound: LoxFunction)
    requires m.closure.Valid()
    ensures fresh(bound.closure) && BindsTo(bound, m, instance)
  {
    var environment := new Environment(m.closure);
    environment.Define("this", InstanceValue(instance));
    bound := LoxFunction(m.declaration, environment);
  }

  /** What a property name names on an instance: a field's value or an unbound method. */
  datatype Property = Field(value: Value) | Method(m: LoxFunction)

  /**
   * `LoxInstance.Get` on a given field map: a field, else the class's
   * method, else the undefined-property error.
   */
  function PropertyOf(fields: map<string, Value>, klass: LoxClass, name: Token): (r: Outcome<Property>)
    ensures !r.Crash?
    ensures name.lexeme in fields ==> r == Normal(Field(fields[name.lexeme]))
    ensures name.lexeme !in fields && name.lexeme in klass.methods ==>
      r == Normal(Method(klass.methods[name.lexeme]))
    ensures r.Raised? <==> name.lexeme !in fields && name.lexeme !in klass.methods
    ensures r.Raised? ==> r.error == Diagnostic(name.line, name.column, "Undefined property '" + name.lexeme + "'")
  {
    if name.lexeme in fields then Normal(Field(fields[name.lexeme]))
    else match FindMethod(klass, name.lexeme)
      case Some(m) => Normal(Method(m))
      case None => Raised(ErrorAt(name, "Undefined property '" + name.lexeme + "'"))
  }

  /** After a field is set, reading that name gives the value; every other name reads as before. */
  lemma SetThenGet(fields: map<string, Value>, klass: LoxClass, name: Token, other: Token, v: Value)
    ensures PropertyOf(fields[name.lexeme := v], klass, name) == Normal(Field(v))
    ensures other.lexeme != name.lexeme ==>
      PropertyOf(fields[name.lexeme := v], klass, other) == PropertyOf(fields, klass, other)
  {
  }

  /** A class instance: its class and its mutable fields. */
  class LoxInstance {
    const klass: LoxClass
    var fields: map<string, Value>

    constructor(klass: LoxClass)
      ensures this.klass == klass && fields == map[]
    {
      this.klass := klass;
      fields := map[];
    }

    /** `Get`: the field, else the method bound to this instance, else the undefined-property error. */
    method Get(name: Token) returns (r: Outcome<Value>)
      requires forall m :: m in klass.methods.Values ==> m.closure.Valid()
      ensures match PropertyOf(fields, klass, name)
        case Normal(Field(v)) => r == Normal(v)
        case Normal(Method(m)) =>
          r.Normal? && r.value.FunctionValue? && fresh(r.value.fn.closure) && BindsTo(r.value.fn, m, this)
        case Raised(e) => r == Raised(e)
        case Crash => false
    {
      if name.lexeme in fields {
        return Normal(fields[name.lexeme]);
      }
      var m := FindMethod(klass, name.lexeme);
      if m.Some? {
        assert m.value in klass.methods.Values;
        var bound := Bind(m.value, this);
        return Normal(FunctionValue(bound));
      }
      return Raised(ErrorAt(name, "Undefined property '" + name.lexeme + "'"));
    }

    /** `Set`: creates or overwrites the field and yields the value. */
    method Set(name: Token, value: Value) returns (r: Value)
      modifies this`fields
      ensures fields == old(fields)[name.lexeme := value] && r == value
    {
      fields := fields[name.lexeme := value];
      r := value;
    }
  }
}
