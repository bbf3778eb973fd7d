/**
 * Callables: calling a user function (`src/Functions/LoxFunction.cs`) and
 * a class (`src/LoxClass.cs`).
 *
 * A function call binds the parameters in a fresh scope whose enclosing
 * scope is the function's closure, runs the body through `ExecuteBlock` and
 * yields `nil`.  A class call creates an instance, runs the bound `init`
 * method if the class has one, and yields the instance.
 */
module Callables {
  import opened Wrappers
  import opened Tokens
  import opened Ast
  import opened Runtime
  import opened Semantics
  import opened Interpreting

  /**
   * The frame a call starts its body in: parameter `i` bound to argument
   * `i`, in declaration order, so a repeated parameter name keeps the last
   * of its arguments.
   */
  function Bindings(params: seq<Token>, arguments: seq<Value>): Frame
    requires |params| <= |arguments|
    decreases |params|
  {
    if |params| == 0 then map[]
    else Bindings(params[..|params| - 1], arguments)[params[|params| - 1].lexeme := arguments[|params| - 1]]
  }

  /** The frame binds exactly the parameter names. */
  lemma {:induction false} BindingsNames(params: seq<Token>, arguments: seq<Value>)
    requires |params| <= |arguments|
    ensures Bindings(params, arguments).Keys == set j | 0 <= j < |params| :: params[j].lexeme
    decreases |params|
  {
    if |params| > 0 {
      var front := params[..|params| - 1];
      BindingsNames(front, arguments);
      assert forall j :: 0 <= j < |front| ==> front[j] == params[j];
      assert (set j | 0 <= j < |params| :: params[j].lexeme) ==
        (set j | 0 <= j < |front| :: front[j].lexeme) + {params[|params| - 1].lexeme};
    }
  }

  /** Parameter `i`, when no later parameter has its name, is bound to argument `i`. */
  lemma {:induction false} BindingsBindArguments(params: seq<Token>, arguments: seq<Value>, i: nat)
    requires |params| <= |arguments| && i < |params|
    requires forall j :: i < j < |params| ==> params[j].lexeme != params[i].lexeme
    ensures params[i].lexeme in Bindings(params, arguments)
    ensures Bindings(params, arguments)[params[i].lexeme] == arguments[i]
    decreases |params|
  {
    if i < |params| - 1 {
      var front := params[..|params| - 1];
      BindingsBindArguments(front, arguments, i);
    }
  }

  /**
   * What a call of `f` does, from the frames of its closure and the lines
   * printed so far: too few arguments crash the parameter loop; otherwise
   * the body runs in a fresh frame holding the parameters, which is then
   * dropped, and the call yields `nil` unless the body failed.
   */
  datatype Called = Called(outcome: Outcome<Value>, closure: seq<Frame>, output: seq<string>)

  function CallResult(f: LoxFunction, arguments: seq<Value>, closure: seq<Frame>, out: seq<string>, fmt: NumberFormat): (r: Called)
    requires |closure| > 0
    ensures |arguments| < FunctionArity(f) ==> r == Called(Crash, closure, out)
    ensures r.outcome.Normal? ==> r.outcome.value == Value.Nil
    ensures SameShape(closure, r.closure) && out <= r.output
  {
    var params := f.declaration.params;
    if |arguments| < |params| then Called(Crash, closure, out)
    else
      var run := ExecStmts(f.declaration.body, [Bindings(params, arguments)] + closure, out, fmt);
      Called(if run.outcome.Normal? then Normal(Value.Nil) else Abrupt(run.outcome), run.frames[1..], run.output)
  }

  /**
   * The parameter loop of `LoxFunction.Call`: a fresh scope enclosed by the
   * closure, holding the parameters.  Nothing that existed before is
   * changed, so the closure's own bindings are untouched.
   */
  method BindParameters(f: LoxFunction, arguments: seq<Value>) returns (environment: Environment)
    requires f.closure.Valid() && |arguments| >= FunctionArity(f)
    ensures fresh(environment) && environment.Valid() && environment.enclosing == f.closure
    ensures environment.Frames() == [Bindings(f.declaration.params, arguments)] + f.closure.Frames()
  {
    var params := f.declaration.params;
    ghost var closureFrames := f.closure.Frames();
    environment := new Environment(f.closure);
    var i := 0;
    while i < |params|
      invariant 0 <= i <= |params|
      invariant environment.Valid() && environment.enclosing == f.closure
      invariant f.closure.Frames() == closureFrames
      invariant environment.Frames() == [Bindings(params[..i], arguments)] + closureFrames
    {
      environment.Define(params[i].lexeme, arguments[i]);
      BindingsExtend(params, arguments, i);
      i := i + 1;
    }
    assert params[..i] == params;
  }

  /** One more parameter binds its name over the frame of the earlier ones. */
  lemma BindingsExtend(params: seq<Token>, arguments: seq<Value>, i: nat)
    requires i < |params| <= |arguments|
    ensures Bindings(params[..i + 1], arguments) ==
      Bindings(params[..i], arguments)[params[i].lexeme := arguments[i]]
  {
    assert params[..i + 1][..i] == params[..i];
  }

  /**
   * `LoxFunction.Call`.  The body runs in the scope of the parameters, the
   * closure's own frames are what the body leaves them, and the interpreter
   * is back in the scope it was in.  With too few arguments the parameter
   * loop indexes past the arguments and the host throws; the scope it was
   * filling is unreachable afterwards, so checking the count first is the
   * same.
   */
  method CallFunction(f: LoxFunction, interpreter: Interpreter, arguments: seq<Value>) returns (r: Outcome<Value>)
    requires f.closure.Valid()
    modifies interpreter`environment, interpreter`output, f.closure.Repr
    ensures interpreter.environment == old(interpreter.environment)
    ensures Called(r, f.closure.Frames(), interpreter.output) ==
      CallResult(f, arguments, old(f.closure.Frames()), old(interpreter.output), interpreter.format)
  {
    if |arguments| < FunctionArity(f) {
      return Crash;
    }
    var environment := BindParameters(f, arguments);
    var o := interpreter.ExecuteBlock(f.declaration.body, environment);
    assert environment.Frames() == [environment.values] + f.closure.Frames();
    r := if o.Normal? then Normal(Value.Nil) else Abrupt(o);
  }

  /**
   * `LoxClass.Call`: a new instance of `c` with no fields; the initializer,
   * if `c` has one, bound to it and called with the arguments; its result
   * is dropped and the instance is the value of the call, unless the
   * initializer failed.  The initializer's body runs with `this` bound, in
   * front of the initializer's closure.
   */
  method CallClass(c: LoxClass, interpreter: Interpreter, arguments: seq<Value>)
    returns (r: Outcome<Value>, ghost created: LoxInstance, ghost init: Outcome<Value>)
    requires "init" in c.methods ==> c.methods["init"].closure.Valid()
    modifies interpreter`environment, interpreter`output
    modifies if "init" in c.methods then c.methods["init"].closure.Repr else {}
    ensures fresh(created) && created.klass == c && created.fields == map[]
    ensures r == if init.Normal? then Normal(InstanceValue(created)) else Abrupt(init)
    ensures interpreter.environment == old(interpreter.environment)
    ensures "init" !in c.methods ==> init == Normal(Value.Nil) && interpreter.output == old(interpreter.output)
    ensures "init" in c.methods ==>
      var m := c.methods["init"];
      var run := CallResult(m, arguments, [ThisFrame(created)] + old(m.closure.Frames()), old(interpreter.output), interpreter.format);
      init == run.outcome && interpreter.output == run.output && m.closure.Frames() == run.closure[1..]
  {
    var instance := new LoxInstance(c);
    created := instance;
    var initializer := FindMethod(c, "init");
    var called := Normal(Value.Nil);
    if initializer.Some? {
      var bound := Bind(initializer.value, instance);
      called := CallFunction(bound, interpreter, arguments);
      assert bound.closure.Frames() == [bound.closure.values] + initializer.value.closure.Frames();
    }
    init := called;
    r := if called.Normal? then Normal(InstanceValue(instance)) else Abrupt(called);
  }
}
