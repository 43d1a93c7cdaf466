/**
 * The policy evaluator as the source has it (mom/Policy/Parser.py,
 * `GenericEvaluator` and `Evaluator`): an object holding a variable stack
 * and a function table that its methods update in place.  Every method is
 * proved to do exactly what the corresponding function of `PolicyEval`
 * says, starting from the state the object had before the call.
 */
module Evaluators {
  import opened Wrappers
  import opened PolicyLexer
  import opened PolicyParser
  import opened PolicyValues
  import opened VariableStacks
  import opened PolicyEval

  class Evaluator {
    const stack: VariableStack
    var funcs: map<string, FuncDef>

    /** The evaluator's state as a value. */
    ghost function Snapshot(): State
      reads this, stack
    {
      State(stack.scopes, funcs)
    }

    /** A new evaluator: one empty global scope and no functions. */
    constructor ()
      ensures Snapshot() == Initial
      ensures fresh(stack)
    {
      stack := new VariableStack();
      funcs := map[];
      new;
      stack.EnterScope();
    }

    /** `GenericEvaluator.eval`. */
    method Eval(e: Expr, fuel: nat) returns (r: Result<Value, EvalError>)
      modifies this, stack
      ensures Outcome(r, Snapshot()) == PolicyEval.Eval(e, old(Snapshot()), fuel)
      decreases fuel, 0
    {
      if fuel == 0 {
        return Err(TooDeep);
      }
      match e
      case Atom(t) =>
        if t.Symbol? {
          r := stack.Get(t.name);
        } else {
          r := EvalToken(t, State(stack.scopes, funcs));
        }
      case Node(items) =>
        if |items| == 0 {
          return Err(Malformed("empty call"));
        }
        var name := CallName(items[0]);
        if name.Err? {
          return Err(name.error);
        }
        r := Call(name.value, items[1..], fuel - 1);
    }

    /** The arguments evaluated left to right (`map(self.eval, args)`). */
    method EvalArgs(args: seq<Expr>, fuel: nat) returns (r: Result<seq<Value>, EvalError>)
      modifies this, stack
      ensures Outcomes(r, Snapshot()) == EvalAll(args, old(Snapshot()), fuel)
      decreases fuel, 1
    {
      ghost var st0 := Snapshot();
      var vs: seq<Value> := [];
      var i := 0;
      ExtendNothing(EvalAll(args, st0, fuel));
      while i < |args|
        invariant 0 <= i <= |args|
        invariant EvalAll(args, st0, fuel) == Extend(vs, EvalAll(args[i..], Snapshot(), fuel))
        decreases |args| - i
      {
        ghost var before := Snapshot();
        EvalAllStep(args[i..], before, fuel);
        assert args[i..][1..] == args[i + 1..];
        var v := Eval(args[i], fuel);
        if v.Err? {
          return Err(v.error);
        }
        ExtendExtend(vs, [v.value], EvalAll(args[i + 1..], Snapshot(), fuel));
        vs := vs + [v.value];
        i := i + 1;
      }
      assert vs + [] == vs;
      r := Ok(vs);
    }

    /** The dispatch on a call's name. */
    method Call(name: string, args: seq<Expr>, fuel: nat) returns (r: Result<Value, EvalError>)
      modifies this, stack
      ensures Outcome(r, Snapshot()) == PolicyEval.Call(name, args, old(Snapshot()), fuel)
      decreases fuel, 3
    {
      if IsOperatorName(name) {
        r := ApplyBuiltin(name, args, fuel);
      } else if name == "def" {
        r := Define(args);
      } else if name == "set" || name == "defvar" {
        r := SetVariable(name == "defvar", args, fuel);
      } else if name == "let" {
        if |args| != 2 {
          r := Err(ArityMismatch(name));
        } else {
          r := Let(args[0], args[1], fuel);
        }
      } else if name == "if" {
        r := If(args, fuel);
      } else if name == "eval" {
        var vs := EvalArgs(args, fuel);
        r := if vs.Ok? then Ok(List(vs.value)) else Err(vs.error);
      } else {
        r := CallUser(name, args, fuel);
      }
    }

    /** `c_add` … `c_shr`: all arguments evaluated, then exactly two required. */
    method ApplyBuiltin(name: string, args: seq<Expr>, fuel: nat) returns (r: Result<Value, EvalError>)
      requires IsOperatorName(name)
      modifies this, stack
      ensures Outcome(r, Snapshot()) == PolicyEval.ApplyBuiltin(name, args, old(Snapshot()), fuel)
      decreases fuel, 2
    {
      var vs := EvalArgs(args, fuel);
      if vs.Err? {
        return Err(vs.error);
      }
      if |vs.value| != 2 {
        return Err(ArityMismatch(name));
      }
      var applied := ApplyOperator(name, vs.value[0], vs.value[1]);
      r := if applied.Some? then applied.value else Err(UnknownFunction(name));
    }

    /** `c_def`. */
    method Define(args: seq<Expr>) returns (r: Result<Value, EvalError>)
      modifies this
      ensures Outcome(r, Snapshot()) == PolicyEval.Define(args, old(Snapshot()))
    {
      if |args| != 3 {
        return Err(ArityMismatch("def"));
      }
      if !(args[0].Atom? && args[0].tok.Symbol?) {
        return Err(Malformed("malformed expression"));
      }
      var name := args[0].tok.name;
      funcs := funcs[name := FuncDef(args[1], args[2])];
      r := Ok(Str(name));
    }

    /** `c_set` and `c_defvar`. */
    method SetVariable(alloc: bool, args: seq<Expr>, fuel: nat) returns (r: Result<Value, EvalError>)
      modifies this, stack
      ensures Outcome(r, Snapshot()) == PolicyEval.SetVariable(alloc, args, old(Snapshot()), fuel)
      decreases fuel, 2
    {
      var form := if alloc then "defvar" else "set";
      if |args| != 2 {
        return Err(ArityMismatch(form));
      }
      if !(args[0].Atom? && args[0].tok.Symbol?) {
        return Err(Malformed("malformed expression"));
      }
      var v := Eval(args[1], fuel);
      if v.Err? {
        return v;
      }
      r := stack.Set(args[0].tok.name, v.value, alloc);
    }

    /** `c_if`. */
    method If(args: seq<Expr>, fuel: nat) returns (r: Result<Value, EvalError>)
      modifies this, stack
      ensures Outcome(r, Snapshot()) == PolicyEval.If(args, old(Snapshot()), fuel)
      decreases fuel, 2
    {
      if |args| != 3 {
        return Err(ArityMismatch("if"));
      }
      var c := Eval(args[0], fuel);
      if c.Err? {
        return c;
      }
      if Truthy(c.value) {
        r := Eval(args[1], fuel);
      } else {
        r := Eval(args[2], fuel);
      }
    }

    /** `c_let`: the scope is left only when the bindings and the body succeeded. */
    method Let(syms: Expr, body: Expr, fuel: nat) returns (r: Result<Value, EvalError>)
      modifies this, stack
      ensures Outcome(r, Snapshot()) == PolicyEval.Let(syms, body, old(Snapshot()), fuel)
      decreases fuel, 2
    {
      if !syms.Node? {
        return Err(Malformed("expecting list as arg 1 in let"));
      }
      stack.EnterScope();
      ghost var st1 := Snapshot();
      var items := syms.items;
      var i := 0;
      while i < |items|
        invariant 0 <= i <= |items|
        invariant Bind(items, st1, fuel) == Bind(items[i..], Snapshot(), fuel)
        decreases |items| - i
      {
        var sym := items[i];
        assert items[i..][0] == sym && items[i..][1..] == items[i + 1..];
        if !sym.Node? || |sym.items| != 2 {
          return Err(Malformed("expecting list of tuples in arg1 of let"));
        }
        if !(sym.items[0].Atom? && sym.items[0].tok.Symbol?) {
          return Err(Malformed("expecting list of (symbol value) in let"));
        }
        var v := Eval(sym.items[1], fuel);
        if v.Err? {
          return Err(v.error);
        }
        var bound := stack.Set(sym.items[0].tok.name, v.value, true);
        if bound.Err? {
          return Err(bound.error);
        }
        i := i + 1;
      }
      r := Eval(body, fuel);
      if r.Ok? {
        stack.LeaveScope();
      }
    }

    /** `default` for a user function: the call runs as a `let` of its parameters. */
    method CallUser(name: string, args: seq<Expr>, fuel: nat) returns (r: Result<Value, EvalError>)
      modifies this, stack
      ensures Outcome(r, Snapshot()) == PolicyEval.CallUser(name, args, old(Snapshot()), fuel)
      decreases fuel, 2
    {
      if name !in funcs {
        return Err(UnknownFunction(name));
      }
      var f := funcs[name];
      if !f.params.Node? {
        return Err(Malformed("parameters are not a list"));
      }
      if |f.params.items| != |args| {
        return Err(ArityMismatch(name));
      }
      r := Eval(CallAsLet(f.params.items, args, f.body), fuel);
    }
  }

  /** `get_code`: scan and parse a policy text. */
  method LoadCode(text: string) returns (r: Result<seq<Expr>, string>)
    ensures r == GetCode(text)
  {
    var scanner := new Scanner();
    var toks := scanner.Tokenize(text);
    if toks.Err? {
      return Err("lexical error");
    }
    var code := Parse(toks.value);
    if code.Err? {
      return Err("syntax error");
    }
    return Ok(code.value);
  }

  /** The module-level `eval`: scan, parse, then evaluate every expression in order. */
  method EvalString(e: Evaluator, text: string) returns (r: Result<seq<Value>, ProgramError>)
    modifies e, e.stack
    ensures (r, e.Snapshot()) == EvalText(text, old(e.Snapshot()))
  {
    var code := LoadCode(text);
    if code.Err? {
      return Err(SyntaxError(code.error));
    }
    var results := e.EvalArgs(code.value, MaxDepth);
    r := if results.Ok? then Ok(results.value) else Err(RuntimeError(results.error));
  }
}
