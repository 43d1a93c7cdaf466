/**
 * Properties of policy evaluation that hold for every expression:
 *  - a successful evaluation leaves the variable stack as deep as it found
 *    it (every scope `let` and a function call enter is left again), and a
 *    failed one never leaves it shallower; function definitions are never
 *    dropped;
 *  - the depth bound only matters when it is reached: an evaluation that
 *    does not run out gives the same outcome with any larger bound.
 */
module PolicyEvalProperties {
  import opened Wrappers
  import opened PolicyParser
  import opened PolicyValues
  import opened VariableStacks
  import opened PolicyEval

  /** `b` is a state reachable from `a`: no scope fewer, no function forgotten. */
  predicate Extends(a: State, b: State) {
    |b.scopes| >= |a.scopes| && a.funcs.Keys <= b.funcs.Keys
  }

  /** A successful evaluation keeps the stack depth; any evaluation extends the state. */
  predicate Balanced(st: State, o: Outcome) {
    Extends(st, o.state) && (o.result.Ok? ==> |o.state.scopes| == |st.scopes|)
  }

  predicate BalancedAll(st: State, o: Outcomes) {
    Extends(st, o.state) && (o.result.Ok? ==> |o.state.scopes| == |st.scopes|)
  }

  lemma DeclareKeepsDepth(scopes: seq<Scope>, name: string, v: Value)
    ensures Declare(scopes, name, v).Some? ==> |Declare(scopes, name, v).value| == |scopes|
  {
  }

  lemma {:induction false} AssignKeepsDepth(scopes: seq<Scope>, name: string, v: Value)
    ensures Assign(scopes, name, v).Some? ==> |Assign(scopes, name, v).value| == |scopes|
    decreases |scopes|
  {
    if |scopes| > 0 && name !in scopes[0] {
      AssignKeepsDepth(scopes[1..], name, v);
    }
  }

  lemma {:induction false} EvalBalanced(e: Expr, st: State, fuel: nat)
    ensures Balanced(st, Eval(e, st, fuel))
    decreases fuel, 0
  {
    if fuel > 0 && e.Node? && |e.items| > 0 && CallName(e.items[0]).Ok? {
      CallBalanced(CallName(e.items[0]).value, e.items[1..], st, fuel - 1);
    }
  }

  lemma {:induction false} EvalAllBalanced(es: seq<Expr>, st: State, fuel: nat)
    ensures BalancedAll(st, EvalAll(es, st, fuel))
    decreases fuel, 1, |es|
  {
    if |es| > 0 {
      var first := Eval(es[0], st, fuel);
      EvalBalanced(es[0], st, fuel);
      if first.result.Ok? {
        EvalAllBalanced(es[1..], first.state, fuel);
      }
    }
  }

  lemma {:induction false} CallBalanced(name: string, args: seq<Expr>, st: State, fuel: nat)
    ensures Balanced(st, Call(name, args, st, fuel))
    decreases fuel, 3
  {
    if IsOperatorName(name) {
      ApplyBuiltinBalanced(name, args, st, fuel);
    } else if name == "def" {
    } else if name == "set" || name == "defvar" {
      SetVariableBalanced(name == "defvar", args, st, fuel);
    } else if name == "let" {
      if |args| == 2 {
        LetBalanced(args[0], args[1], st, fuel);
      }
    } else if name == "if" {
      IfBalanced(args, st, fuel);
    } else if name == "eval" {
      EvalAllBalanced(args, st, fuel);
    } else {
      CallUserBalanced(name, args, st, fuel);
    }
  }

  lemma {:induction false} ApplyBuiltinBalanced(name: string, args: seq<Expr>, st: State, fuel: nat)
    requires IsOperatorName(name)
    ensures Balanced(st, ApplyBuiltin(name, args, st, fuel))
    decreases fuel, 2
  {
    EvalAllBalanced(args, st, fuel);
  }

  lemma {:induction false} SetVariableBalanced(alloc: bool, args: seq<Expr>, st: State, fuel: nat)
    ensures Balanced(st, SetVariable(alloc, args, st, fuel))
    decreases fuel, 2
  {
    if |args| == 2 && args[0].Atom? && args[0].tok.Symbol? {
      var o := Eval(args[1], st, fuel);
      EvalBalanced(args[1], st, fuel);
      if o.result.Ok? {
        DeclareKeepsDepth(o.state.scopes, args[0].tok.name, o.result.value);
        AssignKeepsDepth(o.state.scopes, args[0].tok.name, o.result.value);
      }
    }
  }

  lemma {:induction false} IfBalanced(args: seq<Expr>, st: State, fuel: nat)
    ensures Balanced(st, If(args, st, fuel))
    decreases fuel, 2
  {
    if |args| == 3 {
      var c := Eval(args[0], st, fuel);
      EvalBalanced(args[0], st, fuel);
      if c.result.Ok? {
        EvalBalanced(args[1], c.state, fuel);
        EvalBalanced(args[2], c.state, fuel);
      }
    }
  }

  lemma {:induction false} LetBalanced(syms: Expr, body: Expr, st: State, fuel: nat)
    ensures Balanced(st, Let(syms, body, st, fuel))
    decreases fuel, 2
  {
    if syms.Node? {
      var pushed := st.(scopes := Push(st.scopes));
      var bound := Bind(syms.items, pushed, fuel);
      BindBalanced(syms.items, pushed, fuel);
      if bound.result.Ok? {
        EvalBalanced(body, bound.state, fuel);
      }
    }
  }

  lemma {:induction false} BindBalanced(syms: seq<Expr>, st: State, fuel: nat)
    ensures BalancedAll(st, Bind(syms, st, fuel))
    decreases fuel, 1, |syms|
  {
    if |syms| > 0 {
      var sym := syms[0];
      if sym.Node? && |sym.items| == 2 && sym.items[0].Atom? && sym.items[0].tok.Symbol? {
        var o := Eval(sym.items[1], st, fuel);
        EvalBalanced(sym.items[1], st, fuel);
        if o.result.Ok? {
          var next := Declare(o.state.scopes, sym.items[0].tok.name, o.result.value);
          DeclareKeepsDepth(o.state.scopes, sym.items[0].tok.name, o.result.value);
          if next.Some? {
            BindBalanced(syms[1..], o.state.(scopes := next.value), fuel);
          }
        }
      }
    }
  }

  lemma {:induction false} CallUserBalanced(name: string, args: seq<Expr>, st: State, fuel: nat)
    ensures Balanced(st, CallUser(name, args, st, fuel))
    decreases fuel, 2
  {
    if name in st.funcs {
      var f := st.funcs[name];
      if f.params.Node? && |f.params.items| == |args| {
        EvalBalanced(CallAsLet(f.params.items, args, f.body), st, fuel);
      }
    }
  }

  /**
   * A `let` that fails after entering its scope leaves that scope on the
   * stack: the source leaves the scope only on the success path.
   */
  lemma LetErrorKeepsScope(syms: Expr, body: Expr, st: State, fuel: nat)
    requires syms.Node? && Let(syms, body, st, fuel).result.Err?
    ensures |Let(syms, body, st, fuel).state.scopes| > |st.scopes|
  {
    var pushed := st.(scopes := Push(st.scopes));
    var bound := Bind(syms.items, pushed, fuel);
    BindBalanced(syms.items, pushed, fuel);
    if bound.result.Ok? {
      EvalBalanced(body, bound.state, fuel);
    }
  }

  // ---------------------------------------------------------------------
  // the depth bound

  lemma {:induction false} EvalFuel(e: Expr, st: State, f: nat, g: nat)
    requires f <= g && Eval(e, st, f).result != Err(TooDeep)
    ensures Eval(e, st, g) == Eval(e, st, f)
    decreases f, 0
  {
    if e.Node? && |e.items| > 0 && CallName(e.items[0]).Ok? {
      CallFuel(CallName(e.items[0]).value, e.items[1..], st, f - 1, g - 1);
    }
  }

  lemma {:induction false} EvalAllFuel(es: seq<Expr>, st: State, f: nat, g: nat)
    requires f <= g && EvalAll(es, st, f).result != Err(TooDeep)
    ensures EvalAll(es, st, g) == EvalAll(es, st, f)
    decreases f, 1, |es|
  {
    if |es| > 0 {
      var first := Eval(es[0], st, f);
      EvalFuel(es[0], st, f, g);
      if first.result.Ok? {
        EvalAllFuel(es[1..], first.state, f, g);
      }
    }
  }

  lemma {:induction false} CallFuel(name: string, args: seq<Expr>, st: State, f: nat, g: nat)
    requires f <= g && Call(name, args, st, f).result != Err(TooDeep)
    ensures Call(name, args, st, g) == Call(name, args, st, f)
    decreases f, 3
  {
    if IsOperatorName(name) {
      EvalAllFuel(args, st, f, g);
    } else if name == "def" {
    } else if name == "set" || name == "defvar" {
      if |args| == 2 && args[0].Atom? && args[0].tok.Symbol? {
        EvalFuel(args[1], st, f, g);
      }
    } else if name == "let" {
      if |args| == 2 {
        LetFuel(args[0], args[1], st, f, g);
      }
    } else if name == "if" {
      if |args| == 3 {
        var c := Eval(args[0], st, f);
        EvalFuel(args[0], st, f, g);
        if c.result.Ok? {
          if Truthy(c.result.value) {
            EvalFuel(args[1], c.state, f, g);
          } else {
            EvalFuel(args[2], c.state, f, g);
          }
        }
      }
    } else if name == "eval" {
      EvalAllFuel(args, st, f, g);
    } else if name in st.funcs {
      var fd := st.funcs[name];
      if fd.params.Node? && |fd.params.items| == |args| {
        EvalFuel(CallAsLet(fd.params.items, args, fd.body), st, f, g);
      }
    }
  }

  lemma {:induction false} LetFuel(syms: Expr, body: Expr, st: State, f: nat, g: nat)
    requires f <= g && Let(syms, body, st, f).result != Err(TooDeep)
    ensures Let(syms, body, st, g) == Let(syms, body, st, f)
    decreases f, 2
  {
    if syms.Node? {
      var pushed := st.(scopes := Push(st.scopes));
      var bound := Bind(syms.items, pushed, f);
      BindFuel(syms.items, pushed, f, g);
      if bound.result.Ok? {
        EvalFuel(body, bound.state, f, g);
      }
    }
  }

  lemma {:induction false} BindFuel(syms: seq<Expr>, st: State, f: nat, g: nat)
    requires f <= g && Bind(syms, st, f).result != Err(TooDeep)
    ensures Bind(syms, st, g) == Bind(syms, st, f)
    decreases f, 1, |syms|
  {
    if |syms| > 0 {
      var sym := syms[0];
      if sym.Node? && |sym.items| == 2 && sym.items[0].Atom? && sym.items[0].tok.Symbol? {
        var o := Eval(sym.items[1], st, f);
        EvalFuel(sym.items[1], st, f, g);
        if o.result.Ok? {
          var next := Declare(o.state.scopes, sym.items[0].tok.name, o.result.value);
          if next.Some? {
            BindFuel(syms[1..], o.state.(scopes := next.value), f, g);
          }
        }
      }
    }
  }

  // ---------------------------------------------------------------------
  // a sequence of expressions

  /** When every expression succeeds there is one result per expression, in order. */
  lemma {:induction false} EvalAllResults(es: seq<Expr>, st: State, fuel: nat)
    requires EvalAll(es, st, fuel).result.Ok?
    ensures |EvalAll(es, st, fuel).result.value| == |es|
    ensures |es| > 0 ==> EvalAll(es, st, fuel).result.value[0] == Eval(es[0], st, fuel).result.value
    decreases |es|
  {
    if |es| > 0 {
      EvalAllResults(es[1..], Eval(es[0], st, fuel).state, fuel);
    }
  }

  /**
   * A failing sequence fails at its first failing expression: everything
   * before `k` succeeded, expression `k` failed with the error reported, and
   * the expressions after it were not evaluated (the final state is the one
   * expression `k` left).
   */
  lemma {:induction false} EvalAllFirstError(es: seq<Expr>, st: State, fuel: nat) returns (k: nat)
    requires EvalAll(es, st, fuel).result.Err?
    ensures k < |es|
    ensures var before := EvalAll(es[..k], st, fuel);
      before.result.Ok? &&
      Eval(es[k], before.state, fuel).result == Err(EvalAll(es, st, fuel).result.error) &&
      Eval(es[k], before.state, fuel).state == EvalAll(es, st, fuel).state
    decreases |es|
  {
    var first := Eval(es[0], st, fuel);
    if first.result.Err? {
      k := 0;
      assert es[..0] == [];
    } else {
      var k' := EvalAllFirstError(es[1..], first.state, fuel);
      k := k' + 1;
      assert es[..k][0] == es[0] && es[..k][1..] == es[1..][..k'];
      assert es[k] == es[1..][k'];
    }
  }
}
