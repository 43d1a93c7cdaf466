/**
 * Worked evaluations of policy programs from mom/Policy/TestParser.py,
 * run through the evaluation model expression by expression.  Each step
 * names the state the evaluator is left in, so the effect of `let`, of a
 * user function call (a `let` of its parameters), of `set`, `defvar` and
 * `if` on the variable stack is spelled out.
 */
module PolicyExamples {
  import opened Wrappers
  import opened PolicyLexer
  import opened PolicyParser
  import opened PolicyValues
  import opened VariableStacks
  import opened PolicyEval
  import opened Policies

  function Sym(n: string): Expr { Atom(Symbol(n)) }
  function Num(t: string): Expr { Atom(Number(Integer, t)) }
  /** A call of the function or special form `f`. */
  function Form(f: string, args: seq<Expr>): Expr { Node([Sym(f)] + args) }
  /** A call of a binary operator. */
  function Op(o: string, x: Expr, y: Expr): Expr { Node([Atom(Operator(o)), x, y]) }

  /**
   * A program whose every expression succeeds, each in the state the one
   * before it left, runs to the list of their results.
   */
  lemma {:induction false} RunAll(code: seq<Expr>, states: seq<State>, values: seq<Value>)
    requires |states| == |code| + 1 && |values| == |code|
    requires forall i :: 0 <= i < |code| ==> Eval(code[i], states[i], MaxDepth) == Outcome(Ok(values[i]), states[i + 1])
    ensures Run(code, states[0]) == Outcomes(Ok(values), states[|code|])
    decreases |code|
  {
    if |code| > 0 {
      EvalAllStep(code, states[0], MaxDepth);
      RunAll(code[1..], states[1..], values[1..]);
      assert [values[0]] + values[1..] == values;
    }
  }

  /** Two programs that succeed one after the other succeed as one. */
  lemma RunHalves(a: seq<Expr>, b: seq<Expr>, st: State, va: seq<Value>, mid: State, vb: seq<Value>, final: State)
    requires Run(a, st) == Outcomes(Ok(va), mid) && Run(b, mid) == Outcomes(Ok(vb), final)
    ensures Run(a + b, st) == Outcomes(Ok(va + vb), final)
  {
    RunAppend(a, b, st);
  }

  // ---------------------------------------------------------------------
  // test_basic_math, test_string and test_compare: literals and operators.

  /** Octal and hexadecimal literals, read as `int(text, 0)` reads them. */
  lemma NumberExamples()
    ensures IntBase0("00") == Some(0)
    ensures IntBase0("0xFF") == Some(255)
    ensures IntBase0("011") == Some(9)
    ensures IntBase0("0xa") == Some(10)
  {
    assert "00"[1..] == "0" && BaseValue("0", 8) == Some(0);
    assert "0xFF"[2..] == "FF" && "FF"[..1] == "F";
    assert BaseValue("F", 16) == Some(15);
    assert "011"[1..] == "11" && "11"[..1] == "1";
    assert "0xa"[2..] == "a";
  }

  /** Integer division floors; shifts; numbers mixed with strings. */
  lemma OperatorExamples()
    ensures ApplyOperator("div", Int(11), Int(2)) == Some(Ok(Int(5)))
    ensures ApplyOperator("sub", Int(1), Int(9)) == Some(Ok(Int(-8)))
    ensures ApplyOperator("shl", Int(1), Int(4)) == Some(Ok(Int(16)))
    ensures ApplyOperator("shr", Int(16), Int(2)) == Some(Ok(Int(4)))
    ensures ApplyOperator("add", Str("Hello "), Str("World!")) == Some(Ok(Str("Hello World!")))
    ensures ApplyOperator("mul", Int(3), Str("Hey ")) == Some(Ok(Str("Hey Hey Hey ")))
  {
    assert "Hello " + "World!" == "Hello World!";
    assert Repeat("Hey ", 1) == "Hey ";
    assert Repeat("Hey ", 2) == "Hey Hey ";
    assert "Hey " + "Hey Hey " == "Hey Hey Hey ";
  }

  /** The comparisons of `test_compare`. */
  lemma CompareExamples()
    ensures ApplyOperator("lt", Int(5), Int(4)) == Some(Ok(Bool(false)))
    ensures ApplyOperator("lte", Int(10), Int(10)) == Some(Ok(Bool(true)))
    ensures ApplyOperator("gte", Int(2), Int(5)) == Some(Ok(Bool(false)))
    ensures ApplyOperator("neq", Str("foo"), Str("foo")) == Some(Ok(Bool(false)))
    ensures ApplyOperator("eq", Int(0), Int(0)) == Some(Ok(Bool(true)))
  {
  }

  // ---------------------------------------------------------------------
  // test_let: a function called inside a `let` sees the `let`'s binding,
  // and the global `a` is unaffected.

  const AddTwo := Op("+", Num("2"), Sym("a"))
  const LetFuncs := map["foo" := FuncDef(Node([Sym("a")]), AddTwo)]
  /** After `(def foo (a) (+ 2 a))` and `(defvar a 2)`. */
  const LetGlobal := State([map["a" := Int(2)]], LetFuncs)
  /** Inside `(let ((a 1) (b 2)) ...)`. */
  const LetInner := State([map["a" := Int(1), "b" := Int(2)], map["a" := Int(2)]], LetFuncs)
  /** Inside the call `(foo a)`. */
  const LetCall := State([map["a" := Int(1)], map["a" := Int(1), "b" := Int(2)], map["a" := Int(2)]], LetFuncs)
  const FooAsLet := Form("let", [Node([Node([Sym("a"), Sym("a")])]), AddTwo])

  function LetProgram(): seq<Expr> {
    [Form("def", [Sym("foo"), Node([Sym("a")]), AddTwo]),
     Form("defvar", [Sym("a"), Num("2")]),
     Form("let", [Node([Node([Sym("a"), Num("1")]), Node([Sym("b"), Num("2")])]), Form("foo", [Sym("a")])]),
     Sym("a")]
  }

  lemma LetBindsInOrder()
    ensures Bind([Node([Sym("a"), Num("1")]), Node([Sym("b"), Num("2")])], LetGlobal.(scopes := Push(LetGlobal.scopes)), 999)
      == Outcomes(Ok([]), LetInner)
  {
  }

  /** The argument `a` is read in the scope the call pushed, which finds the `let`'s `a`. */
  lemma FooBindsArgument()
    ensures Bind([Node([Sym("a"), Sym("a")])], LetInner.(scopes := Push(LetInner.scopes)), 997)
      == Outcomes(Ok([]), LetCall)
  {
    assert Lookup(Push(LetInner.scopes), "a") == Some(Int(1));
  }

  lemma FooBody()
    ensures Eval(AddTwo, LetCall, 997) == Outcome(Ok(Int(3)), LetCall)
  {
  }

  /** `default` turns `(foo a)` into `(let ((a a)) (+ 2 a))`. */
  lemma FooDesugars()
    ensures CallAsLet([Sym("a")], [Sym("a")], AddTwo) == FooAsLet
  {
    var pairs := seq(1, i requires 0 <= i < 1 => Node([[Sym("a")][i], [Sym("a")][i]]));
    assert pairs == [Node([Sym("a"), Sym("a")])];
  }

  lemma FooLet()
    ensures Eval(FooAsLet, LetInner, 998) == Outcome(Ok(Int(3)), LetInner)
  {
    FooBindsArgument();
    FooBody();
  }

  lemma FooCall()
    ensures Eval(Form("foo", [Sym("a")]), LetInner, 999) == Outcome(Ok(Int(3)), LetInner)
  {
    FooDesugars();
    FooLet();
    assert CallUser("foo", [Sym("a")], LetInner, 998) == Eval(FooAsLet, LetInner, 998);
  }

  lemma LetDefines()
    ensures Eval(LetProgram()[0], Initial, MaxDepth) == Outcome(Ok(Str("foo")), State([map[]], LetFuncs))
  {
  }

  lemma LetDeclares()
    ensures Eval(LetProgram()[1], State([map[]], LetFuncs), MaxDepth) == Outcome(Ok(Int(2)), LetGlobal)
  {
  }

  /** The `let` evaluates to 3 and leaves the stack as it found it. */
  lemma LetLeavesGlobal()
    ensures Eval(LetProgram()[2], LetGlobal, MaxDepth) == Outcome(Ok(Int(3)), LetGlobal)
  {
    LetBindsInOrder();
    FooCall();
  }

  lemma LetReadsGlobal()
    ensures Eval(LetProgram()[3], LetGlobal, MaxDepth) == Outcome(Ok(Int(2)), LetGlobal)
  {
  }

  /** `test_let`: the results are `['foo', 2, 3, 2]`. */
  lemma LetExample()
    ensures Run(LetProgram(), Initial) == Outcomes(Ok([Str("foo"), Int(2), Int(3), Int(2)]), LetGlobal)
  {
    LetDefines();
    LetDeclares();
    LetLeavesGlobal();
    LetReadsGlobal();
    RunAll(LetProgram(), [Initial, State([map[]], LetFuncs), LetGlobal, LetGlobal, LetGlobal],
      [Str("foo"), Int(2), Int(3), Int(2)]);
  }

  // ---------------------------------------------------------------------
  // test_scope: `set` in a function body changes the caller's variable,
  // `defvar` there makes a local one, `let` makes a local one, and `if`
  // opens no scope, so a `defvar` in its branch rebinds in place.

  const SetBody := Form("set", [Sym("a"), Sym("b")])
  const DefvarBody := Form("defvar", [Sym("a"), Sym("b")])
  const SetFuncs := map["foo" := FuncDef(Node([Sym("b")]), SetBody)]
  const DefvarFuncs := map["foo" := FuncDef(Node([Sym("b")]), DefvarBody)]

  const DefineA := Form("defvar", [Sym("a"), Num("10")])
  const DefineSetter := Form("def", [Sym("foo"), Node([Sym("b")]), SetBody])
  const CallSetter := Form("foo", [Num("2")])
  const DefineDeclarer := Form("def", [Sym("foo"), Node([Sym("b")]), DefvarBody])
  const CallDeclarer := Form("foo", [Num("4")])
  const SetA := Form("set", [Sym("a"), Num("5")])
  const ShadowA := Form("let", [Node([Node([Sym("a"), Num("4")])]), Sym("a")])
  const RebindA := Form("if", [Op("==", Sym("a"), Num("5")), Form("defvar", [Sym("a"), Num("4")]), Num("0")])

  /** The first half of `test_scope`: the two definitions of `foo` and their calls. */
  const ScopeCalls := [DefineA, DefineSetter, CallSetter, Sym("a"), DefineDeclarer, CallDeclarer]
  /** The second half: `set` and `let` on the global `a`, then `if`. */
  const ScopeAssigns := [Sym("a"), SetA, ShadowA]
  const ScopeBranches := [Sym("a"), RebindA, Sym("a")]
  const ScopeForms := ScopeAssigns + ScopeBranches

  function ScopeProgram(): seq<Expr> {
    ScopeCalls + ScopeForms
  }

  /** The states the program passes through: the global `a` and the function table. */
  const A10 := State([map["a" := Int(10)]], map[])
  const A10Setter := State([map["a" := Int(10)]], SetFuncs)
  const A2Setter := State([map["a" := Int(2)]], SetFuncs)
  const A2Declarer := State([map["a" := Int(2)]], DefvarFuncs)
  const A5Declarer := State([map["a" := Int(5)]], DefvarFuncs)
  const A4Declarer := State([map["a" := Int(4)]], DefvarFuncs)

  /** A one-parameter function called with `arg`: `(let ((b arg)) body)`. */
  lemma CallDesugars(arg: Expr, body: Expr)
    ensures CallAsLet([Sym("b")], [arg], body) == Form("let", [Node([Node([Sym("b"), arg])]), body])
  {
    var pairs := seq(1, i requires 0 <= i < 1 => Node([[Sym("b")][i], [arg][i]]));
    assert pairs == [Node([Sym("b"), arg])];
  }

  lemma ScopeDefineA()
    ensures Eval(DefineA, Initial, MaxDepth) == Outcome(Ok(Int(10)), A10)
  {
    assert "10"[..1] == "1";
    assert BaseValue("1", 10) == Some(1);
    assert BaseValue("10", 10) == Some(10);
  }

  lemma ScopeDefineSetter()
    ensures Eval(DefineSetter, A10, MaxDepth) == Outcome(Ok(Str("foo")), A10Setter)
  {
  }

  const SetterFrame := State([map["b" := Int(2)], map["a" := Int(10)]], SetFuncs)

  lemma SetterBinds()
    ensures Bind([Node([Sym("b"), Num("2")])], A10Setter.(scopes := Push(A10Setter.scopes)), 998)
      == Outcomes(Ok([]), SetterFrame)
  {
  }

  /** `set` in the body finds the caller's `a`, past the parameter scope. */
  lemma SetterAssigns()
    ensures Eval(SetBody, SetterFrame, 998) == Outcome(Ok(Int(2)), State([map["b" := Int(2)], map["a" := Int(2)]], SetFuncs))
  {
    assert Lookup(SetterFrame.scopes, "b") == Some(Int(2));
    AssignAt(SetterFrame.scopes, "a", Int(2), 1);
    assert map["a" := Int(10)]["a" := Int(2)] == map["a" := Int(2)];
  }

  /** The call's `let` leaves the parameter scope and keeps the change to the caller's `a`. */
  lemma SetterLet()
    ensures Eval(Form("let", [Node([Node([Sym("b"), Num("2")])]), SetBody]), A10Setter, 999) == Outcome(Ok(Int(2)), A2Setter)
  {
    SetterBinds();
    SetterAssigns();
  }

  lemma ScopeCallSetter()
    ensures Eval(CallSetter, A10Setter, MaxDepth) == Outcome(Ok(Int(2)), A2Setter)
  {
    CallDesugars(Num("2"), SetBody);
    SetterLet();
    assert CallUser("foo", [Num("2")], A10Setter, 999) == Eval(Form("let", [Node([Node([Sym("b"), Num("2")])]), SetBody]), A10Setter, 999);
  }

  lemma ScopeDefineDeclarer()
    ensures Eval(DefineDeclarer, A2Setter, MaxDepth) == Outcome(Ok(Str("foo")), A2Declarer)
  {
  }

  const DeclarerFrame := State([map["b" := Int(4)], map["a" := Int(2)]], DefvarFuncs)

  lemma DeclarerBinds()
    ensures Bind([Node([Sym("b"), Num("4")])], A2Declarer.(scopes := Push(A2Declarer.scopes)), 998)
      == Outcomes(Ok([]), DeclarerFrame)
  {
  }

  /** `defvar` in the body binds in the parameter scope, which the call then leaves. */
  lemma DeclarerDeclares()
    ensures Eval(DefvarBody, DeclarerFrame, 998)
      == Outcome(Ok(Int(4)), State([map["b" := Int(4), "a" := Int(4)], map["a" := Int(2)]], DefvarFuncs))
  {
    assert Lookup(DeclarerFrame.scopes, "b") == Some(Int(4));
  }

  /** The call's `let` drops the parameter scope, and the `a` declared in it with it. */
  lemma DeclarerLet()
    ensures Eval(Form("let", [Node([Node([Sym("b"), Num("4")])]), DefvarBody]), A2Declarer, 999) == Outcome(Ok(Int(4)), A2Declarer)
  {
    DeclarerBinds();
    DeclarerDeclares();
  }

  lemma ScopeCallDeclarer()
    ensures Eval(CallDeclarer, A2Declarer, MaxDepth) == Outcome(Ok(Int(4)), A2Declarer)
  {
    CallDesugars(Num("4"), DefvarBody);
    DeclarerLet();
    assert CallUser("foo", [Num("4")], A2Declarer, 999) == Eval(Form("let", [Node([Node([Sym("b"), Num("4")])]), DefvarBody]), A2Declarer, 999);
  }

  lemma ScopeSetA()
    ensures Eval(SetA, A2Declarer, MaxDepth) == Outcome(Ok(Int(5)), A5Declarer)
  {
    AssignAt(A2Declarer.scopes, "a", Int(5), 0);
    assert map["a" := Int(2)]["a" := Int(5)] == map["a" := Int(5)];
  }

  /** `let` binds a local `a` and leaves the global one as it was. */
  lemma ScopeShadowA()
    ensures Eval(ShadowA, A5Declarer, MaxDepth) == Outcome(Ok(Int(4)), A5Declarer)
  {
  }

  /** The condition `(== a 5)` holds after the `set`. */
  lemma RebindCondition()
    ensures Eval(Op("==", Sym("a"), Num("5")), A5Declarer, 999) == Outcome(Ok(Bool(true)), A5Declarer)
  {
    assert Eval(Sym("a"), A5Declarer, 998) == Outcome(Ok(Int(5)), A5Declarer);
    assert Eval(Num("5"), A5Declarer, 998) == Outcome(Ok(Int(5)), A5Declarer);
    assert [Sym("a"), Num("5")][1..] == [Num("5")] && [Num("5")][1..] == [];
    assert EvalAll([], A5Declarer, 998) == Outcomes(Ok([]), A5Declarer);
    EvalAllStep([Num("5")], A5Declarer, 998);
    assert [Int(5)] + [] == [Int(5)];
    EvalAllStep([Sym("a"), Num("5")], A5Declarer, 998);
    assert [Int(5)] + [Int(5)] == [Int(5), Int(5)];
    assert EvalAll([Sym("a"), Num("5")], A5Declarer, 998) == Outcomes(Ok([Int(5), Int(5)]), A5Declarer);
    assert PyEq(Int(5), Int(5));
  }

  /** The branch's `defvar` finds `a` in the one scope there is and rebinds it. */
  lemma RebindBranch()
    ensures Eval(Form("defvar", [Sym("a"), Num("4")]), A5Declarer, 999) == Outcome(Ok(Int(4)), A4Declarer)
  {
    assert map["a" := Int(5)]["a" := Int(4)] == map["a" := Int(4)];
  }

  /** `if` opens no scope: the `defvar` in its branch rebinds the global `a`. */
  lemma ScopeRebindA()
    ensures Eval(RebindA, A5Declarer, MaxDepth) == Outcome(Ok(Int(4)), A4Declarer)
  {
    RebindCondition();
    RebindBranch();
  }

  lemma ReadA(a: int, fs: map<string, FuncDef>)
    ensures Eval(Sym("a"), State([map["a" := Int(a)]], fs), MaxDepth) == Outcome(Ok(Int(a)), State([map["a" := Int(a)]], fs))
  {
  }

  /** The function definitions and calls of `test_scope`. */
  lemma ScopeCallsRun()
    ensures Run(ScopeCalls, Initial) ==
      Outcomes(Ok([Int(10), Str("foo"), Int(2), Int(2), Str("foo"), Int(4)]), A2Declarer)
  {
    ScopeDefineA();
    ScopeDefineSetter();
    ScopeCallSetter();
    ReadA(2, SetFuncs);
    ScopeDefineDeclarer();
    ScopeCallDeclarer();
    RunAll(ScopeCalls, [Initial, A10, A10Setter, A2Setter, A2Setter, A2Declarer, A2Declarer],
      [Int(10), Str("foo"), Int(2), Int(2), Str("foo"), Int(4)]);
  }

  /** `set` changes the global `a`; `let` shadows it and leaves it as it was. */
  lemma ScopeAssignsRun()
    ensures Run(ScopeAssigns, A2Declarer) == Outcomes(Ok([Int(2), Int(5), Int(4)]), A5Declarer)
  {
    ReadA(2, DefvarFuncs);
    ScopeSetA();
    ScopeShadowA();
    RunAll(ScopeAssigns, [A2Declarer, A2Declarer, A5Declarer, A5Declarer], [Int(2), Int(5), Int(4)]);
  }

  /** The `if` rebinds the global `a`. */
  lemma ScopeBranchesRun()
    ensures Run(ScopeBranches, A5Declarer) == Outcomes(Ok([Int(5), Int(4), Int(4)]), A4Declarer)
  {
    ReadA(5, DefvarFuncs);
    ScopeRebindA();
    ReadA(4, DefvarFuncs);
    RunAll(ScopeBranches, [A5Declarer, A5Declarer, A4Declarer, A4Declarer], [Int(5), Int(4), Int(4)]);
  }

  /** The `set`, `let` and `if` of `test_scope`. */
  lemma ScopeFormsRun()
    ensures Run(ScopeForms, A2Declarer) ==
      Outcomes(Ok([Int(2), Int(5), Int(4)] + [Int(5), Int(4), Int(4)]), A4Declarer)
  {
    ScopeAssignsRun();
    ScopeBranchesRun();
    RunHalves(ScopeAssigns, ScopeBranches, A2Declarer, [Int(2), Int(5), Int(4)], A5Declarer, [Int(5), Int(4), Int(4)], A4Declarer);
  }

  /** `test_scope`: the results are `[10, 'foo', 2, 2, 'foo', 4, 2, 5, 4, 5, 4, 4]`. */
  lemma ScopeExample()
    ensures Run(ScopeProgram(), Initial) ==
      Outcomes(Ok([Int(10), Str("foo"), Int(2), Int(2), Str("foo"), Int(4)] + ([Int(2), Int(5), Int(4)] + [Int(5), Int(4), Int(4)])),
               A4Declarer)
  {
    ScopeCallsRun();
    ScopeFormsRun();
    RunHalves(ScopeCalls, ScopeForms, Initial, [Int(10), Str("foo"), Int(2), Int(2), Str("foo"), Int(4)], A2Declarer,
      [Int(2), Int(5), Int(4)] + [Int(5), Int(4), Int(4)], A4Declarer);
  }
}
