/**
 * What evaluating a policy expression does (mom/Policy/Parser.py,
 * `GenericEvaluator._dispatch` and `eval`, `Evaluator` and the module-level
 * `eval`), written as functions that take the evaluator's state (variable
 * stack and function table) and return the result with the new state.
 *
 * An error keeps whatever the evaluation changed before it (a `defvar`
 * already done, a scope entered by `let` and not left): the source raises
 * an exception and no handler undoes anything.
 *
 * Every nested evaluation uses one unit of `fuel`; running out stands for
 * the interpreter's recursion limit, which a recursive policy function hits.
 */
module PolicyEval {
  import opened Wrappers
  import opened PolicyLexer
  import opened PolicyParser
  import opened PolicyValues
  import opened VariableStacks

  /** A user function: its parameter list and body, both unevaluated (`c_def`). */
  datatype FuncDef = FuncDef(params: Expr, body: Expr)

  /** The evaluator's mutable state: `stack` and `funcs`. */
  datatype State = State(scopes: seq<Scope>, funcs: map<string, FuncDef>)

  /** The result of one evaluation and the state after it. */
  datatype Outcome = Outcome(result: Result<Value, EvalError>, state: State)

  /** The results of a list of evaluations, stopping at the first error. */
  datatype Outcomes = Outcomes(result: Result<seq<Value>, EvalError>, state: State)

  /** The evaluation depth allowed to a policy. */
  const MaxDepth: nat := 1000

  /** The state of a new `Evaluator`: one empty global scope, no functions. */
  const Initial: State := State([map[]], map[])

  // ---------------------------------------------------------------------
  // tokens

  /** `eval_number`: integers, hex and octal through Python's `int(text, 0)`. */
  function EvalNumber(kind: NumKind, text: string): Result<Value, EvalError> {
    if kind == Float then Err(Unsupported("floating point"))
    else
      match IntBase0(text)
      case None => Err(BadNumber(text))
      case Some(n) => Ok(Int(n))
  }

  /** `code.value[1:-1]`: a string literal without its quotes. */
  function Unquote(text: string): string {
    if |text| >= 2 then text[1..|text| - 1] else ""
  }

  /** `eval` of a single token. */
  function EvalToken(t: Token, st: State): Result<Value, EvalError> {
    match t
    case Number(kind, text) => EvalNumber(kind, text)
    case Quoted(text) => Ok(Str(Unquote(text)))
    case Symbol(name) =>
      (match Lookup(st.scopes, name)
       case None => Err(UndefinedSymbol(name))
       case Some(v) => Ok(v))
    case _ => Err(Malformed("unexpected token type"))
  }

  /** The name a call's first element selects: a symbol, or an operator's `operator_map` entry. */
  function CallName(head: Expr): Result<string, EvalError> {
    match head
    case Node(_) => Err(Malformed("expected simple token as arg 1"))
    case Atom(Symbol(name)) => Ok(name)
    case Atom(Operator(op)) =>
      (match OperatorName(op)
       case None => Err(Malformed("unknown operator"))
       case Some(name) => Ok(name))
    case Atom(_) => Err(Malformed("unexpected token type in arg 1"))
  }

  /** The built-ins without a signature string: all arguments are evaluated. */
  predicate IsOperatorName(name: string) {
    name in {"add", "sub", "mul", "div", "lt", "gt", "lte", "gte", "eq", "neq", "shl", "shr"}
  }

  /** The built-ins with a signature string. */
  predicate IsSpecialForm(name: string) {
    name in {"def", "set", "defvar", "let", "if"}
  }

  /** The `let` that `default` builds for a call: each parameter paired with its argument. */
  function CallAsLet(params: seq<Expr>, args: seq<Expr>, body: Expr): Expr
    requires |params| == |args|
  {
    Node([Atom(Symbol("let")), Node(seq(|params|, i requires 0 <= i < |params| => Node([params[i], args[i]]))), body])
  }

  // ---------------------------------------------------------------------
  // evaluation

  /** `GenericEvaluator.eval`. */
  function Eval(e: Expr, st: State, fuel: nat): Outcome
    decreases fuel, 0
  {
    if fuel == 0 then Outcome(Err(TooDeep), st)
    else
      match e
      case Atom(t) => Outcome(EvalToken(t, st), st)
      case Node(items) =>
        if |items| == 0 then Outcome(Err(Malformed("empty call")), st)
        else
          match CallName(items[0])
          case Err(err) => Outcome(Err(err), st)
          case Ok(name) => Call(name, items[1..], st, fuel - 1)
  }

  /** `map(self.eval, args)`: left to right, stopping at the first error. */
  function EvalAll(es: seq<Expr>, st: State, fuel: nat): Outcomes
    decreases fuel, 1, |es|
  {
    if |es| == 0 then Outcomes(Ok([]), st)
    else
      var first := Eval(es[0], st, fuel);
      match first.result
      case Err(err) => Outcomes(Err(err), first.state)
      case Ok(v) =>
        var rest := EvalAll(es[1..], first.state, fuel);
        match rest.result
        case Err(err) => rest
        case Ok(vs) => Outcomes(Ok([v] + vs), rest.state)
  }

  /** The dispatch on a call's name: `c_<name>` when it exists, `default` otherwise. */
  function Call(name: string, args: seq<Expr>, st: State, fuel: nat): Outcome
    decreases fuel, 3
  {
    if IsOperatorName(name) then ApplyBuiltin(name, args, st, fuel)
    else if name == "def" then Define(args, st)
    else if name == "set" || name == "defvar" then SetVariable(name == "defvar", args, st, fuel)
    else if name == "let" then
      (if |args| != 2 then Outcome(Err(ArityMismatch(name)), st) else Let(args[0], args[1], st, fuel))
    else if name == "if" then If(args, st, fuel)
    else if name == "eval" then
      var all := EvalAll(args, st, fuel);
      Outcome(if all.result.Ok? then Ok(List(all.result.value)) else Err(all.result.error), all.state)
    else CallUser(name, args, st, fuel)
  }

  /**
   * `c_add` … `c_shr` through `_dispatch`: every argument is evaluated, and
   * only then is the number of arguments checked.
   */
  function ApplyBuiltin(name: string, args: seq<Expr>, st: State, fuel: nat): Outcome
    requires IsOperatorName(name)
    decreases fuel, 2
  {
    var all := EvalAll(args, st, fuel);
    match all.result
    case Err(err) => Outcome(Err(err), all.state)
    case Ok(vs) =>
      if |vs| != 2 then Outcome(Err(ArityMismatch(name)), all.state)
      else
        match ApplyOperator(name, vs[0], vs[1])
        case None => Outcome(Err(UnknownFunction(name)), all.state)
        case Some(r) => Outcome(r, all.state)
  }

  /** `c_def` (signature `symbol code code`): records the function, returns its name. */
  function Define(args: seq<Expr>, st: State): Outcome {
    if |args| != 3 then Outcome(Err(ArityMismatch("def")), st)
    else if !(args[0].Atom? && args[0].tok.Symbol?) then Outcome(Err(Malformed("malformed expression")), st)
    else
      var name := args[0].tok.name;
      Outcome(Ok(Str(name)), st.(funcs := st.funcs[name := FuncDef(args[1], args[2])]))
  }

  /** `c_set` and `c_defvar` (signature `symbol value`). */
  function SetVariable(alloc: bool, args: seq<Expr>, st: State, fuel: nat): Outcome
    decreases fuel, 2
  {
    var form := if alloc then "defvar" else "set";
    if |args| != 2 then Outcome(Err(ArityMismatch(form)), st)
    else if !(args[0].Atom? && args[0].tok.Symbol?) then Outcome(Err(Malformed("malformed expression")), st)
    else
      var name := args[0].tok.name;
      var o := Eval(args[1], st, fuel);
      match o.result
      case Err(_) => o
      case Ok(v) =>
        var next := if alloc then Declare(o.state.scopes, name, v) else Assign(o.state.scopes, name, v);
        match next
        case None => Outcome(Err(if alloc then Malformed("no scope to bind in") else UndefinedSymbol(name)), o.state)
        case Some(scopes) => Outcome(Ok(v), o.state.(scopes := scopes))
  }

  /** `c_if` (signature `value code code`): only the chosen branch is evaluated. */
  function If(args: seq<Expr>, st: State, fuel: nat): Outcome
    decreases fuel, 2
  {
    if |args| != 3 then Outcome(Err(ArityMismatch("if")), st)
    else
      var c := Eval(args[0], st, fuel);
      match c.result
      case Err(_) => c
      case Ok(v) => if Truthy(v) then Eval(args[1], c.state, fuel) else Eval(args[2], c.state, fuel)
  }

  /**
   * `c_let` (signature `code code`): enters a scope, binds each
   * `(symbol value)` pair in order, evaluates the body and leaves the scope.
   * The scope is left only when everything succeeded.
   */
  function Let(syms: Expr, body: Expr, st: State, fuel: nat): Outcome
    decreases fuel, 2
  {
    if !syms.Node? then Outcome(Err(Malformed("expecting list as arg 1 in let")), st)
    else
      var bound := Bind(syms.items, st.(scopes := Push(st.scopes)), fuel);
      if bound.result.Err? then Outcome(Err(bound.result.error), bound.state)
      else
        var o := Eval(body, bound.state, fuel);
        if o.result.Err? then o
        else Outcome(o.result, o.state.(scopes := Pop(o.state.scopes)))
  }

  /** The binding loop of `c_let`: each value is evaluated and then bound in the innermost scope. */
  function Bind(syms: seq<Expr>, st: State, fuel: nat): Outcomes
    decreases fuel, 1, |syms|
  {
    if |syms| == 0 then Outcomes(Ok([]), st)
    else
      var sym := syms[0];
      if !sym.Node? || |sym.items| != 2 then Outcomes(Err(Malformed("expecting list of tuples in arg1 of let")), st)
      else if !(sym.items[0].Atom? && sym.items[0].tok.Symbol?) then
        Outcomes(Err(Malformed("expecting list of (symbol value) in let")), st)
      else
        var o := Eval(sym.items[1], st, fuel);
        match o.result
        case Err(err) => Outcomes(Err(err), o.state)
        case Ok(v) =>
          match Declare(o.state.scopes, sym.items[0].tok.name, v)
          case None => Outcomes(Err(Malformed("no scope to bind in")), o.state)
          case Some(scopes) => Bind(syms[1..], o.state.(scopes := scopes), fuel)
  }

  /** `default` for a user function: the call becomes a `let` binding its parameters. */
  function CallUser(name: string, args: seq<Expr>, st: State, fuel: nat): Outcome
    decreases fuel, 2
  {
    if name !in st.funcs then Outcome(Err(UnknownFunction(name)), st)
    else
      var f := st.funcs[name];
      if !f.params.Node? then Outcome(Err(Malformed("parameters are not a list")), st)
      else if |f.params.items| != |args| then Outcome(Err(ArityMismatch(name)), st)
      else Eval(CallAsLet(f.params.items, args, f.body), st, fuel)
  }

  /** `vs` followed by the results of further evaluations; an error is kept as it is. */
  function Extend(vs: seq<Value>, o: Outcomes): Outcomes {
    match o.result
    case Ok(ws) => Outcomes(Ok(vs + ws), o.state)
    case Err(_) => o
  }

  /** One step of `EvalAll`, as a loop over the arguments takes it. */
  lemma EvalAllStep(es: seq<Expr>, st: State, fuel: nat)
    requires |es| > 0
    ensures var first := Eval(es[0], st, fuel);
      EvalAll(es, st, fuel) ==
        if first.result.Err? then Outcomes(Err(first.result.error), first.state)
        else Extend([first.result.value], EvalAll(es[1..], first.state, fuel))
  {
  }

  lemma ExtendExtend(a: seq<Value>, b: seq<Value>, o: Outcomes)
    ensures Extend(a, Extend(b, o)) == Extend(a + b, o)
  {
    if o.result.Ok? {
      assert a + (b + o.result.value) == (a + b) + o.result.value;
    }
  }

  lemma ExtendNothing(o: Outcomes)
    ensures Extend([], o) == o
  {
    if o.result.Ok? {
      assert [] + o.result.value == o.result.value;
    }
  }

  /** The module-level `eval`: the program's expressions in order, collecting the results. */
  function Run(code: seq<Expr>, st: State): Outcomes {
    EvalAll(code, st, MaxDepth)
  }

  /** Why a policy text could not be run. */
  datatype ProgramError = SyntaxError(msg: string) | RuntimeError(err: EvalError)

  /** The module-level `eval` on text: scan, parse, then run every expression. */
  function EvalText(text: string, st: State): (Result<seq<Value>, ProgramError>, State) {
    match GetCode(text)
    case Err(msg) => (Err(SyntaxError(msg)), st)
    case Ok(code) =>
      var o := Run(code, st);
      (if o.result.Ok? then Ok(o.result.value) else Err(RuntimeError(o.result.error)), o.state)
  }

  /** Policy text to expression trees: scan, then parse a `value_list`. */
  function GetCode(text: string): Result<seq<Expr>, string> {
    match Lex(text)
    case Err(_) => Err("lexical error")
    case Ok(toks) =>
      match Parse(toks)
      case Err(_) => Err("syntax error")
      case Ok(code) => Ok(code)
  }
}
