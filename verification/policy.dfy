/**
 * A policy (mom/Policy/Policy.py): the policy text, the program parsed from
 * it once, and one evaluator that lives as long as the policy.  Each
 * evaluation binds the `Host` and `Guests` entities in the innermost scope
 * and runs the program's expressions in order; it reports only whether all
 * of them succeeded.  Whatever the program defines or binds stays in the
 * evaluator for the next evaluation.
 */
module Policies {
  import opened Wrappers
  import opened PolicyLexer
  import opened PolicyParser
  import opened PolicyValues
  import opened VariableStacks
  import opened PolicyEval
  import opened PolicyEvalProperties
  import opened Evaluators

  /** The state an evaluation runs the program in: `Host` and `Guests` bound with `alloc`. */
  function WithEntities(st: State, host: Value, guests: Value): (r: State)
    requires |st.scopes| > 0
    ensures |r.scopes| == |st.scopes| && r.funcs == st.funcs
  {
    var withHost := Declare(st.scopes, "Host", host).value;
    State(Declare(withHost, "Guests", guests).value, st.funcs)
  }

  /**
   * `evaluate`: whether every expression of the program succeeded, and the
   * evaluator state afterwards.  The innermost scope the bindings go into
   * always exists for a policy's evaluator (see `EvaluationKeepsScope`).
   */
  function Evaluation(code: seq<Expr>, st: State, host: Value, guests: Value): (bool, State)
    requires |st.scopes| > 0
  {
    var o := Run(code, WithEntities(st, host, guests));
    (o.result.Ok?, o.state)
  }

  class Policy {
    const policyString: string
    const evaluator: Evaluator
    const code: seq<Expr>

    /** The evaluator has a scope to bind the entities in. */
    ghost predicate Valid()
      reads evaluator.stack
    {
      |evaluator.stack.scopes| > 0
    }

    constructor (text: string, e: Evaluator, program: seq<Expr>)
      ensures policyString == text && evaluator == e && code == program
    {
      policyString := text;
      evaluator := e;
      code := program;
    }

    /** `get_string`. */
    function GetString(): string {
      policyString
    }

    /**
     * `evaluate`: binds the entities, then evaluates the expressions one by
     * one, stopping at the first that fails.
     */
    method Evaluate(host: Value, guests: Value) returns (ok: bool)
      requires Valid()
      modifies evaluator, evaluator.stack
      ensures Valid()
      ensures (ok, evaluator.Snapshot()) == Evaluation(code, old(evaluator.Snapshot()), host, guests)
    {
      ghost var st := evaluator.Snapshot();
      var _ := evaluator.stack.Set("Host", host, true);
      var _ := evaluator.stack.Set("Guests", guests, true);
      assert evaluator.Snapshot() == WithEntities(st, host, guests);
      var results := evaluator.EvalArgs(code, MaxDepth);
      ok := results.Ok?;
      EvaluationKeepsScope(code, st, host, guests);
    }
  }

  /**
   * `Policy(text)`: a new evaluator, then the text scanned and parsed; a text
   * that does not scan or parse makes no policy.
   */
  method NewPolicy(text: string) returns (r: Result<Policy, string>)
    ensures r.Ok? <==> GetCode(text).Ok?
    ensures r.Err? ==> r.error == GetCode(text).error
    ensures r.Ok? ==>
      var p := r.value;
      fresh(p) && fresh(p.evaluator) && fresh(p.evaluator.stack) &&
      p.GetString() == text && p.code == GetCode(text).value &&
      p.evaluator.Snapshot() == Initial && p.Valid()
  {
    var e := new Evaluator();
    var code := LoadCode(text);
    if code.Err? {
      return Err(code.error);
    }
    var p := new Policy(text, e, code.value);
    return Ok(p);
  }

  // ---------------------------------------------------------------------
  // properties

  /**
   * The program runs with `Host` and `Guests` reading back the entities
   * given; every other name reads as before, and no scope is added.
   */
  lemma EntitiesBound(st: State, host: Value, guests: Value, other: string)
    requires |st.scopes| > 0
    ensures var s := WithEntities(st, host, guests).scopes;
      Lookup(s, "Host") == Some(host) && Lookup(s, "Guests") == Some(guests) &&
      (other != "Host" && other != "Guests" ==> Lookup(s, other) == Lookup(st.scopes, other))
  {
    var withHost := Declare(st.scopes, "Host", host).value;
    DeclareThenLookup(st.scopes, "Host", host, other);
    DeclareThenLookup(st.scopes, "Host", host, "Guests");
    DeclareThenLookup(withHost, "Guests", guests, other);
    DeclareThenLookup(withHost, "Guests", guests, "Host");
  }

  /**
   * An evaluation never removes a scope or a function definition, so the
   * next evaluation again finds a scope to bind the entities in.
   */
  lemma EvaluationKeepsScope(code: seq<Expr>, st: State, host: Value, guests: Value)
    requires |st.scopes| > 0
    ensures var after := Evaluation(code, st, host, guests).1;
      |after.scopes| >= |st.scopes| && st.funcs.Keys <= after.funcs.Keys
    ensures Evaluation(code, st, host, guests).0 ==>
      |Evaluation(code, st, host, guests).1.scopes| == |st.scopes|
  {
    EvalAllBalanced(code, WithEntities(st, host, guests), MaxDepth);
  }

  /**
   * A failed evaluation stopped at its first failing expression `k`: the
   * expressions before it all succeeded, and the evaluator keeps the state
   * expression `k` left, effects of the earlier ones included.
   */
  lemma EvaluationStopsAtFirstError(code: seq<Expr>, st: State, host: Value, guests: Value)
    returns (k: nat)
    requires |st.scopes| > 0 && !Evaluation(code, st, host, guests).0
    ensures k < |code|
    ensures var before := Run(code[..k], WithEntities(st, host, guests));
      before.result.Ok? &&
      Eval(code[k], before.state, MaxDepth).result.Err? &&
      Eval(code[k], before.state, MaxDepth).state == Evaluation(code, st, host, guests).1
  {
    k := EvalAllFirstError(code, WithEntities(st, host, guests), MaxDepth);
  }

  /**
   * Expressions run in program order: evaluating `a + b` runs `a` first and,
   * when it succeeds, runs `b` in the state `a` left; when `a` fails, `b` is
   * never run.
   */
  lemma {:induction false} RunAppend(a: seq<Expr>, b: seq<Expr>, st: State)
    ensures var first := Run(a, st);
      Run(a + b, st) ==
        if first.result.Err? then first
        else Extend(first.result.value, Run(b, first.state))
    decreases |a|
  {
    if |a| == 0 {
      assert a + b == b;
      ExtendNothing(Run(b, st));
    } else {
      var head := Eval(a[0], st, MaxDepth);
      EvalAllStep(a + b, st, MaxDepth);
      EvalAllStep(a, st, MaxDepth);
      assert (a + b)[0] == a[0] && (a + b)[1..] == a[1..] + b;
      if head.result.Ok? {
        RunAppend(a[1..], b, head.state);
        var rest := Run(a[1..], head.state);
        if rest.result.Ok? {
          ExtendExtend([head.result.value], rest.result.value, Run(b, rest.state));
        }
      }
    }
  }

  /**
   * A program written out as canonical tokens separated by single spaces is
   * the program `get_code` reads back.
   */
  lemma GetCodeRender(prog: seq<Expr>)
    requires |prog| > 0 && AllWellFormed(prog)
    requires forall i :: 0 <= i < |UnparseAll(prog)| ==> Canonical(UnparseAll(prog)[i])
    ensures GetCode(Render(UnparseAll(prog))) == Ok(prog)
  {
    LexRender(UnparseAll(prog));
    ParseUnparse(prog);
  }
}
