/**
 * The policy engine (mom/PolicyEngine.py): holds the current policy,
 * swaps it when a new policy text arrives, and on each round evaluates it
 * on the host and guest snapshots and hands them to the controllers.
 * Reading the policy file, importing controller plugins and the
 * controllers' own work are external; they are inputs or are recorded as
 * the list of controllers invoked.
 */
module PolicyEngines {
  import opened Wrappers
  import opened Strings
  import opened PolicyLexer
  import opened PolicyParser
  import opened PolicyValues
  import opened PolicyEval
  import opened Evaluators
  import opened Policies
  import opened Collectors

  /**
   * `read_rules`, given the file name from the configuration and what
   * reading that file gave (None when it could not be read).
   */
  function ReadRules(fname: Option<string>, contents: Option<string>): (r: Option<string>)
    ensures r.None? <==> fname.Some? && fname.value != "" && contents.None?
    ensures fname.None? || fname.value == "" ==> r == Some("")
    ensures r.Some? && r.value != "" ==> r == contents
  {
    if fname.None? || fname.value == "" then Some("") else contents
  }

  /** The text `load_policy` parses: an absent or empty policy becomes the program `0`. */
  function EffectiveText(text: Option<string>): (r: string)
    ensures r != ""
    ensures text.Some? && text.value != "" ==> r == text.value
  {
    if text.None? || text.value == "" then "0" else text.value
  }

  /** The program the default text parses to: the single number 0. */
  const DefaultProgram: seq<Expr> := [Atom(Number(Integer, "0"))]

  /** The controller names a configuration lists whose plugin imports, in order. */
  function Importable(names: seq<string>, imports: string -> bool): (r: seq<string>)
    ensures forall c :: c in r <==> c in names && imports(c)
    decreases |names|
  {
    if |names| == 0 then []
    else (if imports(names[0]) then [names[0]] else []) + Importable(names[1..], imports)
  }

  class PolicyEngine {
    var policy: Policy?
    /** The controllers loaded, by plugin name, in configuration order. */
    var controllers: seq<string>
    /** Whether the engine's thread was started. */
    var started: bool

    ghost predicate Valid()
      reads this, if policy != null then {policy.evaluator.stack} else {}
    {
      policy != null ==> policy.Valid()
    }

    /**
     * `__init__`: read the policy file; when it cannot be read the engine
     * is not started and has no policy.  Otherwise load the policy (a text
     * that does not parse leaves it without one) and start.
     */
    constructor (policyFile: Option<string>, contents: Option<string>)
      ensures Valid() && controllers == []
      ensures var text := ReadRules(policyFile, contents);
        (started <==> text.Some?) &&
        (text.None? ==> policy == null) &&
        (text.Some? ==>
          (policy != null <==> GetCode(EffectiveText(text)).Ok?) &&
          (policy != null ==> policy.GetString() == EffectiveText(text)))
    {
      policy := null;
      controllers := [];
      started := false;
      new;
      var text := ReadRules(policyFile, contents);
      if text.Some? {
        var _ := LoadPolicy(text);
        started := true;
      }
    }

    /**
     * `load_policy`: parse the text into a new policy; on success it
     * replaces the current one, on failure the current one stays.
     */
    method LoadPolicy(text: Option<string>) returns (ok: bool)
      requires Valid()
      modifies this
      ensures Valid()
      ensures ok <==> GetCode(EffectiveText(text)).Ok?
      ensures ok ==>
        policy != null && fresh(policy) && fresh(policy.evaluator) && fresh(policy.evaluator.stack) &&
        policy.GetString() == EffectiveText(text) && policy.code == GetCode(EffectiveText(text)).value &&
        policy.evaluator.Snapshot() == Initial
      ensures !ok ==> policy == old(policy)
      ensures controllers == old(controllers) && started == old(started)
    {
      var source := EffectiveText(text);
      var created := NewPolicy(source);
      if created.Err? {
        return false;
      }
      policy := created.value;
      return true;
    }

    /**
     * `rpc_get_policy` as written.  `__init__` never sets `self.policy`, so
     * an engine whose first policy text did not parse has no such
     * attribute, and reading it raises instead of reaching the None test.
     */
    function RpcGetPolicyAsWritten(): (r: Result<string, string>)
      reads this
      ensures r.Err? <==> policy == null
      ensures r.Ok? ==> r.value == policy.GetString()
    {
      if policy != null then Ok(policy.GetString())
      else Err("AttributeError: PolicyEngine instance has no attribute 'policy'")
    }

    /**
     * `rpc_get_policy` as its None test intends, with `self.policy`
     * starting as None: the current policy's text, or "" without one.
     */
    function RpcGetPolicy(): (r: string)
      reads this
      ensures policy != null ==> r == policy.GetString()
      ensures policy == null ==> r == ""
    {
      if policy != null then policy.GetString() else ""
    }

    /** `rpc_set_policy`. */
    method RpcSetPolicy(text: string) returns (ok: bool)
      requires Valid()
      modifies this
      ensures Valid()
      ensures ok <==> GetCode(EffectiveText(Some(text))).Ok?
      ensures ok ==> RpcGetPolicy() == EffectiveText(Some(text))
      ensures !ok ==> policy == old(policy) && RpcGetPolicy() == old(RpcGetPolicy())
    {
      ok := LoadPolicy(Some(text));
    }

    /**
     * `get_controllers`: the controllers the configuration lists, skipping
     * blank names and those whose plugin does not import.
     */
    method GetControllers(config: string, imports: string -> bool)
      modifies this
      ensures controllers == Importable(PluginNames(config), imports)
      ensures policy == old(policy) && started == old(started)
    {
      var parts := Split(config, ',');
      var found := [];
      var i := 0;
      while i < |parts|
        invariant 0 <= i <= |parts|
        invariant Importable(NamesOf(parts), imports) == found + Importable(NamesOf(parts[i..]), imports)
        modifies {}
        decreases |parts| - i
      {
        var name := LStrip(parts[i]);
        FoundStep(parts, i, imports, found);
        if name != "" && imports(name) {
          found := found + [name];
        }
        i := i + 1;
      }
      assert parts[i..] == [] && found + [] == found;
      controllers := found;
    }

    /**
     * `do_controls`, given the host snapshot (None when the host monitor
     * is not ready) and the guest snapshots: evaluate the policy, then run
     * every controller once, in order, unless the evaluation failed.
     * Returns the controllers run.  An engine without a policy raises
     * (Err) once the host is ready, since `self.policy` is then unset.
     */
    method DoControls(host: Option<Value>, guests: seq<Value>) returns (r: Result<seq<string>, string>)
      requires Valid()
      modifies if policy != null then {policy.evaluator, policy.evaluator.stack} else {}
      ensures Valid()
      ensures host.None? ==> r == Ok([])
      ensures host.Some? && policy == null ==> r.Err?
      ensures host.Some? && policy != null ==>
        var (ok, after) := Evaluation(policy.code, old(policy.evaluator.Snapshot()), host.value, List(guests));
        policy.evaluator.Snapshot() == after && r == Ok(if ok then controllers else [])
    {
      if host.None? {
        return Ok([]);
      }
      if policy == null {
        return Err("AttributeError: PolicyEngine instance has no attribute 'policy'");
      }
      var ok := policy.Evaluate(host.value, List(guests));
      if !ok {
        return Ok([]);
      }
      var invoked := [];
      var i := 0;
      while i < |controllers|
        invariant 0 <= i <= |controllers|
        invariant invoked == controllers[..i]
        decreases |controllers| - i
      {
        invoked := invoked + [controllers[i]];
        i := i + 1;
      }
      assert controllers[..i] == controllers;
      return Ok(invoked);
    }
  }

  /** One step of the loop in `GetControllers`: the name at `i` is kept or skipped. */
  lemma ControllersStep(parts: seq<string>, i: nat, imports: string -> bool)
    requires i < |parts|
    ensures var name := LStrip(parts[i]);
      Importable(NamesOf(parts[i..]), imports) ==
        (if name != "" && imports(name) then [name] else []) + Importable(NamesOf(parts[i + 1..]), imports)
  {
    assert parts[i..][1..] == parts[i + 1..];
    var name := LStrip(parts[i]);
    if name != "" {
      assert ([name] + NamesOf(parts[i + 1..]))[1..] == NamesOf(parts[i + 1..]);
    }
  }

  /** The invariant of the loop in `GetControllers` carries over one step. */
  lemma FoundStep(parts: seq<string>, i: nat, imports: string -> bool, found: seq<string>)
    requires i < |parts|
    ensures var name := LStrip(parts[i]);
      found + Importable(NamesOf(parts[i..]), imports) ==
        (if name != "" && imports(name) then found + [name] else found) + Importable(NamesOf(parts[i + 1..]), imports)
  {
    ControllersStep(parts, i, imports);
    var name := LStrip(parts[i]);
    var rest := Importable(NamesOf(parts[i + 1..]), imports);
    if name != "" && imports(name) {
      AppendAssoc(found, [name], rest);
    } else {
      AppendAssoc(found, [], rest);
      assert found + [] == found;
    }
  }

  // ---------------------------------------------------------------------
  // properties

  /** The default program parses, so a missing or empty policy text always loads. */
  lemma DefaultPolicyLoads(text: Option<string>)
    requires text.None? || text == Some("")
    ensures GetCode(EffectiveText(text)) == Ok(DefaultProgram)
  {
    var t := Number(Integer, "0");
    assert Canonical(t);
    assert UnparseAll(DefaultProgram) == [t];
    assert Render([t]) == "0";
    GetCodeRender(DefaultProgram);
  }

  /** The default program evaluates without error, whatever the host and guests. */
  lemma DefaultPolicySucceeds(st: State, host: Value, guests: Value)
    requires |st.scopes| > 0
    ensures Evaluation(DefaultProgram, st, host, guests).0
  {
    var st1 := WithEntities(st, host, guests);
    EvalAllStep(DefaultProgram, st1, MaxDepth);
    assert DefaultProgram[1..] == [];
  }

  /**
   * The defect: a readable policy file whose text does not parse starts
   * the engine without a policy (see the constructor's contract), and
   * then `rpc_get_policy` raises where the corrected version returns "".
   */
  lemma UnparsablePolicyLeavesNone()
    ensures ReadRules(Some("rules"), Some("( + 1")) == Some("( + 1")
    ensures GetCode(EffectiveText(Some("( + 1"))).Err?
  {
    var ts := [Open('('), Operator("+"), Number(Integer, "1")];
    assert Canonical(ts[0]) && Canonical(ts[1]) && Canonical(ts[2]);
    assert Render(ts) == "( + 1" by {
      assert Render(ts[2..]) == "1";
      assert ts[1..][1..] == ts[2..];
      assert Render(ts[1..]) == "+ 1";
    }
    LexRender(ts);
    assert ParseItems(ts, 3, ')').Err?;
    assert ParseItems(ts, 2, ')').Err?;
    assert ParseItems(ts, 1, ')').Err?;
    assert ParseValue(ts, 0).Err?;
  }

  /** As written, an engine without a policy makes `rpc_get_policy` raise. */
  lemma RpcGetPolicyUnbound(e: PolicyEngine)
    requires e.policy == null
    ensures e.RpcGetPolicyAsWritten().Err? && e.RpcGetPolicy() == ""
  {
  }

  /** Once a policy is loaded, the source and the corrected version agree. */
  lemma RpcGetPolicyAgrees(e: PolicyEngine)
    requires e.policy != null
    ensures e.RpcGetPolicyAsWritten() == Ok(e.RpcGetPolicy())
  {
  }
}
