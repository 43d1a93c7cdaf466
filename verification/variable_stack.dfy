/**
 * The evaluator's variable stack (mom/Policy/Parser.py, `VariableStack`):
 * a list of scopes, innermost first.  A name resolves in the innermost
 * scope that binds it; `set` rebinds it there; `set` with `alloc` binds it
 * in the innermost scope, shadowing outer bindings until that scope is left.
 */
module VariableStacks {
  import opened Wrappers
  import opened PolicyValues

  type Scope = map<string, Value>

  /** `get`: the value bound in the innermost scope that binds `name`. */
  function Lookup(scopes: seq<Scope>, name: string): Option<Value>
    decreases |scopes|
  {
    if |scopes| == 0 then None
    else if name in scopes[0] then Some(scopes[0][name])
    else Lookup(scopes[1..], name)
  }

  /** `set(name, value)`: rebind `name` where it is bound; None when it is bound nowhere. */
  function Assign(scopes: seq<Scope>, name: string, v: Value): Option<seq<Scope>>
    decreases |scopes|
  {
    if |scopes| == 0 then None
    else if name in scopes[0] then Some([scopes[0][name := v]] + scopes[1..])
    else
      match Assign(scopes[1..], name, v)
      case None => None
      case Some(rest) => Some([scopes[0]] + rest)
  }

  /** `set(name, value, alloc=True)`: bind in the innermost scope; there is none on an empty stack. */
  function Declare(scopes: seq<Scope>, name: string, v: Value): Option<seq<Scope>> {
    if |scopes| == 0 then None else Some([scopes[0][name := v]] + scopes[1..])
  }

  /** `enter_scope`. */
  function Push(scopes: seq<Scope>): seq<Scope> {
    [map[]] + scopes
  }

  /** `leave_scope`: dropping the head of an empty list leaves it empty. */
  function Pop(scopes: seq<Scope>): seq<Scope> {
    if |scopes| == 0 then [] else scopes[1..]
  }

  /** The index of the innermost scope that binds `name`. */
  predicate InnermostAt(scopes: seq<Scope>, name: string, i: nat) {
    i < |scopes| && name in scopes[i] && forall j :: 0 <= j < i ==> name !in scopes[j]
  }

  class VariableStack {
    var scopes: seq<Scope>

    constructor ()
      ensures scopes == []
    {
      scopes := [];
    }

    method EnterScope()
      modifies this
      ensures scopes == Push(old(scopes))
    {
      scopes := [map[]] + scopes;
    }

    method LeaveScope()
      modifies this
      ensures scopes == Pop(old(scopes))
    {
      if |scopes| > 0 {
        scopes := scopes[1..];
      }
    }

    /** `get`: searches the scopes innermost first. */
    method Get(name: string) returns (r: Result<Value, EvalError>)
      ensures r.Ok? <==> Lookup(scopes, name).Some?
      ensures r.Ok? ==> r.value == Lookup(scopes, name).value
      ensures r.Err? ==> r.error == UndefinedSymbol(name)
    {
      var i := 0;
      while i < |scopes|
        invariant 0 <= i <= |scopes|
        invariant Lookup(scopes, name) == Lookup(scopes[i..], name)
        decreases |scopes| - i
      {
        if name in scopes[i] {
          return Ok(scopes[i][name]);
        }
        assert scopes[i..][1..] == scopes[i + 1..];
        i := i + 1;
      }
      return Err(UndefinedSymbol(name));
    }

    /**
     * `set`: with `alloc`, binds in the innermost scope; otherwise rebinds
     * where the name is bound.  Returns the value, or fails leaving the
     * stack as it was.
     */
    method Set(name: string, value: Value, alloc: bool) returns (r: Result<Value, EvalError>)
      modifies this
      ensures var next := if alloc then Declare(old(scopes), name, value) else Assign(old(scopes), name, value);
        (r.Ok? <==> next.Some?) &&
        (r.Ok? ==> r.value == value && scopes == next.value) &&
        (r.Err? ==> scopes == old(scopes))
      ensures r.Err? ==> r.error == if alloc then Malformed("no scope to bind in") else UndefinedSymbol(name)
    {
      if alloc {
        if |scopes| == 0 {
          return Err(Malformed("no scope to bind in"));
        }
        scopes := scopes[0 := scopes[0][name := value]];
        assert scopes == [old(scopes)[0][name := value]] + old(scopes)[1..];
        return Ok(value);
      }
      var i := 0;
      while i < |scopes|
        invariant 0 <= i <= |scopes|
        invariant forall j :: 0 <= j < i ==> name !in scopes[j]
        decreases |scopes| - i
      {
        if name in scopes[i] {
          AssignAt(scopes, name, value, i);
          scopes := scopes[i := scopes[i][name := value]];
          return Ok(value);
        }
        i := i + 1;
      }
      AssignUnbound(scopes, name, value);
      return Err(UndefinedSymbol(name));
    }
  }

  lemma {:induction false} AssignAt(scopes: seq<Scope>, name: string, v: Value, i: nat)
    requires InnermostAt(scopes, name, i)
    ensures Assign(scopes, name, v) == Some(scopes[i := scopes[i][name := v]])
    decreases i
  {
    if i > 0 {
      assert InnermostAt(scopes[1..], name, i - 1);
      AssignAt(scopes[1..], name, v, i - 1);
      assert [scopes[0]] + scopes[1..][i - 1 := scopes[i][name := v]] == scopes[i := scopes[i][name := v]];
    } else {
      assert [scopes[0][name := v]] + scopes[1..] == scopes[0 := scopes[0][name := v]];
    }
  }

  lemma {:induction false} AssignUnbound(scopes: seq<Scope>, name: string, v: Value)
    requires forall j :: 0 <= j < |scopes| ==> name !in scopes[j]
    ensures Assign(scopes, name, v) == None
    decreases |scopes|
  {
    if |scopes| > 0 {
      AssignUnbound(scopes[1..], name, v);
    }
  }

  // ---------------------------------------------------------------------
  // properties

  /** After `set(..., alloc=True)` the name reads back the value; no other name changes. */
  lemma DeclareThenLookup(scopes: seq<Scope>, name: string, v: Value, other: string)
    requires |scopes| > 0
    ensures Declare(scopes, name, v).Some?
    ensures var s := Declare(scopes, name, v).value;
      |s| == |scopes| && Lookup(s, name) == Some(v) &&
      (other != name ==> Lookup(s, other) == Lookup(scopes, other))
  {
    var s := Declare(scopes, name, v).value;
    assert s[1..] == scopes[1..];
  }

  /** `set` succeeds exactly when the name is bound somewhere. */
  lemma {:induction false} AssignDefinedIff(scopes: seq<Scope>, name: string, v: Value)
    ensures Assign(scopes, name, v).Some? <==> Lookup(scopes, name).Some?
    decreases |scopes|
  {
    if |scopes| > 0 && name !in scopes[0] {
      AssignDefinedIff(scopes[1..], name, v);
    }
  }

  /** After a successful `set` the name reads back the value; no other name changes. */
  lemma {:induction false} AssignThenLookup(scopes: seq<Scope>, name: string, v: Value, other: string)
    requires Assign(scopes, name, v).Some?
    ensures var s := Assign(scopes, name, v).value;
      |s| == |scopes| && Lookup(s, name) == Some(v) &&
      (other != name ==> Lookup(s, other) == Lookup(scopes, other))
    decreases |scopes|
  {
    var s := Assign(scopes, name, v).value;
    if name in scopes[0] {
      assert s[1..] == scopes[1..];
    } else {
      AssignThenLookup(scopes[1..], name, v, other);
      assert s[1..] == Assign(scopes[1..], name, v).value;
    }
  }

  /** A fresh scope hides nothing and adds nothing; leaving it restores the stack. */
  lemma PushTransparent(scopes: seq<Scope>, name: string)
    ensures Lookup(Push(scopes), name) == Lookup(scopes, name)
    ensures Pop(Push(scopes)) == scopes
  {
    assert Push(scopes)[1..] == scopes;
  }

  /** A binding made in a scope ends with it: the outer bindings are as before. */
  lemma DeclareInScopeEnds(scopes: seq<Scope>, name: string, v: Value)
    ensures Declare(Push(scopes), name, v).Some?
    ensures Pop(Declare(Push(scopes), name, v).value) == scopes
  {
    assert Declare(Push(scopes), name, v).value[1..] == scopes;
  }

  /**
   * Scoping is dynamic: `set` of a name the inner scope does not bind
   * reaches the binding of the scopes outside it.
   */
  lemma AssignReachesOuter(scopes: seq<Scope>, name: string, v: Value)
    ensures Assign(Push(scopes), name, v).Some? <==> Assign(scopes, name, v).Some?
    ensures Assign(scopes, name, v).Some? ==>
      Assign(Push(scopes), name, v).value == Push(Assign(scopes, name, v).value)
  {
    assert Push(scopes)[1..] == scopes;
  }
}
