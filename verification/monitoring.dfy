/**
 * The sampling pipeline (mom/Monitor.py, mom/Entity.py).  A monitor asks
 * its collectors for data each round, merges their answers (the earliest
 * collector wins a key), and keeps only complete samples, in a bounded
 * history.  `interrogate` copies what the monitor knows into an entity
 * that policies read; variables a policy sets on the entity flow back to
 * the monitor.
 *
 * A collector is seen only through what it declares (`getFields`) and
 * what one call of its `collect` did this round, which is an input.
 */
module Monitoring {
  import opened Wrappers
  import opened PolicyValues

  /** One round of statistics: name to value. */
  type Sample = map<string, int>

  /**
   * What one collector's `collect` did this round.  `Raised` is any other
   * exception (a malformed `/proc` line, a missing libvirt statistic, a
   * bad reply from a guest daemon), which `collect` does not catch.
   */
  datatype Collected =
    | Data(values: Sample)
    | CollectionError(msg: string)
    | FatalError(msg: string)
    | Raised(msg: string)

  /**
   * A round's merged data, the fatal error that ended it, or the
   * exception that escaped it.
   */
  datatype Gathered = Merged(data: Sample) | Fatal(msg: string) | Escaped(msg: string)

  /** Why an entity accessor failed (`EntityError` or a missing key in the source). */
  datatype EntityError = NotAvailable(name: string) | MissingKey(name: string)

  // ---------------------------------------------------------------------
  // specification functions

  /** The union of the collectors' declared fields, taken in list order. */
  function UnionAll(fs: seq<set<string>>): set<string>
    decreases |fs|
  {
    if |fs| == 0 then {} else UnionAll(fs[..|fs| - 1]) + fs[|fs| - 1]
  }

  /** Adds the keys of `more` that `data` does not have yet; existing keys keep their value. */
  function FirstWins(data: Sample, more: Sample): Sample {
    map k | k in data.Keys + more.Keys :: if k in data then data[k] else more[k]
  }

  /** Merges a round's answers into `data`, in order, stopping at a fatal error. */
  function GatherFrom(data: Sample, outs: seq<Collected>): Gathered
    decreases |outs|
  {
    if |outs| == 0 then Merged(data)
    else
      match outs[0]
      case Data(m) => GatherFrom(FirstWins(data, m), outs[1..])
      case CollectionError(_) => GatherFrom(data, outs[1..])
      case FatalError(msg) => Fatal(msg)
      case Raised(msg) => Escaped(msg)
  }

  function Gather(outs: seq<Collected>): Gathered {
    GatherFrom(map[], outs)
  }

  /** Collector `c` answered with data that has key `k`. */
  predicate Provides(c: Collected, k: string) {
    c.Data? && k in c.values
  }

  /** The last `n` elements of `s` (all of them when there are fewer). */
  function LastN<T>(s: seq<T>, n: nat): seq<T> {
    if |s| <= n then s else s[|s| - n..]
  }

  /** The history after storing `d`: appended, and the oldest dropped once it exceeds `n`. */
  function Pushed(h: seq<Sample>, d: Sample, n: nat): seq<Sample> {
    if |h + [d]| > n then (h + [d])[1..] else h + [d]
  }

  /**
   * The history is the last `n` stored samples, and every stored sample has
   * exactly the monitor's fields (there are none before the fields are known).
   */
  ghost predicate Consistent(history: seq<Sample>, stored: seq<Sample>, fields: Option<set<string>>, n: nat) {
    history == LastN(stored, n) &&
    (fields.None? ==> stored == []) &&
    (fields.Some? ==> forall i :: 0 <= i < |stored| ==> stored[i].Keys == fields.value)
  }

  /** Sum of the statistic `name` over rows that all have it. */
  function Total(rows: seq<Sample>, name: string): int
    requires forall i :: 0 <= i < |rows| ==> name in rows[i]
    decreases |rows|
  {
    if |rows| == 0 then 0 else Total(rows[..|rows| - 1], name) + rows[|rows| - 1][name]
  }

  /** Every row has the statistic `name`. */
  predicate AllHave(rows: seq<Sample>, name: string) {
    forall i :: 0 <= i < |rows| ==> name in rows[i]
  }

  /** `StatAvg`: the integer mean, which Python 2 floors. */
  function Average(rows: seq<Sample>, name: string): Result<int, EntityError> {
    if |rows| == 0 then Err(NotAvailable(name))
    else if !AllHave(rows, name) then Err(MissingKey(name))
    else Ok(Total(rows, name) / |rows|)
  }

  // ---------------------------------------------------------------------
  // the monitor

  class Monitor {
    const name: string
    /** Each collector's `getFields()`, in configuration order. */
    const collectorFields: seq<set<string>>
    /** `sample-history-length` from the configuration. */
    const historyLength: nat
    var properties: map<string, Value>
    var variables: map<string, Value>
    var statistics: seq<Sample>
    var fields: Option<set<string>>
    /** None until the first round, then whether the last round was complete. */
    var ready: Option<bool>
    var terminating: bool
    /** Every sample ever stored, oldest first. */
    ghost var samples: seq<Sample>

    /**
     * The history is the last `historyLength` stored samples, and every
     * stored sample has exactly the monitor's fields.
     */
    ghost predicate Valid()
      reads this
    {
      Consistent(statistics, samples, fields, historyLength)
    }

    constructor (name: string, collectorFields: seq<set<string>>, historyLength: nat,
                 properties: map<string, Value>)
      ensures this.name == name && this.collectorFields == collectorFields
      ensures this.historyLength == historyLength && this.properties == properties
      ensures variables == map[] && statistics == [] && fields.None?
      ensures ready.None? && !terminating
      ensures Valid()
    {
      this.name := name;
      this.collectorFields := collectorFields;
      this.historyLength := historyLength;
      this.properties := properties;
      variables := map[];
      statistics := [];
      fields := None;
      ready := None;
      terminating := false;
      samples := [];
    }

    /**
     * `collect`, given what each collector's `collect` does this round
     * (collectors after a fatal error or an exception are not asked).
     * Err is an exception escaping `collect`; the fields are already fixed
     * by then, and nothing else changes.
     */
    method Collect(outs: seq<Collected>) returns (r: Result<Option<Sample>, string>)
      requires Valid() && |outs| == |collectorFields|
      modifies this
      ensures Valid()
      ensures old(fields).Some? ==> fields == old(fields)
      ensures old(fields).None? ==> fields == Some(UnionAll(collectorFields))
      ensures properties == old(properties) && variables == old(variables)
      ensures Gather(outs).Escaped? ==>
        r == Err(Gather(outs).msg) && ready == old(ready) && terminating == old(terminating) &&
        statistics == old(statistics) && samples == old(samples)
      ensures Gather(outs).Fatal? ==>
        r == Ok(None) && ready == Some(false) && terminating &&
        statistics == old(statistics) && samples == old(samples)
      ensures Gather(outs).Merged? && Gather(outs).data.Keys != fields.value ==>
        r == Ok(None) && ready == Some(false) && terminating == old(terminating) &&
        statistics == old(statistics) && samples == old(samples)
      ensures Gather(outs).Merged? && Gather(outs).data.Keys == fields.value ==>
        r == Ok(Some(Gather(outs).data)) && ready == Some(true) && terminating == old(terminating) &&
        statistics == Pushed(old(statistics), Gather(outs).data, historyLength) &&
        samples == old(samples) + [Gather(outs).data]
    {
      if fields.None? {
        var all := DeclaredFields(collectorFields);
        fields := Some(all);
      }
      var round := GatherRound(outs);
      if round.Escaped? {
        return Err(round.msg);
      }
      if round.Fatal? {
        ready := Some(false);
        terminating := true;
        return Ok(None);
      }
      var data := round.data;
      if data.Keys != fields.value {
        ready := Some(false);
        return Ok(None);
      }
      Store(data);
      ready := Some(true);
      return Ok(Some(data));
    }

    /** The end of a complete round of `collect`: the sample joins the bounded history. */
    method Store(data: Sample)
      requires Valid() && fields.Some? && data.Keys == fields.value
      modifies this
      ensures Valid()
      ensures statistics == Pushed(old(statistics), data, historyLength) && samples == old(samples) + [data]
      ensures fields == old(fields) && ready == old(ready) && terminating == old(terminating)
      ensures properties == old(properties) && variables == old(variables)
    {
      StoreKeepsConsistent(statistics, samples, fields.value, historyLength, data);
      statistics := statistics + [data];
      if |statistics| > historyLength {
        statistics := statistics[1..];
      }
      samples := samples + [data];
    }

    /** `interrogate`: a snapshot entity, or null unless the last round was complete. */
    method Interrogate() returns (e: Entity?)
      ensures e == null <==> ready != Some(true)
      ensures e != null ==>
        fresh(e) && e.monitor == this && e.properties == properties &&
        e.variables == variables && e.statistics == statistics &&
        e.attributes == (if |statistics| > 0 then statistics[|statistics| - 1] else map[])
    {
      if ready != Some(true) {
        return null;
      }
      e := new Entity(this);
      var keys := properties.Keys;
      while keys != {}
        invariant keys <= properties.Keys
        invariant e.properties == map k | k in properties.Keys - keys :: properties[k]
        invariant fresh(e) && e.monitor == this
        invariant e.variables == map[] && e.statistics == [] && e.attributes == map[]
        decreases keys
      {
        var k :| k in keys;
        e.SetProperty(k, properties[k]);
        keys := keys - {k};
      }
      keys := variables.Keys;
      while keys != {}
        invariant keys <= variables.Keys
        invariant e.variables == map k | k in variables.Keys - keys :: variables[k]
        invariant fresh(e) && e.monitor == this && e.properties == properties
        invariant e.statistics == [] && e.attributes == map[]
        decreases keys
      {
        var k :| k in keys;
        e.SetVar(k, variables[k]);
        keys := keys - {k};
      }
      e.SetStatistics(statistics);
      e.Finalize();
    }

    /** `update_variables`: overwrites exactly the names given. */
    method UpdateVariables(vars: map<string, Value>)
      modifies this
      ensures variables == old(variables) + vars
      ensures properties == old(properties) && statistics == old(statistics) &&
        fields == old(fields) && ready == old(ready) && terminating == old(terminating) &&
        samples == old(samples)
    {
      var keys := vars.Keys;
      ghost var before := variables;
      while keys != {}
        invariant keys <= vars.Keys
        invariant variables == before + map k | k in vars.Keys - keys :: vars[k]
        invariant properties == old(properties) && statistics == old(statistics) &&
          fields == old(fields) && ready == old(ready) && terminating == old(terminating) &&
          samples == old(samples)
        decreases keys
      {
        var k :| k in keys;
        variables := variables[k := vars[k]];
        keys := keys - {k};
      }
      assert vars == map k | k in vars.Keys - keys :: vars[k];
    }

    /** `terminate`: once set, the monitor never runs again. */
    method Terminate()
      modifies this
      ensures terminating && forall running :: !ShouldRun(running)
      ensures properties == old(properties) && variables == old(variables) &&
        statistics == old(statistics) && fields == old(fields) && ready == old(ready) &&
        samples == old(samples)
    {
      terminating := true;
    }

    /** `isReady`: None and False both read as not ready. */
    function IsReady(): (r: bool)
      reads this
      ensures ready.None? ==> !r
      ensures ready.Some? ==> (r <==> ready.value)
    {
      ready == Some(true)
    }

    /** `_should_run`, given the configuration's `running` value. */
    function ShouldRun(running: int): (r: bool)
      reads this
      ensures terminating ==> !r
      ensures !terminating ==> (r <==> running == 1)
    {
      running == 1 && !terminating
    }
  }

  /** The first `collect`'s loop over the collectors' `getFields()`. */
  method DeclaredFields(fs: seq<set<string>>) returns (all: set<string>)
    ensures all == UnionAll(fs)
  {
    all := {};
    var i := 0;
    while i < |fs|
      invariant 0 <= i <= |fs|
      invariant all == UnionAll(fs[..i])
      decreases |fs| - i
    {
      assert fs[..i + 1][..i] == fs[..i];
      all := all + fs[i];
      i := i + 1;
    }
    assert fs[..i] == fs;
  }

  /**
   * The collector loop of `collect`: answers merged in order, the first
   * fatal error or exception ending the round (later collectors are not
   * asked).
   */
  method GatherRound(outs: seq<Collected>) returns (g: Gathered)
    ensures g == Gather(outs)
  {
    var data: Sample := map[];
    var i := 0;
    while i < |outs|
      invariant 0 <= i <= |outs|
      invariant Gather(outs) == GatherFrom(data, outs[i..])
      decreases |outs| - i
    {
      assert outs[i..][1..] == outs[i + 1..];
      match outs[i] {
        case Data(m) =>
          data := MergeInto(data, m);
        case CollectionError(_) =>
        case FatalError(msg) =>
          return Fatal(msg);
        case Raised(msg) =>
          return Escaped(msg);
      }
      i := i + 1;
    }
    return Merged(data);
  }

  /** The inner loop of `collect`: one collector's answer merged key by key. */
  method MergeInto(data: Sample, more: Sample) returns (r: Sample)
    ensures r == FirstWins(data, more)
  {
    r := data;
    var keys := more.Keys;
    while keys != {}
      invariant keys <= more.Keys
      invariant r.Keys == data.Keys + (more.Keys - keys)
      invariant forall k :: k in r ==> r[k] == if k in data then data[k] else more[k]
      decreases keys
    {
      var k :| k in keys;
      if k !in r {
        r := r[k := more[k]];
      }
      keys := keys - {k};
    }
  }

  // ---------------------------------------------------------------------
  // the entity

  class Entity {
    var properties: map<string, Value>
    var variables: map<string, Value>
    var statistics: seq<Sample>
    /** The newest sample's statistics, exposed as attributes by `_finalize`. */
    var attributes: map<string, int>
    const monitor: Monitor?

    constructor (monitor: Monitor?)
      ensures this.monitor == monitor
      ensures properties == map[] && variables == map[] && statistics == [] && attributes == map[]
    {
      this.monitor := monitor;
      properties := map[];
      variables := map[];
      statistics := [];
      attributes := map[];
    }

    /** `_set_property`. */
    method SetProperty(name: string, val: Value)
      modifies this
      ensures properties == old(properties)[name := val]
      ensures variables == old(variables) && statistics == old(statistics) &&
        attributes == old(attributes)
    {
      properties := properties[name := val];
    }

    /** `SetVar`, and `_set_variable`, which does the same. */
    method SetVar(name: string, val: Value)
      modifies this
      ensures GetVar(name) == Some(val)
      ensures forall other :: other != name ==> GetVar(other) == old(GetVar(other))
      ensures variables == old(variables)[name := val]
      ensures properties == old(properties) && statistics == old(statistics) &&
        attributes == old(attributes)
    {
      variables := variables[name := val];
    }

    /** `_set_statistics`: appends the rows in order. */
    method SetStatistics(rows: seq<Sample>)
      modifies this
      ensures statistics == old(statistics) + rows
      ensures properties == old(properties) && variables == old(variables) &&
        attributes == old(attributes)
    {
      var i := 0;
      while i < |rows|
        invariant 0 <= i <= |rows|
        invariant statistics == old(statistics) + rows[..i]
        invariant properties == old(properties) && variables == old(variables) &&
          attributes == old(attributes)
        decreases |rows| - i
      {
        assert rows[..i + 1] == rows[..i] + [rows[i]];
        statistics := statistics + [rows[i]];
        i := i + 1;
      }
      assert rows[..i] == rows;
    }

    /** `_store_variables`: hands every variable back to the owning monitor, if any. */
    method StoreVariables()
      modifies monitor
      ensures monitor != null ==> monitor.variables == old(monitor.variables) + variables
      ensures monitor != null ==>
        monitor.statistics == old(monitor.statistics) && monitor.ready == old(monitor.ready) &&
        monitor.terminating == old(monitor.terminating)
    {
      if monitor != null {
        monitor.UpdateVariables(variables);
      }
    }

    /** `_finalize`: every statistic of the newest sample becomes an attribute. */
    method Finalize()
      modifies this
      ensures |statistics| == 0 ==> attributes == old(attributes)
      ensures |statistics| > 0 ==> attributes == old(attributes) + statistics[|statistics| - 1]
      ensures properties == old(properties) && variables == old(variables) &&
        statistics == old(statistics)
    {
      if |statistics| > 0 {
        var last := statistics[|statistics| - 1];
        var keys := last.Keys;
        while keys != {}
          invariant keys <= last.Keys
          invariant attributes == old(attributes) + map k | k in last.Keys - keys :: last[k]
          invariant properties == old(properties) && variables == old(variables) &&
            statistics == old(statistics)
          decreases keys
        {
          var k :| k in keys;
          attributes := attributes[k := last[k]];
          keys := keys - {k};
        }
        assert last == map k | k in last.Keys - keys :: last[k];
      }
    }

    /** `Prop`: a missing property is an error. */
    function Prop(name: string): (r: Result<Value, EntityError>)
      reads this
      ensures r.Ok? <==> name in properties
      ensures r.Ok? ==> r.value == properties[name]
      ensures r.Err? ==> r.error == MissingKey(name)
    {
      if name in properties then Ok(properties[name]) else Err(MissingKey(name))
    }

    /** `Stat`: the newest value, None without samples, an error for an unknown name. */
    function Stat(name: string): (r: Result<Option<int>, EntityError>)
      reads this
      ensures r == Ok(None) <==> |statistics| == 0
      ensures r.Err? <==> |statistics| > 0 && name !in statistics[|statistics| - 1]
      ensures r.Ok? && r.value.Some? ==> r.value.value == statistics[|statistics| - 1][name]
      ensures r.Err? ==> r.error == MissingKey(name)
    {
      if |statistics| == 0 then Ok(None)
      else if name in statistics[|statistics| - 1] then Ok(Some(statistics[|statistics| - 1][name]))
      else Err(MissingKey(name))
    }

    /** `GetVar`: None for a variable never set. */
    function GetVar(name: string): Option<Value>
      reads this
    {
      if name in variables then Some(variables[name]) else None
    }

    /** `StatAvg`: sums the statistic over the history, then divides by its length. */
    method StatAvg(name: string) returns (r: Result<int, EntityError>)
      ensures r == Average(statistics, name)
    {
      if |statistics| == 0 {
        return Err(NotAvailable(name));
      }
      var total := 0;
      var i := 0;
      while i < |statistics|
        invariant 0 <= i <= |statistics|
        invariant AllHave(statistics[..i], name) && total == Total(statistics[..i], name)
        decreases |statistics| - i
      {
        if name !in statistics[i] {
          return Err(MissingKey(name));
        }
        assert statistics[..i + 1][..i] == statistics[..i];
        total := total + statistics[i][name];
        i := i + 1;
      }
      assert statistics[..i] == statistics;
      r := Ok(total / |statistics|);
    }
  }

  // ---------------------------------------------------------------------
  // properties

  /** A field is declared exactly when some collector declares it. */
  lemma {:induction false} UnionAllIff(fs: seq<set<string>>, k: string)
    ensures k in UnionAll(fs) <==> exists i :: 0 <= i < |fs| && k in fs[i]
    decreases |fs|
  {
    if |fs| > 0 {
      var init := fs[..|fs| - 1];
      UnionAllIff(init, k);
      if k in UnionAll(init) {
        var i :| 0 <= i < |init| && k in init[i];
        assert fs[i] == init[i];
      }
      if i :| 0 <= i < |fs| - 1 && k in fs[i] {
        assert init[i] == fs[i];
      }
    }
  }

  /**
   * A round fails fatally exactly when some collector failed fatally and
   * no collector before it raised an exception.
   */
  lemma {:induction false} GatherFatalIff(data: Sample, outs: seq<Collected>)
    ensures GatherFrom(data, outs).Fatal? <==>
      exists i :: 0 <= i < |outs| && outs[i].FatalError? && forall j :: 0 <= j < i ==> !outs[j].Raised?
    decreases |outs|
  {
    if |outs| > 0 && !outs[0].FatalError? && !outs[0].Raised? {
      var next := if outs[0].Data? then FirstWins(data, outs[0].values) else data;
      GatherFatalIff(next, outs[1..]);
      if i :| 0 <= i < |outs| && outs[i].FatalError? && forall j :: 0 <= j < i ==> !outs[j].Raised? {
        assert outs[1..][i - 1] == outs[i];
        assert forall j :: 0 <= j < i - 1 ==> outs[1..][j] == outs[j + 1];
      }
      if i :| 0 <= i < |outs| - 1 && outs[1..][i].FatalError? && forall j :: 0 <= j < i ==> !outs[1..][j].Raised? {
        assert outs[i + 1] == outs[1..][i];
        forall j | 0 <= j < i + 1
          ensures !outs[j].Raised?
        {
          if j > 0 {
            assert outs[j] == outs[1..][j - 1];
          }
        }
      }
    }
  }

  /**
   * An exception escapes the round exactly when some collector raised one
   * and no collector before it failed fatally.
   */
  lemma {:induction false} GatherEscapedIff(data: Sample, outs: seq<Collected>)
    ensures GatherFrom(data, outs).Escaped? <==>
      exists i :: 0 <= i < |outs| && outs[i].Raised? && forall j :: 0 <= j < i ==> !outs[j].FatalError?
    decreases |outs|
  {
    if |outs| > 0 && !outs[0].FatalError? && !outs[0].Raised? {
      var next := if outs[0].Data? then FirstWins(data, outs[0].values) else data;
      GatherEscapedIff(next, outs[1..]);
      if i :| 0 <= i < |outs| && outs[i].Raised? && forall j :: 0 <= j < i ==> !outs[j].FatalError? {
        assert outs[1..][i - 1] == outs[i];
        assert forall j :: 0 <= j < i - 1 ==> outs[1..][j] == outs[j + 1];
      }
      if i :| 0 <= i < |outs| - 1 && outs[1..][i].Raised? && forall j :: 0 <= j < i ==> !outs[1..][j].FatalError? {
        assert outs[i + 1] == outs[1..][i];
        forall j | 0 <= j < i + 1
          ensures !outs[j].FatalError?
        {
          if j > 0 {
            assert outs[j] == outs[1..][j - 1];
          }
        }
      }
    }
  }

  /** The merged keys are those already gathered plus those some collector provided. */
  lemma {:induction false} GatherKeys(data: Sample, outs: seq<Collected>, k: string)
    requires GatherFrom(data, outs).Merged?
    ensures k in GatherFrom(data, outs).data <==>
      k in data || exists i :: 0 <= i < |outs| && Provides(outs[i], k)
    decreases |outs|
  {
    if |outs| > 0 {
      var next := if outs[0].Data? then FirstWins(data, outs[0].values) else data;
      GatherKeys(next, outs[1..], k);
      if i :| 0 <= i < |outs| && Provides(outs[i], k) {
        if i > 0 {
          assert outs[1..][i - 1] == outs[i];
        }
      }
      if i :| 0 <= i < |outs| - 1 && Provides(outs[1..][i], k) {
        assert outs[i + 1] == outs[1..][i];
      }
    }
  }

  /**
   * Merge priority: a key keeps the value it already had, or else the
   * value from the earliest collector that provided it.
   */
  lemma {:induction false} GatherEarliest(data: Sample, outs: seq<Collected>, k: string, i: nat)
    requires GatherFrom(data, outs).Merged?
    requires k !in data && i < |outs| && Provides(outs[i], k)
    requires forall j :: 0 <= j < i ==> !Provides(outs[j], k)
    ensures k in GatherFrom(data, outs).data
    ensures GatherFrom(data, outs).data[k] == outs[i].values[k]
    decreases |outs|
  {
    if i == 0 {
      GatherKeeps(FirstWins(data, outs[0].values), outs[1..], k);
    } else {
      var next := if outs[0].Data? then FirstWins(data, outs[0].values) else data;
      assert !Provides(outs[0], k);
      forall j | 0 <= j < i - 1
        ensures !Provides(outs[1..][j], k)
      {
        assert outs[1..][j] == outs[j + 1];
      }
      GatherEarliest(next, outs[1..], k, i - 1);
    }
  }

  /** A key already gathered keeps its value through the rest of the round. */
  lemma {:induction false} GatherKeeps(data: Sample, outs: seq<Collected>, k: string)
    requires GatherFrom(data, outs).Merged? && k in data
    ensures k in GatherFrom(data, outs).data && GatherFrom(data, outs).data[k] == data[k]
    decreases |outs|
  {
    if |outs| > 0 {
      var next := if outs[0].Data? then FirstWins(data, outs[0].values) else data;
      GatherKeeps(next, outs[1..], k);
    }
  }

  /**
   * Bounded history: storing a sample in the last `n` samples gives the
   * last `n` samples of the longer sequence.
   */
  lemma PushedLastN(all: seq<Sample>, d: Sample, n: nat)
    ensures Pushed(LastN(all, n), d, n) == LastN(all + [d], n)
  {
    var h := LastN(all, n);
    if |all| > n {
      assert h + [d] == (all + [d])[|all| - n..];
      assert (h + [d])[1..] == (all + [d])[|all + [d]| - n..];
    }
  }

  /** Storing a complete sample keeps the history consistent. */
  lemma StoreKeepsConsistent(history: seq<Sample>, stored: seq<Sample>, fields: set<string>, n: nat, d: Sample)
    requires Consistent(history, stored, Some(fields), n) && d.Keys == fields
    ensures Consistent(Pushed(history, d, n), stored + [d], Some(fields), n)
  {
    PushedLastN(stored, d, n);
  }

  /** The history never holds more than `n` samples and ends with the newest. */
  lemma LastNShape(all: seq<Sample>, n: nat)
    ensures |LastN(all, n)| <= n || LastN(all, n) == all
    ensures |LastN(all, n)| == if |all| <= n then |all| else n
    ensures 0 < |LastN(all, n)| ==> LastN(all, n)[|LastN(all, n)| - 1] == all[|all| - 1]
  {
  }

  /** The floor mean lies between the smallest and the largest value. */
  lemma AverageBounds(rows: seq<Sample>, name: string, lo: int, hi: int)
    requires Average(rows, name).Ok?
    requires forall i :: 0 <= i < |rows| ==> lo <= rows[i][name] <= hi
    ensures lo <= Average(rows, name).value <= hi
  {
    TotalBounds(rows, name, lo, hi);
    var n := |rows|;
    var t := Total(rows, name);
    assert n * lo <= t <= n * hi;
    DivBounds(t, n, lo, hi);
  }

  lemma {:induction false} TotalBounds(rows: seq<Sample>, name: string, lo: int, hi: int)
    requires AllHave(rows, name)
    requires forall i :: 0 <= i < |rows| ==> lo <= rows[i][name] <= hi
    ensures |rows| * lo <= Total(rows, name) <= |rows| * hi
    decreases |rows|
  {
    if |rows| > 0 {
      var init := rows[..|rows| - 1];
      assert forall i :: 0 <= i < |init| ==> init[i] == rows[i];
      TotalBounds(init, name, lo, hi);
    }
  }

  lemma DivBounds(t: int, n: int, lo: int, hi: int)
    requires n > 0 && n * lo <= t <= n * hi
    ensures lo <= t / n <= hi
  {
    var q := t / n;
    assert t == n * q + t % n && 0 <= t % n < n;
    MulCancel(n, lo, q + 1);
    MulCancel(n, q, hi);
  }

  lemma MulCancel(n: int, a: int, b: int)
    requires n > 0
    ensures n * a < n * b ==> a < b
    ensures n * a <= n * b ==> a <= b
  {
  }
}
