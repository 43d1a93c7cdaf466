/**
 * Loading collector plugins (mom/Collectors/Collector.py, `get_collectors`).
 * The configuration names the plugins in a comma-separated list; each name
 * is stripped of leading whitespace and blank names are skipped.  Every
 * plugin must load: one import failure or fatal error and the monitor gets
 * no collectors at all.  Importing a plugin and building its instance are
 * one external step, an input here.
 */
module Collectors {
  import opened Wrappers
  import opened Strings

  /** A loaded collector: its plugin name and the fields it declares (`getFields`). */
  datatype Plugin = Plugin(name: string, fields: set<string>)

  /** What importing a plugin and calling its `instance` gave. */
  datatype LoadOutcome = Loaded(plugin: Plugin) | ImportFailed | Fatal(msg: string)

  type Loader = string -> LoadOutcome

  /** The names in the comma-split pieces, leading whitespace stripped, blanks skipped. */
  function NamesOf(parts: seq<string>): (r: seq<string>)
    ensures |r| <= |parts|
    decreases |parts|
  {
    if |parts| == 0 then []
    else
      var name := LStrip(parts[0]);
      if name == "" then NamesOf(parts[1..]) else [name] + NamesOf(parts[1..])
  }

  /** The plugin names a configuration string lists. */
  function PluginNames(config: string): seq<string> {
    NamesOf(Split(config, ','))
  }

  /** Adds loaded collectors in front of a (possibly failed) rest. */
  function Prefixed(done: seq<Plugin>, rest: Option<seq<Plugin>>): Option<seq<Plugin>> {
    match rest
    case None => None
    case Some(ps) => Some(done + ps)
  }

  /** `get_collectors` over the comma-split pieces. */
  function LoadParts(parts: seq<string>, load: Loader): Option<seq<Plugin>>
    decreases |parts|
  {
    if |parts| == 0 then Some([])
    else
      var name := LStrip(parts[0]);
      if name == "" then LoadParts(parts[1..], load)
      else
        match load(name)
        case Loaded(p) => Prefixed([p], LoadParts(parts[1..], load))
        case ImportFailed => None
        case Fatal(_) => None
  }

  /** `get_collectors`, walking the comma-separated list. */
  method GetCollectors(config: string, load: Loader) returns (r: Option<seq<Plugin>>)
    ensures r == LoadParts(Split(config, ','), load)
  {
    var parts := Split(config, ',');
    var collectors: seq<Plugin> := [];
    var i := 0;
    PrefixedNothing(LoadParts(parts, load));
    while i < |parts|
      invariant 0 <= i <= |parts|
      invariant LoadParts(parts, load) == Prefixed(collectors, LoadParts(parts[i..], load))
      decreases |parts| - i
    {
      assert parts[i..][1..] == parts[i + 1..];
      var name := LStrip(parts[i]);
      if name != "" {
        match load(name) {
          case Loaded(p) =>
            PrefixedPrefixed(collectors, [p], LoadParts(parts[i + 1..], load));
            collectors := collectors + [p];
          case ImportFailed =>
            return None;
          case Fatal(_) =>
            return None;
        }
      }
      i := i + 1;
    }
    assert collectors + [] == collectors;
    return Some(collectors);
  }

  lemma PrefixedNothing(r: Option<seq<Plugin>>)
    ensures Prefixed([], r) == r
  {
    if r.Some? {
      assert [] + r.value == r.value;
    }
  }

  lemma PrefixedPrefixed(a: seq<Plugin>, b: seq<Plugin>, r: Option<seq<Plugin>>)
    ensures Prefixed(a, Prefixed(b, r)) == Prefixed(a + b, r)
  {
    if r.Some? {
      assert a + (b + r.value) == (a + b) + r.value;
    }
  }

  // ---------------------------------------------------------------------
  // properties

  /** Every one of `names` loads. */
  predicate AllLoad(names: seq<string>, load: Loader) {
    forall i :: 0 <= i < |names| ==> load(names[i]).Loaded?
  }

  /** All or nothing: loading succeeds exactly when every listed plugin loads. */
  lemma {:induction false} LoadPartsAllOrNothing(parts: seq<string>, load: Loader)
    ensures LoadParts(parts, load).Some? <==> AllLoad(NamesOf(parts), load)
    decreases |parts|
  {
    if |parts| > 0 {
      LoadPartsAllOrNothing(parts[1..], load);
      var name := LStrip(parts[0]);
      if name != "" {
        AllLoadCons(name, NamesOf(parts[1..]), load);
      }
    }
  }

  lemma AllLoadCons(name: string, tail: seq<string>, load: Loader)
    ensures AllLoad([name] + tail, load) <==> load(name).Loaded? && AllLoad(tail, load)
  {
    var names := [name] + tail;
    if load(name).Loaded? && AllLoad(tail, load) {
      forall i | 0 <= i < |names| ensures load(names[i]).Loaded? {
        if i > 0 {
          assert names[i] == tail[i - 1];
        }
      }
    }
    if AllLoad(names, load) {
      assert names[0] == name;
      forall i | 0 <= i < |tail| ensures load(tail[i]).Loaded? {
        assert tail[i] == names[i + 1];
      }
    }
  }

  /** In configuration order: one collector per listed name. */
  lemma {:induction false} LoadPartsInOrder(parts: seq<string>, load: Loader)
    requires LoadParts(parts, load).Some?
    ensures var names := NamesOf(parts); var r := LoadParts(parts, load).value;
      |r| == |names| && forall i :: 0 <= i < |names| ==> load(names[i]) == Loaded(r[i])
    decreases |parts|
  {
    if |parts| > 0 {
      var name := LStrip(parts[0]);
      LoadPartsInOrder(parts[1..], load);
      if name != "" {
        var tail := NamesOf(parts[1..]);
        var rest := LoadParts(parts[1..], load).value;
        PluginsCons(name, tail, rest, load);
      }
    }
  }

  lemma PluginsCons(name: string, tail: seq<string>, rest: seq<Plugin>, load: Loader)
    requires load(name).Loaded?
    requires |rest| == |tail| && forall i :: 0 <= i < |tail| ==> load(tail[i]) == Loaded(rest[i])
    ensures var names := [name] + tail; var r := [load(name).plugin] + rest;
      |r| == |names| && forall i :: 0 <= i < |names| ==> load(names[i]) == Loaded(r[i])
  {
  }

  /** Every name read is nonblank and starts with no whitespace. */
  lemma {:induction false} NamesOfNonblank(parts: seq<string>)
    ensures forall i :: 0 <= i < |NamesOf(parts)| ==>
      NamesOf(parts)[i] != "" && !IsSpace(NamesOf(parts)[i][0])
    decreases |parts|
  {
    if |parts| > 0 {
      NamesOfNonblank(parts[1..]);
      var name := LStrip(parts[0]);
      if name != "" {
        var tail := NamesOf(parts[1..]);
        assert forall i :: 1 <= i < |NamesOf(parts)| ==> NamesOf(parts)[i] == tail[i - 1];
      }
    }
  }

  /** An empty configuration lists no plugins and loads no collectors. */
  lemma EmptyConfig(load: Loader)
    ensures PluginNames("") == []
    ensures LoadParts(Split("", ','), load) == Some([])
  {
    SplitNoSep("", ',');
  }

  /**
   * A list written out with commas is read back: names that are nonblank,
   * start with no whitespace and hold no comma survive the round trip.
   */
  lemma {:induction false} PluginNamesJoin(names: seq<string>)
    requires |names| >= 1
    requires forall i :: 0 <= i < |names| ==> names[i] != "" && !IsSpace(names[i][0]) && ',' !in names[i]
    ensures PluginNames(Join(names, [','])) == names
  {
    SplitJoin(names, ',');
    NamesOfClean(names);
  }

  lemma {:induction false} NamesOfClean(names: seq<string>)
    requires forall i :: 0 <= i < |names| ==> names[i] != "" && !IsSpace(names[i][0])
    ensures NamesOf(names) == names
    decreases |names|
  {
    if |names| > 0 {
      LStripClean(names[0]);
      NamesOfClean(names[1..]);
    }
  }

  lemma LStripClean(s: string)
    requires s != "" && !IsSpace(s[0])
    ensures LStrip(s) == s
  {
  }
}
