/**
 * The libvirt guest collector (mom/Collectors/GuestLibvirt.py).  Each
 * round it asks libvirt for the domain's state and memory limits and, when
 * the hypervisor supports it, for the balloon driver's memory statistics,
 * which it reports under MOM's own field names.  The libvirt calls are
 * external; what they returned is an input.
 */
module GuestLibvirts {
  import opened Wrappers
  import opened Monitoring
  import opened Dicts

  /** `mem_stats`: the name libvirt gives a memory statistic, and the field MOM reports it as. */
  function MemStats(): map<string, string> {
    map["available" := "mem_available", "unused" := "mem_unused",
        "major_fault" := "major_fault", "minor_fault" := "minor_fault",
        "swap_in" := "swap_in", "swap_out" := "swap_out"]
  }

  /** `libvirt_stats`. */
  function LibvirtStats(): set<string> {
    {"libvirt_state", "libvirt_maxmem", "libvirt_curmem"}
  }

  /** `getFields`: every renamed statistic and the three domain figures. */
  function Fields(): set<string> {
    MemStats().Values + LibvirtStats()
  }

  /** The first three entries of the domain info: state, maximum and current memory. */
  datatype DomainInfo = DomainInfo(state: int, maxMem: int, curMem: int)

  /**
   * What asking for the memory statistics gave: the call does not exist
   * (an `AttributeError`), it returned None, or it returned a dictionary.
   */
  datatype MemoryStats = ApiMissing | NoStats | Stats(values: map<string, int>)

  /** The domain figures every successful `collect` reports. */
  function Base(info: DomainInfo): Sample {
    map["libvirt_state" := info.state, "libvirt_maxmem" := info.maxMem, "libvirt_curmem" := info.curMem]
  }

  /** The statistics were unavailable this round: the call is missing, gave None or gave nothing. */
  predicate Unavailable(stats: MemoryStats) {
    stats.ApiMissing? || stats.NoStats? || (stats.Stats? && |stats.values| == 0)
  }

  class GuestLibvirt {
    /** Whether the last round found memory statistics (the error is logged only on a change). */
    var memstatsAvailable: bool

    constructor ()
      ensures memstatsAvailable
    {
      memstatsAvailable := true;
    }

    /**
     * `stats_error`: the message is logged only when the statistics were
     * available until now; returns whether it was.
     */
    method StatsError() returns (logged: bool)
      modifies this
      ensures logged == old(memstatsAvailable) && !memstatsAvailable
    {
      logged := memstatsAvailable;
      memstatsAvailable := false;
    }

    /**
     * `collect`, given the domain info (None when libvirt has none) and the
     * memory statistics.  Err is the `KeyError` raised when a statistic
     * `mem_stats` names is missing from a nonempty answer; `logged` tells
     * whether a statistics error was logged.
     */
    method Collect(info: Option<DomainInfo>, stats: MemoryStats) returns (r: Result<Collected, string>, logged: bool)
      modifies this
      ensures info.None? ==> r == Ok(CollectionError("Failed to get domain info")) && !logged && unchanged(this)
      ensures info.Some? && Unavailable(stats) ==>
        r == Ok(Data(Base(info.value))) && logged == old(memstatsAvailable) && !memstatsAvailable
      ensures info.Some? && !Unavailable(stats) && !(MemStats().Keys <= stats.values.Keys) ==>
        r.Err? && !logged && unchanged(this)
      ensures info.Some? && !Unavailable(stats) && MemStats().Keys <= stats.values.Keys ==>
        r.Ok? && r.value.Data? && !logged && memstatsAvailable &&
        r.value.values.Keys == Fields() &&
        (forall k :: k in LibvirtStats() ==> r.value.values[k] == Base(info.value)[k]) &&
        (forall src :: src in MemStats() ==> r.value.values[MemStats()[src]] == stats.values[src])
    {
      logged := false;
      if info.None? {
        return Ok(CollectionError("Failed to get domain info")), false;
      }
      var ret := Base(info.value);
      if Unavailable(stats) {
        logged := StatsError();
        return Ok(Data(ret)), logged;
      }
      MemStatsInjective();
      var renamed := Rename(MemStats(), ret, stats.values);
      if renamed.None? {
        return Err("KeyError"), false;
      }
      memstatsAvailable := true;
      BaseKeys(info.value);
      return Ok(Data(renamed.value)), false;
    }
  }

  /**
   * The loop over `mem_stats`: each statistic is stored under its new
   * name; a statistic the answer lacks raises (None).
   */
  method Rename(table: map<string, string>, ret: Sample, values: map<string, int>) returns (r: Option<Sample>)
    requires ret.Keys !! table.Values
    requires forall a, b :: a in table && b in table && a != b ==> table[a] != table[b]
    ensures r.Some? <==> table.Keys <= values.Keys
    ensures r.Some? ==>
      r.value.Keys == ret.Keys + table.Values &&
      (forall k :: k in ret ==> r.value[k] == ret[k]) &&
      (forall src :: src in table ==> r.value[table[src]] == values[src])
  {
    var out := ret;
    var todo := table.Keys;
    while todo != {}
      invariant todo <= table.Keys
      invariant forall src :: src in table && src !in todo ==> src in values
      invariant forall k :: k in out ==> k in ret || k in table.Values
      invariant forall k :: k in ret ==> k in out && out[k] == ret[k]
      invariant forall src :: src in table && src !in todo ==> table[src] in out && out[table[src]] == values[src]
      decreases todo
    {
      var src := Pick(todo);
      if src !in values {
        return None;
      }
      out := out[table[src] := values[src]];
      todo := todo - {src};
    }
    forall k | k in table.Values
      ensures k in out
    {
      var src :| src in table && table[src] == k;
    }
    return Some(out);
  }

  // ---------------------------------------------------------------------
  // properties

  /** No two libvirt statistics are reported under the same name. */
  lemma MemStatsInjective()
    ensures forall a, b :: a in MemStats() && b in MemStats() && a != b ==> MemStats()[a] != MemStats()[b]
  {
  }

  /** The domain figures do not collide with the renamed statistics, and together they are `getFields`. */
  lemma BaseKeys(info: DomainInfo)
    ensures Base(info).Keys == LibvirtStats()
    ensures LibvirtStats() !! MemStats().Values
  {
  }

  /**
   * A round without memory statistics reports fewer keys than the fields
   * the collector declares, so the monitor does not store it.
   */
  lemma UnavailableIncomplete(info: DomainInfo)
    ensures Base(info).Keys < Fields()
  {
    assert MemStats()["available"] == "mem_available";
    assert "mem_available"[0] != "libvirt_state"[0];
  }
}
