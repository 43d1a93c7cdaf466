/**
 * The qemu process collector (mom/Collectors/GuestQemuProc.py).  It reads
 * the guest's `/proc/<pid>/stat` line each round and reports the page
 * faults the qemu process caused since the previous round and its
 * resident set size.  Reading the file is external: its contents, or None
 * when the read fails, are an input.
 */
module GuestQemuProcs {
  import opened Wrappers
  import opened Strings
  import opened Counters
  import opened Monitoring

  /** `getFields`. */
  function Fields(): set<string> {
    {"host_minor_faults", "host_major_faults", "rss"}
  }

  /** The three figures read from a stat line. */
  datatype StatCounters = StatCounters(minorFaults: int, majorFaults: int, rss: int)

  /**
   * Whitespace-separated fields 9, 11 and 23 of the stat line, each read as
   * a decimal integer; None when a field is missing or is not an integer.
   */
  function ReadStat(contents: string): Option<StatCounters> {
    var stats := Words(contents);
    if |stats| <= 23 then None
    else
      match (ParseInt(stats[9]), ParseInt(stats[11]), ParseInt(stats[23]))
      case (Some(minor), Some(major), Some(rss)) => Some(StatCounters(minor, major, rss))
      case _ => None
  }

  /** The dictionary `collect` returns. */
  function Report(minorFaults: int, majorFaults: int, rss: int): Sample {
    map["host_minor_faults" := minorFaults, "host_major_faults" := majorFaults, "rss" := rss]
  }

  /**
   * Reading the stat line: fields 9, 11 and 23 in that order, each an
   * integer; the first missing or malformed one raises.
   */
  method ParseStat(contents: string) returns (r: Result<StatCounters, string>)
    ensures r.Ok? <==> ReadStat(contents).Some?
    ensures r.Ok? ==> r.value == ReadStat(contents).value
  {
    var stats := Words(contents);
    if |stats| <= 9 {
      return Err("list index out of range");
    }
    var curMinor := ParseInt(stats[9]);
    if curMinor.None? {
      return Err("invalid literal for int()");
    }
    if |stats| <= 11 {
      return Err("list index out of range");
    }
    var curMajor := ParseInt(stats[11]);
    if curMajor.None? {
      return Err("invalid literal for int()");
    }
    if |stats| <= 23 {
      return Err("list index out of range");
    }
    var rss := ParseInt(stats[23]);
    if rss.None? {
      return Err("invalid literal for int()");
    }
    return Ok(StatCounters(curMinor.value, curMajor.value, rss.value));
  }

  /**
   * One fault counter's step: the previous value defaults to the current
   * read the first time, the change is reported, and the read becomes the
   * previous value.
   */
  method FaultStep(prev: Option<int>, cur: int) returns (newPrev: Option<int>, delta: int)
    ensures newPrev == Some(cur) && delta == Delta(prev, cur)
  {
    newPrev := prev;
    if newPrev.None? {
      newPrev := Some(cur);
    }
    delta := cur - newPrev.value;
    newPrev := Some(cur);
  }

  class GuestQemuProc {
    /** Whether the guest had a pid, so that there is a stat file to read. */
    const hasStatFile: bool
    var prevMinorFaults: Option<int>
    var prevMajorFaults: Option<int>
    /** Every fault counter read so far, oldest first. */
    ghost var minorCounts: seq<int>
    ghost var majorCounts: seq<int>

    ghost predicate Valid()
      reads this
    {
      prevMinorFaults == Last(minorCounts) && prevMajorFaults == Last(majorCounts) &&
      |minorCounts| == |majorCounts|
    }

    constructor (pid: Option<int>)
      ensures hasStatFile <==> pid.Some?
      ensures Valid() && minorCounts == [] && majorCounts == []
    {
      hasStatFile := pid.Some?;
      prevMinorFaults, prevMajorFaults := None, None;
      minorCounts, majorCounts := [], [];
    }

    /**
     * `collect`: nothing without a stat file; a failed read is a collection
     * error; a malformed line raises an exception the monitor does not
     * handle (Err); otherwise the fault counts since the previous round
     * and the resident set size.
     */
    method Collect(contents: Option<string>) returns (r: Result<Collected, string>)
      requires Valid()
      modifies this
      ensures Valid()
      ensures !hasStatFile ==> r == Ok(Data(map[])) && unchanged(this)
      ensures hasStatFile && contents.None? ==> r.Ok? && r.value.CollectionError? && unchanged(this)
      ensures hasStatFile && contents.Some? && ReadStat(contents.value).None? ==> r.Err? && unchanged(this)
      ensures hasStatFile && contents.Some? && ReadStat(contents.value).Some? ==>
        var c := ReadStat(contents.value).value;
        minorCounts == old(minorCounts) + [c.minorFaults] && majorCounts == old(majorCounts) + [c.majorFaults] &&
        r == Ok(Data(Report(Delta(old(prevMinorFaults), c.minorFaults), Delta(old(prevMajorFaults), c.majorFaults), c.rss))) &&
        r == Ok(Data(Report(Deltas(minorCounts)[|minorCounts| - 1], Deltas(majorCounts)[|majorCounts| - 1], c.rss)))
    {
      if !hasStatFile {
        return Ok(Data(map[]));
      }
      if contents.None? {
        return Ok(CollectionError("Cannot read stat file"));
      }
      var stat := ParseStat(contents.value);
      if stat.Err? {
        return Err(stat.error);
      }
      var c := stat.value;
      var minorFaults, majorFaults;
      prevMinorFaults, minorFaults := FaultStep(prevMinorFaults, c.minorFaults);
      prevMajorFaults, majorFaults := FaultStep(prevMajorFaults, c.majorFaults);
      DeltasSnoc(minorCounts, c.minorFaults);
      DeltasSnoc(majorCounts, c.majorFaults);
      minorCounts := minorCounts + [c.minorFaults];
      majorCounts := majorCounts + [c.majorFaults];
      return Ok(Data(Report(minorFaults, majorFaults, c.rss)));
    }
  }

  // ---------------------------------------------------------------------
  // properties

  /** The reported keys are exactly `getFields`. */
  lemma ReportFields(minorFaults: int, majorFaults: int, rss: int)
    ensures Report(minorFaults, majorFaults, rss).Keys == Fields()
  {
  }

  /**
   * The positions read: a line whose fields 9, 11 and 23 are integers gives
   * those three integers, whatever the other fields hold.
   */
  lemma ReadStatFields(fields: seq<string>, minor: int, major: int, rss: int)
    requires |fields| > 23 && AllWords(fields)
    requires ParseInt(fields[9]) == Some(minor) && ParseInt(fields[11]) == Some(major) && ParseInt(fields[23]) == Some(rss)
    ensures ReadStat(Join(fields, " ")) == Some(StatCounters(minor, major, rss))
  {
    WordsJoin(fields);
  }
}
