/**
 * The host memory collector (mom/Collectors/HostMemory.py).  Each round it
 * reads `/proc/meminfo` and the cumulative swap counters of
 * `/proc/vmstat`; reading and matching those files is external, so the
 * parsed numbers are inputs here.
 */
module HostMemories {
  import opened Wrappers
  import opened Counters
  import opened Monitoring

  /** The numbers read from `/proc/meminfo`, in kB. */
  datatype MemInfo = MemInfo(memTotal: int, anonPages: int, memFree: int, buffers: int, cached: int)

  /** `getFields`, with the source's own spelling of `mem_unuused`. */
  function Fields(): set<string> {
    {"mem_available", "mem_unuused", "mem_free", "swap_in", "swap_out", "anon_pages"}
  }

  /** Memory that can be had without swapping: free, buffers and page cache. */
  function FreeMemory(mem: MemInfo): int {
    mem.memFree + mem.buffers + mem.cached
  }

  /** The dictionary `collect` returns. */
  function Report(mem: MemInfo, swapIn: int, swapOut: int): Sample {
    map["mem_available" := mem.memTotal, "mem_unuused" := mem.memFree,
        "mem_free" := FreeMemory(mem), "swap_in" := swapIn, "swap_out" := swapOut,
        "anon_pages" := mem.anonPages]
  }

  /** What `prev` holds after the counter reads `counts`: the read before the last, or the only one. */
  function PrevRead(counts: seq<int>): (r: Option<int>)
    ensures r.None? <==> |counts| == 0
  {
    if |counts| == 0 then None
    else if |counts| == 1 then Some(counts[0])
    else Some(counts[|counts| - 2])
  }

  /**
   * One counter's step in `collect`: the previous value becomes the old
   * current one (or the new read, the first time), the new read becomes
   * current, and the change between them is reported.
   */
  method Advance(cur: Option<int>, counter: int) returns (newPrev: Option<int>, newCur: Option<int>, delta: int)
    ensures newCur == Some(counter)
    ensures newPrev == (if cur.None? then Some(counter) else cur)
    ensures delta == Delta(cur, counter)
  {
    newPrev := cur;
    newCur := Some(counter);
    if newPrev.None? {
      newPrev := newCur;
    }
    delta := newCur.value - newPrev.value;
  }

  class HostMemory {
    var swapInPrev: Option<int>
    var swapInCur: Option<int>
    var swapOutPrev: Option<int>
    var swapOutCur: Option<int>
    /** Every `pswpin` and `pswpout` counter read so far, oldest first. */
    ghost var swapIns: seq<int>
    ghost var swapOuts: seq<int>

    /** The four fields are the last two reads of each counter. */
    ghost predicate Valid()
      reads this
    {
      swapInCur == Last(swapIns) && swapInPrev == PrevRead(swapIns) &&
      swapOutCur == Last(swapOuts) && swapOutPrev == PrevRead(swapOuts) &&
      |swapIns| == |swapOuts|
    }

    constructor ()
      ensures Valid() && swapIns == [] && swapOuts == []
    {
      swapInPrev, swapInCur := None, None;
      swapOutPrev, swapOutCur := None, None;
      swapIns, swapOuts := [], [];
    }

    /**
     * `collect`: the memory figures as read, free memory with buffers and
     * cache added, and the swap activity since the previous round.
     */
    method Collect(mem: MemInfo, pswpin: int, pswpout: int) returns (data: Sample)
      requires Valid()
      modifies this
      ensures Valid()
      ensures swapIns == old(swapIns) + [pswpin] && swapOuts == old(swapOuts) + [pswpout]
      ensures data == Report(mem, Delta(old(swapInCur), pswpin), Delta(old(swapOutCur), pswpout))
      ensures data == Report(mem, Deltas(swapIns)[|swapIns| - 1], Deltas(swapOuts)[|swapOuts| - 1])
    {
      var swapIn, swapOut;
      swapInPrev, swapInCur, swapIn := Advance(swapInCur, pswpin);
      swapOutPrev, swapOutCur, swapOut := Advance(swapOutCur, pswpout);
      AdvanceReads(swapIns, pswpin);
      AdvanceReads(swapOuts, pswpout);
      swapIns := swapIns + [pswpin];
      swapOuts := swapOuts + [pswpout];
      data := Report(mem, swapIn, swapOut);
    }
  }

  // ---------------------------------------------------------------------
  // properties

  /** Reading one more counter keeps the fields equal to the last two reads. */
  lemma AdvanceReads(counts: seq<int>, counter: int)
    ensures Last(counts + [counter]) == Some(counter)
    ensures PrevRead(counts + [counter]) == (if Last(counts).None? then Some(counter) else Last(counts))
    ensures Deltas(counts + [counter])[|counts|] == Delta(Last(counts), counter)
  {
    DeltasSnoc(counts, counter);
  }

  /** The reported keys are exactly `getFields`, each carrying its figure. */
  lemma ReportFields(mem: MemInfo, swapIn: int, swapOut: int)
    ensures var data := Report(mem, swapIn, swapOut);
      data.Keys == Fields() &&
      data["mem_available"] == mem.memTotal && data["mem_unuused"] == mem.memFree &&
      data["anon_pages"] == mem.anonPages && data["mem_free"] == FreeMemory(mem) &&
      data["swap_in"] == swapIn && data["swap_out"] == swapOut
  {
  }
}
