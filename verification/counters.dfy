/**
 * Cumulative counters read once per collection (`/proc/vmstat` swap
 * counters, a process's fault counters) and reported as the change since
 * the previous read.  The first read has nothing to subtract and reports
 * no change.
 */
module Counters {
  import opened Wrappers

  /** The last counter read, None before the first. */
  function Last(counts: seq<int>): (r: Option<int>)
    ensures r.None? <==> |counts| == 0
  {
    if |counts| == 0 then None else Some(counts[|counts| - 1])
  }

  /** The change reported for the read `cur` given the previous read. */
  function Delta(prev: Option<int>, cur: int): int {
    match prev
    case None => 0
    case Some(p) => cur - p
  }

  /** The changes reported for a run of counts, one per read. */
  function Deltas(counts: seq<int>): (r: seq<int>)
    ensures |r| == |counts|
    decreases |counts|
  {
    if |counts| == 0 then []
    else
      var before := counts[..|counts| - 1];
      Deltas(before) + [Delta(Last(before), counts[|counts| - 1])]
  }

  function Sum(xs: seq<int>): int
    decreases |xs|
  {
    if |xs| == 0 then 0 else Sum(xs[..|xs| - 1]) + xs[|xs| - 1]
  }

  // ---------------------------------------------------------------------
  // properties

  /** One more read adds one change, measured from the read before it. */
  lemma DeltasSnoc(counts: seq<int>, cur: int)
    ensures Deltas(counts + [cur]) == Deltas(counts) + [Delta(Last(counts), cur)]
  {
    assert (counts + [cur])[..|counts|] == counts;
  }

  /** The first read reports no change. */
  lemma {:induction false} DeltasFirst(counts: seq<int>)
    requires |counts| > 0
    ensures Deltas(counts)[0] == 0
    decreases |counts|
  {
    if |counts| > 1 {
      DeltasFirst(counts[..|counts| - 1]);
    }
  }

  /** Every later read reports its counter minus the one read just before. */
  lemma {:induction false} DeltasLater(counts: seq<int>, i: nat)
    requires 0 < i < |counts|
    ensures Deltas(counts)[i] == counts[i] - counts[i - 1]
    decreases |counts|
  {
    var before := counts[..|counts| - 1];
    if i < |counts| - 1 {
      DeltasLater(before, i);
    }
  }

  /** The changes reported add up to the growth of the counter since the first read. */
  lemma {:induction false} DeltasTelescope(counts: seq<int>)
    requires |counts| > 0
    ensures Sum(Deltas(counts)) == counts[|counts| - 1] - counts[0]
    decreases |counts|
  {
    var before := counts[..|counts| - 1];
    if |before| > 0 {
      DeltasTelescope(before);
    }
  }

  /** A counter that never decreases never reports a negative change. */
  lemma {:induction false} DeltasNonnegative(counts: seq<int>, i: nat)
    requires forall j :: 0 < j < |counts| ==> counts[j - 1] <= counts[j]
    requires i < |counts|
    ensures Deltas(counts)[i] >= 0
  {
    if i == 0 {
      DeltasFirst(counts);
    } else {
      DeltasLater(counts, i);
    }
  }
}
