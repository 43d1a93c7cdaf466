/**
 * The watchdog every MOM thread carries (mom/MomThread.py): a thread
 * records when it last completed an interval, and the main loop judges it
 * from that time.  Clock readings are integers given as inputs.
 */
module MomThreads {

  /** The watchdog's judgement of a thread. */
  datatype Health = Quit | Unresponsive | Stalled | Responsive

  /**
   * `check_thread`'s decision for a thread whose last interval completed
   * at `last`, judged at `now`.
   */
  function Assess(alive: bool, last: int, now: int, interval: int): (r: Health)
    ensures r == Quit <==> !alive
    ensures r == Unresponsive <==> alive && now - last > 10 * interval
    ensures r == Responsive ==> alive && now - last <= 5 * interval
  {
    var delay := now - last;
    if !alive then Quit
    else if delay > 10 * interval then Unresponsive
    else if delay > 5 * interval then Stalled
    else Responsive
  }

  /** What `check_thread` returns: a stalled thread is only warned about. */
  function Verdict(h: Health): bool {
    h == Stalled || h == Responsive
  }

  class MomThread {
    var iterCompleteTime: int

    constructor (now: int)
      ensures iterCompleteTime == now
    {
      iterCompleteTime := now;
    }

    /** `get_last_interval_time`. */
    function GetLastIntervalTime(): int
      reads this
    {
      iterCompleteTime
    }

    /** `interval_complete`: the time recorded is the time read back. */
    method IntervalComplete(now: int)
      modifies this
      ensures GetLastIntervalTime() == now
    {
      iterCompleteTime := now;
    }

    /** `check_thread`. */
    function CheckThread(alive: bool, now: int, interval: int): (r: bool)
      reads this
      ensures r <==> alive && now - iterCompleteTime <= 10 * interval
    {
      Verdict(Assess(alive, GetLastIntervalTime(), now, interval))
    }
  }

  // ---------------------------------------------------------------------
  // properties

  /** A thread passes exactly when it is alive and has not been silent for more than ten intervals. */
  lemma VerdictIff(alive: bool, last: int, now: int, interval: int)
    ensures Verdict(Assess(alive, last, now, interval)) <==> alive && now - last <= 10 * interval
  {
  }

  /** The stall window: more than five and at most ten intervals. */
  lemma StalledIff(alive: bool, last: int, now: int, interval: int)
    ensures Assess(alive, last, now, interval) == Stalled <==>
      alive && 5 * interval < now - last <= 10 * interval
  {
  }

  /** Judged earlier, a thread that passes would have passed too. */
  lemma VerdictEarlier(alive: bool, last: int, earlier: int, now: int, interval: int)
    requires earlier <= now && Verdict(Assess(alive, last, now, interval))
    ensures Verdict(Assess(alive, last, earlier, interval))
  {
  }

  /** A live thread that has just completed an interval passes, for any interval that is not negative. */
  lemma JustCompletedPasses(now: int, interval: int)
    requires interval >= 0
    ensures Assess(true, now, now, interval) == Responsive
  {
  }
}
