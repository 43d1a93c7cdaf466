/**
 * The KSM controller (mom/Controllers/KSM.py).  It remembers the value it
 * last wrote for each kernel same-page-merging tunable and, each round,
 * writes only the tunables whose host control is set to something new.
 * The host controls and whether a sysfs file can be opened are inputs.
 */
module KsmControllers {
  import opened Wrappers
  import opened Dicts
  import opened PolicyValues

  /** The initial `cur`: every tunable at the string '0'. */
  function InitialSettings(): map<string, Value> {
    map["run" := Str("0"), "pages_to_scan" := Str("0"), "sleep_millisecs" := Str("0")]
  }

  /** The host control a tunable is set from. */
  function ControlName(key: string): string {
    "ksm_" + key
  }

  /** The sysfs file a tunable is written to. */
  function SysfsPath(key: string): string {
    "/sys/kernel/mm/ksm/" + key
  }

  /** The host's controls: the value a control holds, None when unset. */
  type Controls = string -> Option<Value>

  /** The tunables whose control is set and differs (Python `!=`) from the value last written. */
  function Changes(cur: map<string, Value>, control: Controls): (r: map<string, Value>)
    ensures r.Keys <= cur.Keys
    ensures forall k :: k in cur ==>
      (k in r <==> control(ControlName(k)).Some? && !PyEq(control(ControlName(k)).value, cur[k]))
    ensures forall k :: k in r ==> r[k] == control(ControlName(k)).value
  {
    map k | k in cur && control(ControlName(k)).Some? && !PyEq(control(ControlName(k)).value, cur[k])
      :: control(ControlName(k)).value
  }

  /** What writing one sysfs file came to. */
  datatype WriteOutcome = Written | Warned

  /**
   * `write_value` as written: when `open` fails, the handler logs the
   * warning and then `file.close()` runs on a name that was never bound,
   * which raises.
   */
  function WriteValueAsWritten(opens: bool): (r: Result<WriteOutcome, string>)
    ensures r.Ok? <==> opens
    ensures r.Ok? ==> r.value == Written
  {
    if opens then Ok(Written) else Err("UnboundLocalError: local variable 'file' referenced before assignment")
  }

  /** `write_value` as evidently intended: a file that cannot be opened is only a warning. */
  function WriteValue(opens: bool): (r: WriteOutcome)
    ensures r == Written <==> opens
  {
    if opens then Written else Warned
  }

  /** `process` as written raises in its write loop: some output's file cannot be opened. */
  predicate RoundRaises(outputs: map<string, Value>, opens: string -> bool) {
    exists k :: k in outputs && !opens(SysfsPath(k))
  }

  class Ksm {
    /** The value last written for each tunable. */
    var cur: map<string, Value>

    constructor ()
      ensures cur == InitialSettings()
    {
      cur := InitialSettings();
    }

    /**
     * `process`: finds the changed tunables, records them in `cur`, then
     * writes each once.  Returns the values written, by tunable, and the
     * tunables whose file could not be opened.
     */
    method Process(control: Controls, opens: string -> bool) returns (written: map<string, Value>, failed: set<string>)
      modifies this
      ensures written == Changes(old(cur), control)
      ensures cur == old(cur) + written
      ensures failed == set k | k in written && WriteValue(opens(SysfsPath(k))) == Warned
    {
      var outputs;
      outputs, cur := FindChanges(cur, control);
      failed := WriteAll(outputs, opens);
      cur := cur + outputs;
      written := outputs;
    }

    /**
     * `process` as written: the first loop records every change in `cur`,
     * then the write loop raises at the first file that cannot be opened,
     * leaving the outputs after it unwritten.  Returns the tunables
     * written before that.
     */
    method ProcessAsWritten(control: Controls, opens: string -> bool) returns (written: set<string>, r: Result<(), string>)
      modifies this
      ensures cur == old(cur) + Changes(old(cur), control)
      ensures written <= Changes(old(cur), control).Keys
      ensures forall k :: k in written ==> opens(SysfsPath(k))
      ensures r.Err? <==> RoundRaises(Changes(old(cur), control), opens)
      ensures r.Ok? ==> written == Changes(old(cur), control).Keys
      ensures r.Err? ==> written < Changes(old(cur), control).Keys
    {
      var outputs;
      outputs, cur := FindChanges(cur, control);
      written, r := WriteAllAsWritten(outputs, opens);
    }
  }

  /**
   * The first loop of `process`: each tunable whose control is set and
   * new goes into the outputs and into `cur`.
   */
  method FindChanges(cur: map<string, Value>, control: Controls)
    returns (outputs: map<string, Value>, updated: map<string, Value>)
    ensures outputs == Changes(cur, control)
    ensures updated == cur + outputs
  {
    ghost var changes := Changes(cur, control);
    outputs := map[];
    updated := cur;
    var todo := cur.Keys;
    while todo != {}
      invariant todo <= cur.Keys
      invariant outputs.Keys == changes.Keys - todo
      invariant forall k :: k in outputs ==> outputs[k] == changes[k]
      invariant updated == cur + outputs
      decreases todo
    {
      var key := Pick(todo);
      var ruleVar := control(ControlName(key));
      if ruleVar.Some? && !PyEq(ruleVar.value, updated[key]) {
        outputs := outputs[key := ruleVar.value];
        updated := updated[key := ruleVar.value];
      }
      todo := todo - {key};
    }
  }

  /** The second loop: every output written once; returns those that only got a warning. */
  method WriteAll(outputs: map<string, Value>, opens: string -> bool) returns (failed: set<string>)
    ensures failed == set k | k in outputs && WriteValue(opens(SysfsPath(k))) == Warned
  {
    failed := {};
    var pending := outputs.Keys;
    while pending != {}
      invariant pending <= outputs.Keys
      invariant failed == set k | k in outputs.Keys - pending && WriteValue(opens(SysfsPath(k))) == Warned
      decreases pending
    {
      var key := Pick(pending);
      var outcome := WriteValue(opens(SysfsPath(key)));
      if outcome == Warned {
        failed := failed + {key};
      }
      pending := pending - {key};
    }
  }

  /**
   * The second loop over `write_value` as written: each output is written
   * until one file cannot be opened, where the round raises.
   */
  method WriteAllAsWritten(outputs: map<string, Value>, opens: string -> bool) returns (done: set<string>, r: Result<(), string>)
    ensures done <= outputs.Keys
    ensures forall k :: k in done ==> opens(SysfsPath(k))
    ensures r.Err? <==> RoundRaises(outputs, opens)
    ensures r.Ok? ==> done == outputs.Keys
    ensures r.Err? ==> done < outputs.Keys
  {
    done := {};
    var pending := outputs.Keys;
    while pending != {}
      invariant pending <= outputs.Keys && done == outputs.Keys - pending
      invariant forall k :: k in done ==> opens(SysfsPath(k))
      decreases pending
    {
      var key := Pick(pending);
      var outcome := WriteValueAsWritten(opens(SysfsPath(key)));
      if outcome.Err? {
        return done, Err(outcome.error);
      }
      done := done + {key};
      pending := pending - {key};
    }
    return done, Ok(());
  }

  // ---------------------------------------------------------------------
  // properties

  /**
   * The source raises in a round exactly when the corrected round reports
   * a file that could not be opened; `cur` records the changes either way.
   */
  lemma ProcessStopsAtFailure(outputs: map<string, Value>, opens: string -> bool)
    ensures RoundRaises(outputs, opens) <==>
      (set k | k in outputs && WriteValue(opens(SysfsPath(k))) == Warned) != {}
  {
    var warned := set k | k in outputs && WriteValue(opens(SysfsPath(k))) == Warned;
    if RoundRaises(outputs, opens) {
      var k :| k in outputs && !opens(SysfsPath(k));
      assert k in warned;
      assert warned != {};
    }
  }

  /** Switching KSM on while its sysfs files cannot be opened makes the round raise as written. */
  lemma ProcessAsWrittenRaises()
    ensures var control := (n: string) => if n == "ksm_run" then Some(Str("1")) else None;
      var outputs := Changes(InitialSettings(), control);
      outputs == map["run" := Str("1")] && RoundRaises(outputs, (p: string) => false)
  {
    var control := (n: string) => if n == "ksm_run" then Some(Str("1")) else None;
    var outputs := Changes(InitialSettings(), control);
    assert ControlName("run") == "ksm_run";
    assert ControlName("pages_to_scan") != "ksm_run" && ControlName("sleep_millisecs") != "ksm_run" by {
      assert ControlName("pages_to_scan")[4] != "ksm_run"[4];
      assert ControlName("sleep_millisecs")[4] != "ksm_run"[4];
    }
    assert !PyEq(Str("1"), Str("0"));
    assert outputs == map["run" := Str("1")];
    assert "run" in outputs && !(((p: string) => false)(SysfsPath("run")));
  }

  /** A round never adds or drops a tunable. */
  lemma ProcessKeepsTunables(cur: map<string, Value>, control: Controls)
    ensures (cur + Changes(cur, control)).Keys == cur.Keys
  {
  }

  /** Idempotence: a second round with the same controls writes nothing. */
  lemma ProcessIdempotent(cur: map<string, Value>, control: Controls)
    ensures Changes(cur + Changes(cur, control), control) == map[]
  {
    var after := cur + Changes(cur, control);
    forall k | k in after && control(ControlName(k)).Some?
      ensures PyEq(control(ControlName(k)).value, after[k])
    {
      if k in Changes(cur, control) {
        PyEqReflexive(control(ControlName(k)).value);
      } else {
        assert after[k] == cur[k];
      }
    }
  }

  /** The defect: a file that cannot be opened makes `write_value` raise instead of warn. */
  lemma WriteValueUnbound()
    ensures WriteValueAsWritten(false).Err?
    ensures WriteValue(false) == Warned
  {
  }

  /** The corrected `write_value` agrees with the source whenever the file opens. */
  lemma WriteValueAgrees(opens: bool)
    requires opens
    ensures WriteValueAsWritten(opens) == Ok(WriteValue(opens))
  {
  }
}
