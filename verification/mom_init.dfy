/**
 * The MOM daemon object (mom/__init__.py): it builds the configuration
 * from built-in defaults, the configuration file and its owner's
 * overrides, picks a fresh plot directory, sets the log level, and each
 * round of its main loop stops everything once a thread has died.  The
 * parsed file, the directory listing, whether `mkdir` succeeds and the
 * threads' liveness are inputs.
 */
module MomDaemon {
  import opened Wrappers
  import opened Strings
  import opened LogUtils

  /** A `ConfigParser`: each section's options, all held as strings. */
  type Config = map<string, map<string, string>>

  /** The built-in defaults `_load_config` starts from. */
  function Defaults(): Config {
    map[
      "main" := map[
        "main-loop-interval" := "5", "host-monitor-interval" := "5",
        "guest-manager-interval" := "5", "hypervisor-interface" := "libvirt",
        "guest-monitor-interval" := "5", "policy-engine-interval" := "10",
        "sample-history-length" := "10", "libvirt-hypervisor-uri" := "",
        "controllers" := "Balloon", "plot-dir" := "", "rpc-port" := "-1", "policy" := ""],
      "logging" := map[
        "log" := "stdio", "verbosity" := "info", "max-bytes" := "2097152", "backup-count" := "5"],
      "host" := map["collectors" := "HostMemory"],
      "guest" := map["collectors" := "GuestQemuProc, GuestLibvirt"]]
  }

  /** A section's options, none when the section is absent. */
  function Section(c: Config, s: string): map<string, string> {
    if s in c then c[s] else map[]
  }

  /** `config.read`: the file's sections are added and its options override. */
  function Read(c: Config, file: Config): (r: Config)
    ensures r.Keys == c.Keys + file.Keys
    ensures forall s :: s in r ==> r[s].Keys == Section(c, s).Keys + Section(file, s).Keys
  {
    map s | s in c.Keys + file.Keys ::
      if s in c && s in file then c[s] + file[s] else if s in c then c[s] else file[s]
  }

  /** The owner's overrides, applied only to sections the configuration already has. */
  function Override(c: Config, overrides: Config): (r: Config)
    ensures r.Keys == c.Keys
    ensures forall s :: s in r ==> r[s].Keys == c[s].Keys + Section(overrides, s).Keys
  {
    map s | s in c :: if s in overrides then c[s] + overrides[s] else c[s]
  }

  /** The configuration before the internal section is added. */
  function Customized(base: Config, file: Config, overrides: Option<Config>): Config {
    var read := Read(base, file);
    if overrides.Some? then Override(read, overrides.value) else read
  }

  /** The options MOM itself reads while it loads. */
  predicate HasSettings(c: Config) {
    "main" in c && "plot-dir" in c["main"] && "logging" in c && "verbosity" in c["logging"]
  }

  /** `main`/`plot-dir`. */
  function PlotDir(c: Config): string {
    if "main" in c && "plot-dir" in c["main"] then c["main"]["plot-dir"] else ""
  }

  /** The internal section, rebuilt whatever the file said. */
  function Internal(plotSubdir: string): map<string, string> {
    map["running" := "0", "plot-subdir" := plotSubdir]
  }

  /** The configuration loading leaves behind when it starts from `base`. */
  function LoadedFrom(base: Config, file: Config, overrides: Option<Config>, listing: Option<seq<string>>, mkdirOk: bool): Config {
    var c := Customized(base, file, overrides);
    c["__int__" := Internal(PlotSubdir(PlotDir(c), listing, mkdirOk))]
  }

  /** The configuration `_load_config` leaves behind. */
  function LoadedConfig(file: Config, overrides: Option<Config>, listing: Option<seq<string>>, mkdirOk: bool): Config {
    LoadedFrom(Defaults(), file, overrides, listing, mkdirOk)
  }

  // ---------------------------------------------------------------------
  // plot directories

  /**
   * The number in a name `^momplot-(\d{3})$` matches.  Python's `$` also
   * matches just before a final newline, so one trailing newline is
   * allowed.
   */
  function MatchNum(name: string): (r: Option<nat>)
    ensures r.Some? ==> r.value < 1000
  {
    if (|name| == 11 || (|name| == 12 && name[11] == '\n')) &&
       name[..8] == "momplot-" && AllDigits(name[8..11])
    then
      ThreeDigitsBound(name[8..11]);
      Some(DigitsValue(name[8..11]))
    else None
  }

  /** The largest number among the matching names, -1 when none matches. */
  function MaxSeq(names: seq<string>): (r: int)
    ensures -1 <= r < 1000
    ensures forall i :: 0 <= i < |names| && MatchNum(names[i]).Some? ==> MatchNum(names[i]).value <= r
    ensures r == -1 || exists i :: 0 <= i < |names| && MatchNum(names[i]) == Some(r)
    decreases |names|
  {
    if |names| == 0 then -1
    else
      var rest := MaxSeq(names[..|names| - 1]);
      var m := MatchNum(names[|names| - 1]);
      if m.Some? && m.value > rest then m.value else rest
  }

  /** `'%03d' % n`. */
  function Pad3(n: nat): (s: string)
    requires n < 1000
    ensures |s| == 3 && AllDigits(s)
  {
    [DigitChar(n / 100), DigitChar(n / 10 % 10), DigitChar(n % 10)]
  }

  /** The directory name for sequence number `n`. */
  function SubdirName(n: nat): string
    requires n < 1000
  {
    "momplot-" + Pad3(n)
  }

  /**
   * `_get_plot_subdir` as evidently intended: the new directory, one past
   * the highest numbered one, or '' when there is no base directory, it
   * cannot be listed, the numbers are used up or `mkdir` fails.
   */
  function PlotSubdir(basedir: string, listing: Option<seq<string>>, mkdirOk: bool): (r: string)
    ensures r != "" ==> basedir != "" && listing.Some? && mkdirOk
    ensures r != "" ==>
      |r| > |basedir| && r[..|basedir| + 1] == basedir + "/" &&
      MatchNum(r[|basedir| + 1..]) == Some(MaxSeq(listing.value) + 1) &&
      forall i :: 0 <= i < |listing.value| ==> listing.value[i] != r[|basedir| + 1..]
  {
    if basedir == "" || listing.None? then ""
    else
      var n := MaxSeq(listing.value) + 1;
      if n > 999 || !mkdirOk then ""
      else
        var r := basedir + "/" + SubdirName(n);
        SubdirMatches(n);
        NotListed(listing.value, n);
        assert r[..|basedir| + 1] == basedir + "/" && r[|basedir| + 1..] == SubdirName(n);
        r
  }

  /**
   * `_get_plot_subdir` as written: it runs inside `_load_config`, before
   * `self.logger` exists, so each path that logs a warning raises
   * `AttributeError` instead of returning ''.
   */
  function PlotSubdirAsWritten(basedir: string, listing: Option<seq<string>>, mkdirOk: bool): (r: Result<string, string>)
    ensures r.Err? <==> basedir != "" && (listing.None? || MaxSeq(listing.value) >= 999 || !mkdirOk)
    ensures r == Ok("") <==> basedir == ""
  {
    if basedir == "" then Ok("")
    else if listing.None? then Err("AttributeError: MOM instance has no attribute 'logger'")
    else
      var n := MaxSeq(listing.value) + 1;
      if n > 999 || !mkdirOk then Err("AttributeError: MOM instance has no attribute 'logger'")
      else Ok(basedir + "/" + SubdirName(n))
  }

  /** The loop over the listing: one past the highest number a name carries. */
  method NextSeqNum(names: seq<string>) returns (seqNum: int)
    ensures seqNum == MaxSeq(names) + 1
  {
    seqNum := -1;
    var i := 0;
    while i < |names|
      invariant 0 <= i <= |names|
      invariant seqNum == MaxSeq(names[..i])
    {
      assert names[..i + 1][..i] == names[..i];
      var m := MatchNum(names[i]);
      if m.Some? && m.value > seqNum {
        seqNum := m.value;
      }
      i := i + 1;
    }
    assert names[..|names|] == names;
    seqNum := seqNum + 1;
  }

  /** `_get_plot_subdir`, with the warnings logged in place of the failures. */
  method GetPlotSubdir(basedir: string, listing: Option<seq<string>>, mkdirOk: bool) returns (dir: string)
    ensures dir == PlotSubdir(basedir, listing, mkdirOk)
  {
    if basedir == "" {
      return "";
    }
    if listing.None? {
      return "";
    }
    var seqNum := NextSeqNum(listing.value);
    if seqNum > 999 {
      return "";
    }
    if !mkdirOk {
      return "";
    }
    return basedir + "/" + SubdirName(seqNum);
  }

  // ---------------------------------------------------------------------
  // loading the configuration

  /** The inner loop over one section's override items. */
  method SetItems(options: map<string, string>, items: map<string, string>) returns (r: map<string, string>)
    ensures r == options + items
  {
    r := options;
    var todo := items.Keys;
    while todo != {}
      invariant todo <= items.Keys
      invariant r.Keys == options.Keys + (items.Keys - todo)
      invariant forall k :: k in r ==> r[k] == if k in items && k !in todo then items[k] else options[k]
      decreases todo
    {
      var item :| item in todo;
      r := r[item := items[item]];
      todo := todo - {item};
    }
  }

  /** The loop over the overrides' sections, skipping those the configuration lacks. */
  method ApplyOverrides(c: Config, overrides: Config) returns (r: Config)
    ensures r == Override(c, overrides)
  {
    r := c;
    var todo := overrides.Keys;
    while todo != {}
      invariant todo <= overrides.Keys
      invariant r.Keys == c.Keys
      invariant forall s :: s in r ==> r[s] == if s in overrides && s !in todo then c[s] + overrides[s] else c[s]
      decreases todo
    {
      var sect :| sect in todo;
      if sect in r {
        var options := SetItems(r[sect], overrides[sect]);
        r := r[sect := options];
      }
      todo := todo - {sect};
    }
  }

  /** `_load_config`: defaults, then the file, then the overrides, then the internal section. */
  method LoadConfig(file: Config, overrides: Option<Config>, listing: Option<seq<string>>, mkdirOk: bool)
    returns (config: Config)
    ensures config == LoadedConfig(file, overrides, listing, mkdirOk)
  {
    DefaultsShape();
    config := LoadOver(Defaults(), file, overrides, listing, mkdirOk);
  }

  /** The steps of `_load_config` after the defaults are set. */
  method LoadOver(base: Config, file: Config, overrides: Option<Config>, listing: Option<seq<string>>, mkdirOk: bool)
    returns (config: Config)
    requires HasSettings(base)
    ensures config == LoadedFrom(base, file, overrides, listing, mkdirOk)
  {
    var custom := Read(base, file);
    if overrides.Some? {
      custom := ApplyOverrides(custom, overrides.value);
    }
    CustomizedKeeps(base, file, overrides);
    config := custom;
    if "__int__" in config {
      config := config - {"__int__"};
    }
    config := config["__int__" := map["running" := "0"]];
    var subdir := GetPlotSubdir(custom["main"]["plot-dir"], listing, mkdirOk);
    config := config["__int__" := config["__int__"]["plot-subdir" := subdir]];
    assert config == custom["__int__" := Internal(subdir)];
  }

  /** Whether the main loop is to keep going. */
  function Running(c: Config): bool {
    "__int__" in c && "running" in c["__int__"] && c["__int__"]["running"] == "1"
  }

  /** The configuration with `running` cleared. */
  function Stopped(c: Config): Config {
    c["__int__" := Section(c, "__int__")["running" := "0"]]
  }

  /** `_threads_ok`: every thread alive; otherwise the first that has exited. */
  method ThreadsOk(alive: seq<bool>) returns (ok: bool, exited: Option<nat>)
    ensures ok <==> forall i :: 0 <= i < |alive| ==> alive[i]
    ensures ok ==> exited.None?
    ensures !ok ==>
      exited.Some? && exited.value < |alive| && !alive[exited.value] &&
      forall i :: 0 <= i < exited.value ==> alive[i]
  {
    var i := 0;
    while i < |alive|
      invariant 0 <= i <= |alive|
      invariant forall j :: 0 <= j < i ==> alive[j]
    {
      if !alive[i] {
        return false, Some(i);
      }
      i := i + 1;
    }
    return true, None;
  }

  class Mom {
    var config: Config
    var level: Level

    /** `MOM(conf_file, conf_overrides)`: loads the configuration, then sets the log level it names. */
    constructor (file: Config, overrides: Option<Config>, listing: Option<seq<string>>, mkdirOk: bool)
      ensures config == LoadedConfig(file, overrides, listing, mkdirOk)
      ensures HasSettings(config) && level == LogSetVerbosity(Lower(config["logging"]["verbosity"]))
    {
      var c := LoadConfig(file, overrides, listing, mkdirOk);
      DefaultsShape();
      LoadedShape(Defaults(), file, overrides, listing, mkdirOk);
      config := c;
      level := LogSetVerbosity(Lower(c["logging"]["verbosity"]));
    }

    /** `shutdown`. */
    method Shutdown()
      modifies this
      ensures config == Stopped(old(config)) && level == old(level)
    {
      config := Stopped(config);
    }

    /**
     * One round of `run`'s main loop after its sleep: a dead thread or a
     * dead RPC server clears `running`.
     */
    method Watch(alive: seq<bool>, rpcOk: bool)
      modifies this
      ensures level == old(level)
      ensures (forall i :: 0 <= i < |alive| ==> alive[i]) && rpcOk ==> config == old(config)
      ensures !((forall i :: 0 <= i < |alive| ==> alive[i]) && rpcOk) ==> config == Stopped(old(config))
    {
      StoppedIdempotent(config);
      var ok, _ := ThreadsOk(alive);
      if !ok {
        config := Stopped(config);
      }
      if !rpcOk {
        config := Stopped(config);
      }
    }
  }

  // ---------------------------------------------------------------------
  // properties

  /** The sections and options MOM reads while loading exist in the defaults. */
  lemma DefaultsShape()
    ensures HasSettings(Defaults()) && Defaults()["main"]["plot-dir"] == ""
    ensures Defaults()["logging"]["verbosity"] == "info"
    ensures "__int__" !in Defaults()
  {
  }

  /** Reading a file keeps every section and option already present, and adds the file's. */
  lemma ReadKeeps(c: Config, file: Config)
    ensures Read(c, file).Keys == c.Keys + file.Keys
    ensures forall s, k :: s in c && k in c[s] ==> k in Read(c, file)[s]
    ensures forall s, k :: s in file && k in file[s] ==> Read(c, file)[s][k] == file[s][k]
    ensures forall s, k :: s in c && k in c[s] && (s !in file || k !in file[s]) ==> Read(c, file)[s][k] == c[s][k]
  {
  }

  /** A missing (empty) file changes nothing. */
  lemma ReadNothing(c: Config)
    ensures Read(c, map[]) == c
  {
  }

  /**
   * Overrides never add a section; within an existing section they win,
   * and every other option keeps its value.
   */
  lemma OverrideSections(c: Config, overrides: Config)
    ensures Override(c, overrides).Keys == c.Keys
    ensures forall s, k :: s in c && s in overrides && k in overrides[s] ==> Override(c, overrides)[s][k] == overrides[s][k]
    ensures forall s, k :: s in c && k in c[s] && (s !in overrides || k !in overrides[s]) ==> Override(c, overrides)[s][k] == c[s][k]
    ensures forall s :: s in c ==> c[s].Keys <= Override(c, overrides)[s].Keys
  {
  }

  /** Customising keeps every section and option of the base configuration. */
  lemma CustomizedKeeps(base: Config, file: Config, overrides: Option<Config>)
    ensures forall s, k :: s in base && k in base[s] ==> s in Customized(base, file, overrides) && k in Customized(base, file, overrides)[s]
    ensures HasSettings(base) ==> HasSettings(Customized(base, file, overrides))
  {
    ReadKeeps(base, file);
    if overrides.Some? {
      OverrideSections(Read(base, file), overrides.value);
    }
  }

  /**
   * After loading: every base option is set, and the internal section
   * holds exactly `running` = '0' and the plot subdirectory, whatever the
   * file or the overrides said.
   */
  lemma LoadedShape(base: Config, file: Config, overrides: Option<Config>, listing: Option<seq<string>>, mkdirOk: bool)
    requires HasSettings(base) && "__int__" !in base
    ensures var c := LoadedFrom(base, file, overrides, listing, mkdirOk);
      (forall s, k :: s in base && k in base[s] ==> s in c && k in c[s]) &&
      HasSettings(c) && "__int__" in c && c["__int__"].Keys == {"running", "plot-subdir"} &&
      c["__int__"]["running"] == "0" && !Running(c)
  {
    var cu := Customized(base, file, overrides);
    CustomizedKeeps(base, file, overrides);
    var internal := Internal(PlotSubdir(PlotDir(cu), listing, mkdirOk));
    var c := cu["__int__" := internal];
    assert LoadedFrom(base, file, overrides, listing, mkdirOk) == c;
    assert c["__int__"] == internal && internal.Keys == {"running", "plot-subdir"};
    forall s, k | s in base && k in base[s]
      ensures s in c && k in c[s]
    {
      assert s != "__int__";
    }
  }

  /** With no file and no overrides, the configuration is the defaults plus the internal section, with no plots. */
  lemma NothingCustomised(listing: Option<seq<string>>, mkdirOk: bool)
    ensures LoadedConfig(map[], None, listing, mkdirOk) == Defaults()["__int__" := Internal("")]
  {
    var base := Defaults();
    ReadNothing(base);
    DefaultsShape();
    assert PlotDir(Customized(base, map[], None)) == "";
  }

  /** The three digits of a name give a number below 1000. */
  lemma ThreeDigitsBound(s: string)
    requires |s| == 3 && AllDigits(s)
    ensures DigitsValue(s) < 1000
  {
    assert DigitsValue(s[..2][..1]) < 10;
  }

  /** The directory created carries the number it was created for. */
  lemma SubdirMatches(n: nat)
    requires n < 1000
    ensures MatchNum(SubdirName(n)) == Some(n)
  {
    var name := SubdirName(n);
    assert name[..8] == "momplot-" && name[8..11] == Pad3(n);
    Pad3Value(n);
  }

  /** The three digits `'%03d'` writes spell the number back. */
  lemma Pad3Value(n: nat)
    requires n < 1000
    ensures DigitsValue(Pad3(n)) == n
  {
    var (a, b, c) := (n / 100, n / 10 % 10, n % 10);
    ThreeDigits(DigitChar(a), DigitChar(b), DigitChar(c));
    assert a * 100 + b * 10 + c == n;
  }

  /** The value of three decimal digits. */
  lemma ThreeDigits(a: char, b: char, c: char)
    requires IsDigit(a) && IsDigit(b) && IsDigit(c)
    ensures DigitsValue([a, b, c]) == DigitValue(a) * 100 + DigitValue(b) * 10 + DigitValue(c)
  {
    assert [a, b, c][..2] == [a, b] && [a, b][..1] == [a] && [a][..0] == [];
    assert DigitsValue([a]) == DigitValue(a);
    assert DigitsValue([a, b]) == DigitValue(a) * 10 + DigitValue(b);
  }

  /**
   * A new plot directory never reuses a name in the listing, and its
   * number is above every number there.
   */
  lemma NewSubdirIsFresh(basedir: string, names: seq<string>, mkdirOk: bool)
    requires basedir != "" && mkdirOk && MaxSeq(names) < 999
    ensures var n := MaxSeq(names) + 1;
      0 <= n < 1000 && PlotSubdir(basedir, Some(names), mkdirOk) == basedir + "/" + SubdirName(n) &&
      (forall i :: 0 <= i < |names| ==> names[i] != SubdirName(n)) &&
      (forall i :: 0 <= i < |names| && MatchNum(names[i]).Some? ==> MatchNum(names[i]).value < n)
  {
    NotListed(names, MaxSeq(names) + 1);
  }

  /** No listed name is the directory for a number above all listed numbers. */
  lemma NotListed(names: seq<string>, n: nat)
    requires MaxSeq(names) < n < 1000
    ensures forall i :: 0 <= i < |names| ==> names[i] != SubdirName(n)
  {
    SubdirMatches(n);
    forall i | 0 <= i < |names| ensures names[i] != SubdirName(n) {
      if MatchNum(names[i]).Some? {
        assert MatchNum(names[i]).value < n;
      }
    }
  }

  /** '' exactly on the failure paths. */
  lemma PlotSubdirEmptyIff(basedir: string, listing: Option<seq<string>>, mkdirOk: bool)
    ensures PlotSubdir(basedir, listing, mkdirOk) == "" <==>
      basedir == "" || listing.None? || MaxSeq(listing.value) >= 999 || !mkdirOk
  {
    if basedir != "" && listing.Some? && MaxSeq(listing.value) < 999 && mkdirOk {
      assert |PlotSubdir(basedir, listing, mkdirOk)| > 0;
    }
  }

  /** An empty directory gives `momplot-000`. */
  lemma FirstSubdir(basedir: string, mkdirOk: bool)
    requires basedir != "" && mkdirOk
    ensures PlotSubdir(basedir, Some([]), mkdirOk) == basedir + "/momplot-000"
  {
  }

  /** The defect: a base directory that cannot be listed makes the constructor raise. */
  lemma PlotSubdirRaises()
    ensures PlotSubdirAsWritten("/var/lib/mom", None, true).Err?
    ensures PlotSubdir("/var/lib/mom", None, true) == ""
  {
  }

  /** Where the source does not raise, it returns what the corrected version does. */
  lemma PlotSubdirAgrees(basedir: string, listing: Option<seq<string>>, mkdirOk: bool)
    ensures PlotSubdirAsWritten(basedir, listing, mkdirOk).Ok? <==> PlotSubdir(basedir, listing, mkdirOk) != "" || basedir == ""
    ensures PlotSubdirAsWritten(basedir, listing, mkdirOk).Ok? ==>
      PlotSubdirAsWritten(basedir, listing, mkdirOk).value == PlotSubdir(basedir, listing, mkdirOk)
  {
    PlotSubdirEmptyIff(basedir, listing, mkdirOk);
  }

  /** The verbosity is lowered before use, so capitalised names select their level. */
  lemma VerbosityAnyCase()
    ensures LogSetVerbosity(Lower("INFO")) == Info && LogSetVerbosity(Lower("Critical")) == Critical
  {
    assert Lower("INFO") == "info";
    assert Lower("Critical") == "critical";
  }

  /** Stopping twice is stopping once, and a stopped loop is not running. */
  lemma StoppedIdempotent(c: Config)
    ensures !Running(Stopped(c)) && Stopped(Stopped(c)) == Stopped(c)
  {
    var internal := Section(c, "__int__")["running" := "0"];
    assert Section(Stopped(c), "__int__") == internal;
    assert internal["running" := "0"] == internal;
  }
}
