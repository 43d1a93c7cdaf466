/**
 * The verbosity setting (mom/LogUtils.py): the configured verbosity, a
 * digit or a lowercase name, picks the logger's level.  Only the mapping
 * is modelled; the level it sets on the logger is the level it returns.
 */
module LogUtils {

  /** The levels of Python's `logging` module. */
  datatype Level = Debug | Info | Warn | Error | Critical

  /** A level's number in `logging` (higher is more severe). */
  function Severity(level: Level): nat {
    match level
    case Debug => 10
    case Info => 20
    case Warn => 30
    case Error => 40
    case Critical => 50
  }

  /** The digit that selects a level. */
  function Digit(level: Level): string {
    match level
    case Debug => "5"
    case Info => "4"
    case Warn => "3"
    case Error => "2"
    case Critical => "1"
  }

  /** The name that selects a level. */
  function Name(level: Level): string {
    match level
    case Debug => "debug"
    case Info => "info"
    case Warn => "warn"
    case Error => "error"
    case Critical => "critical"
  }

  /**
   * `log_set_verbosity`: the level a verbosity string selects, which is
   * both set on the logger and returned; anything unrecognised means debug.
   */
  function LogSetVerbosity(verbosity: string): (r: Level)
    ensures forall level :: verbosity == Digit(level) || verbosity == Name(level) ==> r == level
    ensures r != Debug ==> verbosity == Digit(r) || verbosity == Name(r)
  {
    if verbosity == "5" || verbosity == "debug" then Debug
    else if verbosity == "4" || verbosity == "info" then Info
    else if verbosity == "3" || verbosity == "warn" then Warn
    else if verbosity == "2" || verbosity == "error" then Error
    else if verbosity == "1" || verbosity == "critical" then Critical
    else Debug
  }

  // ---------------------------------------------------------------------
  // properties

  /** Each level is selected by its digit and by its name. */
  lemma SpellingsSelect(level: Level)
    ensures LogSetVerbosity(Digit(level)) == level && LogSetVerbosity(Name(level)) == level
  {
  }

  /** Any other string, whatever its case, selects debug. */
  lemma UnrecognisedIsDebug(verbosity: string)
    requires forall level: Level :: verbosity != Digit(level) && verbosity != Name(level)
    ensures LogSetVerbosity(verbosity) == Debug
  {
    assert verbosity != Digit(Info) && verbosity != Name(Info);
    assert verbosity != Digit(Warn) && verbosity != Name(Warn);
    assert verbosity != Digit(Error) && verbosity != Name(Error);
    assert verbosity != Digit(Critical) && verbosity != Name(Critical);
  }

  /** Matching is case-sensitive: an uppercase name is not recognised. */
  lemma UppercaseIsDebug()
    ensures LogSetVerbosity("INFO") == Debug && LogSetVerbosity("CRITICAL") == Debug
  {
    assert "INFO"[0] != "info"[0] && "CRITICAL"[0] != "critical"[0];
  }

  /** The spellings are distinct per level, so the order of the tests does not matter. */
  lemma SpellingsDistinct(a: Level, b: Level)
    requires a != b
    ensures Digit(a) != Digit(b) && Name(a) != Name(b) && Digit(a) != Name(b)
  {
  }
}
