/** The configuration of one monitoring run.

    The configuration file has already been parsed: each recognised key is
    either `Given` a value or `Absent`. Keys the program does not
    recognise are not represented, so they are ignored. Loading replaces every
    absent key with its fallback value.
 */
module Config {

  /** One recognised key of the configuration file. */
  datatype Setting<T> = Absent | Given(value: T)

  /** The recognised keys of the parsed configuration file. */
  datatype RawConfig = RawConfig(
    thresholdPercent: Setting<real>,
    paths: Setting<seq<string>>,
    logFile: Setting<string>)

  /** The configuration a run uses once defaults are filled in. */
  datatype Settings = Settings(threshold: real, paths: seq<string>, logFile: string)

  const DefaultThreshold: real := 80.0
  const DefaultPaths: seq<string> := ["/"]
  const DefaultLogFile: string := "logs/disk_monitor.log"

  /** The value of a key, or the fallback when the key is absent. */
  function GetOr<T>(key: Setting<T>, default: T): (v: T)
  {
    match key
    case Given(x) => x
    case Absent => default
  }

  /** Fills in the defaults of the configuration file. A key that is present
      is used exactly as given, even an empty path list. */
  function Load(raw: RawConfig): (s: Settings)
    ensures raw.thresholdPercent.Absent? ==> s.threshold == 80.0
    ensures raw.thresholdPercent.Given? ==> s.threshold == raw.thresholdPercent.value
    ensures raw.paths.Absent? ==> s.paths == ["/"]
    ensures raw.paths.Given? ==> s.paths == raw.paths.value
    ensures raw.logFile.Absent? ==> s.logFile == "logs/disk_monitor.log"
    ensures raw.logFile.Given? ==> s.logFile == raw.logFile.value
  {
    Settings(
      GetOr(raw.thresholdPercent, DefaultThreshold),
      GetOr(raw.paths, DefaultPaths),
      GetOr(raw.logFile, DefaultLogFile))
  }

  /** The configuration file that spells out every key of `s`. */
  function Spell(s: Settings): (raw: RawConfig)
    ensures raw.thresholdPercent.Given? && raw.paths.Given? && raw.logFile.Given?
  {
    RawConfig(Given(s.threshold), Given(s.paths), Given(s.logFile))
  }

  /** A file that gives every key is loaded unchanged. */
  lemma LoadSpelledIsIdentity(s: Settings)
    ensures Load(Spell(s)) == s
  {
  }

  /** A file that gives no key yields the built-in defaults. */
  lemma LoadEmptyIsDefaults()
    ensures Load(RawConfig(Absent, Absent, Absent)) == Settings(80.0, ["/"], "logs/disk_monitor.log")
  {
  }
}
