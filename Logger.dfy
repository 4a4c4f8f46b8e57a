/** logger.py: which entries reach the log and where the log lives.  Writing
    the file and the timestamp are not modelled; an entry that passes the gate
    is returned as the text that would follow the timestamp. */
module Logger {
  import opened Wrappers

  /** The five severities, least severe first. */
  datatype Severity = Debug | Info | Warn | Error | Fatal

  /** The numeric value of a severity. */
  function Rank(s: Severity): (r: nat)
    ensures r <= 4
  {
    match s
    case Debug => 0
    case Info => 1
    case Warn => 2
    case Error => 3
    case Fatal => 4
  }

  /** The name of a severity in the `log_level` setting. */
  function Name(s: Severity): string {
    match s
    case Debug => "debug"
    case Info => "info"
    case Warn => "warn"
    case Error => "error"
    case Fatal => "fatal"
  }

  /** The prefix of an entry written at a severity. */
  function Prefix(s: Severity): string {
    match s
    case Debug => "DEBUG - "
    case Info => "INFO - "
    case Warn => "WARN - "
    case Error => "ERROR - "
    case Fatal => "FATAL - "
  }

  /** `_get_log_level` for the configured text: a severity's name gives its
      value, any other text gives the default 1. */
  function LogLevel(setting: string): (r: nat)
    ensures r <= 4
  {
    if setting == "debug" then 0
    else if setting == "info" then 1
    else if setting == "warn" then 2
    else if setting == "error" then 3
    else if setting == "fatal" then 4
    else 1
  }

  /** Any text that names no severity gives the default level 1. */
  lemma UnknownLevelIsInfo(setting: string)
    requires forall s :: setting != Name(s)
    ensures LogLevel(setting) == 1
  {
    assert setting != Name(Debug) && setting != Name(Warn) && setting != Name(Error) && setting != Name(Fatal);
  }

  /** The level names and the values agree: naming a severity selects it. */
  lemma LevelOfName(s: Severity)
    ensures LogLevel(Name(s)) == Rank(s)
  {
  }

  /** `debug(entry)` … `fatal(entry)`: the text written for an entry of
      severity `s`, nothing when the configured level is above it; the
      configuration without `log_level` raises `KeyError`. */
  function Logged(config: map<string, string>, s: Severity, entry: string): (r: Result<Option<string>>)
    ensures r.Raised? <==> "log_level" !in config
    ensures r.Raised? ==> r.error == KeyError
    ensures r.Ok? ==> (r.value.Some? <==> LogLevel(config["log_level"]) <= Rank(s))
    ensures r.Ok? && r.value.Some? ==> r.value.value == Prefix(s) + entry
  {
    if "log_level" !in config then Raised(KeyError)
    else if LogLevel(config["log_level"]) <= Rank(s) then Ok(Some(Prefix(s) + entry))
    else Ok(None)
  }

  /** The gate is monotone: whenever an entry is written, every entry of a
      severity at least as high is written too. */
  lemma GateMonotone(config: map<string, string>, s: Severity, t: Severity, e: string, f: string)
    requires Rank(s) <= Rank(t)
    requires Logged(config, s, e).Ok? && Logged(config, s, e).value.Some?
    ensures Logged(config, t, f) == Ok(Some(Prefix(t) + f))
  {
  }

  /** Under an unknown level name, debug entries are dropped and all others
      are written. */
  lemma DefaultLevelGate(config: map<string, string>, s: Severity, e: string)
    requires "log_level" in config && forall t :: config["log_level"] != Name(t)
    ensures Logged(config, s, e) == if s == Debug then Ok(None) else Ok(Some(Prefix(s) + e))
  {
    UnknownLevelIsInfo(config["log_level"]);
  }

  /** Setting the level to a severity's name writes exactly the entries of that
      severity and above. */
  lemma NamedLevelGate(config: map<string, string>, level: Severity, s: Severity, e: string)
    requires "log_level" in config && config["log_level"] == Name(level)
    ensures Logged(config, s, e).Ok?
    ensures Logged(config, s, e).value.Some? <==> Rank(level) <= Rank(s)
  {
    LevelOfName(level);
  }

  /** `get_file_path`: the configured location and file name joined by `/`
      (`KeyError` when either is missing). */
  function FilePath(config: map<string, string>): (r: Result<string>)
    ensures r.Raised? <==> "log_location" !in config || "log_file" !in config
    ensures r.Raised? ==> r.error == KeyError
    ensures r.Ok? ==> var n := |config["log_location"]|;
              |r.value| == n + 1 + |config["log_file"]| &&
              r.value[..n] == config["log_location"] && r.value[n] == '/' && r.value[n + 1..] == config["log_file"]
  {
    if "log_location" !in config || "log_file" !in config then Raised(KeyError)
    else Ok(config["log_location"] + "/" + config["log_file"])
  }

  /** The log path splits back into location and file name at its last `/`
      when the file name has none. */
  lemma FilePathParts(config: map<string, string>)
    requires "log_location" in config && "log_file" in config
    requires '/' !in config["log_file"]
    ensures FilePath(config).Ok?
    ensures var p := FilePath(config).value;
            var n := |config["log_location"]|;
            p[..n] == config["log_location"] && p[n] == '/' && p[n + 1..] == config["log_file"] &&
            '/' !in p[n + 1..]
  {
  }
}
