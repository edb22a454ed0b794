/** Options of the Python side (`ai/options.py`): the configuration file
    merged with the training defaults, loaded lazily on first use, and the
    log level picked from the verbosity flags. */
module AiOptions {
  import opened Base

  /** A JSON value as `json.load` returns it; values the merge does not look
      into are kept whole. */
  datatype Value = Number(r: real) | Text(s: string) | Flag(b: bool) | Other

  /** `DTRACK_DEFAULTS`. */
  const DEFAULTS: map<string, Value> := map[
    "train_target" := Number(0.95),
    "train_rate" := Number(0.001),
    "train_momentum" := Number(0.9),
    "train_dropout" := Number(0.2)]

  /** `{**config, **DTRACK_DEFAULTS}`: the union of the keys, where a key in
      both takes the default. */
  function Merge(config: map<string, Value>): (merged: map<string, Value>)
    ensures merged.Keys == config.Keys + DEFAULTS.Keys
    ensures forall k :: k in DEFAULTS ==> merged[k] == DEFAULTS[k]
    ensures forall k :: k in config && k !in DEFAULTS ==> merged[k] == config[k]
  {
    config + DEFAULTS
  }

  /** Whatever the file holds, the four training settings keep their
      default values, and these are the only keys an empty file gives. */
  lemma TrainingSettingsFixed(config: map<string, Value>)
    ensures Merge(config)["train_target"] == Number(0.95)
    ensures Merge(config)["train_rate"] == Number(0.001)
    ensures Merge(config)["train_momentum"] == Number(0.9)
    ensures Merge(config)["train_dropout"] == Number(0.2)
    ensures Merge(map[]).Keys == {"train_target", "train_rate", "train_momentum", "train_dropout"}
  {
  }

  /** Merging a merged configuration changes nothing, and the result is
      never empty. */
  lemma MergeIdempotent(config: map<string, Value>)
    ensures Merge(Merge(config)) == Merge(config)
    ensures Merge(config) != map[]
  {
    assert "train_rate" in Merge(config);
  }

  /** The level name `bootstrap` picks: `-V` wins over `-v`. */
  function LevelName(veryVerbose: bool, verbose: bool): string
  {
    if veryVerbose then "TRACE"
    else if verbose then "DEBUG"
    else "INFO"
  }

  /** The level names Python's `logging` knows out of the box. */
  function StandardLevel(name: string): Option<int>
  {
    if name == "CRITICAL" || name == "FATAL" then Some(50)
    else if name == "ERROR" then Some(40)
    else if name == "WARNING" || name == "WARN" then Some(30)
    else if name == "INFO" then Some(20)
    else if name == "DEBUG" then Some(10)
    else if name == "NOTSET" then Some(0)
    else None
  }

  /** `-V` names a level `logging` does not know, so `setLevel` raises. */
  lemma TraceUnknownAsWritten()
    ensures StandardLevel(LevelName(true, false)) == None
    ensures StandardLevel(LevelName(false, true)) == Some(10)
    ensures StandardLevel(LevelName(false, false)) == Some(20)
  {
  }

  /** The levels with TRACE registered below DEBUG, as the Go side has it. */
  function RegisteredLevel(name: string): Option<int>
  {
    if name == "TRACE" then Some(5) else StandardLevel(name)
  }

  /** With TRACE registered every choice is a known level, and more
      verbosity never raises the threshold. */
  lemma VerbosityLowersLevel(veryVerbose: bool, verbose: bool, moreVery: bool, more: bool)
    requires veryVerbose ==> moreVery
    requires verbose ==> more
    ensures RegisteredLevel(LevelName(veryVerbose, verbose)).Some?
    ensures RegisteredLevel(LevelName(moreVery, more)).value <= RegisteredLevel(LevelName(veryVerbose, verbose)).value
    ensures RegisteredLevel(LevelName(veryVerbose, verbose)).value == 5 <==> veryVerbose
  {
  }

  /** The module state: `_loaded_configuration` and the root logger's level. */
  class Options {
    var loaded: map<string, Value>
    var level: Option<int>

    /** Nothing loaded, logging not configured. */
    constructor()
      ensures loaded == map[] && level == None
    {
      loaded := map[];
      level := None;
    }

    /** `bootstrap` as written: the configuration is stored, then setting
        the level fails for `-V`, leaving the logger as it was. */
    method BootstrapAsWritten(file: map<string, Value>, veryVerbose: bool, verbose: bool)
      returns (failed: bool)
      modifies this
      ensures loaded == Merge(file)
      ensures failed <==> veryVerbose
      ensures level == if failed then old(level) else StandardLevel(LevelName(veryVerbose, verbose))
    {
      loaded := Merge(file);
      var name := LevelName(veryVerbose, verbose);
      var known := StandardLevel(name);
      if known.None? {
        return true;
      }
      level := known;
      failed := false;
    }

    /** `bootstrap` with TRACE registered: the configuration is stored and
        the chosen level set. */
    method Bootstrap(file: map<string, Value>, veryVerbose: bool, verbose: bool)
      modifies this
      ensures loaded == Merge(file)
      ensures level == RegisteredLevel(LevelName(veryVerbose, verbose)) && level.Some?
    {
      loaded := Merge(file);
      level := RegisteredLevel(LevelName(veryVerbose, verbose));
    }

    /** `get`: bootstrap on first use only, then look the key up; a missing
        key (Python's `KeyError`) is `None`. As written, the first `get`
        with `-V` raises from `setLevel` after the configuration was stored
        (`raised`). */
    method Get(key: string, file: map<string, Value>, veryVerbose: bool, verbose: bool)
      returns (value: Option<Value>, raised: bool)
      modifies this
      ensures raised <==> old(loaded) == map[] && veryVerbose
      ensures old(loaded) != map[] ==> loaded == old(loaded) && level == old(level)
      ensures old(loaded) == map[] ==> loaded == Merge(file)
      ensures old(loaded) == map[] && !raised ==> level == StandardLevel(LevelName(veryVerbose, verbose))
      ensures raised ==> level == old(level) && value == None
      ensures loaded != map[]
      ensures !raised ==> value == if key in loaded then Some(loaded[key]) else None
    {
      raised := false;
      if loaded == map[] {
        raised := BootstrapAsWritten(file, veryVerbose, verbose);
        MergeIdempotent(file);
        if raised {
          return None, true;
        }
      }
      if key in loaded {
        value := Some(loaded[key]);
      } else {
        value := None;
      }
    }
  }

  /** A second `get` never reloads: whatever file it is handed, it answers
      from what the first one loaded. */
  method GetTwice(key: string, first: map<string, Value>, second: map<string, Value>) returns (a: Option<Value>, b: Option<Value>)
    ensures a == b
    ensures key in DEFAULTS ==> a == Some(DEFAULTS[key])
    ensures key in first && key !in DEFAULTS ==> a == Some(first[key])
  {
    var options := new Options();
    var raised;
    a, raised := options.Get(key, first, false, false);
    b, raised := options.Get(key, second, true, true);
  }

  /** With `-V` only the first `get` raises: the configuration it stored
      answers every later one, with the logger never configured. */
  method TraceFailsOnlyFirstGet(key: string, file: map<string, Value>)
    returns (raisedFirst: bool, raisedSecond: bool, answer: Option<Value>, level: Option<int>)
    ensures raisedFirst && !raisedSecond
    ensures key in DEFAULTS ==> answer == Some(DEFAULTS[key])
    ensures key in file && key !in DEFAULTS ==> answer == Some(file[key])
    ensures level == None
  {
    var options := new Options();
    var ignored;
    ignored, raisedFirst := options.Get(key, file, true, false);
    answer, raisedSecond := options.Get(key, file, true, false);
    level := options.level;
  }
}
