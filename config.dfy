/** Runtime configuration of the Go program (package `state`): built-in
    defaults, then the JSON configuration file, then `DTRACK_*` environment
    variables, with per-type coercion of the environment strings. */
module Config {
  import opened Base
  import Decimal

  /** `Application_Configuration`. Go's float64 fields are modelled as reals. */
  datatype Config = Config(
    workspace: string,
    recordAudioDevice: string,
    recordAudioOptions: seq<string>,
    recordVideoDevice: string,
    recordVideoOptions: seq<string>,
    recordVideoAdvanced: seq<string>,
    recordInspectModels: seq<string>,
    hasModels: bool,
    recordInspectBacklog: int,
    recordDuration: string,
    recordCompression: string,
    trainTarget: real,
    trainRate: real,
    trainMomentum: real,
    trainDropout: real)

  /** The fields that a JSON key or an environment variable can set. */
  datatype Field =
    | Workspace | RecordAudioDevice | RecordAudioOptions | RecordVideoDevice
    | RecordVideoOptions | RecordVideoAdvanced | RecordInspectModels
    | RecordInspectBacklog | RecordDuration | RecordCompression
    | TrainTarget | TrainRate | TrainMomentum | TrainDropout

  /** Every settable field, in the order of `Environment_Configation_Map`. */
  const ALL_FIELDS: seq<Field> := [
    Workspace, RecordAudioDevice, RecordAudioOptions, RecordVideoDevice,
    RecordVideoOptions, RecordVideoAdvanced, RecordInspectModels,
    RecordInspectBacklog, RecordDuration, RecordCompression,
    TrainTarget, TrainRate, TrainMomentum, TrainDropout]

  /** The reflect kind of a field, which decides how an environment string is coerced. */
  datatype Kind = StringKind | IntKind | FloatKind | ListKind

  datatype Value = Str(s: string) | Int(i: int) | Float(f: real) | List(items: seq<string>)

  function KindOf(f: Field): Kind
  {
    match f
    case Workspace | RecordAudioDevice | RecordVideoDevice | RecordDuration | RecordCompression => StringKind
    case RecordAudioOptions | RecordVideoOptions | RecordVideoAdvanced | RecordInspectModels => ListKind
    case RecordInspectBacklog => IntKind
    case TrainTarget | TrainRate | TrainMomentum | TrainDropout => FloatKind
  }

  function KindOfValue(v: Value): Kind
  {
    match v
    case Str(_) => StringKind
    case Int(_) => IntKind
    case Float(_) => FloatKind
    case List(_) => ListKind
  }

  /** The environment variable mapped to each field. */
  function EnvKey(f: Field): string
  {
    match f
    case Workspace => "DTRACK_WORKSPACE"
    case RecordAudioDevice => "DTRACK_RECORD_AUDIO_DEVICE"
    case RecordAudioOptions => "DTRACK_RECORD_AUDIO_OPTIONS"
    case RecordVideoDevice => "DTRACK_RECORD_VIDEO_DEVICE"
    case RecordVideoOptions => "DTRACK_RECORD_VIDEO_OPTIONS"
    case RecordVideoAdvanced => "DTRACK_RECORD_VIDEO_ADVANCED"
    case RecordInspectModels => "DTRACK_RECORD_INSPECT_MODELS"
    case RecordInspectBacklog => "DTRACK_RECORD_INSPECT_BACKLOG"
    case RecordDuration => "DTRACK_RECORD_DURATION"
    case RecordCompression => "DTRACK_RECORD_COMPRESS"
    case TrainTarget => "DTRACK_TRAIN_TARGET"
    case TrainRate => "DTRACK_TRAIN_RATE"
    case TrainMomentum => "DTRACK_TRAIN_MOMENTUM"
    case TrainDropout => "DTRACK_TRAIN_DROUPOUT"
  }

  /** The Go field name, as it appears in the fatal messages. */
  function FieldName(f: Field): string
  {
    match f
    case Workspace => "Workspace"
    case RecordAudioDevice => "Record_Audio_Device"
    case RecordAudioOptions => "Record_Audio_Options"
    case RecordVideoDevice => "Record_Video_Device"
    case RecordVideoOptions => "Record_Video_Options"
    case RecordVideoAdvanced => "Record_Video_Advanced"
    case RecordInspectModels => "Record_Inspect_Models"
    case RecordInspectBacklog => "Record_Inspect_Backlog"
    case RecordDuration => "Record_Duration"
    case RecordCompression => "Record_Compression"
    case TrainTarget => "Train_Target"
    case TrainRate => "Train_Rate"
    case TrainMomentum => "Train_Momentum"
    case TrainDropout => "Train_Dropout"
  }

  function Get(c: Config, f: Field): (v: Value)
    ensures KindOfValue(v) == KindOf(f)
  {
    match f
    case Workspace => Str(c.workspace)
    case RecordAudioDevice => Str(c.recordAudioDevice)
    case RecordAudioOptions => List(c.recordAudioOptions)
    case RecordVideoDevice => Str(c.recordVideoDevice)
    case RecordVideoOptions => List(c.recordVideoOptions)
    case RecordVideoAdvanced => List(c.recordVideoAdvanced)
    case RecordInspectModels => List(c.recordInspectModels)
    case RecordInspectBacklog => Int(c.recordInspectBacklog)
    case RecordDuration => Str(c.recordDuration)
    case RecordCompression => Str(c.recordCompression)
    case TrainTarget => Float(c.trainTarget)
    case TrainRate => Float(c.trainRate)
    case TrainMomentum => Float(c.trainMomentum)
    case TrainDropout => Float(c.trainDropout)
  }

  /** Assigning one field (what `reflect`'s setters and the JSON decoder do). */
  function Set(c: Config, f: Field, v: Value): (r: Config)
    requires KindOfValue(v) == KindOf(f)
    ensures Get(r, f) == v
    ensures forall g :: g != f ==> Get(r, g) == Get(c, g)
    ensures r.hasModels == c.hasModels
  {
    match f
    case Workspace => c.(workspace := v.s)
    case RecordAudioDevice => c.(recordAudioDevice := v.s)
    case RecordAudioOptions => c.(recordAudioOptions := v.items)
    case RecordVideoDevice => c.(recordVideoDevice := v.s)
    case RecordVideoOptions => c.(recordVideoOptions := v.items)
    case RecordVideoAdvanced => c.(recordVideoAdvanced := v.items)
    case RecordInspectModels => c.(recordInspectModels := v.items)
    case RecordInspectBacklog => c.(recordInspectBacklog := v.i)
    case RecordDuration => c.(recordDuration := v.s)
    case RecordCompression => c.(recordCompression := v.s)
    case TrainTarget => c.(trainTarget := v.f)
    case TrainRate => c.(trainRate := v.f)
    case TrainMomentum => c.(trainMomentum := v.f)
    case TrainDropout => c.(trainDropout := v.f)
  }

  /** The default filter graph: the camera flipped both ways, stamped with
      the local time in red, labelled `dtstamp` for the output mapping. */
  const DEFAULT_FILTER :=
    "[1:v]hflip,vflip,drawtext=fontfile=/usr/share/fonts/truetype/freefont/FreeMonoBold.ttf"
    + ":text=%{localtime}:fontcolor=red@0.9:x=7:y=7:fontsize=48[dtstamp]"

  /** The built-in defaults. `Has_Models` keeps Go's zero value, false. */
  function Defaults(): Config
  {
    Config(
      workspace := "_workspace",
      recordAudioDevice := "default",
      recordAudioOptions := ["-f", "alsa"],
      recordVideoDevice := "/dev/video0",
      recordVideoOptions := ["-f", "v4l2", "-video_size", "1280x720", "-framerate", "5"],
      recordVideoAdvanced := ["-filter_complex",
        DEFAULT_FILTER],
      recordInspectModels := [],
      hasModels := false,
      recordInspectBacklog := 5,
      recordDuration := "00:10:00",
      recordCompression := "ultrafast",
      trainTarget := 0.95,
      trainRate := 0.001,
      trainMomentum := 0.9,
      trainDropout := 0.2)
  }

  /** What the configuration path holds. A JSON document is given as the
      fields it sets; `Unparsable` is text `json.Unmarshal` rejects. */
  datatype ConfigFile =
    | Absent
    | Unreadable
    | Unparsable
    | Json(overrides: map<Field, Value>)

  /** The decoder accepts a value only when its JSON type fits the field, and
      an integer only when it fits Go's 64-bit `int`. */
  predicate JsonAccepted(overrides: map<Field, Value>)
  {
    forall f :: f in overrides ==>
      KindOfValue(overrides[f]) == KindOf(f)
      && (overrides[f].Int? ==> Decimal.INT64_MIN <= overrides[f].i <= Decimal.INT64_MAX)
  }

  /** Decoding assigns the fields present in the document, in `fields` order. */
  function ApplyOverrides(c: Config, overrides: map<Field, Value>, fields: seq<Field>): (r: Config)
    requires JsonAccepted(overrides)
    ensures forall g :: Get(r, g) == if g in fields && g in overrides then overrides[g] else Get(c, g)
    ensures r.hasModels == c.hasModels
    decreases |fields|
  {
    if fields == [] then c
    else
      var f := fields[|fields| - 1];
      var c' := ApplyOverrides(c, overrides, fields[..|fields| - 1]);
      assert forall g :: g in fields <==> g in fields[..|fields| - 1] || g == f;
      if f in overrides then Set(c', f, overrides[f]) else c'
  }

  /** `os.Getenv`: an unset variable reads as the empty string. */
  function EnvValue(env: map<string, string>, f: Field): string
  {
    if EnvKey(f) in env then env[EnvKey(f)] else ""
  }

  /** How a non-empty environment string becomes a field value. Float fields
      go through `strconv.Atoi` too, so only integer text is accepted; list
      fields have no case in the switch and are always refused. */
  function Coerce(f: Field, text: string): (r: Option<Value>)
    ensures r.Some? ==> KindOfValue(r.value) == KindOf(f)
  {
    match KindOf(f)
    case StringKind => Some(Str(text))
    case IntKind => (match Decimal.Atoi(text) case Some(n) => Some(Int(n)) case None => None)
    case FloatKind => (match Decimal.Atoi(text) case Some(n) => Some(Float(n as real)) case None => None)
    case ListKind => None
  }

  /** The fatal message for an environment string that cannot be coerced. */
  function CoercionError(f: Field): string
  {
    match KindOf(f)
    case IntKind => EnvKey(f) + " is not Integer"
    case FloatKind => EnvKey(f) + " is not Float64"
    case _ => "Unexpected field type for " + FieldName(f)
  }

  /** No set environment variable is refused by its field's coercion. */
  predicate EnvAcceptable(env: map<string, string>)
  {
    forall f :: EnvValue(env, f) != "" ==> Coerce(f, EnvValue(env, f)).Some?
  }

  /** Precedence for one field, stated independently of the loading loop: a
      non-empty environment value beats the document, which beats the default. */
  function Effective(overrides: map<Field, Value>, env: map<string, string>, f: Field): Value
  {
    var text := EnvValue(env, f);
    if text != "" && Coerce(f, text).Some? then Coerce(f, text).value
    else if f in overrides then overrides[f]
    else Get(Defaults(), f)
  }

  datatype LoadResult = Loaded(cfg: Config) | Died(message: string)

  /** The fatal messages for a configuration file that cannot be read or decoded. */
  const OPEN_FAILED := "Error opening configuration file; ABORT!"
  const PARSE_FAILED := "Failed to parse configuration as JSON; ABORT!"

  /** `Load_Configuration`: the value it assigns to `Runtime`, or the fatal
      message it dies with. */
  method LoadConfiguration(file: ConfigFile, env: map<string, string>) returns (r: LoadResult)
    ensures file.Absent? ==> r == Loaded(Defaults())
    ensures file.Unreadable? ==> r == Died(OPEN_FAILED)
    ensures file.Unparsable? || (file.Json? && !JsonAccepted(file.overrides)) ==>
      r == Died(PARSE_FAILED)
    ensures file.Json? && JsonAccepted(file.overrides) ==> EnvOutcome(r, file.overrides, env)
    ensures r.Loaded? ==> (r.cfg.hasModels <==> |r.cfg.recordInspectModels| > 0)
  {
    match file {
      case Absent =>
        return Loaded(Defaults());
      case Unreadable =>
        return Died(OPEN_FAILED);
      case Unparsable =>
        return Died(PARSE_FAILED);
      case Json(overrides) =>
        if !JsonAccepted(overrides) {
          return Died(PARSE_FAILED);
        }
        EnvStart(overrides, env);
        r := ApplyEnvironment(ApplyOverrides(Defaults(), overrides, ALL_FIELDS), overrides, env);
    }
  }

  /** What the environment does to a document that decoded: the load
      succeeds exactly when no set variable is refused, every field then
      holds its effective value, and otherwise the message names a refused
      variable's field. */
  ghost predicate EnvOutcome(r: LoadResult, overrides: map<Field, Value>, env: map<string, string>)
  {
    && (r.Loaded? <==> EnvAcceptable(env))
    && (r.Loaded? ==> forall f :: Get(r.cfg, f) == Effective(overrides, env, f))
    && (r.Died? ==>
          exists f :: EnvValue(env, f) != "" && Coerce(f, EnvValue(env, f)).None? && r.message == CoercionError(f))
  }

  /** The environment loop of `Load_Configuration`, over the configuration the
      document produced, followed by the `Has_Models` assignment. */
  method ApplyEnvironment(start: Config, overrides: map<Field, Value>, env: map<string, string>) returns (r: LoadResult)
    requires EnvApplied(start, overrides, env, [])
    ensures EnvOutcome(r, overrides, env)
    ensures r.Loaded? ==> (r.cfg.hasModels <==> |r.cfg.recordInspectModels| > 0)
  {
    var cfg := start;
    for i := 0 to |ALL_FIELDS|
      invariant EnvApplied(cfg, overrides, env, ALL_FIELDS[..i])
      invariant EnvChecked(env, ALL_FIELDS[..i])
    {
      var f := ALL_FIELDS[i];
      assert ALL_FIELDS[..i + 1] == ALL_FIELDS[..i] + [f];
      var text := EnvValue(env, f);
      EnvStep(cfg, overrides, env, ALL_FIELDS[..i], f);
      if text != "" {
        match Coerce(f, text) {
          case None =>
            assert !EnvAcceptable(env);
            return Died(CoercionError(f));
          case Some(v) =>
            cfg := Set(cfg, f, v);
        }
      }
    }
    assert ALL_FIELDS[..|ALL_FIELDS|] == ALL_FIELDS;
    EnvFinished(cfg, overrides, env);
    cfg := cfg.(hasModels := |cfg.recordInspectModels| > 0);
    return Loaded(cfg);
  }

  /** The fields in `done` hold their effective value; the others still hold
      what the document or the defaults gave them. */
  ghost predicate EnvApplied(cfg: Config, overrides: map<Field, Value>, env: map<string, string>, done: seq<Field>)
  {
    forall f :: Get(cfg, f) == if f in done then Effective(overrides, env, f)
                               else if f in overrides then overrides[f] else Get(Defaults(), f)
  }

  /** No environment variable of the fields in `done` was refused. */
  ghost predicate EnvChecked(env: map<string, string>, done: seq<Field>)
  {
    forall f :: f in done && EnvValue(env, f) != "" ==> Coerce(f, EnvValue(env, f)).Some?
  }

  /** Before the loop the document has been applied over the defaults. */
  lemma EnvStart(overrides: map<Field, Value>, env: map<string, string>)
    requires JsonAccepted(overrides)
    ensures EnvApplied(ApplyOverrides(Defaults(), overrides, ALL_FIELDS), overrides, env, [])
    ensures EnvChecked(env, [])
  {
    AllFieldsListed();
  }

  /** One iteration of the environment loop: an empty variable leaves the
      field alone, an accepted one is assigned, and either way the field now
      holds its effective value. */
  lemma EnvStep(cfg: Config, overrides: map<Field, Value>, env: map<string, string>, done: seq<Field>, f: Field)
    requires EnvApplied(cfg, overrides, env, done) && EnvChecked(env, done)
    ensures EnvValue(env, f) == "" ==>
      EnvApplied(cfg, overrides, env, done + [f]) && EnvChecked(env, done + [f])
    ensures EnvValue(env, f) != "" && Coerce(f, EnvValue(env, f)).Some? ==>
      EnvApplied(Set(cfg, f, Coerce(f, EnvValue(env, f)).value), overrides, env, done + [f])
      && EnvChecked(env, done + [f])
  {
    var text := EnvValue(env, f);
    var next := if text != "" && Coerce(f, text).Some? then Set(cfg, f, Coerce(f, text).value) else cfg;
    if text == "" || Coerce(f, text).Some? {
      forall g
        ensures Get(next, g) == if g in done + [f] then Effective(overrides, env, g)
                                else if g in overrides then overrides[g] else Get(Defaults(), g)
      {
        assert g in done + [f] <==> g in done || g == f;
      }
      forall g | g in done + [f] && EnvValue(env, g) != ""
        ensures Coerce(g, EnvValue(env, g)).Some?
      {
        assert g in done || g == f;
      }
    }
  }

  /** After the loop every field holds its effective value, whatever
      `Has_Models` is then set to, and no variable was refused. */
  lemma EnvFinished(cfg: Config, overrides: map<Field, Value>, env: map<string, string>)
    requires EnvApplied(cfg, overrides, env, ALL_FIELDS) && EnvChecked(env, ALL_FIELDS)
    ensures forall b: bool, f :: Get(cfg.(hasModels := b), f) == Effective(overrides, env, f)
    ensures EnvAcceptable(env)
  {
    AllFieldsListed();
  }

  lemma AllFieldsListed()
    ensures forall f :: f in ALL_FIELDS
  {
    forall f ensures f in ALL_FIELDS {
      match f
      case Workspace => assert ALL_FIELDS[0] == f;
      case RecordAudioDevice => assert ALL_FIELDS[1] == f;
      case RecordAudioOptions => assert ALL_FIELDS[2] == f;
      case RecordVideoDevice => assert ALL_FIELDS[3] == f;
      case RecordVideoOptions => assert ALL_FIELDS[4] == f;
      case RecordVideoAdvanced => assert ALL_FIELDS[5] == f;
      case RecordInspectModels => assert ALL_FIELDS[6] == f;
      case RecordInspectBacklog => assert ALL_FIELDS[7] == f;
      case RecordDuration => assert ALL_FIELDS[8] == f;
      case RecordCompression => assert ALL_FIELDS[9] == f;
      case TrainTarget => assert ALL_FIELDS[10] == f;
      case TrainRate => assert ALL_FIELDS[11] == f;
      case TrainMomentum => assert ALL_FIELDS[12] == f;
      case TrainDropout => assert ALL_FIELDS[13] == f;
    }
  }

  /** Fractional text in a float variable (e.g. DTRACK_TRAIN_RATE=0.5) is
      refused, because the code parses it with `Atoi`. */
  lemma FloatEnvNeedsIntegerText()
    ensures Coerce(TrainRate, "0.5") == None
    ensures Coerce(TrainRate, "2") == Some(Float(2.0))
  {
    assert !Decimal.AllDigits("0.5") by { assert !Decimal.IsDigit("0.5"[1]); }
    assert Decimal.Value("2") == 2;
  }

  /** Setting a list-valued variable such as DTRACK_RECORD_AUDIO_OPTIONS is always fatal. */
  lemma ListEnvIsFatal(env: map<string, string>)
    requires EnvValue(env, RecordAudioOptions) != ""
    ensures !EnvAcceptable(env)
  {
  }
}
