/**
  The configuration store of src/pkgs/config/config.py: a module-global
  `_config` that starts as None, a loader that replaces it with the decoded
  content of the configuration file, and three accessors that refuse to run
  before a load and otherwise project one field out of the held document.
*/
module Config {
  import opened Results
  import opened PyJson

  /** What an accessor raises: the module's own ConfigNotLoaded, or the
      KeyError / TypeError of an untyped lookup into the held document. */
  datatype AccessError = ConfigNotLoaded | Raised(error: PyError)

  /** Why opening or reading the configuration file failed. */
  datatype ReadError = OSError | UnicodeDecodeError

  /** What `load` raises. */
  datatype LoadError = CannotRead(cause: ReadError) | JSONDecodeError

  /** The outcome of `open(CONFIG_FILE)` followed by `configFile.read()`. */
  datatype FileRead = Content(text: string) | Unreadable(error: ReadError)

  /** The outcome of `json.loads` on one string. */
  datatype Decoded = Parsed(value: Json) | Malformed

  /** True when `_config is None` does not hold. */
  predicate IsLoaded(config: Json) {
    config != JNull
  }

  /** True when `v[outer][inner]` exists. */
  predicate HasPath(v: Json, outer: string, inner: string) {
    v.JObj? && outer in v.fields && v.fields[outer].JObj? && inner in v.fields[outer].fields
  }

  /** `v[outer][inner]`, with the exception the first failing subscript raises. */
  function Path(v: Json, outer: string, inner: string): (r: Result<Json, PyError>)
    ensures r.Ok? <==> HasPath(v, outer, inner)
    ensures r.Ok? ==> r.value == v.fields[outer].fields[inner]
    ensures r == Err(TypeError) <==> !v.JObj? || (outer in v.fields && !v.fields[outer].JObj?)
    ensures r.Err? && r.error.KeyError? ==>
              (v.JObj? && outer !in v.fields && r.error.key == outer) ||
              (v.JObj? && outer in v.fields && v.fields[outer].JObj? &&
               inner !in v.fields[outer].fields && r.error.key == inner)
  {
    var section :- Subscript(v, outer);
    Subscript(section, inner)
  }

  /** Turns the exception of a lookup into an accessor's exception. */
  function Guarded<T>(r: Result<T, PyError>): Result<T, AccessError> {
    match r
    case Ok(v) => Ok(v)
    case Err(e) => Err(Raised(e))
  }

  /**
    `getApiHost`: ConfigNotLoaded exactly when nothing is loaded; otherwise
    the value stored at `api.host`, or the lookup's own exception when the
    document has no such path.
  */
  function ApiHost(config: Json): (r: Result<Json, AccessError>)
    ensures r == Err(ConfigNotLoaded) <==> !IsLoaded(config)
    ensures r.Ok? <==> HasPath(config, "api", "host")
    ensures r.Ok? ==> r.value == config.fields["api"].fields["host"]
    ensures r == Err(Raised(KeyError("api"))) <==> config.JObj? && "api" !in config.fields
    ensures r == Err(Raised(KeyError("host"))) <==>
              config.JObj? && "api" in config.fields && config.fields["api"].JObj? &&
              "host" !in config.fields["api"].fields
    ensures r == Err(Raised(TypeError)) <==>
              IsLoaded(config) && (!config.JObj? || ("api" in config.fields && !config.fields["api"].JObj?))
  {
    if config == JNull then Err(ConfigNotLoaded)
    else Guarded(Path(config, "api", "host"))
  }

  /**
    `getApiPort`: ConfigNotLoaded exactly when nothing is loaded; otherwise
    the value stored at `api.port`, or the lookup's own exception.
  */
  function ApiPort(config: Json): (r: Result<Json, AccessError>)
    ensures r == Err(ConfigNotLoaded) <==> !IsLoaded(config)
    ensures r.Ok? <==> HasPath(config, "api", "port")
    ensures r.Ok? ==> r.value == config.fields["api"].fields["port"]
    ensures r == Err(Raised(KeyError("api"))) <==> config.JObj? && "api" !in config.fields
    ensures r == Err(Raised(KeyError("port"))) <==>
              config.JObj? && "api" in config.fields && config.fields["api"].JObj? &&
              "port" !in config.fields["api"].fields
    ensures r == Err(Raised(TypeError)) <==>
              IsLoaded(config) && (!config.JObj? || ("api" in config.fields && !config.fields["api"].JObj?))
  {
    if config == JNull then Err(ConfigNotLoaded)
    else Guarded(Path(config, "api", "port"))
  }

  /**
    `getChambersCount`: ConfigNotLoaded exactly when nothing is loaded;
    otherwise `len` of the value stored under `chambers` (never negative),
    or the KeyError / TypeError that lookup or `len` raises.
  */
  function ChambersCount(config: Json): (r: Result<nat, AccessError>)
    ensures r == Err(ConfigNotLoaded) <==> !IsLoaded(config)
    ensures r.Ok? <==> config.JObj? && "chambers" in config.fields && Sized(config.fields["chambers"])
    ensures r.Ok? && config.fields["chambers"].JArr? ==> r.value == |config.fields["chambers"].items|
    ensures r.Ok? ==> Len(config.fields["chambers"]) == Ok(r.value)
    ensures r == Err(Raised(KeyError("chambers"))) <==> config.JObj? && "chambers" !in config.fields
    ensures r == Err(Raised(TypeError)) <==>
              IsLoaded(config) && (!config.JObj? || ("chambers" in config.fields && !Sized(config.fields["chambers"])))
  {
    if config == JNull then Err(ConfigNotLoaded)
    else
      match Subscript(config, "chambers")
      case Err(e) => Err(Raised(e))
      case Ok(chambers) => Guarded(Len(chambers))
  }

  /** The store after one `load`, and what that call raised. */
  datatype Step = Step(config: Json, outcome: Outcome<LoadError>)

  /**
    `load`: the file is read in full, the whole text is decoded once, and
    only when both succeed is the held value replaced by the decoded one;
    a failure of either leaves the held value as it was.
  */
  function LoadStep(config: Json, file: FileRead, decode: string -> Decoded): (s: Step)
    ensures s.outcome.Pass? <==> file.Content? && decode(file.text).Parsed?
    ensures file.Unreadable? ==> s.outcome == Fail(CannotRead(file.error))
    ensures file.Content? && decode(file.text).Malformed? ==> s.outcome == Fail(JSONDecodeError)
    ensures s.outcome.Pass? ==> s.config == decode(file.text).value
    ensures s.outcome.Fail? ==> s.config == config
  {
    match file
    case Unreadable(e) => Step(config, Fail(CannotRead(e)))
    case Content(text) =>
      match decode(text)
      case Malformed => Step(config, Fail(JSONDecodeError))
      case Parsed(v) => Step(v, Pass)
  }

  /** The decoder yields None for the document `null`, and a store holding
      None is indistinguishable from one never loaded. */
  lemma LoadNullUnloads(config: Json, file: FileRead, decode: string -> Decoded)
    requires file.Content? && decode(file.text) == Parsed(JNull)
    ensures LoadStep(config, file, decode).outcome == Pass
    ensures var after := LoadStep(config, file, decode).config;
            ApiHost(after) == Err(ConfigNotLoaded) &&
            ApiPort(after) == Err(ConfigNotLoaded) &&
            ChambersCount(after) == Err(ConfigNotLoaded)
  {
  }

  /** The module state of config.py made an object: `config` is `_config`. */
  class ConfigStore {
    var config: Json

    /** `_config = None` at import time. */
    constructor ()
      ensures config == JNull
    {
      config := JNull;
    }

    /** `load()`, with the file read and `json.loads` given as inputs. */
    method Load(file: FileRead, decode: string -> Decoded) returns (outcome: Outcome<LoadError>)
      modifies this
      ensures outcome.Pass? <==> file.Content? && decode(file.text).Parsed?
      ensures file.Unreadable? ==> outcome == Fail(CannotRead(file.error))
      ensures file.Content? && decode(file.text).Malformed? ==> outcome == Fail(JSONDecodeError)
      ensures outcome.Pass? ==> config == decode(file.text).value
      ensures outcome.Fail? ==> config == old(config)
      ensures Step(config, outcome) == LoadStep(old(config), file, decode)
    {
      match file {
        case Unreadable(e) =>
          outcome := Fail(CannotRead(e));
        case Content(text) =>
          var decoded := decode(text);
          match decoded {
            case Malformed =>
              outcome := Fail(JSONDecodeError);
            case Parsed(v) =>
              config := v;
              outcome := Pass;
          }
      }
    }

    /** `getApiHost()` on this store: the accessor `ApiHost` applied to the held value. */
    function GetApiHost(): (r: Result<Json, AccessError>)
      reads this
      ensures r == ApiHost(config)
    {
      ApiHost(config)
    }

    /** `getApiPort()` on this store: the accessor `ApiPort` applied to the held value. */
    function GetApiPort(): (r: Result<Json, AccessError>)
      reads this
      ensures r == ApiPort(config)
    {
      ApiPort(config)
    }

    /** `getChambersCount()` on this store: the accessor `ChambersCount` applied to the held value. */
    function GetChambersCount(): (r: Result<nat, AccessError>)
      reads this
      ensures r == ChambersCount(config)
    {
      ChambersCount(config)
    }
  }
}
