# Configuration store of the 3D-printer environment controller

This project models the configuration store of `src/pkgs/config/config.py`. The store is a small two-state machine held in the module global `_config`, which is unloaded (`None`) until the first load:

- `load()` reads the configuration file in full and decodes it with `json.loads`. Only when both steps succeed does it assign the decoded value to `_config`, replacing whatever was held before.
- `getApiHost()`, `getApiPort()` and `getChambersCount()` each raise `ConfigNotLoaded` while `_config is None`. Otherwise each returns `_config['api']['host']`, `_config['api']['port']` or `len(_config['chambers'])`.

Files and modules:

- `results.dfy` (`Results`): `Option`, `Result` and `Outcome`. Python exceptions are modelled as values of these types.
- `pyjson.dfy` (`PyJson`): the Python values `json.loads` produces from ordinary JSON text (`Json`, where `JNull` is `None`; the exceptions are listed under "## Left out"). It also models the two Python operations the accessors use: a string subscript (`Subscript`, which raises KeyError or TypeError) and `len` (`Len`).
- `config.dfy` (`Config`): the accessors as functions of the held value (`ApiHost`, `ApiPort`, `ChambersCount`) and the loader as a transition (`LoadStep`). It also holds the class `ConfigStore`. Its field `config` is `_config`, and its method `Load` assigns that field.
- `config_trace.dfy` (`ConfigTrace`): any sequence of calls to the module, run from a given held value. Lemmas show that every reply is determined by the last successful load before it.
- `config_document.dfy` (`ConfigDocument`): the typed shape the accessors expect (`Document`). Lemmas show that a document of that shape is served field for field.

How the model settles the points the source leaves open:

- The file read and `json.loads` are inputs. `Load` takes the outcome of opening and reading the file (`FileRead`) and the decoder as a total function `decode: string -> Decoded`. It applies the decoder once, to the whole text read.
- The lookups are untyped, so a missing key raises KeyError and a non-dict raises TypeError. The model keeps these as an extra error variant, `AccessError.Raised(PyError)`, and adds no shape precondition. `ConfigDocument.WellShaped` names the shape under which they never occur.
- The decoder can return `None` from the text `null`, and the store then looks unloaded again (`Config.LoadNullUnloads`). The intended lifecycle never leaves the loaded state once it is reached. The model follows the code, which does allow this.
- Chamber-scoped accessors and an out-of-range index error belong to the intended design. Neither exists in `config.py`, so neither is modelled.

## Model

| member | source | states |
|---|---|---|
| `PyJson.Subscript` | src/pkgs/config/config.py:27 | A string subscript yields the stored value exactly when the value is a dict holding the key. A dict without the key raises KeyError naming that key. Any other value raises TypeError. |
| `PyJson.Len` | src/pkgs/config/config.py:51 | `len` succeeds exactly on lists, dicts and strings. It gives their element, key or code-point count. Anything else raises TypeError. |
| `Config.Path` | src/pkgs/config/config.py:27 | `v[outer][inner]` succeeds exactly when the nested path exists, and returns the value there. TypeError is raised exactly when the top value or the section is not a dict. A KeyError names the first missing key. |
| `Config.ApiHost` | src/pkgs/config/config.py:18-27 | ConfigNotLoaded is raised if and only if nothing is loaded. Otherwise the result is the value at `api.host`, and it is Ok exactly when that path exists. A dict without `api` raises KeyError('api'), an `api` dict without `host` raises KeyError('host'), and a non-dict document or `api` value raises TypeError, each if and only if. |
| `Config.ApiPort` | src/pkgs/config/config.py:30-39 | ConfigNotLoaded is raised if and only if nothing is loaded. Otherwise the result is the value at `api.port`, and it is Ok exactly when that path exists. A dict without `api` raises KeyError('api'), an `api` dict without `port` raises KeyError('port'), and a non-dict document or `api` value raises TypeError, each if and only if. |
| `Config.ChambersCount` | src/pkgs/config/config.py:42-51 | ConfigNotLoaded is raised if and only if nothing is loaded. A dict without `chambers` raises KeyError('chambers'), and a non-dict document or a `chambers` value that is not a list, dict or str raises TypeError, each if and only if. Otherwise the result is the non-negative `len` of the chambers value, which is its element count for a list. |
| `Config.LoadStep` | src/pkgs/config/config.py:9-15 | A load passes exactly when the read and the decode both succeed, and the held value then becomes the decoded value of the whole text. A failure to open or read the file gives that failure (OSError, or UnicodeDecodeError for text that is not valid in the file's encoding), and a decode failure gives JSONDecodeError. In both failure cases the held value is unchanged. |
| `Config.LoadNullUnloads` | src/pkgs/config/config.py:15-26 | Loading the document `null` passes and leaves every accessor raising ConfigNotLoaded. |
| `Config.ConfigStore.constructor` | src/pkgs/config/config.py:6 | The store starts unloaded (`_config = None`). |
| `Config.ConfigStore.Load` | src/pkgs/config/config.py:9-15 | Same as `LoadStep`, stated on the field: on success the field holds the decoded value, on failure the field is unchanged. |
| `Config.ConfigStore.GetApiHost` | src/pkgs/config/config.py:18-27 | `getApiHost()` on the store is the accessor `ApiHost` applied to the field `config`. |
| `Config.ConfigStore.GetApiPort` | src/pkgs/config/config.py:30-39 | `getApiPort()` on the store is the accessor `ApiPort` applied to the field `config`. |
| `Config.ConfigStore.GetChambersCount` | src/pkgs/config/config.py:42-51 | `getChambersCount()` on the store is the accessor `ChambersCount` applied to the field `config`. |
| `ConfigTrace.Run` | src/pkgs/config/config.py:9-51 | Running a sequence of calls gives exactly one reply per call. |
| `ConfigTrace.NoReplaceKeepsCurrent` | src/pkgs/config/config.py:13-15 | If no call in a sequence loads successfully, the held value stays the initial one. |
| `ConfigTrace.NoReplaceExtendsCurrent` | src/pkgs/config/config.py:13-15 | Calls without a successful load, appended to a sequence, leave its held value as it was. |
| `ConfigTrace.RunHoldsLastLoad` | src/pkgs/config/config.py:13-15 | After any sequence of calls, the held value is the document of the last successful load, or the initial value if no load succeeded. |
| `ConfigTrace.ReplyAt` | src/pkgs/config/config.py:9-51 | The reply to each call equals that call executed against the document of the last successful load before it. |
| `ConfigTrace.NotLoadedBeforeLoad` | src/pkgs/config/config.py:18-51 | Starting from the initial None, every accessor called before any successful load raises ConfigNotLoaded and returns no value. |
| `ConfigTrace.LastLoadWins` | src/pkgs/config/config.py:13-15 | After a successful load of D with no successful load since, every accessor reflects D alone. Nothing loaded earlier is merged in. |
| `ConfigTrace.FailedLoadKeepsDocument` | src/pkgs/config/config.py:14-15 | A load whose read or decode fails raises. The accessor after it still sees the document held before that load. |
| `ConfigTrace.RepeatedReadsAgree` | src/pkgs/config/config.py:18-51 | Accessors do not modify the store. The same accessor called twice with no successful load in between gives the same reply. |
| `ConfigDocument.AsDocument` | src/pkgs/config/config.py:27-51 | A decoded value reads as a Document exactly when `api.host` is a str, `api.port` an int and `chambers` a list. The fields of the result are those values. |
| `ConfigDocument.AccessorsProject` | src/pkgs/config/config.py:18-51 | On a well-shaped document D the accessors return exactly D's host, D's port and D's chamber count. |
| `ConfigDocument.LoadServesDocument` | tests/unit/pkgs/config/test_config.py:53-95 | After a successful load of a well-shaped D the accessors return D's host, port and chamber count, whatever the store held before. |

## Left out

- The file I/O: `open`, `os.path.join` and the fixed `CONFIG_FILE` path. The outcome of opening and reading the file is an input value (`FileRead`). A read-time UnicodeDecodeError is kept as one of its failure causes.
- JSON decoding itself: `json.loads` is a foreign call, so the decoder is an input function. The shape of what it returns is `PyJson.Json`.
- Floating-point numbers: a JSON float is modelled as a `real`, with no rounding. `NaN`, `Infinity` and `-Infinity`, which `json.loads` accepts by default, have no `Json` value. None of the modelled accessors inspects a number's value.
- Strings holding lone surrogates (such as the escape `"\ud800"`), which `json.loads` produces, have no `Json` value, because a Dafny `char` is a Unicode scalar value.
- LoadStep: every exception of the decoder is reported as JSONDecodeError (`Malformed`). This includes the RecursionError raised on deeply nested input and the ValueError raised for an integer literal longer than the interpreter's digit limit. In every such case the held value is still unchanged.
- Aliasing of returned values: an accessor in Python returns a reference into `_config`, so a caller could change the held document through a returned list or dict. The model returns values, so it does not capture this. It cannot happen for a well-shaped document, whose host is a str and port an int.
- The message text of `ConfigNotLoaded` (`'configuration not loaded'`), which is cosmetic.
- Concurrency and the atomicity of the assignment to `_config`. The source does nothing about either.
- Closing the file at the end of the `with` block, which has no observable effect on the store.
