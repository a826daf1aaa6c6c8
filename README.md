# LlamaServer supervisor, modelled in Dafny

This project models `glados/llama.py` of GlaDOS. That file supervises one
llama.cpp server subprocess. `LlamaServerConfig.from_yaml` reads the server's
startup descriptor from a YAML document: the checkout path, the model path,
the port (default 8080) and the GPU flag (default true). `LlamaServer` does
the rest:

- it builds the launch command `[server, "-m", model]`, with `-ngl 1000`
  appended when the GPU is used;
- it derives the base, completion and health URLs from the port;
- it checks readiness with the `is_running` loop;
- it starts its process and stops it again.

The readiness loop has two budgets that are kept apart. One counts connection
errors (`cur_attempt`). The other counts HTTP 503 answers, at one second of
waiting each (`model_loading_time`). A 200 answer means ready. Any other
status fails at once.

Files and modules:

- `wrappers.dfy` (`Wrappers`): `Option` and `Result`.
- `decimal.dfy` (`Decimal`): Python's `str(int)`, and the parser that inverts it.
- `paths.dfy` (`Paths`): the part of POSIX `pathlib` that is used. It covers
  `Path(s)`, `str(p)` and `p / "server"`, over an absolute flag and a list of
  components.
- `llama_config.dfy` (`LlamaConfig`): `LlamaServerConfig` and `from_yaml`. The
  document has already been parsed into a `Yaml` tree.
- `polling.dfy` (`Polling`): the readiness loop as a pure specification
  (`Poll`, `Readiness`). It also gives a closed-form description: the loop
  stops at the first request that ends it. The lemmas about outcomes,
  budgets and termination are here.
- `llama.dfy` (`Llama`): the launch command, the URLs, and the `LlamaServer`
  class with its `process` field. `IsRunning` is a `while` loop proved
  against `Polling.Check`. The ghost set `live` holds the processes the
  server started and has not yet reaped, so that orphaned processes can be
  stated.

External effects become parameters:

- `requests.get` becomes a `HealthOracle`: a function from the request index
  to `ConnectionError` or `Status(code)`. Each loop iteration consumes one
  answer.
- `subprocess.Popen` becomes the `spawned` process token passed to `Start`.
- The sleeps are counted, not performed: `shortSleeps` and `loadingSleeps`.

In these places the model follows the code as written:

- The short pause runs only after a retried connection error. The 503 branch
  `continue`s past it (glados/llama.py:130, 149).
- `stop` is not idempotent. On a server without a process it fails, because
  it calls `terminate` on `None`. `Stop` returns `ok == false` in that case.
- The startup error message does not contain the launch command. The command
  is only logged before spawning.
- Calling `start` while a process is already owned overwrites the field. The
  earlier process is then orphaned: `Start` ensures `Orphans() == old(live)`.

## Model

| member | source | states |
|---|---|---|
| `Decimal.NatToDecimal` | glados/llama.py:77 | the port's decimal digits are non-empty, all digits, and have no leading zero unless the value is 0 |
| `Decimal.ParseIntToDecimal` | glados/llama.py:77 | parsing the rendered integer gives the integer back, minus sign included |
| `Decimal.IntToDecimalInjective` | glados/llama.py:77 | distinct integers render to distinct strings |
| `Paths.Split` | glados/llama.py:64-66 | splitting a path string on `/` gives at least one piece, and no piece contains `/` |
| `Paths.ParsePath` | glados/llama.py:64-66 | `Path(s)` keeps only non-empty components that are not `.` and contain no `/` |
| `Paths.ParsePathKeepsComponents` | glados/llama.py:64-66 | a string is in `Path(s)`'s components exactly when it is a piece of `s` between slashes that is non-empty and not `.` |
| `Paths.SignificantMembers` | glados/llama.py:64-66 | dropping the ignored pieces keeps exactly the pieces that are components |
| `Paths.SignificantConcat` | glados/llama.py:64-66 | dropping the ignored pieces keeps the order of the pieces that stay |
| `Paths.JoinSlashSplit` | glados/llama.py:64-66 | splitting a path string on `/` loses nothing: joining the pieces with `/` gives the string back |
| `Paths.SplitSlash` | glados/llama.py:64-66 | a slash in the string separates the pieces before it from those after it |
| `Paths.ParsePathConcat` | glados/llama.py:64-66 | `Path(a + "/" + b)` has the components of `a` followed by those of `b`, and is absolute exactly when `a` is empty or absolute |
| `Paths.ParseComponent` | glados/llama.py:64-66 | a string that is a single component parses to the relative path made of that component |
| `Paths.ParseDotPrefixed` | glados/llama.py:64-66 | a leading `./`, as in `./llama.cpp`, is dropped |
| `Paths.ParseExtraSlashes` | glados/llama.py:64-66 | a doubled slash and a trailing slash, as in `/opt//llama.cpp/`, are dropped and the path stays absolute |
| `Paths.Significant` | glados/llama.py:64-66 | pathlib's filter that drops empty pieces and `.`; its result holds only components, and `SignificantMembers` and `SignificantConcat` state what it keeps and in what order |
| `Paths.JoinSlash` | glados/llama.py:64-66 | the `"/".join` inside `str(p)`; `SplitJoinSlash` and `JoinSlashSplit` state that it and `Split` invert each other |
| `Paths.Render` | glados/llama.py:58-66 | `str(p)`, with `.` for the empty relative path; `ParseRender` states that parsing inverts it on well-formed paths |
| `Paths.ParseRender` | glados/llama.py:64-66 | parsing the rendering of a well-formed path gives that path back |
| `Paths.ServerExecutable` | glados/llama.py:64 | `Path(repo) / "server"` is a well-formed path |
| `Paths.ServerExecutableRendering` | glados/llama.py:64 | the server path renders as the checkout path followed by `/server`, or as `server` or `/server` for the bare paths `.` and `/` |
| `Paths.ServerExecutableRoundTrip` | glados/llama.py:64 | the server path's last component is `server`, and its rendering parses back to it |
| `LlamaConfig.KeysOf` | glados/llama.py:29 | the keys walked, `[]` for `None`; `NoKeysUseRoot` states it |
| `LlamaConfig.Truthy` | glados/llama.py:37 | Python truthiness of a loaded value; `BuildNoneIff` states that a falsy section gives `None` |
| `LlamaConfig.Step` | glados/llama.py:36 | `config.get(key, {})`, failing on a value that is not a mapping; `DescendEmpty` and `MissingKeyGivesNone` state what a missing key gives |
| `LlamaConfig.Descend` | glados/llama.py:34-36 | the `for nested_key in key_to_config` walk; `DescendConcat` and `DescendNest` state its properties |
| `LlamaConfig.Build` | glados/llama.py:37-39 | `None` for a falsy section, else `cls(**config)`; `BuildNoneIff` and `BuildSomeIff` characterise both results |
| `LlamaConfig.Resolve` | glados/llama.py:26-39 | what `from_yaml` returns; `FromYaml` is proved equal to it, and `RoundTrip` and `DefaultSection` state its properties |
| `LlamaConfig.DefaultSection` | glados/llama.py:27-39 | with the default `key_to_config` `("LlamaServer",)`, the config comes from the document's `LlamaServer` entry, a document without that entry gives `None`, and a non-mapping document fails |
| `LlamaConfig.FromYaml` | glados/llama.py:26-39 | the loop over the keys returns exactly `Resolve`: it descends with `.get(key, {})`, fails on a non-mapping, and gives `None` exactly when the value reached is falsy |
| `LlamaConfig.DescendConcat` | glados/llama.py:35-36 | descending by `a + b` is descending by `a`, then by `b`, and an error stops the walk |
| `LlamaConfig.DescendEmpty` | glados/llama.py:36 | below the empty mapping every further key gives the empty mapping |
| `LlamaConfig.MissingKeyGivesNone` | glados/llama.py:35-38 | a key missing anywhere on the path makes `from_yaml` return `None` |
| `LlamaConfig.NoKeysUseRoot` | glados/llama.py:29 | `None` and the empty key sequence both use the document root |
| `LlamaConfig.BuildNoneIff` | glados/llama.py:37-38 | the result is `None` exactly when the section is falsy |
| `LlamaConfig.BuildSomeIff` | glados/llama.py:18-23 | a config is built exactly from a mapping that holds its fields, with `port` and `use_gpu` present or at their defaults |
| `LlamaConfig.DefaultsApply` | glados/llama.py:22-23 | the two path fields alone give `port` 8080 and `use_gpu` true |
| `LlamaConfig.DescendNest` | glados/llama.py:34-36 | descending a value nested under `keys` by `keys` reaches that value |
| `LlamaConfig.RoundTrip` | glados/llama.py:18-39 | a config serialised under any section path reads back, with that path, as the same config |
| `Decimal.IntToDecimal` | glados/llama.py:77 | Python's `str(int)` for the port; `ParseIntToDecimal` and `IntToDecimalInjective` state that it is inverted by parsing and is injective |
| `Llama.LaunchCommand` | glados/llama.py:58-60 | the launch command; `LaunchCommandShape` and `LaunchCommandParse` state its shape and that it determines its three parameters |
| `Llama.BaseUrl` | glados/llama.py:75-77 | `http://localhost:` followed by the port; `BaseUrlNamesPort` states that the URL determines the port |
| `Llama.CompletionUrl` | glados/llama.py:79-81 | the base URL followed by `/completion`; `EndpointUrls` states its properties |
| `Llama.HealthCheckUrl` | glados/llama.py:83-85 | the base URL followed by `/health`; `EndpointUrls` states its properties |
| `Llama.LaunchCommandShape` | glados/llama.py:58-60 | the command is `[executable, "-m", model]`, then `-ngl 1000` with the GPU; its length is 5 with the GPU and 3 without |
| `Llama.LaunchCommandParse` | glados/llama.py:58-60 | the command reads back as its executable, model and GPU flag, and only the command built from them reads back so |
| `Llama.BaseUrlNamesPort` | glados/llama.py:75-77 | the base URL parses back to its port, so different ports give different URLs |
| `Llama.EndpointUrls` | glados/llama.py:79-85 | the completion and health URLs extend the base URL, each determines the port, and they never coincide |
| `Llama.LlamaServer.constructor` | glados/llama.py:44-60 | a new server owns no process, and its command is fixed from the two paths and the GPU flag |
| `Llama.LlamaServer.FromConfig` | glados/llama.py:62-73 | the executable is `server` inside the checkout, the model path is parsed, and the port and GPU flag are copied |
| `Llama.LlamaServer.IsRunning` | glados/llama.py:99-149 | with no process: `false` and no request; otherwise the result, the request count and the sleeps are those of `Polling.Readiness` |
| `Llama.LlamaServer.Stop` | glados/llama.py:151-154 | it fails exactly when no process is owned; afterwards `process` is `None`, the owned process is reaped, and no orphan is added |
| `Llama.LlamaServer.Start` | glados/llama.py:87-97 | it succeeds exactly when readiness holds with the defaults (10 attempts, 60 s); on success it owns the new process; on failure it reaps it, owns none and raises `ServerStartupError`; it orphans exactly the processes it held before |
| `Polling.Poll` | glados/llama.py:111-149 | the polling loop from a given request index and counter values; `PollFirstStop` and `PollBound` state its outcome and bound |
| `Polling.Readiness` | glados/llama.py:108-149 | the loop from its initial state; `ReadinessFirstStop`, `ReadinessTerminates` and `ReadyIff` state its outcome |
| `Polling.Check` | glados/llama.py:105-149 | `false` without a request when there is no process, else `Readiness`; `LlamaServer.IsRunning` is proved equal to it |
| `Polling.PollFirstStop` | glados/llama.py:111-149 | from any loop state that matches the answers so far, the loop ends at the first stopping request, and that answer decides the result and the reason |
| `Polling.ReadinessFirstStop` | glados/llama.py:108-149 | the check issues requests up to the first one that stops it; the short sleeps are the connection errors before it and the loading sleeps are the 503s before it |
| `Polling.PollBound` | glados/llama.py:111-149 | from any state, the requests still issued are at most the remaining budgets plus one, and every request but the last is followed by one sleep |
| `Polling.ReadinessTerminates` | glados/llama.py:108-149 | the check ends within `max_connection_attempts + max_wait + 2` requests, and requests = short sleeps + loading sleeps + 1 |
| `Polling.CountsMonotone` | glados/llama.py:109-143 | the counts of connection errors and of 503s before an index never decrease |
| `Polling.ToleratedPrefixContinues` | glados/llama.py:115-148 | no answer in a tolerated prefix stops the loop |
| `Polling.FirstStopIsLast` | glados/llama.py:111-149 | the first stopping request is the last one issued |
| `Polling.TerminalStatus` | glados/llama.py:131-137 | after a tolerated prefix, a 200 returns true and any other non-503 status returns false, both at once |
| `Polling.ReadyIff` | glados/llama.py:111-149 | the check returns true exactly when a 200 follows a tolerated prefix |
| `Polling.ConnectionBudget` | glados/llama.py:139-148 | with only connection errors, `max_connection_attempts` are retried, and the next error returns false without a loading sleep |
| `Polling.LoadingBudget` | glados/llama.py:115-130 | with only 503 answers, `max_wait + 1` are tolerated, and the next returns false without a short sleep |
| `Polling.LoadingWithinBudget` | glados/llama.py:115-133 | `max_wait + 1` answers of 503 followed by a 200 still give true |
| `Polling.BoundIsReached` | glados/llama.py:108-149 | both budgets are spent independently: `max_connection_attempts` errors then only 503s use `max_connection_attempts + max_wait + 2` requests |
| `Polling.AllConnectionErrorsCounted` | glados/llama.py:143 | a prefix of connection errors only is counted in full by the connection counter |
| `Polling.AllLoadingCounted` | glados/llama.py:129 | a prefix of 503 answers only is counted in full by the loading counter |
| `Polling.AllLoadingNone` | glados/llama.py:129 | a run of connection errors alone counts no 503 |
| `Polling.AllConnectionNone` | glados/llama.py:143 | a run of 503s alone counts no connection error |
| `Polling.ConnectionThenLoadingCounts` | glados/llama.py:129-143 | the two counters after a run of connection errors and then 503s |

## Left out

- Process control: `subprocess.Popen`, `terminate` and `wait` are not modelled. A process is an opaque token. `Start` requires that the token is new to this server, as the operating system guarantees. A `Popen` that raises is not modelled.
- Network: `requests.get` is the `HealthOracle` parameter. Exceptions other than `ConnectionError` would propagate out of `is_running`; the oracle has no such answer.
- Sleeping and logging: sleeps are counted (`shortSleeps`, `loadingSleeps`), not performed. The float `sleep_time_between_attempts` is dropped. Logging is dropped.
- `LlamaServer.IsRunning`: `max_wait_time_for_model_loading` is a float in the source and an `int` here. The loading counter is a whole number, so for a finite bound `w` the test `t > w` agrees with `t > floor(w)`. NaN and infinite bounds are not covered. `is_running`'s defaults (`max_connection_attempts=10`, `sleep_time_between_attempts=0.01`, `max_wait_time_for_model_loading=60.0`; glados/llama.py:101-103) are not default parameters: `IsRunning` takes both bounds explicitly, the sleep time is dropped, and only `Start` passes the constants `DefaultMaxConnectionAttempts` and `DefaultMaxWaitForModelLoading`.
- File and YAML reading: `open` and `yaml.safe_load` are not modelled. `FromYaml` starts from the parsed `Yaml` tree. That tree has string keys only and no floats.
- `LlamaConfig.Build`: Python's dataclass stores field values of any type. The model's fields are typed, so a value of the wrong type gives `WrongType`. Unexpected and missing keyword arguments are reported as sets. Python names only the first unexpected key.
- Path resolution: `Path.resolve()` (glados/llama.py:65-66) depends on the file system and the working directory, so it is not modelled. Only the parse, the render and the `"server"` join are.
- `Paths.ParsePath`: POSIX `pathlib` keeps exactly two leading slashes (`//x`). The model treats them as one.
- Destructor: `__del__` (glados/llama.py:156-158) runs when the garbage collector decides, so it is not modelled. It calls `stop` unconditionally, so it would fail on a server that owns no process, as `Stop` shows.
- URLs: they are functions of the port in `Llama`, not methods of the class, because the port never changes.
- `Llama.LlamaServer.constructor`: `__init__`'s defaults `port=8080` and `use_gpu=True` (glados/llama.py:48-49) are not modelled, because Dafny constructors have no default arguments. Every caller passes all four values. `from_config`, the only caller in the core, always does the same.
- `LlamaConfig.FromYaml`: the default `key_to_config=("LlamaServer",)` (glados/llama.py:27) is not a default parameter. A caller passes `Some(DefaultKeyToConfig)` for it, and `DefaultSection` states the result.
