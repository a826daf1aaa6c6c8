/** `LlamaServerConfig` and `LlamaServerConfig.from_yaml`: the startup
    descriptor of the llama.cpp server, read from an already parsed YAML
    document by descending a sequence of keys. */
module LlamaConfig {
  import opened Wrappers

  /** A parsed YAML document, as `yaml.safe_load` returns it. */
  datatype Yaml =
    | YNull
    | YBool(b: bool)
    | YInt(i: int)
    | YStr(s: string)
    | YList(items: seq<Yaml>)
    | YMap(entries: map<string, Yaml>)

  /** Python truthiness of a loaded value: `None`, `False`, `0`, `""`, `[]`
      and `{}` are false. */
  predicate Truthy(y: Yaml) {
    match y
    case YNull => false
    case YBool(b) => b
    case YInt(i) => i != 0
    case YStr(s) => s != ""
    case YList(items) => items != []
    case YMap(entries) => entries != map[]
  }

  datatype LlamaServerConfig = LlamaServerConfig(
    llamaCppRepoPath: string,
    modelPath: string,
    port: int,
    useGpu: bool)

  const DefaultPort: int := 8080
  const DefaultUseGpu: bool := true
  /** The default `key_to_config`: the `LlamaServer` section. */
  const DefaultKeyToConfig: seq<string> := ["LlamaServer"]

  const RepoPathKey: string := "llama_cpp_repo_path"
  const ModelPathKey: string := "model_path"
  const PortKey: string := "port"
  const UseGpuKey: string := "use_gpu"

  /** The keyword arguments `LlamaServerConfig(...)` accepts. */
  const FieldNames: set<string> := {RepoPathKey, ModelPathKey, PortKey, UseGpuKey}
  /** The ones without a default. */
  const RequiredFields: set<string> := {RepoPathKey, ModelPathKey}

  datatype ConfigError =
    /** `.get` called on a value that is not a mapping while descending (AttributeError). */
    | NotAMapping(key: string)
    /** `cls(**config)` with a truthy value that is not a mapping (TypeError). */
    | NotKeywordMapping
    /** Keyword arguments the config class does not declare (TypeError). */
    | UnexpectedKeys(keys: set<string>)
    /** Fields without a default that are absent (TypeError). */
    | MissingKeys(keys: set<string>)
    /** A field whose value does not have the declared type. */
    | WrongType(key: string)

  /** The key sequence actually walked: `key_to_config or []`. */
  function KeysOf(keyToConfig: Option<seq<string>>): seq<string> {
    if keyToConfig.Some? then keyToConfig.value else []
  }

  /** `config.get(key, {})`. */
  function Step(config: Yaml, key: string): Result<Yaml, ConfigError> {
    match config
    case YMap(m) => Ok(if key in m then m[key] else YMap(map[]))
    case _ => Err(NotAMapping(key))
  }

  /** The value reached from `data` by the `for nested_key in key_to_config` loop. */
  function Descend(data: Yaml, keys: seq<string>): Result<Yaml, ConfigError>
    decreases |keys|
  {
    if keys == [] then Ok(data)
    else
      match Step(data, keys[0])
      case Err(e) => Err(e)
      case Ok(next) => Descend(next, keys[1..])
  }

  /** `if not config: return None` followed by `return cls(**config)`. */
  function Build(config: Yaml): Result<Option<LlamaServerConfig>, ConfigError> {
    if !Truthy(config) then Ok(None)
    else if !config.YMap? then Err(NotKeywordMapping)
    else
      var m := config.entries;
      if m.Keys - FieldNames != {} then Err(UnexpectedKeys(m.Keys - FieldNames))
      else if RequiredFields - m.Keys != {} then Err(MissingKeys(RequiredFields - m.Keys))
      else if !m[RepoPathKey].YStr? then Err(WrongType(RepoPathKey))
      else if !m[ModelPathKey].YStr? then Err(WrongType(ModelPathKey))
      else if PortKey in m && !m[PortKey].YInt? then Err(WrongType(PortKey))
      else if UseGpuKey in m && !m[UseGpuKey].YBool? then Err(WrongType(UseGpuKey))
      else
        Ok(Some(LlamaServerConfig(
          m[RepoPathKey].s,
          m[ModelPathKey].s,
          if PortKey in m then m[PortKey].i else DefaultPort,
          if UseGpuKey in m then m[UseGpuKey].b else DefaultUseGpu)))
  }

  /** What `from_yaml` returns for the loaded document `data`. */
  function Resolve(data: Yaml, keyToConfig: Option<seq<string>>): Result<Option<LlamaServerConfig>, ConfigError> {
    match Descend(data, KeysOf(keyToConfig))
    case Err(e) => Err(e)
    case Ok(config) => Build(config)
  }

  /** `LlamaServerConfig.from_yaml`, on the document already loaded. */
  method FromYaml(data: Yaml, keyToConfig: Option<seq<string>>) returns (r: Result<Option<LlamaServerConfig>, ConfigError>)
    ensures r == Resolve(data, keyToConfig)
    ensures r == Ok(None) <==> (Descend(data, KeysOf(keyToConfig)).Ok? && !Truthy(Descend(data, KeysOf(keyToConfig)).value))
  {
    var keys := if keyToConfig.Some? then keyToConfig.value else [];
    var config := data;
    for i := 0 to |keys|
      invariant Descend(data, keys[..i]) == Ok(config)
    {
      DescendConcat(data, keys[..i], [keys[i]]);
      assert keys[..i + 1] == keys[..i] + [keys[i]];
      if !config.YMap? {
        DescendConcat(data, keys[..i + 1], keys[i + 1..]);
        assert keys[..i + 1] + keys[i + 1..] == keys;
        return Err(NotAMapping(keys[i]));
      }
      config := if keys[i] in config.entries then config.entries[keys[i]] else YMap(map[]);
    }
    assert keys[..|keys|] == keys;
    r := Build(config);
  }

  /** Descending by `a + b` is descending by `a`, then by `b`; an error stops the walk. */
  lemma {:induction false} DescendConcat(data: Yaml, a: seq<string>, b: seq<string>)
    ensures Descend(data, a + b) ==
      match Descend(data, a)
      case Err(e) => Err(e)
      case Ok(mid) => Descend(mid, b)
    decreases |a|
  {
    if a == [] {
      assert a + b == b;
    } else {
      assert (a + b)[0] == a[0] && (a + b)[1..] == a[1..] + b;
      match Step(data, a[0])
      case Err(e) =>
      case Ok(next) => DescendConcat(next, a[1..], b);
    }
  }

  /** Below a missing key everything is the empty mapping. */
  lemma {:induction false} DescendEmpty(keys: seq<string>)
    ensures Descend(YMap(map[]), keys) == Ok(YMap(map[]))
    decreases |keys|
  {
    if keys != [] {
      DescendEmpty(keys[1..]);
    }
  }

  /** A key missing anywhere on the path makes `from_yaml` return None. */
  lemma MissingKeyGivesNone(data: Yaml, keys: seq<string>, i: nat, m: map<string, Yaml>)
    requires i < |keys|
    requires Descend(data, keys[..i]) == Ok(YMap(m))
    requires keys[i] !in m
    ensures Resolve(data, Some(keys)) == Ok(None)
  {
    DescendConcat(data, keys[..i], keys[i..]);
    assert keys[..i] + keys[i..] == keys;
    assert keys[i..][0] == keys[i] && keys[i..][1..] == keys[i + 1..];
    DescendEmpty(keys[i + 1..]);
  }

  /** No key sequence and the empty key sequence both use the document itself. */
  lemma NoKeysUseRoot(data: Yaml)
    ensures Resolve(data, None) == Build(data)
    ensures Resolve(data, Some([])) == Build(data)
  {
  }

  /** With the default `key_to_config`, the config is read from the document's
      `LlamaServer` entry; a document without that entry is not configured, and
      one that is not a mapping fails. */
  lemma DefaultSection(data: Yaml)
    ensures Resolve(data, Some(DefaultKeyToConfig)) ==
      match data
      case YMap(m) => Build(if "LlamaServer" in m then m["LlamaServer"] else YMap(map[]))
      case _ => Err(NotAMapping("LlamaServer"))
    ensures data.YMap? && "LlamaServer" !in data.entries ==> Resolve(data, Some(DefaultKeyToConfig)) == Ok(None)
  {
    assert DefaultKeyToConfig[1..] == [];
  }

  /** A false-valued section is "not configured", never an error. */
  lemma BuildNoneIff(config: Yaml)
    ensures Build(config) == Ok(None) <==> !Truthy(config)
  {
  }

  /** The mapping `m` holds exactly the fields of `c`, with `port` and
      `use_gpu` either present or at their defaults. */
  predicate Describes(m: map<string, Yaml>, c: LlamaServerConfig) {
    m.Keys <= FieldNames && RequiredFields <= m.Keys
    && m[RepoPathKey] == YStr(c.llamaCppRepoPath)
    && m[ModelPathKey] == YStr(c.modelPath)
    && (if PortKey in m then m[PortKey] == YInt(c.port) else c.port == DefaultPort)
    && (if UseGpuKey in m then m[UseGpuKey] == YBool(c.useGpu) else c.useGpu == DefaultUseGpu)
  }

  /** `from_yaml` builds a config exactly from mappings that describe it. */
  lemma BuildSomeIff(config: Yaml, c: LlamaServerConfig)
    ensures Build(config) == Ok(Some(c)) <==> config.YMap? && Describes(config.entries, c)
  {
  }

  /** The two required fields alone give a config with `port` 8080 and `use_gpu` true. */
  lemma DefaultsApply(repo: string, model: string)
    ensures Build(YMap(map[RepoPathKey := YStr(repo), ModelPathKey := YStr(model)]))
      == Ok(Some(LlamaServerConfig(repo, model, 8080, true)))
  {
    var m := map[RepoPathKey := YStr(repo), ModelPathKey := YStr(model)];
    assert m.Keys == RequiredFields;
    BuildSomeIff(YMap(m), LlamaServerConfig(repo, model, 8080, true));
  }

  /** The mapping that serialises a config with every field written out. */
  function ToMapping(c: LlamaServerConfig): Yaml {
    YMap(map[RepoPathKey := YStr(c.llamaCppRepoPath), ModelPathKey := YStr(c.modelPath),
             PortKey := YInt(c.port), UseGpuKey := YBool(c.useGpu)])
  }

  /** `value` placed under the nested sections `keys`. */
  function Nest(keys: seq<string>, value: Yaml): Yaml
    decreases |keys|
  {
    if keys == [] then value else YMap(map[keys[0] := Nest(keys[1..], value)])
  }

  lemma {:induction false} DescendNest(keys: seq<string>, value: Yaml)
    ensures Descend(Nest(keys, value), keys) == Ok(value)
    decreases |keys|
  {
    if keys != [] {
      DescendNest(keys[1..], value);
    }
  }

  /** Serialising a config under any section path and reading it back with
      that path gives the same config. */
  lemma RoundTrip(c: LlamaServerConfig, keys: seq<string>)
    ensures Resolve(Nest(keys, ToMapping(c)), Some(keys)) == Ok(Some(c))
  {
    DescendNest(keys, ToMapping(c));
    var m := ToMapping(c).entries;
    assert m.Keys == FieldNames;
    BuildSomeIff(ToMapping(c), c);
  }
}
