/**
 * config_manager.py: the configuration records and the normaliser that turns
 * the parsed YAML document into enabled `PlatformConfig` values with their
 * defaults filled in.
 *
 * The YAML document is given as a value (`RawConfig`): every key the source
 * reads with `.get(...)` is an `Option`, `None` when the key is absent.
 */
module ConfigManager {
  import opened Wrappers
  import opened Seqs

  const DefaultMaxTokens: int := 1000
  const DefaultTemperature: real := 0.7

  /** One model of a platform with its generation parameters. */
  datatype ModelConfig = ModelConfig(
    name: string,
    maxTokens: int,
    temperature: real,
    topP: Option<real>,
    frequencyPenalty: Option<real>,
    presencePenalty: Option<real>)

  /** One provider account. */
  datatype PlatformConfig = PlatformConfig(
    name: string,
    enabled: bool,
    apiKey: string,
    models: seq<ModelConfig>,
    baseUrl: Option<string>,
    secretKey: Option<string>)

  /** A `models:` entry as written in the YAML file. */
  datatype RawModel = RawModel(
    name: Option<string>,
    maxTokens: Option<int>,
    temperature: Option<real>,
    topP: Option<real>,
    frequencyPenalty: Option<real>,
    presencePenalty: Option<real>)

  /** A YAML scalar as `yaml.safe_load` returns it: `null`, a boolean, a number or a string. */
  datatype Scalar = YNull | YBool(b: bool) | YInt(n: int) | YReal(x: real) | YStr(s: string)

  /** Python truthiness of a scalar: `None`, `False`, zero and the empty string are falsy. */
  predicate Truthy(v: Scalar) {
    match v
    case YNull => false
    case YBool(b) => b
    case YInt(n) => n != 0
    case YReal(x) => x != 0.0
    case YStr(t) => t != ""
  }

  /** A `platforms:` entry as written in the YAML file. */
  datatype RawPlatform = RawPlatform(
    enabled: Option<Scalar>,
    apiKey: Option<string>,
    models: Option<seq<RawModel>>,
    baseUrl: Option<string>,
    secretKey: Option<string>)

  /** A `test_prompts:` entry: the prompt text and its optional category. */
  datatype RawPrompt = RawPrompt(prompt: Option<string>, category: Option<string>)

  /** The `test_settings:` section. */
  datatype TestSettings = TestSettings(resultsPath: Option<string>, testPrompts: Option<seq<RawPrompt>>)

  /** The whole document; `platforms` keeps the mapping's key order. */
  datatype RawConfig = RawConfig(
    platforms: Option<seq<(string, RawPlatform)>>,
    testSettings: Option<TestSettings>)

  /** No two entries share a key. */
  ghost predicate KeysDistinct(entries: seq<(string, RawPlatform)>) {
    forall i, j :: 0 <= i < j < |entries| ==> entries[i].0 != entries[j].0
  }

  /** A YAML mapping has no repeated key. */
  ghost predicate WellFormed(c: RawConfig) {
    KeysDistinct(c.platforms.GetOr([]))
  }

  /** `platform_data.get('enabled', False)` is truthy. */
  predicate Enabled(p: RawPlatform) {
    p.enabled.Some? && Truthy(p.enabled.value)
  }

  /** Every model entry carries a `name` (otherwise `model_data['name']` raises KeyError). */
  predicate ModelsNamed(raws: seq<RawModel>) {
    forall i :: 0 <= i < |raws| ==> raws[i].name.Some?
  }

  /** Every enabled platform's model entries carry a `name`; disabled ones are never read. */
  predicate EnabledModelsNamed(entries: seq<(string, RawPlatform)>) {
    forall i :: 0 <= i < |entries| && Enabled(entries[i].1) ==> ModelsNamed(entries[i].1.models.GetOr([]))
  }

  /** The keys of the enabled entries, in document order. */
  function EnabledNames(entries: seq<(string, RawPlatform)>): (r: seq<string>)
    ensures forall n :: n in r <==> exists i :: 0 <= i < |entries| && entries[i].0 == n && Enabled(entries[i].1)
  {
    if |entries| == 0 then []
    else
      var p := EnabledNames(entries[..|entries| - 1]);
      var e := entries[|entries| - 1];
      assert forall i :: 0 <= i < |entries| - 1 ==> entries[..|entries| - 1][i] == entries[i];
      if Enabled(e.1) then p + [e.0] else p
  }

  /** Lines 55-62: a model entry with its missing parameters defaulted. */
  function BuildModel(raw: RawModel): (m: ModelConfig)
    requires raw.name.Some?
    ensures m.name == raw.name.value
    ensures raw.maxTokens.Some? ==> m.maxTokens == raw.maxTokens.value
    ensures raw.maxTokens.None? ==> m.maxTokens == DefaultMaxTokens
    ensures raw.temperature.Some? ==> m.temperature == raw.temperature.value
    ensures raw.temperature.None? ==> m.temperature == DefaultTemperature
    ensures m.topP == raw.topP && m.frequencyPenalty == raw.frequencyPenalty && m.presencePenalty == raw.presencePenalty
  {
    ModelConfig(raw.name.value, raw.maxTokens.GetOr(DefaultMaxTokens), raw.temperature.GetOr(DefaultTemperature),
                raw.topP, raw.frequencyPenalty, raw.presencePenalty)
  }

  /** The YAML entry that spells out every field of `m`. */
  function ModelEntry(m: ModelConfig): RawModel {
    RawModel(Some(m.name), Some(m.maxTokens), Some(m.temperature), m.topP, m.frequencyPenalty, m.presencePenalty)
  }

  /** Reading back a fully written model entry gives the model itself. */
  lemma BuildModelRoundTrip(m: ModelConfig)
    ensures BuildModel(ModelEntry(m)) == m
  {
  }

  /** Lines 64-71: a kept platform, named after its key and marked enabled. */
  function BuildPlatform(name: string, raw: RawPlatform, models: seq<ModelConfig>): (p: PlatformConfig)
    ensures p.name == name && p.enabled && p.models == models
    ensures raw.apiKey.Some? ==> p.apiKey == raw.apiKey.value
    ensures raw.apiKey.None? ==> p.apiKey == ""
    ensures p.baseUrl == raw.baseUrl && p.secretKey == raw.secretKey
  {
    PlatformConfig(name, true, raw.apiKey.GetOr(""), models, raw.baseUrl, raw.secretKey)
  }

  /** The models of an entry, as `_parse_platforms` builds them. */
  function ModelsOf(raw: RawPlatform): (ms: seq<ModelConfig>)
    requires ModelsNamed(raw.models.GetOr([]))
    ensures |ms| == |raw.models.GetOr([])|
    ensures forall i :: 0 <= i < |ms| ==> ms[i] == BuildModel(raw.models.GetOr([])[i])
  {
    var raws := raw.models.GetOr([]);
    seq(|raws|, i requires 0 <= i < |raws| => BuildModel(raws[i]))
  }

  /** The inner loop of lines 53-62: the model list, or the KeyError of an entry without `name`. */
  method ParseModels(raws: seq<RawModel>) returns (r: Result<seq<ModelConfig>>)
    ensures r.Success? <==> ModelsNamed(raws)
    ensures r.Failure? ==> r.error == "KeyError: 'name'"
    ensures r.Success? ==> |r.value| == |raws| && forall i :: 0 <= i < |raws| ==> r.value[i] == BuildModel(raws[i])
  {
    var models: seq<ModelConfig> := [];
    for i := 0 to |raws|
      invariant ModelsNamed(raws[..i])
      invariant |models| == i
      invariant forall j :: 0 <= j < i ==> raws[j].name.Some? && models[j] == BuildModel(raws[j])
    {
      if raws[i].name.None? {
        return Failure("KeyError: 'name'");
      }
      models := models + [BuildModel(raws[i])];
    }
    TakeAll(raws);
    return Success(models);
  }

  /**
   * The state of `_parse_platforms` after the entries `entries`: the enabled
   * ones kept in order under their keys, each built from its entry.
   */
  ghost predicate Parsed(entries: seq<(string, RawPlatform)>, platforms: map<string, PlatformConfig>, platformNames: seq<string>) {
    && Distinct(platformNames)
    && (forall n :: n in platforms <==> n in platformNames)
    && (forall n :: n in platforms ==> platforms[n].name == n)
    && EnabledModelsNamed(entries)
    && platformNames == EnabledNames(entries)
    && (forall j :: 0 <= j < |entries| && Enabled(entries[j].1) ==>
          ModelsNamed(entries[j].1.models.GetOr([])) &&
          platforms[entries[j].0] == BuildPlatform(entries[j].0, entries[j].1, ModelsOf(entries[j].1)))
  }

  lemma EnabledNamesSnoc(entries: seq<(string, RawPlatform)>, e: (string, RawPlatform))
    ensures EnabledNames(entries + [e]) == if Enabled(e.1) then EnabledNames(entries) + [e.0] else EnabledNames(entries)
  {
    assert (entries + [e])[..|entries|] == entries;
  }

  /** A disabled entry is passed over. */
  lemma ParseSkip(entries: seq<(string, RawPlatform)>, i: int, platforms: map<string, PlatformConfig>, platformNames: seq<string>)
    requires 0 <= i < |entries| && !Enabled(entries[i].1)
    requires Parsed(entries[..i], platforms, platformNames)
    ensures Parsed(entries[..i + 1], platforms, platformNames)
  {
    TakeSnoc(entries, i);
    EnabledNamesSnoc(entries[..i], entries[i]);
  }

  /** An enabled entry with a nameless model raises: the whole prefix up to it does not have named models. */
  lemma ParseFails(entries: seq<(string, RawPlatform)>, i: int)
    requires 0 <= i < |entries| && Enabled(entries[i].1) && !ModelsNamed(entries[i].1.models.GetOr([]))
    ensures !EnabledModelsNamed(entries)
  {
  }

  /** An enabled entry with named models is built and kept under its key, which is new. */
  lemma ParseKeep(entries: seq<(string, RawPlatform)>, i: int,
                  platforms: map<string, PlatformConfig>, platformNames: seq<string>,
                  platforms': map<string, PlatformConfig>, platformNames': seq<string>)
    requires KeysDistinct(entries)
    requires 0 <= i < |entries| && Enabled(entries[i].1) && ModelsNamed(entries[i].1.models.GetOr([]))
    requires Parsed(entries[..i], platforms, platformNames)
    requires platforms' == platforms[entries[i].0 := BuildPlatform(entries[i].0, entries[i].1, ModelsOf(entries[i].1))]
    requires platformNames' == platformNames + [entries[i].0]
    ensures Parsed(entries[..i + 1], platforms', platformNames')
  {
    var p, e := entries[..i], entries[i];
    TakeSnoc(entries, i);
    EnabledNamesSnoc(p, e);
    assert e.0 !in platformNames;
    DistinctSnoc(platformNames, e.0);
    KeepOthers(p, e, platforms, platforms');
  }

  /** Keeping a new key leaves the platforms of the earlier entries as they were. */
  lemma KeepOthers(p: seq<(string, RawPlatform)>, e: (string, RawPlatform),
                   platforms: map<string, PlatformConfig>, platforms': map<string, PlatformConfig>)
    requires forall j :: 0 <= j < |p| ==> p[j].0 != e.0
    requires Enabled(e.1) && ModelsNamed(e.1.models.GetOr([]))
    requires forall j :: 0 <= j < |p| && Enabled(p[j].1) ==>
      ModelsNamed(p[j].1.models.GetOr([])) && p[j].0 in platforms &&
      platforms[p[j].0] == BuildPlatform(p[j].0, p[j].1, ModelsOf(p[j].1))
    requires platforms' == platforms[e.0 := BuildPlatform(e.0, e.1, ModelsOf(e.1))]
    ensures var q := p + [e];
      forall j :: 0 <= j < |q| && Enabled(q[j].1) ==>
      ModelsNamed(q[j].1.models.GetOr([])) &&
      platforms'[q[j].0] == BuildPlatform(q[j].0, q[j].1, ModelsOf(q[j].1))
  {
    var q := p + [e];
    forall j | 0 <= j < |q| && Enabled(q[j].1)
      ensures ModelsNamed(q[j].1.models.GetOr([])) && platforms'[q[j].0] == BuildPlatform(q[j].0, q[j].1, ModelsOf(q[j].1))
    {
      if j < |p| {
        assert q[j] == p[j];
      }
    }
  }

  class ConfigManager {
    /** The parsed document, or `None` when the file does not exist. */
    var config: Option<RawConfig>
    /** `self.platforms`: the kept platforms by name ... */
    var platforms: map<string, PlatformConfig>
    /** ... and that dict's key order. */
    var platformNames: seq<string>

    ghost predicate Valid()
      reads this
    {
      && Distinct(platformNames)
      && (forall n :: n in platforms <==> n in platformNames)
      && (forall n :: n in platforms ==> platforms[n].name == n)
    }

    /** `__init__` up to `load_config`: nothing parsed yet. */
    constructor (source: Option<RawConfig>)
      ensures config == source && platforms == map[] && platformNames == []
      ensures Valid()
    {
      config := source;
      platforms := map[];
      platformNames := [];
    }

    /**
     * `_parse_platforms`: keeps the enabled entries in document order with
     * their defaults filled in, or raises the KeyError of the first enabled
     * platform with a nameless model.
     */
    method ParsePlatforms() returns (outcome: Outcome)
      requires config.Some? && WellFormed(config.value)
      requires platforms == map[] && platformNames == []
      modifies this
      ensures config == old(config)
      ensures Valid()
      ensures var entries := config.value.platforms.GetOr([]);
        && (outcome.Pass? <==> EnabledModelsNamed(entries))
        && (outcome.Fail? ==> outcome.error == "KeyError: 'name'")
        && (outcome.Pass? ==> platformNames == EnabledNames(entries))
        && (outcome.Pass? ==> forall i :: 0 <= i < |entries| && Enabled(entries[i].1) ==>
              platforms[entries[i].0] == BuildPlatform(entries[i].0, entries[i].1, ModelsOf(entries[i].1)))
    {
      var entries := config.value.platforms.GetOr([]);
      for i := 0 to |entries|
        invariant config == old(config)
        invariant Parsed(entries[..i], platforms, platformNames)
      {
        var (name, raw) := entries[i];
        ghost var platforms0, platformNames0 := platforms, platformNames;
        if !Enabled(raw) {
          ParseSkip(entries, i, platforms, platformNames);
          continue;
        }
        var models := ParseModels(raw.models.GetOr([]));
        if models.Failure? {
          ParseFails(entries, i);
          return Fail(models.error);
        }
        assert models.value == ModelsOf(raw);
        platforms := platforms[name := BuildPlatform(name, raw, models.value)];
        platformNames := platformNames + [name];
        ParseKeep(entries, i, platforms0, platformNames0, platforms, platformNames);
      }
      TakeAll(entries);
      return Pass;
    }

    /** `get_platform_config`: the kept platform of that name, `None` for unknown or disabled names. */
    function GetPlatformConfig(name: string): (r: Option<PlatformConfig>)
      reads this
      requires Valid()
      ensures r.Some? <==> name in platformNames
      ensures r.Some? ==> r.value == platforms[name] && r.value.name == name
    {
      if name in platforms then Some(platforms[name]) else None
    }

    /** `get_enabled_platforms`: every kept name once, in document order. */
    function GetEnabledPlatforms(): (r: seq<string>)
      reads this
      requires Valid()
      ensures r == platformNames
      ensures Distinct(r)
      ensures forall n :: n in r <==> n in platforms
    {
      platformNames
    }

    /**
     * `get_test_prompts`: the `test_prompts` list, empty when either section is
     * missing; raises (AttributeError on `None`) when no file was loaded.
     */
    function GetTestPrompts(): (r: Result<seq<RawPrompt>>)
      reads this
      ensures r.Failure? <==> config.None?
      ensures config.Some? && (config.value.testSettings.None? || config.value.testSettings.value.testPrompts.None?)
        ==> r == Success([])
      ensures config.Some? && config.value.testSettings.Some? && config.value.testSettings.value.testPrompts.Some?
        ==> r == Success(config.value.testSettings.value.testPrompts.value)
    {
      match config
      case None => Failure(NoConfigError)
      case Some(c) => Success(c.testSettings.GetOr(TestSettings(None, None)).testPrompts.GetOr([]))
    }

    /** `get_test_settings`: the `test_settings` section, empty when missing; raises when no file was loaded. */
    function GetTestSettings(): (r: Result<TestSettings>)
      reads this
      ensures r.Failure? <==> config.None?
      ensures config.Some? && config.value.testSettings.None? ==> r == Success(TestSettings(None, None))
      ensures config.Some? && config.value.testSettings.Some? ==> r == Success(config.value.testSettings.value)
    {
      match config
      case None => Failure(NoConfigError)
      case Some(c) => Success(c.testSettings.GetOr(TestSettings(None, None)))
    }
  }

  const NoConfigError: string := "AttributeError: 'NoneType' object has no attribute 'get'"

  /**
   * `ConfigManager(config_path)`: a missing file (`None`) leaves no platforms;
   * a file is parsed, and a KeyError while parsing aborts construction.
   */
  method Load(source: Option<RawConfig>) returns (r: Result<ConfigManager>)
    requires source.Some? ==> WellFormed(source.value)
    ensures r.Success? ==> fresh(r.value) && r.value.Valid() && r.value.config == source
    ensures source.None? ==> r.Success? && r.value.platformNames == []
    ensures source.Some? ==> (r.Success? <==> EnabledModelsNamed(source.value.platforms.GetOr([])))
    ensures source.Some? && r.Success? ==> r.value.platformNames == EnabledNames(source.value.platforms.GetOr([]))
    ensures source.Some? && r.Success? ==>
      var entries := source.value.platforms.GetOr([]);
      forall i :: 0 <= i < |entries| && Enabled(entries[i].1) ==>
        && entries[i].0 in r.value.platforms
        && r.value.platforms[entries[i].0] == BuildPlatform(entries[i].0, entries[i].1, ModelsOf(entries[i].1))
  {
    var cm := new ConfigManager(source);
    if source.None? {
      return Success(cm);
    }
    var outcome := cm.ParsePlatforms();
    if outcome.Fail? {
      return Failure(outcome.error);
    }
    return Success(cm);
  }
}
