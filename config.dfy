/**
 * The configuration manager: a dictionary of settings chosen once at
 * construction, read by getters that never change it.
 */
module Config {
  import opened Wrappers

  /** The kinds of value the configuration dictionary holds. */
  datatype Value =
    | Str(s: string)
    | Int(i: int)
    | Names(items: seq<string>)
    | Table(entries: map<string, int>)

  type Dict = map<string, Value>

  /** The exceptions a lookup can raise. */
  datatype ConfigError =
    | KeyError(key: string)
    | AttributeError(key: string)
    | TypeError(key: string)

  datatype ConfigManager = ConfigManager(config: Dict)

  const DefaultPlatforms: seq<string> :=
    ["YouTube", "X", "Facebook", "LinkedIn", "Patreon", "Medium", "Ko-fi", "Blog"]

  const DefaultRequirements: map<string, int> :=
    map["Medium" := 1000, "Patreon" := 800, "Ko-fi" := 300, "Blog" := 700, "LinkedIn" := 600]

  const DefaultConfig: Dict := map[
    "input_file" := Str("/content/social-media-generator/input/Names.xlsx"),
    "output_dir" := Str("outputs"),
    "platforms" := Names(DefaultPlatforms),
    "openai_key" := Str("YOUR-OPENAI-API-KEY"),
    "model" := Str("gpt-4"),
    "max_figures" := Int(5),
    "min_text_length" := Int(500),
    "platform_requirements" := Table(DefaultRequirements),
    "timeout" := Int(30),
    "x_char_limit" := Int(280)
  ]

  /** `ConfigManager(config)`: `config or DEFAULT_CONFIG`, so a missing or empty dictionary selects the defaults. */
  function NewConfigManager(config: Option<Dict>): (cm: ConfigManager)
    ensures cm.config != map[]
    ensures config == None || config == Some(map[]) ==> cm.config == DefaultConfig
    ensures config.Some? && config.value != map[] ==> cm.config == config.value
  {
    if config == None || config.value == map[] then
      assert "output_dir" in DefaultConfig;
      ConfigManager(DefaultConfig)
    else ConfigManager(config.value)
  }

  /** `self.config[key]`: the stored value as it is, or a KeyError. */
  function Lookup(cm: ConfigManager, key: string): (r: Result<Value, ConfigError>)
    ensures r.Success? <==> key in cm.config
    ensures r.Success? ==> r.value == cm.config[key]
    ensures r.Failure? ==> r.error == KeyError(key)
  {
    if key in cm.config then Success(cm.config[key]) else Failure(KeyError(key))
  }

  /**
   * `get_platform_requirement`: the platform's override if the requirements
   * table has one, else `min_text_length`. Python evaluates the default
   * argument of `.get` before the lookup, so a missing `min_text_length`
   * fails even for a platform that has an override.
   */
  function GetPlatformRequirement(cm: ConfigManager, platform: string): (r: Result<Value, ConfigError>)
    ensures r.Success? <==>
      && "platform_requirements" in cm.config
      && cm.config["platform_requirements"].Table?
      && "min_text_length" in cm.config
    ensures r.Success? && platform in cm.config["platform_requirements"].entries ==>
      r.value == Int(cm.config["platform_requirements"].entries[platform])
    ensures r.Success? && platform !in cm.config["platform_requirements"].entries ==>
      r.value == cm.config["min_text_length"]
  {
    match Lookup(cm, "platform_requirements")
    case Failure(e) => Failure(e)
    case Success(requirements) =>
      if !requirements.Table? then Failure(AttributeError("platform_requirements"))
      else
        match Lookup(cm, "min_text_length")
        case Failure(e) => Failure(e)
        case Success(fallback) =>
          Success(if platform in requirements.entries then Int(requirements.entries[platform]) else fallback)
  }

  /** `get_platforms`. */
  function GetPlatforms(cm: ConfigManager): (r: Result<Value, ConfigError>)
    ensures r.Success? <==> "platforms" in cm.config
    ensures r.Success? ==> r.value == cm.config["platforms"]
  {
    Lookup(cm, "platforms")
  }

  /** `get_output_dir`: `Path(...)` of the stored string; anything else is a TypeError. */
  function GetOutputDir(cm: ConfigManager): (r: Result<string, ConfigError>)
    ensures r.Success? <==> "output_dir" in cm.config && cm.config["output_dir"].Str?
    ensures r.Success? ==> r.value == cm.config["output_dir"].s
  {
    match Lookup(cm, "output_dir")
    case Failure(e) => Failure(e)
    case Success(v) => if v.Str? then Success(v.s) else Failure(TypeError("output_dir"))
  }

  /** `get_input_file`. */
  function GetInputFile(cm: ConfigManager): (r: Result<Value, ConfigError>)
    ensures r.Success? <==> "input_file" in cm.config
    ensures r.Success? ==> r.value == cm.config["input_file"]
  {
    Lookup(cm, "input_file")
  }

  /** `get_max_figures`. */
  function GetMaxFigures(cm: ConfigManager): (r: Result<Value, ConfigError>)
    ensures r.Success? <==> "max_figures" in cm.config
    ensures r.Success? ==> r.value == cm.config["max_figures"]
  {
    Lookup(cm, "max_figures")
  }

  /** `get_openai_key`. */
  function GetOpenaiKey(cm: ConfigManager): (r: Result<Value, ConfigError>)
    ensures r.Success? <==> "openai_key" in cm.config
    ensures r.Success? ==> r.value == cm.config["openai_key"]
  {
    Lookup(cm, "openai_key")
  }

  /** `get_timeout`. */
  function GetTimeout(cm: ConfigManager): (r: Result<Value, ConfigError>)
    ensures r.Success? <==> "timeout" in cm.config
    ensures r.Success? ==> r.value == cm.config["timeout"]
  {
    Lookup(cm, "timeout")
  }

  /** `get_model`. */
  function GetModel(cm: ConfigManager): (r: Result<Value, ConfigError>)
    ensures r.Success? <==> "model" in cm.config
    ensures r.Success? ==> r.value == cm.config["model"]
  {
    Lookup(cm, "model")
  }

  /** `get_x_char_limit`. */
  function GetXCharLimit(cm: ConfigManager): (r: Result<Value, ConfigError>)
    ensures r.Success? <==> "x_char_limit" in cm.config
    ensures r.Success? ==> r.value == cm.config["x_char_limit"]
  {
    Lookup(cm, "x_char_limit")
  }

  /** The default requirements: five overrides, and 500 words for every other platform. */
  lemma DefaultPlatformRequirements(platform: string)
    ensures GetPlatformRequirement(NewConfigManager(None), platform) ==
      Success(Int(if platform in DefaultRequirements then DefaultRequirements[platform] else 500))
    ensures GetPlatformRequirement(NewConfigManager(None), "Medium") == Success(Int(1000))
    ensures GetPlatformRequirement(NewConfigManager(None), "Patreon") == Success(Int(800))
    ensures GetPlatformRequirement(NewConfigManager(None), "Ko-fi") == Success(Int(300))
    ensures GetPlatformRequirement(NewConfigManager(None), "Blog") == Success(Int(700))
    ensures GetPlatformRequirement(NewConfigManager(None), "LinkedIn") == Success(Int(600))
    ensures GetPlatformRequirement(NewConfigManager(None), "YouTube") == Success(Int(500))
    ensures GetPlatformRequirement(NewConfigManager(None), "X") == Success(Int(500))
    ensures GetPlatformRequirement(NewConfigManager(None), "Facebook") == Success(Int(500))
  {
  }

  /** The default platform list: eight names in a fixed order, no name twice. */
  lemma DefaultPlatformList()
    ensures GetPlatforms(NewConfigManager(None)) == Success(Names(DefaultPlatforms))
    ensures |DefaultPlatforms| == 8
    ensures forall i, j :: 0 <= i < j < |DefaultPlatforms| ==> DefaultPlatforms[i] != DefaultPlatforms[j]
  {
  }
}
