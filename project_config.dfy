/** `PluginInfo` and `ProjectConfig` of src/wpe/project_config.py: the parsed
    project configuration (wpe_project.toml), its defaulting accessors, and the
    `<PlatformSupport>` lines of the plugin XML. */
module Project {
  import opened Wrappers
  import opened Errors
  import opened Strings
  import opened OrderedDict
  import opened Schema

  // ---------------------------------------------------------------------
  // PluginInfo

  /** The `plugin_info` table. Only `platform_support` is read here; `None`
      stands for an absent key. */
  datatype PluginInfo = PluginInfo(platformSupport: Option<Table<Table<Value>>>)

  /** The lines used when no platform is configured. */
  const DefaultPlatformSupport: seq<string> := [
    "<Platform Name=\"Any\">",
    "  <CanBeInsertOnBusses>true</CanBeInsertOnBusses>",
    "  <CanBeInsertOnAudioObjects>true</CanBeInsertOnAudioObjects>",
    "  <CanBeRendered>true</CanBeRendered>",
    "</Platform>"]

  function OpenPlatform(name: string): string
  {
    "<Platform Name=\"" + name + "\">"
  }

  const ClosePlatform := "</Platform>"

  /** One setting of a platform: the value as `str(value).lower()`. */
  function EntryLine(key: string, value: Value): string
  {
    "  <" + key + ">" + Lower(Str(value)) + "</" + key + ">"
  }

  /** The setting lines of one platform from its `j`-th key on. */
  function EntryLines(config: Table<Value>, j: nat): (r: seq<string>)
    requires j <= |config.keys|
    ensures |r| == |config.keys| - j
    ensures forall k :: j <= k < |config.keys| ==> r[k - j] == EntryLine(config.keys[k], config.items[config.keys[k]])
    decreases |config.keys| - j
  {
    if j == |config.keys| then []
    else [EntryLine(config.keys[j], config.items[config.keys[j]])] + EntryLines(config, j + 1)
  }

  /** The block of the `i`-th platform. */
  function PlatformBlock(platforms: Table<Table<Value>>, i: nat): seq<string>
    requires i < |platforms.keys|
  {
    var config := platforms.items[platforms.keys[i]];
    [OpenPlatform(platforms.keys[i])] + EntryLines(config, 0) + [ClosePlatform]
  }

  /** The blocks of the platforms from the `i`-th on, in table order. */
  function PlatformBlocks(platforms: Table<Table<Value>>, i: nat): seq<string>
    requires i <= |platforms.keys|
    decreases |platforms.keys| - i
  {
    if i == |platforms.keys| then [] else PlatformBlock(platforms, i) + PlatformBlocks(platforms, i + 1)
  }

  /** What `generate_platform_support` returns: the default block when the
      table is empty, else one block per platform. A missing
      `platform_support` key is a lookup error. */
  function PlatformSupport(info: PluginInfo): Result<seq<string>, Error>
  {
    match info.platformSupport
    case None => Err(MissingKey("platform_support"))
    case Some(platforms) =>
      if platforms.keys == [] then Ok(DefaultPlatformSupport) else Ok(PlatformBlocks(platforms, 0))
  }

  /** `generate_platform_support()`: appends the opening tag, one line per
      setting and the closing tag of every platform. */
  method GeneratePlatformSupport(info: PluginInfo) returns (r: Result<seq<string>, Error>)
    ensures r == PlatformSupport(info)
  {
    if info.platformSupport.None? {
      return Err(MissingKey("platform_support"));
    }
    var platforms := info.platformSupport.value;
    if platforms.keys == [] {
      return Ok(DefaultPlatformSupport);
    }
    var lines: seq<string> := [];
    for i := 0 to |platforms.keys|
      invariant lines + PlatformBlocks(platforms, i) == PlatformBlocks(platforms, 0)
    {
      var name := platforms.keys[i];
      var withSettings := AppendEntryLines(lines + [OpenPlatform(name)], platforms.items[name]);
      BlockDone(lines, withSettings + [ClosePlatform], platforms, i);
      lines := withSettings + [ClosePlatform];
    }
    assert lines + [] == lines;
    return Ok(lines);
  }

  /** The inner loop of `generate_platform_support`: one line per setting of a
      platform, appended in table order. */
  method AppendEntryLines(lines: seq<string>, config: Table<Value>) returns (r: seq<string>)
    ensures r == lines + EntryLines(config, 0)
  {
    r := lines;
    for j := 0 to |config.keys|
      invariant r + EntryLines(config, j) == lines + EntryLines(config, 0)
    {
      var key := config.keys[j];
      AppendOne(r, EntryLine(key, config.items[key]), EntryLines(config, j + 1));
      r := r + [EntryLine(key, config.items[key])];
    }
    assert r + [] == r;
  }

  /** Appending one line moves it from the remaining work to the lines so far. */
  lemma AppendOne(lines: seq<string>, x: string, rest: seq<string>)
    ensures (lines + [x]) + rest == lines + ([x] + rest)
  {
  }

  lemma BlockDone(before: seq<string>, lines: seq<string>, platforms: Table<Table<Value>>, i: nat)
    requires i < |platforms.keys|
    requires var config := platforms.items[platforms.keys[i]];
      lines == before + [OpenPlatform(platforms.keys[i])] + EntryLines(config, 0) + [ClosePlatform]
    ensures lines + PlatformBlocks(platforms, i + 1) == before + PlatformBlocks(platforms, i)
  {
  }

  /** Summed over the platforms from the `i`-th on: two tag lines plus one line per setting. */
  function LineCount(platforms: Table<Table<Value>>, i: nat): nat
    requires i <= |platforms.keys|
    decreases |platforms.keys| - i
  {
    if i == |platforms.keys| then 0
    else 2 + |platforms.items[platforms.keys[i]].keys| + LineCount(platforms, i + 1)
  }

  /** The length of the rendered platform support is the sum, over the
      platforms, of 2 plus the number of settings. */
  lemma {:induction false} PlatformBlocksLength(platforms: Table<Table<Value>>, i: nat)
    requires i <= |platforms.keys|
    ensures |PlatformBlocks(platforms, i)| == LineCount(platforms, i)
    decreases |platforms.keys| - i
  {
    if i < |platforms.keys| {
      PlatformBlocksLength(platforms, i + 1);
    }
  }

  /** A platform's block opens with its tag, closes with `</Platform>`, and its
      `j`-th line in between renders the `j`-th setting. */
  lemma PlatformBlockShape(platforms: Table<Table<Value>>, i: nat, j: nat)
    requires i < |platforms.keys|
    requires j < |platforms.items[platforms.keys[i]].keys|
    ensures var b := PlatformBlock(platforms, i);
      var config := platforms.items[platforms.keys[i]];
      && |b| == |config.keys| + 2
      && b[0] == OpenPlatform(platforms.keys[i])
      && b[|b| - 1] == ClosePlatform
      && b[j + 1] == EntryLine(config.keys[j], config.items[config.keys[j]])
  {
    var config := platforms.items[platforms.keys[i]];
    EntryLinesAt(config, 0, j);
  }

  lemma {:induction false} EntryLinesAt(config: Table<Value>, from: nat, j: nat)
    requires from <= j < |config.keys|
    ensures EntryLines(config, from)[j - from] == EntryLine(config.keys[j], config.items[config.keys[j]])
    decreases j - from
  {
    if from < j {
      EntryLinesAt(config, from + 1, j);
    }
  }

  /** A boolean setting renders as the C++/XML literal `true` or `false`. */
  lemma EntryLineBool(key: string, b: bool)
    ensures EntryLine(key, BoolValue(b)) == "  <" + key + ">" + (if b then "true" else "false") + "</" + key + ">"
  {
    LowerStrBool(b);
  }

  /** An empty `platform_support` gives exactly the default block. */
  lemma EmptyPlatformSupport()
    ensures PlatformSupport(PluginInfo(Some(Empty()))) == Ok(DefaultPlatformSupport)
    ensures |DefaultPlatformSupport| == 5
  {
  }

  // ---------------------------------------------------------------------
  // ProjectConfig

  /** The `[parameters]` section; `None` stands for an absent key. */
  datatype ParametersSection = ParametersSection(
    defines: Option<Table<Define>>,
    templates: Option<Table<Define>>,
    innerTypes: Option<Table<Table<Define>>>,
    fromTemplates: Option<seq<TemplateInstance>>,
    fromInnerTypes: Option<seq<InnerTypeInstance>>)

  /** The `[project]` section. */
  datatype ProjectSection = ProjectSection(version: Option<Value>)

  /** A loaded project configuration document. */
  datatype ProjectConfig = ProjectConfig(
    pluginInfo: Option<PluginInfo>,
    parameters: Option<ParametersSection>,
    project: Option<ProjectSection>)

  /** `ProjectConfig.load()`. `parsed` holds the parsed document of every
      configuration file that exists: the project file is preferred, the
      deprecated parameter file is the fallback, and with neither the load
      raises FileNotFoundError naming the project file. */
  function LoadConfig(parsed: map<string, ProjectConfig>, projConfig: string, parameterConfig: string): (r: Result<ProjectConfig, Error>)
    ensures r.Ok? <==> projConfig in parsed || parameterConfig in parsed
    ensures r.Err? ==> r.error == FileNotFound(projConfig)
    ensures projConfig in parsed ==> r == Ok(parsed[projConfig])
    ensures projConfig !in parsed && parameterConfig in parsed ==> r == Ok(parsed[parameterConfig])
  {
    if projConfig in parsed then Ok(parsed[projConfig])
    else if parameterConfig in parsed then Ok(parsed[parameterConfig])
    else Err(FileNotFound(projConfig))
  }

  /** `plugin_info()` on the object's `config` attribute, which
      `ProjectConfig.__init__` sets to None and only `load()` replaces:
      indexing None raises TypeError. */
  function PluginInfoOfState(config: Option<ProjectConfig>): (r: Result<PluginInfo, Error>)
    ensures config.None? ==> r == Err(NotSubscriptable("plugin_info"))
    ensures config.Some? ==> r == PluginInfoOf(config.value)
  {
    match config
    case None => Err(NotSubscriptable("plugin_info"))
    case Some(c) => PluginInfoOf(c)
  }

  /** `plugin_info()` */
  function PluginInfoOf(c: ProjectConfig): (r: Result<PluginInfo, Error>)
    ensures r.Ok? <==> c.pluginInfo.Some?
    ensures r.Err? ==> r.error == MissingKey("plugin_info")
  {
    match c.pluginInfo
    case None => Err(MissingKey("plugin_info"))
    case Some(info) => Ok(info)
  }

  /** `has_parameters()` */
  predicate HasParameters(c: ProjectConfig)
  {
    c.parameters.Some?
  }

  /** `parameter_defines()` */
  function ParameterDefines(c: ProjectConfig): (r: Result<Table<Define>, Error>)
  {
    if c.parameters.None? then Err(MissingKey("parameters")) else Ok(c.parameters.value.defines.GetOr(Empty()))
  }

  /** `parameter_templates()` */
  function ParameterTemplates(c: ProjectConfig): (r: Result<Table<Define>, Error>)
  {
    if c.parameters.None? then Err(MissingKey("parameters")) else Ok(c.parameters.value.templates.GetOr(Empty()))
  }

  /** `parameter_inner_types()` */
  function ParameterInnerTypes(c: ProjectConfig): (r: Result<Table<Table<Define>>, Error>)
  {
    if c.parameters.None? then Err(MissingKey("parameters")) else Ok(c.parameters.value.innerTypes.GetOr(Empty()))
  }

  /** `parameter_from_templates()` */
  function ParameterFromTemplates(c: ProjectConfig): (r: Result<seq<TemplateInstance>, Error>)
  {
    if c.parameters.None? then Err(MissingKey("parameters")) else Ok(c.parameters.value.fromTemplates.GetOr([]))
  }

  /** `parameter_from_inner_types()` */
  function ParameterFromInnerTypes(c: ProjectConfig): (r: Result<seq<InnerTypeInstance>, Error>)
  {
    if c.parameters.None? then Err(MissingKey("parameters")) else Ok(c.parameters.value.fromInnerTypes.GetOr([]))
  }

  /** The parameter accessors succeed exactly when the configuration has a
      `parameters` section, and a key missing from that section reads as an
      empty table or list. */
  lemma ParameterAccessors(c: ProjectConfig)
    ensures HasParameters(c) <==> ParameterDefines(c).Ok?
    ensures HasParameters(c) <==> ParameterTemplates(c).Ok?
    ensures HasParameters(c) <==> ParameterInnerTypes(c).Ok?
    ensures HasParameters(c) <==> ParameterFromTemplates(c).Ok?
    ensures HasParameters(c) <==> ParameterFromInnerTypes(c).Ok?
    ensures !HasParameters(c) ==> ParameterDefines(c) == Err(MissingKey("parameters"))
    ensures HasParameters(c) && c.parameters.value.defines.None? ==> ParameterDefines(c) == Ok(Empty())
    ensures HasParameters(c) && c.parameters.value.templates.None? ==> ParameterTemplates(c) == Ok(Empty())
    ensures HasParameters(c) && c.parameters.value.innerTypes.None? ==> ParameterInnerTypes(c) == Ok(Empty())
    ensures HasParameters(c) && c.parameters.value.fromTemplates.None? ==> ParameterFromTemplates(c) == Ok([])
    ensures HasParameters(c) && c.parameters.value.fromInnerTypes.None? ==> ParameterFromInnerTypes(c) == Ok([])
    ensures HasParameters(c) && c.parameters.value.defines.Some? ==>
              ParameterDefines(c) == Ok(c.parameters.value.defines.value)
  {
  }

  /** `version()`: `config['project']['version']`. */
  function Version(c: ProjectConfig): (r: Result<Value, Error>)
    ensures r.Ok? <==> c.project.Some? && c.project.value.version.Some?
    ensures c.project.None? ==> r == Err(MissingKey("project"))
    ensures c.project.Some? && c.project.value.version.None? ==> r == Err(MissingKey("version"))
    ensures r.Ok? ==> r.value == c.project.value.version.value
  {
    match c.project
    case None => Err(MissingKey("project"))
    case Some(p) =>
      match p.version
      case None => Err(MissingKey("version"))
      case Some(v) => Ok(v)
  }
}
