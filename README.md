# wp-enhanced parameter generator, in Dafny

wp-enhanced is a tool for developing Wwise audio plugins. This project models
its core: the code that reads a plugin's parameter definitions from
`wpe_project.toml` and generates the C++, XML and Win32 resource text. It also
models the small helpers around that code.

- **Parameter catalog.** This is the `ParameterGenerator` of
  `src/wpe/parameter.py`, modelled as a class in `generator.dfy`. It fills its
  ordered `parameters` and `innerTypes` tables in three registration passes:
  - the direct defines;
  - the template instances;
  - the inner-type instances.

  It then numbers the parameters, derives their names and links their
  dependencies by name. The pure specification of these steps is the
  `Catalog` module (`catalog.dfy`).
- **Parameters.** `Parameter` and `InnerType` (`parameter.dfy`, module
  `Parameters`). This covers construction and validation, name derivation,
  and the text every parameter contributes:
  - the id, declaration, init, bank read/write and dispatch lines;
  - the property names;
  - the XML property fragment;
  - the Win32 controls.
- **Emitters.** Every `__generate_*` method is a loop method of the class. Each
  is proved against a function of the `Emitters` module (`emitters.dfy`),
  whose properties are proved as lemmas:
  - ordering;
  - de-duplication of declarations;
  - bool-only entries;
  - distinct resource ids;
  - the first error.
- **Project configuration.** The defaulting accessors of `ProjectConfig` and
  the `<PlatformSupport>` rendering of `PluginInfo` (`project_config.dfy`).
- **Helpers.** The list, path and template-copy helpers of `src/wpe/util.py`
  (`util.dfy`, on top of `strings.dfy` and `paths.dfy`).
- **Global settings.** The user-wide `GlobalConfig`, a class over an ordered
  table (`global_config.dfy`).
- **Deployment.** Package selection and the renaming of archive members
  (`deployment.dfy`).
- **Test allocator.** The allocation-tracking `TestMemAlloc` used by the
  plugin tests (`mem_alloc.dfy`).

Python dictionaries keep insertion order. They are modelled by
`OrderedDict.Table`: a sequence of distinct keys plus a map. Writing an
existing key keeps its position, and a new key goes to the end. An exception
the source raises (`KeyError`, `ValueError`, `FileNotFoundError`) is an `Err`
of the `Errors.Error` datatype.

Some computations the source delegates to code outside this model. Each one
is a parameter of the operations that use it:
- case conversion (`Parameters.Casing`);
- ElementTree serialisation of a dependency element (`render`);
- keyword substitution in a copied file (`substitute`);
- the premake library suffix (`premakeLibSuffix`);
- Python's `float()` (`floatRepr`);
- the pointers returned by the C allocation functions (`p`).

Files, the TOML parser and the Lua runtime are not modelled. Their results
are values: a parsed configuration is a `ProjectConfig`, a file system is a
map from path to content.

## Model

| member | source | states |
|---|---|---|
| Parameters.ParseKind | src/wpe/parameter.py:85-87 | a type is accepted exactly when it is one of float/int/uint/bool, and the accepted kind is spelled that way |
| Parameters.ParseKindRoundTrip | src/wpe/parameter.py:19-24 | every kind is recognised under its own name |
| Parameters.Create | src/wpe/parameter.py:85-90 | creation succeeds exactly when `type` and `default_value` are present, the type is supported, and the rtpc type is empty or one of Additive/Multiplicative/Exclusive/Boolean. Each failure is the source's error, in the source's order. A created parameter carries every entry of the definition, including its data meaning and description, with the documented defaults for absent keys, and has not been numbered or named yet |
| Parameters.GenerateNames | src/wpe/parameter.py:92-104 | deriving names always gives names and never changes the name, id, dependencies or parent |
| Parameters.GenerateNamesShape | src/wpe/parameter.py:92-104 | only the default, the bounds, the display name and the names change. A bool's default becomes its lowercased text and its bounds become `false`/`true`. The id name is `PARAM_<NAME>_ID`. The bucket is InnerType exactly for a parameter with a parent, RTPC exactly for one without a parent but with an rtpc type, and NonRTPC otherwise |
| Parameters.GenerateNamesIdempotent | src/wpe/parameter.py:52-58 | deriving names again, as the struct definition does for its fields, changes nothing |
| Parameters.NameSpaceOfInstance | src/wpe/parameter.py:97-103 | an inner-type instance lives in the struct member named after its inner type and suffix; its variable name comes from its base name |
| Parameters.CreateEntries | src/wpe/parameter.py:44-50 | one creation outcome per entry of a definition table, in table order |
| Parameters.CreateInnerType | src/wpe/parameter.py:44-50 | a created inner type has the given name, the struct name in pascal case and one field per entry in table order. It fails with the first field's error |
| Parameters.FieldDeclarations | src/wpe/parameter.py:58-63 | the struct lists one member declaration per field, the `i`-th being the declaration of the `i`-th field after its names are derived |
| Parameters.InstanceDeclarationShared | src/wpe/parameter.py:129-132 | all fields of one inner-type instance declare the same struct member |
| Parameters.Access | src/wpe/parameter.py:140-146 | the dispatch arm reads an AkReal32 and casts exactly when the type is not float and the rtpc type is non-empty |
| Parameters.StrippedTypeName | src/wpe/parameter.py:154-157 | stripping 'A' and 'k' from the Wwise type name removes exactly its `Ak` prefix, and leaves `bool` whole |
| Parameters.StripAk | src/wpe/parameter.py:156 | a name starting with `Ak` followed by neither 'A' nor 'k' loses exactly those two characters |
| Parameters.XmlFormOf | src/wpe/parameter.py:233-242 | bools get the bool fragment. Floats, and ints/uints without enumeration but with both bounds, get the range fragment. Ints/uints with an enumeration get the enumeration fragment. The rest get the plain int fragment |
| Parameters.EnumOptionLines | src/wpe/parameter.py:219 | one option line per enumeration entry, the `i`-th giving the `i`-th entry's display name and value |
| Parameters.XmlPropertyLines | src/wpe/parameter.py:159-242 | every fragment starts with the property header |
| Parameters.XmlDependenciesBeforeClose | src/wpe/parameter.py:187-231 | every fragment except the plain one ends with the dependency element and then `</Property>` |
| Parameters.XmlEnumerationOptions | src/wpe/parameter.py:219-231 | the enumeration fragment has 11 fixed lines plus the options and the dependency lines. The options are listed in order inside the `<Enumeration>` element |
| Parameters.PlainIntFormIgnoresDependencies | src/wpe/parameter.py:209-218 | the plain int fragment carries no dependency element, whatever the dependencies |
| Parameters.RowsDisjoint | src/wpe/parameter.py:254-271 | at rows `18*id+6`, the caption and control of one parameter end before the next row starts |
| Parameters.Win32Controls | src/wpe/parameter.py:254-271 | a uint parameter raises the unsupported-control error. Every other parameter gets exactly two lines: the caption at row+2 and a control whose rectangle is at row `18*id+6`. The control is the `Button` checkbox for a bool, the `Combo` listing the options for an int with an enumeration, the `Spinner` with its bounds for an int without one, and the `SuperRange` for a float, each bound to `IDC_<property name>` |
| Schema.LowerStrBool | src/wpe/project_config.py:25 | `str(b).lower()` of a bool is the C++/XML literal |
| Schema.ApplyOverrideLaws | src/wpe/parameter.py:410-411 | an empty override leaves the template unchanged, applying an override twice is applying it once, and overriding an empty template gives the override |
| Schema.FormatSuffixPlain | src/wpe/parameter.py:413 | a dependency name without '%' is unchanged by the suffix substitution |
| Schema.FormatSuffixPlaceholder | src/wpe/parameter.py:413 | `%(suffix)s` between plain text is replaced by the suffix |
| Schema.FormatDependencies | src/wpe/parameter.py:412-413 | on success, every dependency name is substituted and every condition kept, in order. A failure is the substitution error of some dependency |
| Catalog.TemplateDefine | src/wpe/parameter.py:408-415 | the errors: a missing `template` key, an unknown template, or a missing suffix. On success the name is `{template}_{suffix}`, the definition is the template with every override entry written over it, and every dependency name has the suffix substituted. A failing substitution is the error |
| Catalog.TemplateParam | src/wpe/parameter.py:408-416 | the parameter a template instance registers is exactly `Create` of the instantiated definition under `{template}_{suffix}`, so a bad type or rtpc type in the merged definition is that creation error. An instantiation error is passed on |
| Catalog.TemplateResults | src/wpe/parameter.py:299-300 | one step per template instance, in list order |
| Catalog.PrefixNames | src/wpe/parameter.py:428 | each dependency name gets the prefix; conditions are kept |
| Catalog.InstanceFieldShape | src/wpe/parameter.py:418-434 | a missing suffix is an error. Otherwise the copy of a field fails exactly when a dependency name cannot be substituted. A successful copy is named `{inner}_{field}_{suffix}`, has the field as base name, the inner type as parent and the suffix set. Its default is the override when there is one. Each dependency name is `{inner}_` followed by the substituted name. Nothing else differs from the field |
| Catalog.InstanceResults | src/wpe/parameter.py:419-434 | a missing or unknown inner type is a lookup error; otherwise one step per field, in field order |
| Catalog.InnerTypeResults | src/wpe/parameter.py:301 | one inner-type creation per entry of `inner_types`, in table order |
| Catalog.InnerTypeNames | src/wpe/parameter.py:301 | each created inner type carries the name of its entry |
| Catalog.InnerTypesKeys | src/wpe/parameter.py:301 | the inner-type table has the keys of `inner_types`, in the same order |
| Catalog.InnerTypesItem | src/wpe/parameter.py:301 | each key of the inner-type table holds the inner type created from its entry |
| Catalog.DirectParamsOrder | src/wpe/parameter.py:297-300 | the direct parameters are one per define in table order, then one per template instance in list order |
| Catalog.RegistrationOrder | src/wpe/parameter.py:297-303 | registration order is the direct defines, then the template instances, then the fields of the inner-type instances |
| Catalog.RegisteredTable | src/wpe/parameter.py:298-303 | the keys are the registered names without repeats, each at its first registration. A key holds the parameter registered last under it, and a name registered again keeps its place |
| Catalog.MissingDependency | src/wpe/parameter.py:309-310 | no name is reported exactly when every dependency names a key; a reported name is not a key |
| Catalog.FinalizedAll | src/wpe/parameter.py:305-307 | the `i`-th parameter numbered `i` and named, for every key in order |
| Catalog.LinkStep | src/wpe/parameter.py:305-310 | during the final pass, the entry about to be handled is still the registered one, finalizing keeps its dependencies, and the search for a missing dependency stops at it exactly when it has one |
| Catalog.FirstUnresolvedStep | src/wpe/parameter.py:309-310 | the search for an unresolved dependency stops at a parameter exactly when that parameter has a missing dependency |
| Catalog.LinkSucceeds | src/wpe/parameter.py:309-310 | linking succeeds exactly when every dependency of every parameter names a key |
| Catalog.LinkFails | src/wpe/parameter.py:309-310 | a failed link reports the first missing dependency of the first parameter that has one |
| Catalog.LinkShape | src/wpe/parameter.py:305-307 | after linking the keys are unchanged, and the parameter under the `i`-th key is the registered one with id `i` and its names derived |
| Catalog.LinkLinked | src/wpe/parameter.py:305-310 | a successful link leaves the ids equal to the positions, every parameter named, and every dependency naming a parameter |
| Catalog.UnloadedConfigFails | src/wpe/parameter.py:289-292 | the plugin info read of the unloaded configuration fails, while the loaded document with plugin info and no parameters loads and keeps both tables |
| Catalog.LoadFresh | src/wpe/parameter.py:288-310 | on a fresh generator the parameter keys are the registered names in registration order, each at its first registration, and the ids are exactly 0..N-1 in that order |
| Generator.PutEntries | src/wpe/parameter.py:297-298 | the define loop stops at the first creation error; otherwise every created parameter is written under its name, in order |
| Generator.ParameterGenerator.constructor | src/wpe/parameter.py:275-282 | the generator starts with empty tables, no plugin info and no library suffix |
| Generator.ParameterGenerator.LoadParameterConfig | src/wpe/parameter.py:288-312 | for a loaded configuration document, the new state is the one `Catalog.Load` describes. A failure is the first error. Without a `parameters` section only the plugin info is taken. A successful load reads the suffix only when none was set, and leaves the table linked |
| Generator.ParameterGenerator.LoadParameterConfigFrom | src/wpe/parameter.py:288-312 | on a configuration object that was never loaded the plugin info read raises TypeError and nothing changes; on a loaded one the state is the one `Catalog.Load` describes |
| Generator.ParameterGenerator.LoadParameterConfigAsWritten | src/wpe/parameter.py:288-292 | the method as written always raises TypeError at `plugin_info()` and leaves the tables, plugin info and suffix unchanged |
| Generator.ParameterGenerator.LoadParameterConfigCorrected | src/wpe/parameter.py:288-312 | with `load()` called first: no configuration file gives FileNotFoundError and no change; otherwise the state `Catalog.Load` describes for the chosen file, linked on success |
| Generator.ParameterGenerator.Register | src/wpe/parameter.py:297-303 | the three registration passes write the registered parameters, in registration order, or stop at the first error |
| Generator.ParameterGenerator.RegisterDirect | src/wpe/parameter.py:297-300 | the direct defines, then the template instances, are written in order |
| Generator.ParameterGenerator.RegisterDefines | src/wpe/parameter.py:297-298 | one created parameter per define is written, in table order; nothing else changes |
| Generator.ParameterGenerator.RegisterFromTemplates | src/wpe/parameter.py:299-300 | one parameter per template instance is written, in list order; nothing else changes |
| Generator.ParameterGenerator.LoadWithTemplate | src/wpe/parameter.py:408-416 | the instance's parameter is written under `{template}_{suffix}`, or the instance's error is returned |
| Generator.ParameterGenerator.RegisterFromInnerTypes | src/wpe/parameter.py:302-303 | the fields of every inner-type instance are written, in order; nothing else changes |
| Generator.ParameterGenerator.LoadWithInnerType | src/wpe/parameter.py:418-434 | one parameter per field of the instance's inner type is written, in field order, or the first error is returned |
| Generator.ParameterGenerator.LinkParameters | src/wpe/parameter.py:305-310 | the final pass gives the linked table, or the first unresolved dependency |
| Generator.ParameterGenerator.FinalizeParameter | src/wpe/parameter.py:306-310 | one step numbers and names the `i`-th parameter and reports its first missing dependency |
| Generator.ParameterGenerator.LinkDependencies | src/wpe/parameter.py:309-310 | the dependency loop reports the first dependency whose name is not a key |
| Generator.ParameterGenerator.GetLibSuffix | src/wpe/parameter.py:314-317 | the premake suffix is taken only when no suffix is set |
| Generator.ParameterGenerator.GenerateIds | src/wpe/parameter.py:395-400 | one id line per parameter in key order, then the `NUM_PARAMS` line with the parameter count, all line-ended |
| Generator.ParameterGenerator.GenerateInnerTypes | src/wpe/parameter.py:402-406 | one struct definition per inner type, in table order |
| Generator.ParameterGenerator.GenerateDeclarations | src/wpe/parameter.py:436-443 | the declarations of the bucket's parameters in key order, with repeats removed at their first occurrence |
| Generator.ParameterGenerator.EachParameterLine | src/wpe/parameter.py:445-449 | one line per parameter, in key order |
| Generator.ParameterGenerator.GenerateInit | src/wpe/parameter.py:445-449 | one init line per parameter, in key order |
| Generator.ParameterGenerator.GenerateReadBankData | src/wpe/parameter.py:451-455 | one bank read per parameter, in key order |
| Generator.ParameterGenerator.GenerateSetParameter | src/wpe/parameter.py:457-461 | one dispatch arm per parameter, in key order |
| Generator.ParameterGenerator.GeneratePropertyNameDeclaration | src/wpe/parameter.py:463-467 | one property name declaration per parameter, in key order |
| Generator.ParameterGenerator.GeneratePropertyNameDefinition | src/wpe/parameter.py:469-473 | one property name definition per parameter, in key order |
| Generator.ParameterGenerator.GenerateWriteBankData | src/wpe/parameter.py:475-479 | one bank write per parameter, in key order |
| Generator.ParameterGenerator.GenerateXmlProperties | src/wpe/parameter.py:481-485 | the XML fragments of the parameters in key order, each indented by two |
| Generator.ParameterGenerator.GenerateWin32Controls | src/wpe/parameter.py:490-494 | the controls of every parameter in key order, or the error of the first uint parameter |
| Generator.ParameterGenerator.GenerateWin32Idc | src/wpe/parameter.py:496-500 | the `i`-th parameter gets resource id `i + 1001` |
| Generator.ParameterGenerator.GenerateWin32PropertyTable | src/wpe/parameter.py:502-508 | the entries of the bool parameters, in key order |
| Emitters.LinkedNamed | src/wpe/parameter.py:305-307 | every parameter of a linked table has its names |
| Emitters.IdLinesNumbered | src/wpe/parameter.py:126-127 | in a linked table, the id lines number the parameters 0, 1, 2, … in key order, below NUM_PARAMS |
| Emitters.FilteredMembers | src/wpe/parameter.py:438-440 | a line is kept exactly when some selected entry is that line |
| Emitters.AllDeclarations | src/wpe/parameter.py:438-440 | the declaration of every parameter, in key order |
| Emitters.InBucket | src/wpe/parameter.py:439 | which parameters, in key order, are stored in the bucket |
| Emitters.BucketDeclarationsStep | src/wpe/parameter.py:438-440 | one more parameter adds its declaration exactly when it is stored in the bucket |
| Emitters.BucketDeclarationsMembers | src/wpe/parameter.py:438-440 | a line is collected exactly when some parameter of the bucket declares it |
| Emitters.DeclarationsSpec | src/wpe/parameter.py:436-443 | the declaration block has no repeats and contains exactly the declarations of the bucket's parameters |
| Emitters.LinkedDependencies | src/wpe/parameter.py:309-310 | each linked dependency carries the property name and XML type of the parameter its name refers to, with its condition |
| Emitters.LinkedResolved | src/wpe/parameter.py:309-310 | in a linked table every dependency refers to a named parameter |
| Emitters.FlattenedIndented | src/wpe/parameter.py:483-484 | indented fragments flatten into indented lines |
| Emitters.Fragments | src/wpe/parameter.py:483-484 | the fragment of every parameter, in key order |
| Emitters.XmlFragmentIndented | src/wpe/parameter.py:484 | every line of a parameter's fragment starts with two spaces |
| Emitters.XmlFragmentsIndented | src/wpe/parameter.py:481-485 | every line of the properties block starts with two spaces |
| Emitters.XmlFragmentHeader | src/wpe/parameter.py:484 | a parameter's fragment opens with its indented property header |
| Emitters.JoinedFail | src/wpe/parameter.py:492-493 | joining fails exactly when one part fails, and then with the first failure |
| Emitters.JoinedErrStays | src/wpe/parameter.py:492-493 | once the join has failed, later parts do not change the failure |
| Emitters.JoinedPairs | src/wpe/parameter.py:492-493 | parts of two lines join into two lines per part, the `i`-th pair being the `i`-th part |
| Emitters.Controls | src/wpe/parameter.py:492-493 | the controls of every parameter, in key order |
| Emitters.Win32ControlLinesFail | src/wpe/parameter.py:490-494 | the controls fail exactly when some parameter is a uint, and then with the first of them |
| Emitters.Win32ControlLinesPair | src/wpe/parameter.py:490-494 | without a failure there are two lines per parameter, the `i`-th pair being the `i`-th parameter's controls |
| Emitters.IdcNumbersDistinct | src/wpe/parameter.py:499 | two parameters never share a resource id line, even with equal property names |
| Emitters.AllEntries | src/wpe/parameter.py:507 | the property table entry of every parameter, in key order |
| Emitters.AreBools | src/wpe/parameter.py:505 | which parameters, in key order, are bools |
| Emitters.PropertyTableSpec | src/wpe/parameter.py:502-508 | the property table has an entry for each bool parameter and nothing else |
| OrderedDict.PutKeepsPositions | src/wpe/parameter.py:298 | writing a key never moves a key already present |
| OrderedDict.Dedup | src/wpe/parameter.py:441-442 | de-duplication leaves no repeats and keeps exactly the elements of the input |
| OrderedDict.DedupOrder | src/wpe/parameter.py:441-442 | de-duplication keeps the order of first occurrences |
| OrderedDict.DedupOfDistinct | src/wpe/parameter.py:441-442 | a sequence without repeats is its own de-duplication |
| OrderedDict.PutAllItems | src/wpe/parameter.py:298-303 | after a run of writes a key holds the value written last, or its old value if it was not written |
| OrderedDict.PutAllKeys | src/wpe/parameter.py:298-303 | after a run of writes the keys are the old keys followed by the new names, without repeats |
| OrderedDict.SetFirstAt | src/wpe/parameter.py:305-307 | the keys handled so far hold their finalized values; the others keep their old ones |
| Project.EntryLines | src/wpe/project_config.py:24-25 | one setting line per key of a platform, the `k`-th being the `k`-th key with its value |
| Project.GeneratePlatformSupport | src/wpe/project_config.py:18-27 | a missing `platform_support` is a lookup error. An empty one gives the default `Any` block. Otherwise each platform's block follows in table order |
| Project.AppendEntryLines | src/wpe/project_config.py:24-25 | the inner loop appends the platform's setting lines, in table order |
| Project.PlatformBlocksLength | src/wpe/project_config.py:21-27 | the output has, summed over the platforms, 2 lines plus one per setting |
| Project.PlatformBlockShape | src/wpe/project_config.py:23-26 | a block opens with the platform tag, closes with `</Platform>`, and its `j`-th inner line renders the `j`-th setting |
| Project.EntryLineBool | src/wpe/project_config.py:25 | a bool setting renders as `true` or `false` |
| Project.EmptyPlatformSupport | src/wpe/project_config.py:12-20 | an empty `platform_support` gives exactly the five default lines |
| Project.LoadConfig | src/wpe/project_config.py:35-45 | the project file is read when it exists, else the deprecated parameter file; with neither, FileNotFoundError names the project file |
| Project.PluginInfoOfState | src/wpe/project_config.py:29-48 | before `load()` the configuration is None and reading the plugin info raises TypeError; after it, the read is `PluginInfoOf` |
| Project.PluginInfoOf | src/wpe/project_config.py:47-48 | the plugin info is present exactly when the key is; otherwise the error names it |
| Project.ParameterAccessors | src/wpe/project_config.py:50-66 | the accessors succeed exactly when there is a `parameters` section. A missing key inside it reads as an empty table or list, and a present key reads as its value |
| Project.Version | src/wpe/project_config.py:68-69 | the version is found exactly when both keys are present; otherwise the error names the first missing key |
| Util.AddLineEnds | src/wpe/util.py:79-83 | same length, every line ends in a newline, lines that had one are unchanged, and the others get one appended |
| Util.AddLineEndsIdempotent | src/wpe/util.py:79-83 | adding line ends a second time changes nothing |
| Util.AutoAddLineEnd | src/wpe/util.py:79-83 | the list is updated in place to its line-ended form, and the same list is returned |
| Util.AddIndent | src/wpe/util.py:86-87 | same length; the `i`-th line is `indent` spaces (none when negative) followed by the `i`-th input line |
| Util.IndentedBy | src/wpe/util.py:86-87 | every indented line starts with the indentation |
| Util.ReplaceInBasenameKeepsDirectory | src/wpe/util.py:46-47 | the directory part is unchanged and only the last component is replaced |
| Util.PathIsUnderStrictOrder | src/wpe/util.py:25-26 | no path lies under itself, and lying under is transitive |
| Util.CopyTemplate | src/wpe/util.py:90-117 | a missing destination is skipped with no result. An unforced destination carrying the marker is kept and returned. Otherwise the source is copied with keywords substituted and the destination is returned, or the missing source is a file-not-found error |
| Util.CopyTemplateWritesOnlyDestination | src/wpe/util.py:100-115 | at most the destination changes, and it never changes when it carries the marker and the copy is not forced |
| Util.TemplateDestinationName | src/wpe/util.py:97-99 | the destination keeps the target's directory, and `ProjectName` in its name becomes the plugin name, followed by the suffix exactly when that is asked for |
| Paths.JoinDirname | src/wpe/util.py:46-47 | joining a path's directory with a slash-free name keeps that directory and has that name as its last component |
| Settings.DefaultConfig | src/wpe/global_config.py:15-17 | the defaults hold exactly `use-wsl-for-linux = false` |
| Settings.MergedUpToItems | src/wpe/global_config.py:42-43 | after the first `n` entries of the file, a key holds the file's value if it was written, and its old value otherwise |
| Settings.MergedUpToKeys | src/wpe/global_config.py:42-43 | keys already present keep their places |
| Settings.MergedSpec | src/wpe/global_config.py:38-43 | loading overwrites exactly the keys in the file and keeps every other entry, in its order |
| Settings.ParseIntRoundTrip | src/wpe/global_config.py:57-58 | `int(str(i)) == i` for every integer |
| Settings.ParseIntNeedsDigits | src/wpe/global_config.py:57-58 | text without digits is not an integer |
| Settings.Convert | src/wpe/global_config.py:54-61 | a key without a default is the KeyError. A bool default stores whether the lowercased text is `true`. An int default stores the parsed integer, or fails when the text is not one |
| Settings.ConvertUseWsl | src/wpe/global_config.py:54-56 | `use-wsl-for-linux` becomes true exactly for `true` in any case |
| Settings.GlobalConfig.constructor | src/wpe/global_config.py:19-23 | the table is the defaults merged with the settings file |
| Settings.GlobalConfig.Load | src/wpe/global_config.py:38-43 | every entry of the file is written into the table, in file order; a missing file changes nothing |
| Settings.GlobalConfig.Get | src/wpe/global_config.py:48-51 | an unknown key is the invalid-key error; otherwise the stored value |
| Settings.GlobalConfig.Set | src/wpe/global_config.py:53-65 | an unknown key is refused and the table is unchanged. A failed conversion leaves the table unchanged. Otherwise only that key's value changes, to the converted text, and the keys keep their order |
| Deployment.GroupValueById | src/wpe/deployment.py:31-34 | the value of the first group with the id, and None exactly when no group has it |
| Deployment.GroupValueByIdSkips | src/wpe/deployment.py:31-34 | groups with other ids before the first match do not change the answer |
| Deployment.ShouldDeploySpec | src/wpe/deployment.py:16-26 | a package is deployed exactly when its source ends in `.tar.xz` and its first `Packages` group says `SDK`; the target directory plays no part |
| Deployment.PluginNameFromArchiveSpec | src/wpe/deployment.py:92-94 | the plugin name is the archive's file name up to its first '_' (all of it when there is none) and holds no '_' or '/' |
| Deployment.MemberNameStripped | src/wpe/deployment.py:109 | the new name is a suffix of the old one. What was removed consists only of 'S', 'D', 'K' and '/', and the new name starts with none of them |
| Deployment.MemberNameStripsCharacters | src/wpe/deployment.py:109 | stripping works on characters, not on the prefix: `SDK/Shared/lib` becomes `hared/lib` |
| Deployment.MemberNameStripsSdk | src/wpe/deployment.py:109 | the usual `SDK/` prefix goes away as a whole |
| Deployment.MemberNameNoAndroidDirectory | src/wpe/deployment.py:110-112 | a name with no `Android_` is only stripped, Android package or not |
| Deployment.ArchsUntouched | src/wpe/deployment.py:111-112 | the architecture replacements change nothing in a name without `Android_` |
| Deployment.RenameMember | src/wpe/deployment.py:109-113 | the rename loop gives the stripped name, with each `Android_<arch>` made `Android/<arch>` for Android packages only |
| Deployment.RenameMembers | src/wpe/deployment.py:107-113 | every member of the tarball is renamed in place by that rule, with the Android replacements exactly when the package's `DeploymentPlatforms` group is `Android` |
| MemAlloc.FreeUndoesMalloc | src/wpe/test/util/test_mem_alloc.hpp:24-59 | freeing a block just allocated restores both tables |
| MemAlloc.FreeUndoesMalign | src/wpe/test/util/test_mem_alloc.hpp:39-70 | freeing an aligned block just allocated restores both tables |
| MemAlloc.FreePrefersAligned | src/wpe/test/util/test_mem_alloc.hpp:39-59 | a pointer in both tables is removed from the aligned table only |
| MemAlloc.TotalRemove | src/wpe/test/util/test_mem_alloc.hpp:106-114 | the total size can be summed starting from any recorded block |
| MemAlloc.TotalUpdate | src/wpe/test/util/test_mem_alloc.hpp:24-29 | recording a new block adds its size to the total; overwriting a record replaces the old size |
| MemAlloc.TestMemAlloc.constructor | src/wpe/test/util/test_mem_alloc.hpp:126-130 | both tables start empty |
| MemAlloc.TestMemAlloc.Malloc | src/wpe/test/util/test_mem_alloc.hpp:24-29 | the returned pointer is recorded in the plain table with its size, file and line; the aligned table is untouched |
| MemAlloc.TestMemAlloc.Realloc | src/wpe/test/util/test_mem_alloc.hpp:31-37 | the old pointer is dropped from the plain table and the new one recorded there |
| MemAlloc.TestMemAlloc.Free | src/wpe/test/util/test_mem_alloc.hpp:39-59 | the aligned table is checked first. A pointer there is removed from it only; otherwise a pointer in the plain table is removed from it; an unknown pointer changes nothing |
| MemAlloc.TestMemAlloc.Malign | src/wpe/test/util/test_mem_alloc.hpp:61-70 | the pointer is recorded in the aligned table only |
| MemAlloc.TestMemAlloc.ReallocAligned | src/wpe/test/util/test_mem_alloc.hpp:72-84 | the old pointer is dropped from the aligned table and the new one recorded there |
| MemAlloc.TestMemAlloc.Empty | src/wpe/test/util/test_mem_alloc.hpp:86-89 | true exactly when both tables are empty |
| MemAlloc.TestMemAlloc.MemAllocated | src/wpe/test/util/test_mem_alloc.hpp:106-114 | the sum of the plain sizes, modulo 2^64 |
| MemAlloc.TestMemAlloc.AlignedMemAllocated | src/wpe/test/util/test_mem_alloc.hpp:116-124 | the sum of the aligned sizes, modulo 2^64 |
| MemAlloc.SumSizes | src/wpe/test/util/test_mem_alloc.hpp:109-113 | the summing loop, with the wrap-around of `size_t` addition, gives the total modulo 2^64 |

## Left out

- **I/O and runtime calls.** File I/O, TOML parsing and the Lua runtime are
  not modelled. The parsed project configuration, the settings file, the
  premake suffix and the file system of `copy_template` are inputs.
  `ProjectConfig.load` (project_config.py:35-45) is modelled by
  `Project.LoadConfig` over the parsed documents of the files that exist;
  the deprecation warning it logs is not modelled.
- Settings.GlobalConfig.Set: the `save()` that follows a successful `set`
  (global_config.py:66) is not modelled, because it writes a file. The
  `configFile` path is not modelled either.
- **Command-line parts of `GlobalConfig`.** `handle_command`, `list_args` and
  `_print_config` are command-line printing. The singleton decorator is
  not modelled.
- Settings.Convert: a float default is converted by the given `floatRepr` function instead of a model of Python's
  `float()`. The contract states only the bool, int and missing-key cases;
  the only default is a bool. `int()` is modelled without surrounding
  whitespace or `_` digit separators.
- **Nested TOML values.** TOML values are scalars (`Schema.Value`). Nested
  tables and arrays appear only where the modelled code reads them.
- **Generation outside this model.** These are not part of this model:
  - `ParameterGenerator._generate` and `main`, which write the generated
    files between their markers (through `substitute_lines_in_file`);
  - `dump_parameter_doc`;
  - `__generate_xml_plugin_info`, whose `generate_plugin_info` is not defined
    in project_config.py;
  - the `withindent` and `removecues` markers of the generated files.
- **ElementTree rendering.** The `<Dependencies>` element is rendered by a
  given `render` function. The model fixes what it is given: the target's
  property name and XML type, and the condition.
- **Case conversion.** `convert_compound_cases` is the given `Casing`.
  Lower and upper case are ASCII only.
- **Paths.** Paths follow POSIX `os.path` and `pathlib` rules. Windows path
  separators are not modelled.
- Schema.FormatDependencies: only the `%(suffix)s` and `%%` conversions are
  substituted (`Schema.FormatSuffix`). Every other conversion that Python's
  `%` accepts, such as `%(suffix)r`, a width or flag like `%(suffix)-8s`, or
  a bare `%s` formatting the whole mapping, is a `BadPlaceholder` error here.
- Generator.ParameterGenerator.LoadParameterConfig: after an error the
  contract says nothing about how much of the parameter table was already
  written. The source leaves a partly updated table, which is not used after
  the exception.
- **Copies and links.** `copy.deepcopy` of templates and inner-type fields is
  value semantics here, so a stored template can never change. A dependency
  keeps the target's name, not an object reference (`dep['obj']`). The target
  is found again through the table, as `Emitters.LinkedDependencies` shows.
- **Extraction in `UEDeployment._deploy_package`.** Tar extraction and the
  parent-directory check (deployment.py:114-119) are file-system work. So are
  the bundle reading of `Deployment.deploy`, `clean` and `_lazy_find_archive`.
- Deployment.MemberName: for Android packages, the rule is stated by its
  definition and by `MemberNameNoAndroidDirectory`. No lemma works a concrete
  Android name through.
- **Memory snapshot logs.** `TakeSnapshotLog` and `GetSnapshotLog` use float
  arithmetic and are not modelled.
- **Allocator return values.** The pointers that malloc, realloc and the
  aligned allocation calls return are parameters. Freeing memory, a null
  result and the `AKASSERT` of `ReallocAligned` on non-Windows platforms are
  not modelled.

## Findings

| source | as written | input that shows it | evidently intended | confidence | as-written member | corrected member |
|---|---|---|---|---|---|---|
| src/wpe/parameter.py:289-292 | `load_parameter_config` builds `ProjectConfig(self.pathMan)` and calls `plugin_info()` without `load()`; `config` is still None, so `None['plugin_info']` raises TypeError before anything is registered | any project, for example a `wpe_project.toml` holding only a `plugin_info` table | call `proj_config.load()` first, then register from the loaded document | high, not executed | Generator.ParameterGenerator.LoadParameterConfigAsWritten | Generator.ParameterGenerator.LoadParameterConfigCorrected |
