/** `ParameterGenerator` of src/wpe/parameter.py: the generator object whose
    tables `load_parameter_config` fills in place, and the emitters that turn
    those tables into the lines written between the markers of the generated
    files. */
module Generator {
  import opened Wrappers
  import opened Errors
  import opened Strings
  import opened OrderedDict
  import opened Schema
  import opened Parameters
  import opened Project
  import opened Catalog
  import opened Util
  import opened Emitters

  /** The loop of the first registration pass on the table's value: one
      `Parameter.create` per entry of `defs`, each result stored under its
      name, stopping at the first that raises. */
  method PutEntries(base: Table<Param>, defs: Table<Define>) returns (t: Table<Param>, e: Option<Error>)
    ensures e.None? <==> AllOk(CreateEntries(defs)).Ok?
    ensures e.Some? ==> AllOk(CreateEntries(defs)) == Err(e.value)
    ensures e.None? ==> t == PutAll(base, AllOk(CreateEntries(defs)).value, ParamName)
  {
    ghost var rs := CreateEntries(defs);
    ghost var done: seq<Param> := [];
    t := base;
    ThenStart(rs);
    for j := 0 to |defs.keys|
      invariant AllOk(rs) == Then(done, AllOk(rs[j..]))
      invariant t == PutAll(base, done, ParamName)
    {
      var name := defs.keys[j];
      var p := Create(name, defs.items[name]);
      assert rs[j] == p;
      AllOkAdvance(rs, done, j);
      if p.Err? {
        return t, Some(p.error);
      }
      PutAllSnoc(base, done, p.value, ParamName);
      done := done + [p.value];
      t := Put(t, name, p.value);
    }
    ThenEnd(done, rs);
    return t, None;
  }

  class ParameterGenerator {
    const pathMan: PathMan
    const isForced: bool
    const generateGuiResource: bool
    /** Stands for kkpyutil's `convert_compound_cases`. */
    const casing: Casing
    var innerTypes: Table<InnerType>
    var parameters: Table<Param>
    var pluginInfo: Option<PluginInfo>
    var libSuffix: string

    constructor (pathMan: PathMan, isForced: bool, generateGuiResource: bool, casing: Casing)
      ensures this.pathMan == pathMan && this.isForced == isForced
      ensures this.generateGuiResource == generateGuiResource && this.casing == casing
      ensures innerTypes == Empty() && parameters == Empty() && pluginInfo.None? && libSuffix == ""
    {
      this.pathMan := pathMan;
      this.isForced := isForced;
      this.generateGuiResource := generateGuiResource;
      this.casing := casing;
      innerTypes := Empty();
      parameters := Empty();
      pluginInfo := None;
      libSuffix := "";
    }

    // -------------------------------------------------------------------
    // load_parameter_config

    /** `load_parameter_config()`. The configuration is the parsed project
        file; `premakeLibSuffix` is the `sdk.static.libsuffix` entry of the
        premake plugin table, read only when no suffix is set yet. The new
        state is the one `Load` describes, and a successful load leaves the
        parameter table linked. */
    method LoadParameterConfig(c: ProjectConfig, premakeLibSuffix: string) returns (r: Result<(), Error>)
      modifies this
      ensures var l := Load(c, old(parameters), old(innerTypes), casing);
        && (r.Ok? <==> l.Ok?)
        && (r.Err? ==> l == Err(r.error))
        && (r.Ok? ==> pluginInfo == Some(l.value.pluginInfo) && parameters == l.value.parameters
                      && innerTypes == l.value.innerTypes)
      ensures r.Ok? ==> libSuffix == if HasParameters(c) && old(libSuffix) == "" then premakeLibSuffix else old(libSuffix)
      ensures r.Ok? && (HasParameters(c) || Linked(old(parameters))) ==> Linked(parameters)
    {
      var info := PluginInfoOf(c);
      if info.Err? {
        return Err(info.error);
      }
      pluginInfo := Some(info.value);
      if !HasParameters(c) {
        return Ok(());
      }
      var sec := c.parameters.value;
      ghost var t0 := parameters;
      var e := Register(sec);
      if e.Some? {
        return Err(e.value);
      }
      ghost var reg := RegisteredParams(sec, casing).value;
      e := LinkParameters();
      if e.Some? {
        return Err(e.value);
      }
      LinkLinked(PutAll(t0, reg.params, ParamName), casing);
      GetLibSuffix(premakeLibSuffix);
      return Ok(());
    }

    /** `load_parameter_config()` over the `config` attribute of the
        `ProjectConfig` object it builds. Reading the plugin info of a
        configuration that was never loaded raises TypeError, before any
        field is written; a loaded one is handled as `LoadParameterConfig`
        states. */
    method LoadParameterConfigFrom(config: Option<ProjectConfig>, premakeLibSuffix: string) returns (r: Result<(), Error>)
      modifies this
      ensures config.None? ==>
        && r == Err(NotSubscriptable("plugin_info"))
        && parameters == old(parameters) && innerTypes == old(innerTypes)
        && pluginInfo == old(pluginInfo) && libSuffix == old(libSuffix)
      ensures config.Some? ==> var l := Load(config.value, old(parameters), old(innerTypes), casing);
        && (r.Ok? <==> l.Ok?)
        && (r.Err? ==> l == Err(r.error))
        && (r.Ok? ==> pluginInfo == Some(l.value.pluginInfo) && parameters == l.value.parameters
                      && innerTypes == l.value.innerTypes)
      ensures config.Some? && r.Ok? ==>
        libSuffix == if HasParameters(config.value) && old(libSuffix) == "" then premakeLibSuffix else old(libSuffix)
      ensures r.Ok? && (HasParameters(config.value) || Linked(old(parameters))) ==> Linked(parameters)
    {
      var info := PluginInfoOfState(config);
      if config.None? {
        return Err(info.error);
      }
      r := LoadParameterConfig(config.value, premakeLibSuffix);
    }

    /** `load_parameter_config()` as written: `ProjectConfig(self.pathMan)`
        is never loaded, so its `config` is still None and the first read,
        `plugin_info()`, raises TypeError. Nothing is registered, whatever
        the project files hold. */
    method LoadParameterConfigAsWritten(premakeLibSuffix: string) returns (r: Result<(), Error>)
      modifies this
      ensures r == Err(NotSubscriptable("plugin_info"))
      ensures parameters == old(parameters) && innerTypes == old(innerTypes)
      ensures pluginInfo == old(pluginInfo) && libSuffix == old(libSuffix)
    {
      var config: Option<ProjectConfig> := None;
      r := LoadParameterConfigFrom(config, premakeLibSuffix);
    }

    /** `load_parameter_config()` with `proj_config.load()` called before the
        configuration is read. `parsed` holds the parsed document of each
        configuration file that exists. Without either file the load raises
        FileNotFoundError and nothing changes; otherwise the state is the one
        `Load` describes for the file `load()` picks, and a successful load
        leaves the parameter table linked. */
    method LoadParameterConfigCorrected(parsed: map<string, ProjectConfig>, premakeLibSuffix: string)
      returns (r: Result<(), Error>)
      modifies this
      ensures var lc := LoadConfig(parsed, pathMan.projConfig, pathMan.parameterConfig);
        lc.Err? ==>
          && r == Err(FileNotFound(pathMan.projConfig))
          && parameters == old(parameters) && innerTypes == old(innerTypes)
          && pluginInfo == old(pluginInfo) && libSuffix == old(libSuffix)
      ensures var lc := LoadConfig(parsed, pathMan.projConfig, pathMan.parameterConfig);
        lc.Ok? ==> var l := Load(lc.value, old(parameters), old(innerTypes), casing);
          && (r.Ok? <==> l.Ok?)
          && (r.Err? ==> l == Err(r.error))
          && (r.Ok? ==> pluginInfo == Some(l.value.pluginInfo) && parameters == l.value.parameters
                        && innerTypes == l.value.innerTypes)
      ensures r.Ok? ==> (pathMan.projConfig in parsed || pathMan.parameterConfig in parsed)
      ensures var lc := LoadConfig(parsed, pathMan.projConfig, pathMan.parameterConfig);
        r.Ok? && (HasParameters(lc.value) || Linked(old(parameters))) ==> Linked(parameters)
    {
      var lc := LoadConfig(parsed, pathMan.projConfig, pathMan.parameterConfig);
      if lc.Err? {
        return Err(lc.error);
      }
      r := LoadParameterConfigFrom(Some(lc.value), premakeLibSuffix);
    }

    /** The registration passes of `load_parameter_config`: the direct
        defines, the template instances, the inner-type table, then the
        inner-type instances, stopping at the first error. */
    method Register(sec: ParametersSection) returns (e: Option<Error>)
      modifies this
      ensures pluginInfo == old(pluginInfo) && libSuffix == old(libSuffix)
      ensures e.None? <==> RegisteredParams(sec, casing).Ok?
      ensures e.Some? ==> RegisteredParams(sec, casing) == Err(e.value)
      ensures e.None? ==> parameters == PutAll(old(parameters), RegisteredParams(sec, casing).value.params, ParamName)
                          && innerTypes == RegisteredParams(sec, casing).value.innerTypes
    {
      ghost var t0 := parameters;
      e := RegisterDirect(sec);
      if e.Some? {
        return;
      }
      ghost var ps := DirectParams(sec).value;
      var its := InnerTypes(sec.innerTypes.GetOr(Empty()), casing);
      if its.Err? {
        return Some(its.error);
      }
      innerTypes := its.value;
      ghost var zs := InstancesFrom(sec.fromInnerTypes.GetOr([]), 0, innerTypes);
      e := RegisterFromInnerTypes(sec.fromInnerTypes.GetOr([]));
      if e.Some? {
        return;
      }
      PutAllConcat(t0, ps, AllOk(zs).value, ParamName);
      assert RegisteredParams(sec, casing) == Ok(Registration(ps + AllOk(zs).value, innerTypes));
    }

    /** The first two registration passes: the direct defines, then the
        template instances. */
    method RegisterDirect(sec: ParametersSection) returns (e: Option<Error>)
      modifies this
      ensures innerTypes == old(innerTypes) && pluginInfo == old(pluginInfo) && libSuffix == old(libSuffix)
      ensures e.None? <==> DirectParams(sec).Ok?
      ensures e.Some? ==> DirectParams(sec) == Err(e.value)
      ensures e.None? ==> parameters == PutAll(old(parameters), DirectParams(sec).value, ParamName)
    {
      ghost var t0 := parameters;
      var defs := sec.defines.GetOr(Empty());
      var templates := sec.templates.GetOr(Empty());
      var fromTemplates := sec.fromTemplates.GetOr([]);
      ghost var xs := CreateEntries(defs);
      ghost var ys := TemplateResults(fromTemplates, templates);
      AllOkConcat(xs, ys);
      e := RegisterDefines(defs);
      if e.Some? {
        return;
      }
      e := RegisterFromTemplates(fromTemplates, templates);
      if e.Some? {
        return;
      }
      PutAllConcat(t0, AllOk(xs).value, AllOk(ys).value, ParamName);
    }

    /** The first loop of `load_parameter_config`: one `Parameter.create` per
        entry of `defines`, stored under its name, stopping at the first that
        raises. */
    method RegisterDefines(defs: Table<Define>) returns (e: Option<Error>)
      modifies this
      ensures innerTypes == old(innerTypes) && pluginInfo == old(pluginInfo) && libSuffix == old(libSuffix)
      ensures e.None? <==> AllOk(CreateEntries(defs)).Ok?
      ensures e.Some? ==> AllOk(CreateEntries(defs)) == Err(e.value)
      ensures e.None? ==> parameters == PutAll(old(parameters), AllOk(CreateEntries(defs)).value, ParamName)
    {
      var t, err := PutEntries(parameters, defs);
      parameters := t;
      return err;
    }

    /** The second loop of `load_parameter_config`: `__load_with_template` per
        entry of `from_templates`, in list order. */
    method RegisterFromTemplates(insts: seq<TemplateInstance>, templates: Table<Define>) returns (e: Option<Error>)
      modifies this
      ensures innerTypes == old(innerTypes) && pluginInfo == old(pluginInfo) && libSuffix == old(libSuffix)
      ensures e.None? <==> AllOk(TemplateResults(insts, templates)).Ok?
      ensures e.Some? ==> AllOk(TemplateResults(insts, templates)) == Err(e.value)
      ensures e.None? ==> parameters == PutAll(old(parameters), AllOk(TemplateResults(insts, templates)).value, ParamName)
    {
      ghost var rs := TemplateResults(insts, templates);
      ghost var done: seq<Param> := [];
      ThenStart(rs);
      for n := 0 to |insts|
        invariant AllOk(rs) == Then(done, AllOk(rs[n..]))
        invariant parameters == PutAll(old(parameters), done, ParamName)
        invariant innerTypes == old(innerTypes) && pluginInfo == old(pluginInfo) && libSuffix == old(libSuffix)
      {
        AllOkAdvance(rs, done, n);
        ghost var before := parameters;
        e := LoadWithTemplate(insts[n], templates);
        if e.Some? {
          return;
        }
        ghost var p := rs[n].value;
        PutAllSnoc(old(parameters), done, p, ParamName);
        done := done + [p];
      }
      ThenEnd(done, rs);
      return None;
    }

    /** `__load_with_template(instance, templates)`: registers the parameter
        the instance describes under its name. */
    method LoadWithTemplate(inst: TemplateInstance, templates: Table<Define>) returns (e: Option<Error>)
      modifies this
      ensures innerTypes == old(innerTypes) && pluginInfo == old(pluginInfo) && libSuffix == old(libSuffix)
      ensures e.None? <==> TemplateParam(inst, templates).Ok?
      ensures e.Some? ==> TemplateParam(inst, templates) == Err(e.value)
      ensures e.None? ==> parameters == Put(old(parameters), ParamName(TemplateParam(inst, templates).value),
                                            TemplateParam(inst, templates).value)
    {
      var x := TemplateDefine(inst, templates);
      if x.Err? {
        return Some(x.error);
      }
      var p := Create(x.value.name, x.value.define);
      if p.Err? {
        return Some(p.error);
      }
      parameters := Put(parameters, x.value.name, p.value);
      return None;
    }

    /** The last registration loop: `__load_with_inner_type` per entry of
        `from_inner_types`, in list order, against the inner-type table. */
    method RegisterFromInnerTypes(insts: seq<InnerTypeInstance>) returns (e: Option<Error>)
      modifies this
      ensures innerTypes == old(innerTypes) && pluginInfo == old(pluginInfo) && libSuffix == old(libSuffix)
      ensures e.None? <==> AllOk(InstancesFrom(insts, 0, innerTypes)).Ok?
      ensures e.Some? ==> AllOk(InstancesFrom(insts, 0, innerTypes)) == Err(e.value)
      ensures e.None? ==> parameters == PutAll(old(parameters), AllOk(InstancesFrom(insts, 0, innerTypes)).value, ParamName)
    {
      ghost var done: seq<Param> := [];
      ThenNothing(AllOk(InstancesFrom(insts, 0, innerTypes)));
      for n := 0 to |insts|
        invariant AllOk(InstancesFrom(insts, 0, innerTypes)) == Then(done, AllOk(InstancesFrom(insts, n, innerTypes)))
        invariant parameters == PutAll(old(parameters), done, ParamName)
        invariant innerTypes == old(innerTypes) && pluginInfo == old(pluginInfo) && libSuffix == old(libSuffix)
      {
        ghost var here := InstanceResults(insts[n], innerTypes);
        ghost var rest := InstancesFrom(insts, n + 1, innerTypes);
        assert InstancesFrom(insts, n, innerTypes) == here + rest;
        AllOkConcat(here, rest);
        ghost var before := parameters;
        e := LoadWithInnerType(insts[n]);
        if e.Some? {
          return;
        }
        ThenThen(done, AllOk(here).value, AllOk(rest));
        PutAllConcat(old(parameters), done, AllOk(here).value, ParamName);
        done := done + AllOk(here).value;
      }
      assert InstancesFrom(insts, |insts|, innerTypes) == [];
      assert done + [] == done;
      return None;
    }

    /** `__load_with_inner_type(define)`: one parameter per field of the named
        inner type, registered under its instance name. */
    method LoadWithInnerType(inst: InnerTypeInstance) returns (e: Option<Error>)
      modifies this
      ensures innerTypes == old(innerTypes) && pluginInfo == old(pluginInfo) && libSuffix == old(libSuffix)
      ensures e.None? <==> AllOk(InstanceResults(inst, innerTypes)).Ok?
      ensures e.Some? ==> AllOk(InstanceResults(inst, innerTypes)) == Err(e.value)
      ensures e.None? ==> parameters == PutAll(old(parameters), AllOk(InstanceResults(inst, innerTypes)).value, ParamName)
    {
      if inst.innerType.None? {
        return Some(MissingKey("inner_type"));
      }
      if inst.innerType.value !in innerTypes.items {
        return Some(UnknownInnerType(inst.innerType.value));
      }
      var inner := innerTypes.items[inst.innerType.value];
      ghost var rs := InstanceResults(inst, innerTypes);
      ghost var done: seq<Param> := [];
      ThenStart(rs);
      for k := 0 to |inner.fields|
        invariant AllOk(rs) == Then(done, AllOk(rs[k..]))
        invariant parameters == PutAll(old(parameters), done, ParamName)
        invariant innerTypes == old(innerTypes) && pluginInfo == old(pluginInfo) && libSuffix == old(libSuffix)
      {
        var q := InstanceField(inner, k, inst);
        assert rs[k] == q;
        AllOkAdvance(rs, done, k);
        if q.Err? {
          return Some(q.error);
        }
        PutAllSnoc(old(parameters), done, q.value, ParamName);
        done := done + [q.value];
        parameters := Put(parameters, q.value.name, q.value);
      }
      ThenEnd(done, rs);
      return None;
    }

    /** The final loop of `load_parameter_config`: in table order, assign id
        `i`, derive the names, then look up every dependency by name; a name
        that is not a key ends the load. */
    method LinkParameters() returns (e: Option<Error>)
      modifies this
      ensures innerTypes == old(innerTypes) && pluginInfo == old(pluginInfo) && libSuffix == old(libSuffix)
      ensures e.None? <==> Link(old(parameters), casing).Ok?
      ensures e.Some? ==> Link(old(parameters), casing) == Err(e.value)
      ensures e.None? ==> parameters == Link(old(parameters), casing).value
    {
      ghost var t := parameters;
      ghost var vals := FinalizedAll(t, casing);
      var count := |parameters.keys|;
      for i := 0 to count
        invariant parameters == SetFirst(t, vals, i)
        invariant FirstUnresolved(t, 0) == FirstUnresolved(t, i)
        invariant innerTypes == old(innerTypes) && pluginInfo == old(pluginInfo) && libSuffix == old(libSuffix)
      {
        var missing := FinalizeParameter(i, t);
        LinkStep(t, casing, i);
        if missing.Some? {
          return Some(UnresolvedDependency(parameters.keys[i], missing.value));
        }
      }
      return None;
    }

    /** The body of the final pass for the `i`-th parameter: `assign_id(i)`,
        `generate_names()`, then the dependency loop. */
    method FinalizeParameter(i: nat, ghost t: Table<Param>) returns (missing: Option<string>)
      requires i < |t.keys| && parameters == SetFirst(t, FinalizedAll(t, casing), i)
      modifies this
      ensures innerTypes == old(innerTypes) && pluginInfo == old(pluginInfo) && libSuffix == old(libSuffix)
      ensures parameters == SetFirst(t, FinalizedAll(t, casing), i + 1)
      ensures missing == MissingDependency(t.items[t.keys[i]].dependencies, t, 0)
    {
      var key := parameters.keys[i];
      LinkStep(t, casing, i);
      var p := GenerateNames(parameters.items[key].(id := i), casing);
      assert p == FinalizedAll(t, casing)[i];
      assert SetFirst(t, FinalizedAll(t, casing), i + 1) == Dict(t.keys, parameters.items[t.keys[i] := p]);
      parameters := Dict(parameters.keys, parameters.items[key := p]);
      missing := LinkDependencies(p.dependencies, t);
    }

    /** The dependency loop of the final pass: `dep['obj'] =
        self.parameters[dep['name']]` for each dependency in turn, stopping at
        the first name that is not a key. `t` is any table with the same keys. */
    method LinkDependencies(deps: seq<Dependency>, ghost t: Table<Param>) returns (missing: Option<string>)
      requires parameters.keys == t.keys
      ensures missing == MissingDependency(deps, t, 0)
    {
      assert forall x :: x in parameters.items <==> x in t.items;
      for k := 0 to |deps|
        invariant MissingDependency(deps, t, 0) == MissingDependency(deps, t, k)
      {
        if deps[k].name !in parameters.items {
          return Some(deps[k].name);
        }
      }
      return None;
    }

    /** `_get_lib_suffix()`: the premake suffix, read only when none is set. */
    method GetLibSuffix(premakeLibSuffix: string)
      modifies this
      ensures innerTypes == old(innerTypes) && pluginInfo == old(pluginInfo) && parameters == old(parameters)
      ensures libSuffix == if old(libSuffix) == "" then premakeLibSuffix else old(libSuffix)
    {
      if libSuffix == "" {
        libSuffix := premakeLibSuffix;
      }
    }

    // -------------------------------------------------------------------
    // The __generate_* emitters. Each builds its lines in key order and
    // hands them to `auto_add_line_end`.

    /** `__generate_ids()`: the id line of every parameter, then NUM_PARAMS. */
    method GenerateIds() returns (r: seq<string>)
      requires Named(parameters)
      ensures |r| == |parameters.keys| + 1
      ensures forall i :: 0 <= i < |parameters.keys| ==> r[i] == LineEnded(ParamIdLine(ParamAt(parameters, i)))
      ensures r[|parameters.keys|] == LineEnded(NumParamsLine(|parameters.keys|))
    {
      var lines := [];
      for i := 0 to |parameters.keys|
        invariant |lines| == i
        invariant forall k :: 0 <= k < i ==> lines[k] == ParamIdLine(ParamAt(parameters, k))
      {
        lines := lines + [ParamIdLine(ParamAt(parameters, i))];
      }
      lines := lines + [NumParamsLine(|parameters.keys|)];
      r := AddLineEnds(lines);
    }

    /** `__generate_inner_types()`: the struct of every inner type, in
        registration order. */
    method GenerateInnerTypes() returns (r: seq<string>)
      ensures |r| == |innerTypes.keys|
      ensures forall i :: 0 <= i < |r| ==> r[i] == LineEnded(StructDefinition(InnerTypeAt(innerTypes, i), casing))
    {
      var its := innerTypes;
      var lines := [];
      for i := 0 to |its.keys|
        invariant |lines| == i
        invariant forall k :: 0 <= k < i ==> lines[k] == StructDefinition(InnerTypeAt(its, k), casing)
      {
        lines := lines + [StructDefinition(InnerTypeAt(its, i), casing)];
      }
      r := AddLineEnds(lines);
    }

    /** `__generate_declarations(struct)`: the declarations of the parameters
        stored in `bucket`, with repetitions removed. */
    method GenerateDeclarations(bucket: Bucket) returns (r: seq<string>)
      requires Named(parameters)
      ensures r == AddLineEnds(Declarations(parameters, bucket))
    {
      var t := parameters;
      var lines := [];
      for i := 0 to |t.keys|
        invariant lines == BucketDeclarations(t, bucket, i)
      {
        var p := ParamAt(t, i);
        BucketDeclarationsStep(t, bucket, i);
        if p.names.value.bucket == bucket {
          lines := lines + [Declaration(p)];
        }
      }
      r := AddLineEnds(Dedup(lines));
    }

    /** The loop of the emitters that write one line per parameter: `line`
        stands for the `Parameter.generate_*` method the emitter calls. */
    method EachParameterLine(line: Param --> string) returns (r: seq<string>)
      requires forall i :: 0 <= i < |parameters.keys| ==> line.requires(ParamAt(parameters, i))
      ensures |r| == |parameters.keys|
      ensures forall i :: 0 <= i < |r| ==> r[i] == LineEnded(line(ParamAt(parameters, i)))
    {
      var lines := [];
      for i := 0 to |parameters.keys|
        invariant |lines| == i
        invariant forall k :: 0 <= k < i ==> lines[k] == line(ParamAt(parameters, k))
      {
        lines := lines + [line(ParamAt(parameters, i))];
      }
      r := AddLineEnds(lines);
    }

    /** `__generate_init()` */
    method GenerateInit() returns (r: seq<string>)
      requires Named(parameters)
      ensures |r| == |parameters.keys|
      ensures forall i :: 0 <= i < |r| ==> r[i] == LineEnded(InitLine(ParamAt(parameters, i)))
    {
      r := EachParameterLine((p: Param) requires p.names.Some? => InitLine(p));
    }

    /** `__generate_read_bank_data()` */
    method GenerateReadBankData() returns (r: seq<string>)
      requires Named(parameters)
      ensures |r| == |parameters.keys|
      ensures forall i :: 0 <= i < |r| ==> r[i] == LineEnded(ReadBankLine(ParamAt(parameters, i)))
    {
      r := EachParameterLine((p: Param) requires p.names.Some? => ReadBankLine(p));
    }

    /** `__generate_set_parameter()`: one dispatch arm per parameter. */
    method GenerateSetParameter() returns (r: seq<string>)
      requires Named(parameters)
      ensures |r| == |parameters.keys|
      ensures forall i :: 0 <= i < |r| ==> r[i] == LineEnded(DispatchArm(ParamAt(parameters, i)))
    {
      r := EachParameterLine((p: Param) requires p.names.Some? => DispatchArm(p));
    }

    /** `__generate_property_name_declaration()` */
    method GeneratePropertyNameDeclaration() returns (r: seq<string>)
      requires Named(parameters)
      ensures |r| == |parameters.keys|
      ensures forall i :: 0 <= i < |r| ==> r[i] == LineEnded(PropertyNameDeclaration(ParamAt(parameters, i)))
    {
      r := EachParameterLine((p: Param) requires p.names.Some? => PropertyNameDeclaration(p));
    }

    /** `__generate_property_name_definition()` */
    method GeneratePropertyNameDefinition() returns (r: seq<string>)
      requires Named(parameters)
      ensures |r| == |parameters.keys|
      ensures forall i :: 0 <= i < |r| ==> r[i] == LineEnded(PropertyNameDefinition(ParamAt(parameters, i)))
    {
      r := EachParameterLine((p: Param) requires p.names.Some? => PropertyNameDefinition(p));
    }

    /** `__generate_write_bank_data()` */
    method GenerateWriteBankData() returns (r: seq<string>)
      requires Named(parameters)
      ensures |r| == |parameters.keys|
      ensures forall i :: 0 <= i < |r| ==> r[i] == LineEnded(WriteBankLine(ParamAt(parameters, i), casing))
    {
      var c := casing;
      r := EachParameterLine((p: Param) requires p.names.Some? => WriteBankLine(p, c));
    }

    /** `__generate_xml_properties()`: the fragment of every parameter,
        indented by two. `render` stands for the ElementTree serialisation. */
    method GenerateXmlProperties(render: seq<LinkedDependency> -> seq<string>) returns (r: seq<string>)
      requires Linked(parameters)
      ensures r == AddLineEnds(XmlFragments(parameters, |parameters.keys|, render))
    {
      var lines := [];
      ghost var parts := Fragments(parameters, render);
      for i := 0 to |parameters.keys|
        invariant lines == Flattened(parts, i)
      {
        lines := lines + XmlFragment(parameters, i, render);
      }
      r := AddLineEnds(lines);
    }

    /** `__generate_win32_controls()`: the two control lines of every
        parameter; a `uint` parameter raises. */
    method GenerateWin32Controls() returns (r: Result<seq<string>, Error>)
      requires Named(parameters)
      ensures var w := Win32ControlLines(parameters, |parameters.keys|);
        && (r.Ok? <==> w.Ok?)
        && (r.Ok? ==> r.value == AddLineEnds(w.value))
        && (r.Err? ==> r.error == w.error)
    {
      var t := parameters;
      var lines := [];
      ghost var parts := Controls(t);
      for i := 0 to |t.keys|
        invariant Joined(parts, i) == Ok(lines)
      {
        var c := Win32Controls(ParamAt(t, i));
        assert c == parts[i];
        if c.Err? {
          assert Joined(parts, i + 1) == Err(c.error);
          JoinedErrStays(parts, i + 1, |t.keys|);
          return Err(c.error);
        }
        lines := lines + c.value;
      }
      r := Ok(AddLineEnds(lines));
    }

    /** `__generate_win32_idc()`: resource ids 1001, 1002, ... in key order. */
    method GenerateWin32Idc() returns (r: seq<string>)
      requires Named(parameters)
      ensures |r| == |parameters.keys|
      ensures forall i :: 0 <= i < |r| ==> r[i] == LineEnded(IdcLine(ParamAt(parameters, i), i))
    {
      var lines := [];
      for i := 0 to |parameters.keys|
        invariant |lines| == i
        invariant forall k :: 0 <= k < i ==> lines[k] == IdcLine(ParamAt(parameters, k), k)
      {
        lines := lines + [IdcLine(ParamAt(parameters, i), i)];
      }
      r := AddLineEnds(lines);
    }

    /** `__generate_win32_property_table()`: an entry per bool parameter. */
    method GenerateWin32PropertyTable() returns (r: seq<string>)
      requires Named(parameters)
      ensures r == AddLineEnds(PropertyTable(parameters, |parameters.keys|))
    {
      var t := parameters;
      var lines := [];
      for i := 0 to |t.keys|
        invariant lines == PropertyTable(t, i)
      {
        var p := ParamAt(t, i);
        if p.kind == Bool {
          lines := lines + [PropertyTableEntry(p)];
        }
      }
      r := AddLineEnds(lines);
    }
  }
}
