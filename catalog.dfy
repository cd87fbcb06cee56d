/** What `ParameterGenerator.load_parameter_config` (src/wpe/parameter.py)
    computes, as functions of the project configuration: the parameters each
    registration step produces, in order; the inner-type table; and the final
    pass that numbers the parameters, derives their names and resolves their
    dependencies. The generator's loops are proved against these. */
module Catalog {
  import opened Wrappers
  import opened Errors
  import opened Strings
  import opened OrderedDict
  import opened Schema
  import opened Parameters
  import opened Project

  /** The key a parameter is registered under. */
  function ParamName(p: Param): string
  {
    p.name
  }

  /** The key an inner type is registered under. */
  function InnerTypeName(t: InnerType): string
  {
    t.name
  }

  // ---------------------------------------------------------------------
  // __load_with_template

  /** The name and definition table a template instance passes to `Parameter.create`. */
  datatype Instantiated = Instantiated(name: string, define: Define)

  /** The first half of `__load_with_template`: a copy of the template with the
      instance's `override` entries written over it and the `%(suffix)s`
      placeholder substituted in every dependency name. The stored template is
      a value here, so it cannot change. */
  function TemplateDefine(inst: TemplateInstance, templates: Table<Define>): (r: Result<Instantiated, Error>)
    ensures inst.template.None? ==> r == Err(MissingKey("template"))
    ensures inst.template.Some? && inst.template.value !in templates.items ==>
              r == Err(UnknownTemplate(inst.template.value))
    ensures inst.template.Some? && inst.template.value in templates.items && inst.suffix.None? ==>
              r == Err(MissingKey("suffix"))
    ensures r.Ok? ==>
      && inst.template.Some? && inst.template.value in templates.items && inst.suffix.Some?
      && var merged := ApplyOverride(templates.items[inst.template.value], inst.override.GetOr(NoKeys));
         && r.value.name == inst.template.value + "_" + inst.suffix.value
         && r.value.define.(dependencies := merged.dependencies) == merged
         && r.value.define.dependencies.Some? == merged.dependencies.Some?
         && FormatDependencies(merged.dependencies.GetOr([]), inst.suffix.value) == Ok(r.value.define.dependencies.GetOr([]))
    ensures r.Err? && inst.template.Some? && inst.template.value in templates.items && inst.suffix.Some? ==>
      var merged := ApplyOverride(templates.items[inst.template.value], inst.override.GetOr(NoKeys));
      FormatDependencies(merged.dependencies.GetOr([]), inst.suffix.value) == Err(r.error)
  {
    if inst.template.None? then Err(MissingKey("template"))
    else if inst.template.value !in templates.items then Err(UnknownTemplate(inst.template.value))
    else
      var merged := ApplyOverride(templates.items[inst.template.value], inst.override.GetOr(NoKeys));
      if inst.suffix.None? then Err(MissingKey("suffix"))
      else
        match FormatDependencies(merged.dependencies.GetOr([]), inst.suffix.value)
        case Err(e) => Err(e)
        case Ok(deps) =>
          var define := if merged.dependencies.Some? then merged.(dependencies := Some(deps)) else merged;
          Ok(Instantiated(inst.template.value + "_" + inst.suffix.value, define))
  }

  /** `__load_with_template`: the parameter a template instance registers. */
  function TemplateParam(inst: TemplateInstance, templates: Table<Define>): (r: Result<Param, Error>)
    ensures r.Ok? ==>
      && TemplateDefine(inst, templates).Ok?
      && r.value.name == inst.template.value + "_" + inst.suffix.value
    ensures TemplateDefine(inst, templates).Err? ==> r == Err(TemplateDefine(inst, templates).error)
    ensures TemplateDefine(inst, templates).Ok? ==>
      r == Create(TemplateDefine(inst, templates).value.name, TemplateDefine(inst, templates).value.define)
  {
    match TemplateDefine(inst, templates)
    case Err(e) => Err(e)
    case Ok(x) => Create(x.name, x.define)
  }

  /** One step per template instance, in list order. */
  function TemplateResults(insts: seq<TemplateInstance>, templates: Table<Define>): (rs: seq<Result<Param, Error>>)
    ensures |rs| == |insts| && forall n :: 0 <= n < |insts| ==> rs[n] == TemplateParam(insts[n], templates)
  {
    seq(|insts|, n requires 0 <= n < |insts| => TemplateParam(insts[n], templates))
  }

  // ---------------------------------------------------------------------
  // __load_with_inner_type

  /** `f"{prefix}{name}"` for every dependency name. */
  function PrefixNames(prefix: string, deps: seq<Dependency>): (r: seq<Dependency>)
    ensures |r| == |deps|
    ensures forall i :: 0 <= i < |deps| ==> r[i] == deps[i].(name := prefix + deps[i].name)
  {
    seq(|deps|, i requires 0 <= i < |deps| => deps[i].(name := prefix + deps[i].name))
  }

  /** The value the instance's `overrides` give a field, else the field's own default. */
  function FieldDefault(field: Param, overrides: Table<Value>): Value
  {
    if field.name in overrides.items then overrides.items[field.name] else field.defaultValue
  }

  /** The body of the field loop of `__load_with_inner_type`: a copy of field
      `k` renamed `{inner}_{field}_{suffix}`, attached to its inner type, with the
      overridden default and with dependency names made `{inner}_` + the
      substituted name. */
  function InstanceField(inner: InnerType, k: nat, inst: InnerTypeInstance): Result<Param, Error>
    requires k < |inner.fields|
  {
    var f := inner.fields[k];
    if inst.suffix.None? then Err(MissingKey("suffix"))
    else
      match FormatDependencies(f.dependencies, inst.suffix.value)
      case Err(e) => Err(e)
      case Ok(deps) =>
        Ok(f.(defaultValue := FieldDefault(f, inst.overrides.GetOr(Empty())),
              dependencies := PrefixNames(inner.name + "_", deps),
              name := inner.name + "_" + f.name + "_" + inst.suffix.value,
              basename := f.name,
              parent := Some(ParentRef(inner.name, inner.structName)),
              suffix := inst.suffix.value))
  }

  /** What the copy of field `k` is: a missing suffix is an error; otherwise
      the copy fails exactly when a dependency name cannot be formatted, and a
      successful copy differs from the field only in its name, base name,
      parent, suffix, default and dependency names. */
  lemma InstanceFieldShape(inner: InnerType, k: nat, inst: InnerTypeInstance)
    requires k < |inner.fields|
    ensures var r := InstanceField(inner, k, inst);
      && (inst.suffix.None? ==> r == Err(MissingKey("suffix")))
      && (inst.suffix.Some? ==>
            (r.Err? <==> FormatDependencies(inner.fields[k].dependencies, inst.suffix.value).Err?))
    ensures var r := InstanceField(inner, k, inst);
      r.Ok? ==>
      var f := inner.fields[k];
      var s := inst.suffix.value;
      && inst.suffix.Some?
      && r.value.name == inner.name + "_" + f.name + "_" + s
      && r.value.basename == f.name
      && r.value.parent == Some(ParentRef(inner.name, inner.structName))
      && r.value.suffix == s
      && r.value.defaultValue == FieldDefault(f, inst.overrides.GetOr(Empty()))
      && r.value.(name := f.name, basename := f.basename, parent := f.parent, suffix := f.suffix,
                  defaultValue := f.defaultValue, dependencies := f.dependencies) == f
      && |r.value.dependencies| == |f.dependencies|
      && forall i :: 0 <= i < |f.dependencies| ==>
           && r.value.dependencies[i].condition == f.dependencies[i].condition
           && StartsWith(r.value.dependencies[i].name, inner.name + "_")
           && FormatSuffix(f.dependencies[i].name, s) == Ok(r.value.dependencies[i].name[|inner.name| + 1..])
  {
  }

  /** The steps of one inner-type instance: a lookup error, or one step per field. */
  function InstanceResults(inst: InnerTypeInstance, innerTypes: Table<InnerType>): (rs: seq<Result<Param, Error>>)
    ensures inst.innerType.None? ==> rs == [Err(MissingKey("inner_type"))]
    ensures inst.innerType.Some? && inst.innerType.value !in innerTypes.items ==>
              rs == [Err(UnknownInnerType(inst.innerType.value))]
    ensures inst.innerType.Some? && inst.innerType.value in innerTypes.items ==>
      var inner := innerTypes.items[inst.innerType.value];
      |rs| == |inner.fields| && forall k :: 0 <= k < |rs| ==> rs[k] == InstanceField(inner, k, inst)
  {
    if inst.innerType.None? then [Err(MissingKey("inner_type"))]
    else if inst.innerType.value !in innerTypes.items then [Err(UnknownInnerType(inst.innerType.value))]
    else
      var inner := innerTypes.items[inst.innerType.value];
      seq(|inner.fields|, k requires 0 <= k < |inner.fields| => InstanceField(inner, k, inst))
  }

  /** The steps of the inner-type instances from the `n`-th on. */
  function InstancesFrom(insts: seq<InnerTypeInstance>, n: nat, innerTypes: Table<InnerType>): seq<Result<Param, Error>>
    requires n <= |insts|
    decreases |insts| - n
  {
    if n == |insts| then [] else InstanceResults(insts[n], innerTypes) + InstancesFrom(insts, n + 1, innerTypes)
  }

  // ---------------------------------------------------------------------
  // The inner-type table

  /** One `InnerType.create` per entry of `inner_types`, in table order. */
  function InnerTypeResults(defs: Table<Table<Define>>, casing: Casing): (rs: seq<Result<InnerType, Error>>)
    ensures |rs| == |defs.keys|
    ensures forall j :: 0 <= j < |defs.keys| ==> rs[j] == CreateInnerType(defs.keys[j], defs.items[defs.keys[j]], casing)
  {
    seq(|defs.keys|, j requires 0 <= j < |defs.keys| => CreateInnerType(defs.keys[j], defs.items[defs.keys[j]], casing))
  }

  /** `{name: InnerType.create(name, d) for name, d in inner_types.items()}` */
  function InnerTypes(defs: Table<Table<Define>>, casing: Casing): Result<Table<InnerType>, Error>
  {
    match AllOk(InnerTypeResults(defs, casing))
    case Err(e) => Err(e)
    case Ok(ts) => Ok(PutAll(Empty(), ts, InnerTypeName))
  }

  /** Each created inner type carries the name of its entry. */
  lemma InnerTypeNames(defs: Table<Table<Define>>, casing: Casing, ts: seq<InnerType>)
    requires AllOk(InnerTypeResults(defs, casing)) == Ok(ts)
    ensures KeysOf(ts, InnerTypeName) == defs.keys
  {
    forall j | 0 <= j < |defs.keys|
      ensures InnerTypeName(ts[j]) == defs.keys[j]
    {
      assert Ok(ts[j]) == CreateInnerType(defs.keys[j], defs.items[defs.keys[j]], casing);
    }
  }

  /** The inner-type table has the keys of `inner_types` in the same order. */
  lemma InnerTypesKeys(defs: Table<Table<Define>>, casing: Casing)
    requires InnerTypes(defs, casing).Ok?
    ensures InnerTypes(defs, casing).value.keys == defs.keys
  {
    var ts := AllOk(InnerTypeResults(defs, casing)).value;
    InnerTypeNames(defs, casing, ts);
    PutAllKeys(Empty(), ts, InnerTypeName);
    assert Empty<InnerType>().keys + defs.keys == defs.keys;
    DedupOfDistinct(defs.keys);
  }

  /** Each key of the inner-type table holds the inner type created from its entry. */
  lemma InnerTypesItem(defs: Table<Table<Define>>, casing: Casing, j: nat)
    requires InnerTypes(defs, casing).Ok? && j < |defs.keys|
    ensures defs.keys[j] in InnerTypes(defs, casing).value.items
    ensures Ok(InnerTypes(defs, casing).value.items[defs.keys[j]]) ==
            CreateInnerType(defs.keys[j], defs.items[defs.keys[j]], casing)
  {
    var ts := AllOk(InnerTypeResults(defs, casing)).value;
    InnerTypeNames(defs, casing, ts);
    LastOfDistinct(ts, InnerTypeName, j);
    PutAllItems(Empty(), ts, InnerTypeName, defs.keys[j]);
  }

  // ---------------------------------------------------------------------
  // Registration

  /** The parameters registered, in registration order: the direct defines,
      then one per template instance, then one per field of each inner-type
      instance; with the inner-type table built in between. */
  datatype Registration = Registration(params: seq<Param>, innerTypes: Table<InnerType>)

  /** The parameters of the direct defines, then of the template instances. */
  function DirectParams(sec: ParametersSection): Result<seq<Param>, Error>
  {
    AllOk(CreateEntries(sec.defines.GetOr(Empty())) + TemplateResults(sec.fromTemplates.GetOr([]), sec.templates.GetOr(Empty())))
  }

  function RegisteredParams(sec: ParametersSection, casing: Casing): Result<Registration, Error>
  {
    match DirectParams(sec)
    case Err(e) => Err(e)
    case Ok(ps) =>
      match InnerTypes(sec.innerTypes.GetOr(Empty()), casing)
      case Err(e) => Err(e)
      case Ok(its) =>
        match AllOk(InstancesFrom(sec.fromInnerTypes.GetOr([]), 0, its))
        case Err(e) => Err(e)
        case Ok(qs) => Ok(Registration(ps + qs, its))
  }

  /** The direct parameters: one per define, in table order, then one per
      template instance, in list order. */
  lemma DirectParamsOrder(sec: ParametersSection)
    requires DirectParams(sec).Ok?
    ensures var defs := sec.defines.GetOr(Empty());
      var insts := sec.fromTemplates.GetOr([]);
      var ps := DirectParams(sec).value;
      && |ps| == |defs.keys| + |insts|
      && (forall j :: 0 <= j < |defs.keys| ==> CreateEntry(defs, j) == Ok(ps[j]))
      && (forall n :: 0 <= n < |insts| ==>
            TemplateParam(insts[n], sec.templates.GetOr(Empty())) == Ok(ps[|defs.keys| + n]))
  {
    var defs := sec.defines.GetOr(Empty());
    var insts := sec.fromTemplates.GetOr([]);
    var xs := CreateEntries(defs);
    var ys := TemplateResults(insts, sec.templates.GetOr(Empty()));
    var ps := DirectParams(sec).value;
    AllOkConcatAt(xs, ys);
    forall j | 0 <= j < |defs.keys|
      ensures CreateEntry(defs, j) == Ok(ps[j])
    {
      assert xs[j] == CreateEntry(defs, j);
    }
    forall n | 0 <= n < |insts|
      ensures TemplateParam(insts[n], sec.templates.GetOr(Empty())) == Ok(ps[|defs.keys| + n])
    {
      assert ys[n] == TemplateParam(insts[n], sec.templates.GetOr(Empty()));
    }
  }

  /** The registration order: first the direct parameters, then the
      inner-type instance fields. */
  lemma RegistrationOrder(sec: ParametersSection, casing: Casing)
    requires RegisteredParams(sec, casing).Ok?
    ensures var defs := sec.defines.GetOr(Empty());
      var insts := sec.fromTemplates.GetOr([]);
      var ps := RegisteredParams(sec, casing).value.params;
      && |ps| >= |defs.keys| + |insts|
      && (forall j :: 0 <= j < |defs.keys| ==> CreateEntry(defs, j) == Ok(ps[j]))
      && (forall n :: 0 <= n < |insts| ==>
            TemplateParam(insts[n], sec.templates.GetOr(Empty())) == Ok(ps[|defs.keys| + n]))
      && AllOk(InstancesFrom(sec.fromInnerTypes.GetOr([]), 0, RegisteredParams(sec, casing).value.innerTypes))
         == Ok(ps[|defs.keys| + |insts|..])
  {
    var ps := DirectParams(sec).value;
    DirectParamsOrder(sec);
    var its := InnerTypes(sec.innerTypes.GetOr(Empty()), casing).value;
    var qs := AllOk(InstancesFrom(sec.fromInnerTypes.GetOr([]), 0, its)).value;
    assert RegisteredParams(sec, casing) == Ok(Registration(ps + qs, its));
    assert (ps + qs)[|ps|..] == qs;
    assert forall j :: 0 <= j < |ps| ==> (ps + qs)[j] == ps[j];
  }

  /** The table after registration: every registered name, each at its first
      registration, holding the parameter registered last under that name. A
      name registered again keeps its place and only its value changes. */
  lemma RegisteredTable(t0: Table<Param>, ps: seq<Param>, k: string)
    ensures PutAll(t0, ps, ParamName).keys == Dedup(t0.keys + KeysOf(ps, ParamName))
    ensures k in PutAll(t0, ps, ParamName).items <==> k in t0.items || LastWith(ps, ParamName, k).Some?
    ensures LastWith(ps, ParamName, k).Some? ==> PutAll(t0, ps, ParamName).items[k] == LastWith(ps, ParamName, k).value
  {
    PutAllKeys(t0, ps, ParamName);
    PutAllItems(t0, ps, ParamName, k);
  }

  // ---------------------------------------------------------------------
  // Ids, names and dependency links

  /** The first dependency, from the `from`-th on, whose name is not a key of `t`. */
  function MissingDependency(deps: seq<Dependency>, t: Table<Param>, from: nat): (r: Option<string>)
    requires from <= |deps|
    ensures r.None? <==> forall j :: from <= j < |deps| ==> deps[j].name in t.items
    ensures r.Some? ==> r.value !in t.items
    decreases |deps| - from
  {
    if from == |deps| then None
    else if deps[from].name !in t.items then Some(deps[from].name)
    else MissingDependency(deps, t, from + 1)
  }

  /** The first parameter, from the `i`-th on, with a dependency that names no
      parameter: the error names that parameter's key and the missing name. */
  function FirstUnresolved(t: Table<Param>, i: nat): Option<Error>
    requires i <= |t.keys|
    decreases |t.keys| - i
  {
    if i == |t.keys| then None
    else
      match MissingDependency(t.items[t.keys[i]].dependencies, t, 0)
      case Some(d) => Some(UnresolvedDependency(t.keys[i], d))
      case None => FirstUnresolved(t, i + 1)
  }

  /** The parameter under the `i`-th key after `assign_id(i)` and `generate_names()`. */
  function Finalized(t: Table<Param>, i: nat, casing: Casing): Param
    requires i < |t.keys|
  {
    GenerateNames(t.items[t.keys[i]].(id := i), casing)
  }

  /** Every parameter of the table finalized, in key order. */
  function FinalizedAll(t: Table<Param>, casing: Casing): (r: seq<Param>)
    ensures |r| == |t.keys| && forall j :: 0 <= j < |t.keys| ==> r[j] == Finalized(t, j, casing)
  {
    seq(|t.keys|, j requires 0 <= j < |t.keys| => Finalized(t, j, casing))
  }

  /** One step of the final pass: the `i`-th entry is still the registered
      parameter, finalizing it keeps its dependencies, and the search for an
      unresolved dependency either stops at it or moves on. */
  lemma LinkStep(t: Table<Param>, casing: Casing, i: nat)
    requires i < |t.keys|
    ensures SetFirst(t, FinalizedAll(t, casing), i).items[t.keys[i]] == t.items[t.keys[i]]
    ensures Finalized(t, i, casing).dependencies == t.items[t.keys[i]].dependencies
    ensures var m := MissingDependency(t.items[t.keys[i]].dependencies, t, 0);
      FirstUnresolved(t, i) == if m.Some? then Some(UnresolvedDependency(t.keys[i], m.value)) else FirstUnresolved(t, i + 1)
  {
    SetFirstAt(t, FinalizedAll(t, casing), i, i);
    FinalizedDependencies(t, i, casing);
    FirstUnresolvedStep(t, i);
  }

  /** Numbering and naming a parameter leave its dependencies alone. */
  lemma FinalizedDependencies(t: Table<Param>, i: nat, casing: Casing)
    requires i < |t.keys|
    ensures Finalized(t, i, casing).dependencies == t.items[t.keys[i]].dependencies
  {
  }

  /** The search stops at the `i`-th parameter exactly when it has a missing dependency. */
  lemma FirstUnresolvedStep(t: Table<Param>, i: nat)
    requires i < |t.keys|
    ensures var m := MissingDependency(t.items[t.keys[i]].dependencies, t, 0);
      FirstUnresolved(t, i) == if m.Some? then Some(UnresolvedDependency(t.keys[i], m.value)) else FirstUnresolved(t, i + 1)
  {
  }

  /** The last loop of `load_parameter_config`: number the parameters in table
      order, derive their names, and link every dependency to the parameter of
      that name, failing at the first name that is not a key. */
  function Link(t: Table<Param>, casing: Casing): Result<Table<Param>, Error>
  {
    match FirstUnresolved(t, 0)
    case Some(e) => Err(e)
    case None => Ok(SetFirst(t, FinalizedAll(t, casing), |t.keys|))
  }

  /** Every dependency of the parameter under the `m`-th key names a parameter. */
  predicate Resolved(t: Table<Param>, m: nat)
    requires m < |t.keys|
  {
    MissingDependency(t.items[t.keys[m]].dependencies, t, 0).None?
  }

  /** Linking succeeds exactly when every dependency names a parameter. */
  lemma {:induction false} LinkSucceeds(t: Table<Param>, i: nat)
    requires i <= |t.keys|
    ensures FirstUnresolved(t, i).None? <==> forall m :: i <= m < |t.keys| ==> Resolved(t, m)
    decreases |t.keys| - i
  {
    if i < |t.keys| {
      LinkSucceeds(t, i + 1);
      assert (forall m :: i <= m < |t.keys| ==> Resolved(t, m)) <==>
             Resolved(t, i) && forall m :: i + 1 <= m < |t.keys| ==> Resolved(t, m);
    }
  }

  /** A failed link reports the first missing dependency of the first
      parameter that has one. */
  lemma {:induction false} LinkFails(t: Table<Param>, i: nat)
    requires i <= |t.keys| && FirstUnresolved(t, i).Some?
    ensures exists m :: (&& i <= m < |t.keys| && !Resolved(t, m)
                         && FirstUnresolved(t, i) == Some(UnresolvedDependency(t.keys[m], MissingDependency(t.items[t.keys[m]].dependencies, t, 0).value))
                         && forall l :: i <= l < m ==> Resolved(t, l))
    decreases |t.keys| - i
  {
    if Resolved(t, i) {
      LinkFails(t, i + 1);
    } else {
      assert !Resolved(t, i) && FirstUnresolved(t, i) == Some(UnresolvedDependency(t.keys[i], MissingDependency(t.items[t.keys[i]].dependencies, t, 0).value));
    }
  }

  /** After linking, the keys are unchanged and the parameter under the `i`-th
      key is the one that was there, with id `i` and its names derived. */
  lemma LinkShape(t: Table<Param>, casing: Casing, i: nat)
    requires Link(t, casing).Ok? && i < |t.keys|
    ensures var u := Link(t, casing).value;
      && u.keys == t.keys
      && u.items[t.keys[i]] == GenerateNames(t.items[t.keys[i]].(id := i), casing)
      && u.items[t.keys[i]].id == i
      && u.items[t.keys[i]].names.Some?
  {
    SetFirstAt(t, FinalizedAll(t, casing), |t.keys|, i);
  }

  /** The state linking leaves: the parameter under the `i`-th key has id `i`
      and its names, and each of its dependencies names a parameter of the table. */
  predicate Linked(t: Table<Param>)
  {
    forall i :: 0 <= i < |t.keys| ==>
      && t.items[t.keys[i]].id == i && t.items[t.keys[i]].names.Some?
      && forall d :: d in t.items[t.keys[i]].dependencies ==> d.name in t.items
  }

  /** A successful link leaves the table linked. */
  lemma LinkLinked(t: Table<Param>, casing: Casing)
    requires Link(t, casing).Ok?
    ensures Linked(Link(t, casing).value)
  {
    var u := Link(t, casing).value;
    LinkSucceeds(t, 0);
    forall i | 0 <= i < |t.keys|
      ensures u.items[u.keys[i]].id == i && u.items[u.keys[i]].names.Some?
      ensures forall d :: d in u.items[u.keys[i]].dependencies ==> d.name in u.items
    {
      LinkShape(t, casing, i);
      assert Resolved(t, i);
    }
  }

  // ---------------------------------------------------------------------
  // load_parameter_config

  /** The generator state `load_parameter_config` leaves behind. */
  datatype Loaded = Loaded(pluginInfo: PluginInfo, parameters: Table<Param>, innerTypes: Table<InnerType>)

  /** `load_parameter_config()` on a generator whose tables are `params0` and
      `innerTypes0`: without a `parameters` section only the plugin info is
      taken; otherwise registration, the inner-type table and linking. */
  function Load(c: ProjectConfig, params0: Table<Param>, innerTypes0: Table<InnerType>, casing: Casing): Result<Loaded, Error>
  {
    match PluginInfoOf(c)
    case Err(e) => Err(e)
    case Ok(info) =>
      if !HasParameters(c) then Ok(Loaded(info, params0, innerTypes0))
      else
        match RegisteredParams(c.parameters.value, casing)
        case Err(e) => Err(e)
        case Ok(reg) =>
          match Link(PutAll(params0, reg.params, ParamName), casing)
          case Err(e) => Err(e)
          case Ok(t) => Ok(Loaded(info, t, reg.innerTypes))
  }

  /** The configuration `load_parameter_config` reads is never loaded: its
      plugin info read fails, while the same read of a loaded project file
      with plugin info and no `parameters` section succeeds and keeps the
      tables as they were. */
  lemma UnloadedConfigFails(info: PluginInfo, params0: Table<Param>, innerTypes0: Table<InnerType>, casing: Casing)
    ensures PluginInfoOfState(None) == Err(NotSubscriptable("plugin_info"))
    ensures Load(ProjectConfig(Some(info), None, None), params0, innerTypes0, casing) == Ok(Loaded(info, params0, innerTypes0))
  {
  }

  /** On a fresh generator: the parameter keys are the registered names in
      registration order, each at its first registration, and the ids are
      0..N-1 in that order. */
  lemma LoadFresh(c: ProjectConfig, casing: Casing)
    requires HasParameters(c) && Load(c, Empty(), Empty(), casing).Ok?
    ensures var reg := RegisteredParams(c.parameters.value, casing);
      var l := Load(c, Empty(), Empty(), casing).value;
      && reg.Ok?
      && l.parameters.keys == Dedup(KeysOf(reg.value.params, ParamName))
      && l.innerTypes == reg.value.innerTypes
      && forall i :: 0 <= i < |l.parameters.keys| ==>
           l.parameters.items[l.parameters.keys[i]].id == i && l.parameters.items[l.parameters.keys[i]].names.Some?
  {
    var reg := RegisteredParams(c.parameters.value, casing).value;
    var t := PutAll(Empty(), reg.params, ParamName);
    PutAllKeys(Empty(), reg.params, ParamName);
    assert Empty<Param>().keys + KeysOf(reg.params, ParamName) == KeysOf(reg.params, ParamName);
    forall i | 0 <= i < |t.keys|
      ensures Link(t, casing).value.items[t.keys[i]].id == i && Link(t, casing).value.items[t.keys[i]].names.Some?
    {
      LinkShape(t, casing, i);
    }
  }
}
