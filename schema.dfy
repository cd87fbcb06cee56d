/** The shapes of the project configuration (wpe_project.toml) that the
    parameter generator reads: TOML scalars, parameter definition tables,
    template and inner-type instances, and the `%(suffix)s` placeholder of
    dependency names. */
module Schema {
  import opened Wrappers
  import opened Errors
  import opened Strings
  import opened OrderedDict

  /** A TOML scalar. A float keeps the text Python's `str` prints for it. */
  datatype Value = NoneValue | BoolValue(b: bool) | IntValue(i: int) | FloatValue(repr: string) | StrValue(s: string)

  /** Python's `str(v)` (and the text an f-string interpolates). */
  function Str(v: Value): string
  {
    match v
    case NoneValue => "None"
    case BoolValue(b) => if b then "True" else "False"
    case IntValue(i) => IntToString(i)
    case FloatValue(r) => r
    case StrValue(s) => s
  }

  /** Python truthiness. */
  predicate Truthy(v: Value)
  {
    match v
    case NoneValue => false
    case BoolValue(b) => b
    case IntValue(i) => i != 0
    case FloatValue(r) => r != "0.0" && r != "-0.0"
    case StrValue(s) => s != ""
  }

  /** `str(b).lower()` of a boolean is the C++ literal of that boolean. */
  lemma LowerStrBool(b: bool)
    ensures Lower(Str(BoolValue(b))) == if b then "true" else "false"
  {
  }

  /** One entry of an `enumeration` list. */
  datatype EnumOption = EnumOption(value: Value, displayName: string)

  /** The `condition` of a dependency: an enumeration of values, a range, or
      any other tag (rendered as an empty condition). */
  datatype Condition =
    | EnumerationCondition(values: seq<Value>)
    | RangeCondition(min: Value, max: Value)
    | OtherCondition(tag: string)

  /** A dependency table: the parameter it refers to (by name) and the condition. */
  datatype Dependency = Dependency(name: string, condition: Condition)

  /** One entry of a `description` list. */
  datatype Description = Description(language: string, text: string)

  /** The keys of a parameter definition table that `Parameter.create` reads;
      `None` stands for an absent key. */
  datatype Define = Define(
    typ: Option<string>,            // 'type'
    rtpcType: Option<string>,       // 'rtpc_type'
    rtpc: Option<Value>,            // 'rtpc'
    defaultValue: Option<Value>,    // 'default_value'
    minValue: Option<Value>,        // 'min_value'
    maxValue: Option<Value>,        // 'max_value'
    dataMeaning: Option<string>,    // 'data_meaning'
    description: Option<seq<Description>>,
    dependencies: Option<seq<Dependency>>,
    displayName: Option<string>,    // 'display_name'
    enumeration: Option<seq<EnumOption>>,
    userInterface: Option<string>)  // 'user_interface'

  /** A definition table without any key. */
  const NoKeys := Define(None, None, None, None, None, None, None, None, None, None, None, None)

  function Pick<T>(over: Option<T>, base: Option<T>): Option<T>
  {
    if over.Some? then over else base
  }

  /** `template[key] = value` for every key of an `override` table. */
  function ApplyOverride(template: Define, override: Define): (r: Define)
  {
    Define(Pick(override.typ, template.typ), Pick(override.rtpcType, template.rtpcType),
           Pick(override.rtpc, template.rtpc), Pick(override.defaultValue, template.defaultValue),
           Pick(override.minValue, template.minValue), Pick(override.maxValue, template.maxValue),
           Pick(override.dataMeaning, template.dataMeaning), Pick(override.description, template.description),
           Pick(override.dependencies, template.dependencies), Pick(override.displayName, template.displayName),
           Pick(override.enumeration, template.enumeration), Pick(override.userInterface, template.userInterface))
  }

  /** An empty override leaves the template as it is, and applying the same
      override twice is applying it once. */
  lemma ApplyOverrideLaws(template: Define, override: Define)
    ensures ApplyOverride(template, NoKeys) == template
    ensures ApplyOverride(ApplyOverride(template, override), override) == ApplyOverride(template, override)
    ensures ApplyOverride(NoKeys, override) == override
  {
  }

  /** An entry of `from_templates`. */
  datatype TemplateInstance = TemplateInstance(template: Option<string>, suffix: Option<string>, override: Option<Define>)

  /** An entry of `from_inner_types`; `overrides` maps field names to default values. */
  datatype InnerTypeInstance = InnerTypeInstance(innerType: Option<string>, suffix: Option<string>, overrides: Option<Table<Value>>)

  // ---------------------------------------------------------------------
  // `name % {'suffix': suffix}`

  /** Python's `fmt % {'suffix': suffix}` for the conversions a dependency name
      uses: `%%` gives '%', `%(suffix)s` gives the suffix, a key other than
      `suffix` is a lookup error, and any other use of '%' is rejected. */
  function FormatSuffix(fmt: string, suffix: string): (r: Result<string, Error>)
    decreases |fmt|
  {
    if fmt == [] then Ok([])
    else if fmt[0] != '%' then Prepend([fmt[0]], FormatSuffix(fmt[1..], suffix))
    else if StartsWith(fmt, "%%") then Prepend("%", FormatSuffix(fmt[2..], suffix))
    else if StartsWith(fmt, "%(suffix)s") then Prepend(suffix, FormatSuffix(fmt[10..], suffix))
    else if StartsWith(fmt, "%(") && ')' in fmt[2..] then
      var key := BeforeFirst(fmt[2..], ')');
      if key != "suffix" then Err(MissingKey(key)) else Err(BadPlaceholder(fmt))
    else Err(BadPlaceholder(fmt))
  }

  function Prepend(s: string, r: Result<string, Error>): Result<string, Error>
  {
    if r.Ok? then Ok(s + r.value) else r
  }

  /** A name without '%' is left as it is. */
  lemma {:induction false} FormatSuffixPlain(fmt: string, suffix: string)
    requires '%' !in fmt
    ensures FormatSuffix(fmt, suffix) == Ok(fmt)
    decreases |fmt|
  {
    if fmt != [] {
      assert fmt[0] != '%' && '%' !in fmt[1..];
      FormatSuffixPlain(fmt[1..], suffix);
      assert FormatSuffix(fmt, suffix) == Prepend([fmt[0]], FormatSuffix(fmt[1..], suffix));
      assert [fmt[0]] + fmt[1..] == fmt;
    }
  }

  /** The placeholder is replaced by the suffix wherever it appears between
      plain text. */
  lemma {:induction false} FormatSuffixPlaceholder(before: string, after: string, suffix: string)
    requires '%' !in before && '%' !in after
    ensures FormatSuffix(before + "%(suffix)s" + after, suffix) == Ok(before + suffix + after)
    decreases |before|
  {
    if before == [] {
      LeadingPlaceholder(after, suffix);
      assert before + "%(suffix)s" + after == "%(suffix)s" + after && before + suffix + after == suffix + after;
    } else {
      var fmt := before + "%(suffix)s" + after;
      assert fmt[1..] == before[1..] + "%(suffix)s" + after;
      FormatSuffixPlaceholder(before[1..], after, suffix);
      assert [before[0]] + (before[1..] + suffix + after) == before + suffix + after;
    }
  }

  lemma LeadingPlaceholder(after: string, suffix: string)
    requires '%' !in after
    ensures FormatSuffix("%(suffix)s" + after, suffix) == Ok(suffix + after)
  {
    var fmt := "%(suffix)s" + after;
    assert fmt[..10] == "%(suffix)s" && fmt[10..] == after;
    assert StartsWith(fmt, "%(suffix)s");
    assert fmt[..2] != "%%" by { assert fmt[1] == '(' && "%%"[1] == '%'; }
    FormatSuffixPlain(after, suffix);
    assert FormatSuffix(fmt, suffix) == Prepend(suffix, FormatSuffix(after, suffix));
  }

  /** Every dependency name with the placeholder substituted; the first name
      that cannot be formatted is the error. */
  function FormatDependencies(deps: seq<Dependency>, suffix: string): (r: Result<seq<Dependency>, Error>)
    ensures r.Ok? ==>
      && |r.value| == |deps|
      && forall i :: 0 <= i < |deps| ==>
           FormatSuffix(deps[i].name, suffix) == Ok(r.value[i].name) && r.value[i].condition == deps[i].condition
    ensures r.Err? ==> exists i :: 0 <= i < |deps| && FormatSuffix(deps[i].name, suffix) == Err(r.error)
  {
    if deps == [] then Ok([])
    else
      match FormatSuffix(deps[0].name, suffix)
      case Err(e) => Err(e)
      case Ok(name) =>
        match FormatDependencies(deps[1..], suffix)
        case Err(e) =>
          assert forall i :: 0 <= i < |deps| - 1 ==> deps[1..][i] == deps[i + 1];
          Err(e)
        case Ok(rest) => Ok([deps[0].(name := name)] + rest)
  }
}
