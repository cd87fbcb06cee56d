/** `Parameter` and `InnerType` of src/wpe/parameter.py: construction from a
    definition table, name derivation, and the text each parameter contributes
    to the generated C++, XML and Win32 resource files. */
module Parameters {
  import opened Wrappers
  import opened Errors
  import opened Strings
  import opened Schema

  // ---------------------------------------------------------------------
  // Types and their spellings

  /** The four supported `type` values. */
  datatype Kind = Float | Int | UInt | Bool

  function KindName(k: Kind): string
  {
    match k
    case Float => "float"
    case Int => "int"
    case UInt => "uint"
    case Bool => "bool"
  }

  /** The `type_ in _wwise_type_name_map` test, giving the kind it names. */
  function ParseKind(s: string): (r: Option<Kind>)
    ensures r.Some? <==> s in {"float", "int", "uint", "bool"}
    ensures r.Some? ==> KindName(r.value) == s
  {
    if s == "float" then Some(Float)
    else if s == "int" then Some(Int)
    else if s == "uint" then Some(UInt)
    else if s == "bool" then Some(Bool)
    else None
  }

  /** Every kind is recognised under its own name. */
  lemma ParseKindRoundTrip(k: Kind)
    ensures ParseKind(KindName(k)) == Some(k)
  {
  }

  /** `_type_prefix_map` */
  function TypePrefix(k: Kind): string
  {
    match k
    case Float => "f"
    case Int => "i"
    case UInt => "u"
    case Bool => "b"
  }

  /** `_wwise_type_name_map` */
  function WwiseTypeName(k: Kind): string
  {
    match k
    case Float => "AkReal32"
    case Int => "AkInt32"
    case UInt => "AkUInt32"
    case Bool => "bool"
  }

  /** `_xml_type_name_map` */
  function XmlTypeName(k: Kind): string
  {
    match k
    case Float => "Real32"
    case Int => "int32"
    case UInt => "Uint32"
    case Bool => "bool"
  }

  /** `_supported_rtpc_types` */
  const SupportedRtpcTypes: set<string> := {"Additive", "Multiplicative", "Exclusive", "Boolean"}

  /** `convert_compound_cases` of kkpyutil, which is not part of this model:
      `pascal` is its default style, `title` its 'title' style. */
  datatype Casing = Casing(pascal: string -> string, title: string -> string)

  // ---------------------------------------------------------------------
  // Parameter

  /** What a parameter keeps of the inner type it was instantiated from. */
  datatype ParentRef = ParentRef(name: string, structName: string)

  /** The storage struct a parameter lives in (`struct`). */
  datatype Bucket = InnerTypeBucket | RtpcBucket | NonRtpcBucket

  function BucketName(b: Bucket): string
  {
    match b
    case InnerTypeBucket => "InnerType"
    case RtpcBucket => "RTPC"
    case NonRtpcBucket => "NonRTPC"
  }

  /** The attributes `generate_names` adds. */
  datatype Names = Names(propertyName: string, cppVariableName: string, paramIdName: string,
                         bucket: Bucket, nameSpace: string)

  /** A `Parameter`. `names` is None until `generate_names` has run. */
  datatype Param = Param(
    name: string,
    kind: Kind,
    rtpcType: string,
    defaultValue: Value,
    minValue: Value,
    maxValue: Value,
    dataMeaning: string,
    description: seq<Description>,
    dependencies: seq<Dependency>,
    displayName: string,
    enumeration: seq<EnumOption>,
    userInterface: string,
    id: int,
    parent: Option<ParentRef>,
    basename: string,
    suffix: string,
    names: Option<Names>)

  /** The `rtpc_type` a definition yields: its own entry, else 'Exclusive' when
      `rtpc` is truthy, else empty. */
  function RtpcTypeOf(d: Define): string
  {
    if d.rtpcType.Some? then d.rtpcType.value
    else if d.rtpc.Some? && Truthy(d.rtpc.value) then "Exclusive"
    else ""
  }

  /** `Parameter.create(name, define)` followed by the checks of `__post_init__`. */
  function Create(name: string, d: Define): (r: Result<Param, Error>)
    ensures r.Ok? <==>
      && d.typ.Some? && d.defaultValue.Some? && ParseKind(d.typ.value).Some?
      && (RtpcTypeOf(d) == "" || RtpcTypeOf(d) in SupportedRtpcTypes)
    ensures d.typ.None? ==> r == Err(MissingKey("type"))
    ensures d.typ.Some? && d.defaultValue.None? ==> r == Err(MissingKey("default_value"))
    ensures d.typ.Some? && d.defaultValue.Some? && ParseKind(d.typ.value).None? ==>
      r == Err(UnsupportedType(name, d.typ.value))
    ensures (&& d.typ.Some? && d.defaultValue.Some? && ParseKind(d.typ.value).Some?
             && RtpcTypeOf(d) != "" && RtpcTypeOf(d) !in SupportedRtpcTypes) ==>
      r == Err(UnsupportedRtpcType(name, RtpcTypeOf(d)))
    ensures r.Ok? ==>
      && r.value.name == name
      && KindName(r.value.kind) == d.typ.value
      && r.value.rtpcType == RtpcTypeOf(d)
      && r.value.defaultValue == d.defaultValue.value
      && r.value.minValue == d.minValue.GetOr(NoneValue)
      && r.value.maxValue == d.maxValue.GetOr(NoneValue)
      && r.value.dependencies == d.dependencies.GetOr([])
      && r.value.displayName == d.displayName.GetOr("")
      && r.value.enumeration == d.enumeration.GetOr([])
      && r.value.userInterface == d.userInterface.GetOr("")
      && r.value.dataMeaning == d.dataMeaning.GetOr("")
      && r.value.description == d.description.GetOr([])
      && r.value.id == 0 && r.value.parent.None? && r.value.basename == "" && r.value.suffix == ""
      && r.value.names.None?
  {
    if d.typ.None? then Err(MissingKey("type"))
    else if d.defaultValue.None? then Err(MissingKey("default_value"))
    else
      var rtpcType := RtpcTypeOf(d);
      match ParseKind(d.typ.value)
      case None => Err(UnsupportedType(name, d.typ.value))
      case Some(kind) =>
        if rtpcType != "" && rtpcType !in SupportedRtpcTypes then Err(UnsupportedRtpcType(name, rtpcType))
        else Ok(Param(name, kind, rtpcType, d.defaultValue.value, d.minValue.GetOr(NoneValue),
                      d.maxValue.GetOr(NoneValue), d.dataMeaning.GetOr(""), d.description.GetOr([]),
                      d.dependencies.GetOr([]), d.displayName.GetOr(""), d.enumeration.GetOr([]),
                      d.userInterface.GetOr(""), 0, None, "", "", None))
  }

  /** `generate_names()`: derives the C++ and XML names, normalises a bool's
      default and bounds to C++ literals, and picks the storage struct. */
  function GenerateNames(p: Param, casing: Casing): (r: Param)
    ensures r.names.Some?
    ensures r.name == p.name && r.id == p.id && r.dependencies == p.dependencies && r.parent == p.parent
  {
    var (dflt, lo, hi) :=
      if p.kind == Bool then (StrValue(Lower(Str(p.defaultValue))), StrValue("false"), StrValue("true"))
      else (p.defaultValue, p.minValue, p.maxValue);
    var propertyName := casing.pascal(p.name);
    var cppVariableName := TypePrefix(p.kind) + casing.pascal(if p.basename != "" then p.basename else propertyName);
    var bucket := if p.parent.Some? then InnerTypeBucket else if p.rtpcType != "" then RtpcBucket else NonRtpcBucket;
    var nameSpace := if p.parent.Some? then BucketName(bucket) + "." + p.parent.value.name + p.suffix else BucketName(bucket);
    p.(defaultValue := dflt, minValue := lo, maxValue := hi,
       displayName := if p.displayName != "" then p.displayName else casing.title(p.name),
       names := Some(Names(propertyName, cppVariableName, "PARAM_" + Upper(p.name) + "_ID", bucket, nameSpace)))
  }

  /** What `generate_names` changes: the default and bounds of a bool become
      C++ literals, an empty display name becomes the title-cased name, the
      names are derived and the storage struct is chosen; nothing else moves. */
  lemma GenerateNamesShape(p: Param, casing: Casing)
    ensures var r := GenerateNames(p, casing);
      && r.(defaultValue := p.defaultValue, minValue := p.minValue, maxValue := p.maxValue,
            displayName := p.displayName, names := p.names) == p
      && (p.kind == Bool ==>
            r.defaultValue == StrValue(Lower(Str(p.defaultValue)))
            && r.minValue == StrValue("false") && r.maxValue == StrValue("true"))
      && (p.kind != Bool ==>
            r.defaultValue == p.defaultValue && r.minValue == p.minValue && r.maxValue == p.maxValue)
      && r.names.value.paramIdName == "PARAM_" + Upper(p.name) + "_ID"
      && (r.names.value.bucket == InnerTypeBucket <==> p.parent.Some?)
      && (r.names.value.bucket == RtpcBucket <==> p.parent.None? && p.rtpcType != "")
      && (r.names.value.bucket == NonRtpcBucket <==> p.parent.None? && p.rtpcType == "")
      && r.displayName == if p.displayName != "" then p.displayName else casing.title(p.name)
  {
  }

  /** Deriving names a second time (as `InnerType.generate_struct_defines`
      does for its fields) changes nothing. */
  lemma GenerateNamesIdempotent(p: Param, casing: Casing)
    ensures GenerateNames(GenerateNames(p, casing), casing) == GenerateNames(p, casing)
  {
    if p.kind == Bool {
      LowerIdempotent(Str(p.defaultValue));
    }
  }

  /** The field of a named parameter: the storage struct instance and the
      member inside it. An inner-type instance lives in the struct member named
      after its inner type and suffix. */
  lemma NameSpaceOfInstance(p: Param, casing: Casing)
    requires p.parent.Some?
    ensures GenerateNames(p, casing).names.value.nameSpace == "InnerType." + p.parent.value.name + p.suffix
    ensures GenerateNames(p, casing).names.value.cppVariableName ==
            TypePrefix(p.kind) + casing.pascal(if p.basename != "" then p.basename else casing.pascal(p.name))
  {
  }

  // ---------------------------------------------------------------------
  // InnerType

  /** An `InnerType`: a named struct whose fields are parameters. */
  datatype InnerType = InnerType(name: string, structName: string, fields: seq<Param>)

  /** `Parameter.create` for the entry at position `j` of a definition table. */
  function CreateEntry(defs: OrderedDict.Table<Define>, j: nat): Result<Param, Error>
    requires j < |defs.keys|
  {
    Create(defs.keys[j], defs.items[defs.keys[j]])
  }

  /** The fields of an inner type: one `Parameter.create` per entry of its
      definition table, in table order, stopping at the first that raises. */
  function CreateFields(defs: OrderedDict.Table<Define>): Result<seq<Param>, Error>
  {
    AllOk(CreateEntries(defs))
  }

  /** One `Parameter.create` outcome per entry, in table order. */
  function CreateEntries(defs: OrderedDict.Table<Define>): (rs: seq<Result<Param, Error>>)
    ensures |rs| == |defs.keys| && forall j :: 0 <= j < |defs.keys| ==> rs[j] == CreateEntry(defs, j)
  {
    seq(|defs.keys|, j requires 0 <= j < |defs.keys| => CreateEntry(defs, j))
  }

  /** `InnerType.create(name, define)`; the struct name is the name in pascal case. */
  function CreateInnerType(name: string, defs: OrderedDict.Table<Define>, casing: Casing): (r: Result<InnerType, Error>)
    ensures r.Ok? ==>
      && r.value.name == name && r.value.structName == casing.pascal(name)
      && |r.value.fields| == |defs.keys|
      && forall j :: 0 <= j < |defs.keys| ==> CreateEntry(defs, j) == Ok(r.value.fields[j])
    ensures r.Err? ==> CreateFields(defs) == Err(r.error)
  {
    match CreateFields(defs)
    case Err(e) => Err(e)
    case Ok(fields) => Ok(InnerType(name, casing.pascal(name), fields))
  }

  /** The member declarations of an inner type's struct. */
  function FieldDeclarations(fields: seq<Param>, casing: Casing): (r: seq<string>)
    ensures |r| == |fields|
    ensures forall i :: 0 <= i < |fields| ==> r[i] == Declaration(GenerateNames(fields[i], casing))
  {
    seq(|fields|, i requires 0 <= i < |fields| => Declaration(GenerateNames(fields[i], casing)))
  }

  /** `generate_struct_defines()` */
  function StructDefinition(t: InnerType, casing: Casing): string
  {
    "struct " + t.structName + "\n{\n    " + Join(FieldDeclarations(t.fields, casing), "\n    ") + "\n};"
  }

  // ---------------------------------------------------------------------
  // Per-parameter C++ lines. Each needs the names `generate_names` derives.

  /** `generate_param_id()` */
  function ParamIdLine(p: Param): string
    requires p.names.Some?
  {
    "static constexpr AkPluginParamID " + p.names.value.paramIdName + " = " + IntToString(p.id) + ";"
  }

  /** `generate_declaration()`: an inner-type instance declares the whole
      struct member; any other parameter declares its own variable. */
  function Declaration(p: Param): string
    requires p.names.Some?
  {
    if p.parent.Some? then p.parent.value.structName + " " + p.parent.value.name + p.suffix + ";"
    else WwiseTypeName(p.kind) + " " + p.names.value.cppVariableName + ";"
  }

  /** All fields of one inner-type instance declare the same struct member. */
  lemma InstanceDeclarationShared(p: Param, q: Param)
    requires p.names.Some? && q.names.Some?
    requires p.parent.Some? && p.parent == q.parent && p.suffix == q.suffix
    ensures Declaration(p) == Declaration(q)
  {
  }

  /** `generate_init()` */
  function InitLine(p: Param): string
    requires p.names.Some?
  {
    p.names.value.nameSpace + "." + p.names.value.cppVariableName + " = " + Str(p.defaultValue) + ";"
  }

  /** `generate_read_bank_data()` */
  function ReadBankLine(p: Param): string
    requires p.names.Some?
  {
    p.names.value.nameSpace + "." + p.names.value.cppVariableName
      + " = READBANKDATA(" + WwiseTypeName(p.kind) + ", pParamsBlock, in_ulBlockSize);"
  }

  /** How a dispatch arm reads the incoming value. */
  datatype ValueAccess = CastFromReal32 | DirectRead

  /** `need_reinterpret`: an RTPC value always arrives as AkReal32, so a
      non-AkReal32 RTPC parameter is read as AkReal32 and cast. */
  function Access(p: Param): (a: ValueAccess)
    ensures a == CastFromReal32 <==> p.kind != Float && p.rtpcType != ""
  {
    if WwiseTypeName(p.kind) != "AkReal32" && p.rtpcType != "" then CastFromReal32 else DirectRead
  }

  /** `interpret_pointer` */
  function ValueRead(p: Param): string
  {
    var t := WwiseTypeName(p.kind);
    match Access(p)
    case CastFromReal32 => "static_cast<" + t + ">(*(AkReal32*)in_pValue)"
    case DirectRead => "*((" + t + "*)in_pValue)"
  }

  /** `generate_set_parameter()` */
  function DispatchArm(p: Param): string
    requires p.names.Some?
  {
    var n := p.names.value;
    "    case " + n.paramIdName + ":\n"
      + "        " + n.nameSpace + "." + n.cppVariableName + " = " + ValueRead(p) + ";\n"
      + "        m_paramChangeHandler.SetParamChange(" + n.paramIdName + ");\n"
      + "        break;"
  }

  /** `generate_property_name_declaration()` */
  function PropertyNameDeclaration(p: Param): string
    requires p.names.Some?
  {
    "extern const char* const sz" + p.names.value.propertyName + ";"
  }

  /** `generate_property_name_definition()` */
  function PropertyNameDefinition(p: Param): string
    requires p.names.Some?
  {
    "const char* const sz" + p.names.value.propertyName + " = \"" + p.names.value.propertyName + "\";"
  }

  /** The type part of the writer and getter names: the Wwise type name with
      leading 'A' and 'k' characters stripped, in pascal case. */
  function AccessorType(k: Kind, casing: Casing): string
  {
    casing.pascal(LStripChars(WwiseTypeName(k), {'A', 'k'}))
  }

  /** For the four type names, stripping the characters 'A' and 'k' removes
      exactly the `Ak` prefix where there is one. */
  lemma StrippedTypeName(k: Kind)
    ensures LStripChars(WwiseTypeName(k), {'A', 'k'}) ==
            if k == Bool then WwiseTypeName(k) else WwiseTypeName(k)[2..]
  {
    var s := WwiseTypeName(k);
    if k == Bool {
      assert s[0] == 'b';
    } else {
      StripAk(s);
    }
  }

  /** A name starting with "Ak" followed by neither 'A' nor 'k' loses exactly "Ak". */
  lemma StripAk(s: string)
    requires |s| >= 3 && s[0] == 'A' && s[1] == 'k' && s[2] !in {'A', 'k'}
    ensures LStripChars(s, {'A', 'k'}) == s[2..]
  {
    assert s == s[..2] + s[2..];
    LStripCharsPrefix(s[..2], s[2..], {'A', 'k'});
  }

  /** `generate_write_bank_data()` */
  function WriteBankLine(p: Param, casing: Casing): string
    requires p.names.Some?
  {
    var t := AccessorType(p.kind, casing);
    "in_dataWriter.Write" + t + "(m_propertySet.Get" + t + "(in_guidPlatform, sz" + p.names.value.propertyName + "));"
  }

  // ---------------------------------------------------------------------
  // XML property fragment

  /** The four fragment shapes of `generate_xml_property`. */
  datatype XmlForm = BoolForm | RangeForm | PlainIntForm | EnumForm

  /** Which fragment a parameter gets: an integer without enumeration but with
      both bounds uses the float (range) fragment. */
  function XmlFormOf(p: Param): (f: XmlForm)
    ensures f == BoolForm <==> p.kind == Bool
    ensures f == RangeForm <==>
      p.kind == Float || (p.kind in {Int, UInt} && p.enumeration == [] && p.minValue != NoneValue && p.maxValue != NoneValue)
    ensures f == PlainIntForm <==>
      p.kind in {Int, UInt} && p.enumeration == [] && (p.minValue == NoneValue || p.maxValue == NoneValue)
    ensures f == EnumForm <==> p.kind in {Int, UInt} && p.enumeration != []
  {
    match p.kind
    case Bool => BoolForm
    case Float => RangeForm
    case _ =>
      if p.enumeration != [] then EnumForm
      else if p.minValue != NoneValue && p.maxValue != NoneValue then RangeForm
      else PlainIntForm
  }

  /** What a `<PropertyDependency>` element is built from once the dependency
      is linked: the target's property and XML type names and the condition. */
  datatype LinkedDependency = LinkedDependency(propertyName: string, xmlTypeName: string, condition: Condition)

  /** The `<Dependencies>` element as lines; `render` stands for the
      ElementTree serialisation, which is not part of this model. There is no
      element when the parameter has no dependencies. */
  function DependencyBlock(linked: seq<LinkedDependency>, render: seq<LinkedDependency> -> seq<string>): seq<string>
  {
    if linked == [] then [] else render(linked)
  }

  function XmlHeader(p: Param): string
    requires p.names.Some?
  {
    var rtpc := if p.rtpcType != "" then "SupportRTPCType=\"" + p.rtpcType + "\"" else "";
    var meaning := if p.dataMeaning != "" then "DataMeaning=\"" + p.dataMeaning + "\"" else "";
    "<Property Name=\"" + p.names.value.propertyName + "\" Type=\"" + XmlTypeName(p.kind) + "\" "
      + rtpc + " " + meaning + " DisplayName=\"" + p.displayName + "\">"
  }

  /** The attributes of the range fragment's `<UserInterface>`: the parameter's
      own, else a default slider reaching up to the maximum. */
  function RangeUserInterface(p: Param): string
  {
    if p.userInterface != "" then p.userInterface
    else "Step=\"0.1\" Fine=\"0.001\" Decimals=\"3\" UIMax=\"" + Str(p.maxValue) + "\""
  }

  function EnumOptionLines(options: seq<EnumOption>): (r: seq<string>)
    ensures |r| == |options|
    ensures forall i :: 0 <= i < |options| ==>
      r[i] == "        <Value DisplayName=\"" + options[i].displayName + "\">" + Str(options[i].value) + "</Value>"
  {
    seq(|options|, i requires 0 <= i < |options| =>
      "        <Value DisplayName=\"" + options[i].displayName + "\">" + Str(options[i].value) + "</Value>")
  }

  /** `generate_xml_property()`, given the lines of the dependency element. */
  function XmlPropertyLines(p: Param, deps: seq<string>): (r: seq<string>)
    requires p.names.Some?
    ensures r != [] && r[0] == XmlHeader(p)
  {
    var dflt := "<DefaultValue>" + Str(p.defaultValue) + "</DefaultValue>";
    var engine := "<AudioEnginePropertyID>" + IntToString(p.id) + "</AudioEnginePropertyID>";
    var x := XmlTypeName(p.kind);
    match XmlFormOf(p)
    case BoolForm =>
      [XmlHeader(p), "  " + dflt, "  " + engine] + deps + ["</Property>"]
    case RangeForm =>
      [XmlHeader(p), "  <UserInterface " + RangeUserInterface(p) + " />", "  " + dflt, "  " + engine,
       "  <Restrictions>", "    <ValueRestriction>", "      <Range Type=\"" + x + "\">",
       "        <Min>" + Str(p.minValue) + "</Min>", "        <Max>" + Str(p.maxValue) + "</Max>",
       "      </Range>", "    </ValueRestriction>", "  </Restrictions>"] + deps + ["</Property>"]
    case PlainIntForm =>
      [XmlHeader(p), Spaces(18) + "<UserInterface " + p.userInterface + " />", Spaces(18) + dflt,
       Spaces(18) + engine, Spaces(16) + "</Property>"]
    case EnumForm =>
      [XmlHeader(p), "  <UserInterface " + p.userInterface + " />", "  " + dflt, "  " + engine,
       "  <Restrictions>", "    <ValueRestriction>", "      <Enumeration Type=\"" + x + "\"> "]
      + EnumOptionLines(p.enumeration)
      + ["      </Enumeration>", "    </ValueRestriction>", "  </Restrictions>"] + deps + ["</Property>"]
  }

  /** Every fragment but the plain one ends with the dependency element
      followed by the closing tag. */
  lemma XmlDependenciesBeforeClose(p: Param, deps: seq<string>)
    requires p.names.Some? && XmlFormOf(p) != PlainIntForm
    ensures var r := XmlPropertyLines(p, deps);
      && |r| >= |deps| + 4
      && r[|r| - 1] == "</Property>" && r[|r| - 1 - |deps|..|r| - 1] == deps
  {
  }

  /** The enumeration fragment lists one option line per enumeration entry,
      in order, inside the `<Enumeration>` element. */
  lemma XmlEnumerationOptions(p: Param, deps: seq<string>)
    requires p.names.Some? && XmlFormOf(p) == EnumForm
    ensures var r := XmlPropertyLines(p, deps);
      && |r| == 11 + |p.enumeration| + |deps|
      && r[7..7 + |p.enumeration|] == EnumOptionLines(p.enumeration)
      && r[7 + |p.enumeration|] == "      </Enumeration>"
  {
  }

  /** An integer parameter without enumeration that lacks a bound gets the
      plain fragment, which carries no dependency element whatever its
      dependencies are. */
  lemma PlainIntFormIgnoresDependencies(p: Param, deps1: seq<string>, deps2: seq<string>)
    requires p.names.Some? && XmlFormOf(p) == PlainIntForm
    ensures XmlPropertyLines(p, deps1) == XmlPropertyLines(p, deps2)
  {
  }

  // ---------------------------------------------------------------------
  // Win32 resource controls

  const RowHeight := 18

  /** Top of the row of the parameter with id `id`. */
  function RowTop(id: int): int
  {
    RowHeight * id + 6
  }

  /** Rows of different parameters do not overlap: each row's 12-unit-high
      control ends before the next row begins. */
  lemma RowsDisjoint(i: int, j: int)
    requires i < j
    ensures RowTop(i) + 12 < RowTop(j)
    ensures RowTop(i) <= RowTop(i) + 2 && RowTop(i) + 2 + 10 <= RowTop(i) + 12
  {
  }

  function OptionsText(options: seq<EnumOption>): string
  {
    Join(seq(|options|, i requires 0 <= i < |options| => Str(options[i].value) + ":" + options[i].displayName), ", ")
  }

  /** The rectangle every control of the parameter's row ends with. */
  function ControlPos(p: Param): string
  {
    ",48," + IntToString(RowTop(p.id)) + ",64,12"
  }

  /** `generate_win32_controls()`: a caption and a control on the parameter's
      row; a `uint` parameter has no control and fails. */
  function Win32Controls(p: Param): (r: Result<seq<string>, Error>)
    requires p.names.Some?
    ensures r.Err? <==> p.kind == UInt
    ensures r.Err? ==> r.error == UnsupportedControl(p.name, "uint")
    ensures r.Ok? ==>
      && |r.value| == 2
      && r.value[0] == "LTEXT \"" + p.displayName + "\",IDC_STATIC,0," + IntToString(RowTop(p.id) + 2) + ",48,10"
      && EndsWith(r.value[1], ",48," + IntToString(RowTop(p.id)) + ",64,12")
    ensures r.Ok? && p.kind == Bool ==>
      r.value[1] == "CONTROL \"" + p.names.value.propertyName + "\",IDC_" + p.names.value.propertyName
                    + ",\"Button\",BS_AUTOCHECKBOX | WS_TABSTOP" + ControlPos(p)
    ensures r.Ok? && p.kind == Int && p.enumeration != [] ==>
      r.value[1] == "LTEXT \"Class=Combo;Prop=" + p.names.value.propertyName + ";Options=" + OptionsText(p.enumeration)
                    + "\",IDC_" + p.names.value.propertyName + ControlPos(p)
    ensures r.Ok? && p.kind == Int && p.enumeration == [] ==>
      r.value[1] == "LTEXT \"Class=Spinner;Prop=" + p.names.value.propertyName + ";Min=" + Str(p.minValue)
                    + ";Max=" + Str(p.maxValue) + "\",IDC_" + p.names.value.propertyName + ControlPos(p)
    ensures r.Ok? && p.kind == Float ==>
      r.value[1] == "LTEXT \"Class=SuperRange;Prop=" + p.names.value.propertyName + "\",IDC_"
                    + p.names.value.propertyName + ControlPos(p)
  {
    var top := RowTop(p.id);
    var title := "LTEXT \"" + p.displayName + "\",IDC_STATIC,0," + IntToString(top + 2) + ",48,10";
    var pos := ControlPos(p);
    var prop := p.names.value.propertyName;
    match p.kind
    case Bool =>
      Ok([title, "CONTROL \"" + prop + "\",IDC_" + prop + ",\"Button\",BS_AUTOCHECKBOX | WS_TABSTOP" + pos])
    case Int =>
      if p.enumeration != [] then
        Ok([title, "LTEXT \"Class=Combo;Prop=" + prop + ";Options=" + OptionsText(p.enumeration) + "\",IDC_" + prop + pos])
      else
        Ok([title, "LTEXT \"Class=Spinner;Prop=" + prop + ";Min=" + Str(p.minValue) + ";Max=" + Str(p.maxValue)
                   + "\",IDC_" + prop + pos])
    case Float =>
      Ok([title, "LTEXT \"Class=SuperRange;Prop=" + prop + "\",IDC_" + prop + pos])
    case UInt => Err(UnsupportedControl(p.name, "uint"))
  }
}
