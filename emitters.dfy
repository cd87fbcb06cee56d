/** What the `__generate_*` emitters of `ParameterGenerator`
    (src/wpe/parameter.py) produce from the loaded tables, stated on the
    parameter table in key order. The generator's loops are proved against
    these. */
module Emitters {
  import opened Wrappers
  import opened Errors
  import opened Strings
  import opened OrderedDict
  import opened Schema
  import opened Parameters
  import opened Catalog
  import Util

  /** The parameter under the `i`-th key: `list(self.parameters.values())[i]`. */
  function ParamAt(t: Table<Param>, i: nat): Param
    requires i < |t.keys|
  {
    t.items[t.keys[i]]
  }

  /** The inner type under the `i`-th key. */
  function InnerTypeAt(t: Table<InnerType>, i: nat): InnerType
    requires i < |t.keys|
  {
    t.items[t.keys[i]]
  }

  /** Every parameter has its names derived. */
  predicate Named(t: Table<Param>)
  {
    forall i :: 0 <= i < |t.keys| ==> ParamAt(t, i).names.Some?
  }

  /** A linked table is named. */
  lemma LinkedNamed(t: Table<Param>)
    requires Linked(t)
    ensures Named(t)
  {
  }

  // ---------------------------------------------------------------------
  // __generate_ids

  /** The closing line of the id block. */
  function NumParamsLine(n: nat): string
  {
    "static constexpr AkUInt32 NUM_PARAMS = " + IntToString(n) + ";"
  }

  /** In a linked table the id lines number the parameters 0, 1, 2, ... in key
      order, so the ids are exactly the values below NUM_PARAMS. */
  lemma IdLinesNumbered(t: Table<Param>, i: nat)
    requires Linked(t) && i < |t.keys|
    ensures ParamIdLine(ParamAt(t, i)) ==
            "static constexpr AkPluginParamID " + ParamAt(t, i).names.value.paramIdName + " = " + NatToString(i) + ";"
    ensures 0 <= ParamAt(t, i).id < |t.keys|
  {
  }

  // ---------------------------------------------------------------------
  // __generate_declarations

  /** The entries `xs[i]` with `keep[i]` among the first `n`, in order. */
  function Filtered(xs: seq<string>, keep: seq<bool>, n: nat): seq<string>
    requires n <= |xs| == |keep|
  {
    if n == 0 then [] else Filtered(xs, keep, n - 1) + (if keep[n - 1] then [xs[n - 1]] else [])
  }

  /** A line is kept exactly when some kept entry is that line. */
  lemma {:induction false} FilteredMembers(xs: seq<string>, keep: seq<bool>, n: nat, x: string)
    requires n <= |xs| == |keep|
    ensures x in Filtered(xs, keep, n) <==> exists i :: 0 <= i < n && keep[i] && xs[i] == x
  {
    if n > 0 {
      FilteredMembers(xs, keep, n - 1, x);
      if keep[n - 1] && xs[n - 1] == x {
        assert Filtered(xs, keep, n) == Filtered(xs, keep, n - 1) + [x];
      }
    }
  }

  /** The declaration of every parameter, in key order. */
  function AllDeclarations(t: Table<Param>): (r: seq<string>)
    requires Named(t)
    ensures |r| == |t.keys| && forall i :: 0 <= i < |t.keys| ==> r[i] == Declaration(ParamAt(t, i))
  {
    seq(|t.keys|, i requires 0 <= i < |t.keys| => Declaration(ParamAt(t, i)))
  }

  /** Which parameters, in key order, are stored in `bucket`. */
  function InBucket(t: Table<Param>, bucket: Bucket): (r: seq<bool>)
    requires Named(t)
    ensures |r| == |t.keys| && forall i :: 0 <= i < |t.keys| ==> r[i] == (ParamAt(t, i).names.value.bucket == bucket)
  {
    seq(|t.keys|, i requires 0 <= i < |t.keys| => ParamAt(t, i).names.value.bucket == bucket)
  }

  /** The declarations of the parameters stored in `bucket`, among the first
      `n`, in key order and with repetitions. */
  function BucketDeclarations(t: Table<Param>, bucket: Bucket, n: nat): seq<string>
    requires Named(t) && n <= |t.keys|
  {
    Filtered(AllDeclarations(t), InBucket(t, bucket), n)
  }

  /** One more parameter adds its declaration when it is stored in `bucket`. */
  lemma BucketDeclarationsStep(t: Table<Param>, bucket: Bucket, n: nat)
    requires Named(t) && n < |t.keys|
    ensures BucketDeclarations(t, bucket, n + 1) == BucketDeclarations(t, bucket, n) +
      (if ParamAt(t, n).names.value.bucket == bucket then [Declaration(ParamAt(t, n))] else [])
  {
  }

  /** `__generate_declarations(struct)` before the line ends: the declarations
      of the bucket with repetitions removed (the fields of one inner-type
      instance share one struct member). */
  function Declarations(t: Table<Param>, bucket: Bucket): seq<string>
    requires Named(t)
  {
    Dedup(BucketDeclarations(t, bucket, |t.keys|))
  }

  /** A line is among the bucket's declarations exactly when some parameter of
      the bucket declares it. */
  lemma BucketDeclarationsMembers(t: Table<Param>, bucket: Bucket, n: nat, x: string)
    requires Named(t) && n <= |t.keys|
    ensures x in BucketDeclarations(t, bucket, n) <==>
            exists i :: 0 <= i < n && ParamAt(t, i).names.value.bucket == bucket && Declaration(ParamAt(t, i)) == x
  {
    FilteredMembers(AllDeclarations(t), InBucket(t, bucket), n, x);
  }

  /** The declaration block lists every declaration of the bucket once, and
      nothing else. */
  lemma DeclarationsSpec(t: Table<Param>, bucket: Bucket, x: string)
    requires Named(t)
    ensures Distinct(Declarations(t, bucket))
    ensures x in Declarations(t, bucket) <==>
            exists i :: 0 <= i < |t.keys| && ParamAt(t, i).names.value.bucket == bucket && Declaration(ParamAt(t, i)) == x
  {
    BucketDeclarationsMembers(t, bucket, |t.keys|, x);
  }

  // ---------------------------------------------------------------------
  // __generate_xml_properties

  /** Whether every dependency of `p` names a parameter whose names are derived. */
  predicate DependenciesResolved(p: Param, t: Table<Param>)
  {
    forall d :: d in p.dependencies ==> d.name in t.items && t.items[d.name].names.Some?
  }

  /** The linked dependencies of `p`: each target's property and XML type
      names with the condition (`dep['obj']` of the source). */
  function LinkedDependencies(p: Param, t: Table<Param>): (r: seq<LinkedDependency>)
    requires DependenciesResolved(p, t)
    ensures |r| == |p.dependencies|
    ensures forall j :: 0 <= j < |r| ==>
      var target := t.items[p.dependencies[j].name];
      r[j] == LinkedDependency(target.names.value.propertyName, XmlTypeName(target.kind), p.dependencies[j].condition)
  {
    seq(|p.dependencies|, j requires 0 <= j < |p.dependencies| =>
      var target := t.items[p.dependencies[j].name];
      LinkedDependency(target.names.value.propertyName, XmlTypeName(target.kind), p.dependencies[j].condition))
  }

  /** In a linked table every parameter's dependencies are resolved. */
  lemma LinkedResolved(t: Table<Param>, i: nat)
    requires Linked(t) && i < |t.keys|
    ensures DependenciesResolved(ParamAt(t, i), t)
  {
    forall d | d in ParamAt(t, i).dependencies
      ensures d.name in t.items && t.items[d.name].names.Some?
    {
      var j :| 0 <= j < |t.keys| && t.keys[j] == d.name;
      assert ParamAt(t, j).names.Some?;
    }
  }

  /** The fragment of one parameter, indented by two. `render` stands for the
      ElementTree serialisation of the dependency element. */
  function XmlFragment(t: Table<Param>, i: nat, render: seq<LinkedDependency> -> seq<string>): seq<string>
    requires Linked(t) && i < |t.keys|
  {
    LinkedResolved(t, i);
    Util.AddIndent(XmlPropertyLines(ParamAt(t, i), DependencyBlock(LinkedDependencies(ParamAt(t, i), t), render)), 2)
  }

  /** The lines of `parts[..n]`, one part after another. */
  function Flattened(parts: seq<seq<string>>, n: nat): seq<string>
    requires n <= |parts|
  {
    if n == 0 then [] else Flattened(parts, n - 1) + parts[n - 1]
  }

  /** Every line starts with two spaces. */
  predicate Indented(lines: seq<string>)
  {
    forall k :: 0 <= k < |lines| ==> StartsWith(lines[k], "  ")
  }

  /** Indented parts flatten into indented lines. */
  lemma {:induction false} FlattenedIndented(parts: seq<seq<string>>, n: nat)
    requires n <= |parts| && forall j :: 0 <= j < |parts| ==> Indented(parts[j])
    ensures Indented(Flattened(parts, n))
  {
    if n > 0 {
      FlattenedIndented(parts, n - 1);
      var prev := Flattened(parts, n - 1);
      var part := parts[n - 1];
      assert Indented(part);
      forall k | 0 <= k < |prev| + |part|
        ensures StartsWith((prev + part)[k], "  ")
      {
        if k >= |prev| {
          assert (prev + part)[k] == part[k - |prev|];
        }
      }
    }
  }

  /** The fragments of all parameters in key order. */
  function Fragments(t: Table<Param>, render: seq<LinkedDependency> -> seq<string>): (r: seq<seq<string>>)
    requires Linked(t)
    ensures |r| == |t.keys|
    ensures forall i :: 0 <= i < |t.keys| ==> r[i] == XmlFragment(t, i, render)
  {
    seq(|t.keys|, i requires 0 <= i < |t.keys| => XmlFragment(t, i, render))
  }

  /** The fragments of the first `n` parameters, one after another. */
  function XmlFragments(t: Table<Param>, n: nat, render: seq<LinkedDependency> -> seq<string>): seq<string>
    requires Linked(t) && n <= |t.keys|
  {
    Flattened(Fragments(t, render), n)
  }

  /** Every line of a fragment is indented by two spaces. */
  lemma XmlFragmentIndented(t: Table<Param>, i: nat, render: seq<LinkedDependency> -> seq<string>)
    requires Linked(t) && i < |t.keys|
    ensures Indented(XmlFragment(t, i, render))
  {
    LinkedResolved(t, i);
    Util.IndentedBy(XmlPropertyLines(ParamAt(t, i), DependencyBlock(LinkedDependencies(ParamAt(t, i), t), render)), 2);
  }

  /** Every line of the properties block is indented by two spaces. */
  lemma XmlFragmentsIndented(t: Table<Param>, n: nat, render: seq<LinkedDependency> -> seq<string>)
    requires Linked(t) && n <= |t.keys|
    ensures Indented(XmlFragments(t, n, render))
  {
    forall i | 0 <= i < |t.keys|
      ensures Indented(Fragments(t, render)[i])
    {
      XmlFragmentIndented(t, i, render);
    }
    FlattenedIndented(Fragments(t, render), n);
  }

  /** The first line of a parameter's fragment is its header. */
  lemma XmlFragmentHeader(t: Table<Param>, i: nat, render: seq<LinkedDependency> -> seq<string>)
    requires Linked(t) && i < |t.keys|
    ensures XmlFragment(t, i, render) != []
    ensures XmlFragment(t, i, render)[0] == "  " + XmlHeader(ParamAt(t, i))
  {
  }

  // ---------------------------------------------------------------------
  // __generate_win32_controls

  /** The lines of `rs[..n]` one after the other; the first error among them
      ends the run. */
  function Joined(rs: seq<Result<seq<string>, Error>>, n: nat): Result<seq<string>, Error>
    requires n <= |rs|
  {
    if n == 0 then Ok([])
    else
      match Joined(rs, n - 1)
      case Err(e) => Err(e)
      case Ok(prev) =>
        match rs[n - 1]
        case Err(e) => Err(e)
        case Ok(lines) => Ok(prev + lines)
  }

  /** The join fails exactly when one of the parts does, and then with the
      first failure. */
  lemma {:induction false} JoinedFail(rs: seq<Result<seq<string>, Error>>, n: nat)
    requires n <= |rs|
    ensures Joined(rs, n).Ok? <==> forall i :: 0 <= i < n ==> rs[i].Ok?
    ensures Joined(rs, n).Err? ==>
      exists i :: (&& 0 <= i < n && rs[i].Err? && (forall m :: 0 <= m < i ==> rs[m].Ok?)
                   && Joined(rs, n).error == rs[i].error)
  {
    if n > 0 {
      JoinedFail(rs, n - 1);
    }
  }

  /** Once the join has failed, joining more parts keeps that failure. */
  lemma {:induction false} JoinedErrStays(rs: seq<Result<seq<string>, Error>>, i: nat, n: nat)
    requires i <= n <= |rs| && Joined(rs, i).Err?
    ensures Joined(rs, n) == Joined(rs, i)
  {
    if n > i {
      JoinedErrStays(rs, i, n - 1);
    }
  }

  /** Parts of two lines each join into two lines per part, the `i`-th pair
      being the `i`-th part. */
  lemma {:induction false} JoinedPairs(rs: seq<Result<seq<string>, Error>>, n: nat, i: nat)
    requires i < n <= |rs| && Joined(rs, n).Ok?
    requires forall j :: 0 <= j < |rs| && rs[j].Ok? ==> |rs[j].value| == 2
    ensures rs[i].Ok? && |Joined(rs, n).value| == 2 * n
    ensures Joined(rs, n).value[2 * i..2 * i + 2] == rs[i].value
  {
    var prev := Joined(rs, n - 1).value;
    var r := Joined(rs, n).value;
    assert r == prev + rs[n - 1].value;
    if i < n - 1 {
      JoinedPairs(rs, n - 1, i);
      assert r[2 * i..2 * i + 2] == prev[2 * i..2 * i + 2];
    } else if n > 1 {
      JoinedPairs(rs, n - 1, 0);
    }
  }

  /** `param.generate_win32_controls()` of every parameter in key order. */
  function Controls(t: Table<Param>): (r: seq<Result<seq<string>, Error>>)
    requires Named(t)
    ensures |r| == |t.keys|
    ensures forall i :: 0 <= i < |t.keys| ==> r[i] == Win32Controls(ParamAt(t, i))
  {
    seq(|t.keys|, i requires 0 <= i < |t.keys| => Win32Controls(ParamAt(t, i)))
  }

  /** The controls of the first `n` parameters. */
  function Win32ControlLines(t: Table<Param>, n: nat): Result<seq<string>, Error>
    requires Named(t) && n <= |t.keys|
  {
    Joined(Controls(t), n)
  }

  /** The controls fail exactly when some parameter is a `uint`, and then
      with the first of them. */
  lemma Win32ControlLinesFail(t: Table<Param>, n: nat)
    requires Named(t) && n <= |t.keys|
    ensures Win32ControlLines(t, n).Ok? <==> forall i :: 0 <= i < n ==> ParamAt(t, i).kind != UInt
    ensures Win32ControlLines(t, n).Err? ==>
      exists i :: (&& 0 <= i < n && ParamAt(t, i).kind == UInt
                   && (forall m :: 0 <= m < i ==> ParamAt(t, m).kind != UInt)
                   && Win32ControlLines(t, n).error == UnsupportedControl(ParamAt(t, i).name, "uint"))
  {
    JoinedFail(Controls(t), n);
  }

  /** Without a failure there are two lines per parameter, the `i`-th pair
      being the controls of the `i`-th parameter. */
  lemma Win32ControlLinesPair(t: Table<Param>, n: nat, i: nat)
    requires Named(t) && i < n <= |t.keys| && Win32ControlLines(t, n).Ok?
    ensures Win32Controls(ParamAt(t, i)).Ok? && |Win32ControlLines(t, n).value| == 2 * n
    ensures Win32ControlLines(t, n).value[2 * i..2 * i + 2] == Win32Controls(ParamAt(t, i)).value
  {
    JoinedPairs(Controls(t), n, i);
  }

  // ---------------------------------------------------------------------
  // __generate_win32_idc and __generate_win32_property_table

  /** The resource id line of the `i`-th parameter. */
  function IdcLine(p: Param, i: nat): string
    requires p.names.Some?
  {
    "#define IDC_" + p.names.value.propertyName + " " + NatToString(i + 1001)
  }

  /** Two parameters never share a resource id number, even when their
      property names coincide. */
  lemma IdcNumbersDistinct(p: Param, q: Param, i: nat, j: nat)
    requires p.names.Some? && q.names.Some? && i != j
    requires p.names.value.propertyName == q.names.value.propertyName
    ensures IdcLine(p, i) != IdcLine(q, j)
  {
    var prefix := "#define IDC_" + p.names.value.propertyName + " ";
    var a, b := NatToString(i + 1001), NatToString(j + 1001);
    assert IdcLine(p, i) == prefix + a && IdcLine(q, j) == prefix + b;
    assert (prefix + a)[|prefix|..] == a && (prefix + b)[|prefix|..] == b;
    NatToStringInjective(i + 1001, j + 1001);
  }

  /** The property table entry of a checkbox parameter. */
  function PropertyTableEntry(p: Param): string
    requires p.names.Some?
  {
    "AK_WWISE_PLUGIN_GUI_WINDOWS_POP_ITEM(IDC_" + p.names.value.propertyName + ", sz" + p.names.value.propertyName + ")"
  }

  /** The property table entry of every parameter, in key order. */
  function AllEntries(t: Table<Param>): (r: seq<string>)
    requires Named(t)
    ensures |r| == |t.keys| && forall i :: 0 <= i < |t.keys| ==> r[i] == PropertyTableEntry(ParamAt(t, i))
  {
    seq(|t.keys|, i requires 0 <= i < |t.keys| => PropertyTableEntry(ParamAt(t, i)))
  }

  /** Which parameters, in key order, are bools. */
  function AreBools(t: Table<Param>): (r: seq<bool>)
    ensures |r| == |t.keys| && forall i :: 0 <= i < |t.keys| ==> r[i] == (ParamAt(t, i).kind == Bool)
  {
    seq(|t.keys|, i requires 0 <= i < |t.keys| => ParamAt(t, i).kind == Bool)
  }

  /** The property table of the first `n` parameters: the entries of the
      bool ones, in key order. */
  function PropertyTable(t: Table<Param>, n: nat): seq<string>
    requires Named(t) && n <= |t.keys|
  {
    Filtered(AllEntries(t), AreBools(t), n)
  }

  /** The property table has an entry for each bool parameter and for nothing
      else. */
  lemma PropertyTableSpec(t: Table<Param>, x: string)
    requires Named(t)
    ensures x in PropertyTable(t, |t.keys|) <==>
            exists i :: 0 <= i < |t.keys| && ParamAt(t, i).kind == Bool && PropertyTableEntry(ParamAt(t, i)) == x
  {
    FilteredMembers(AllEntries(t), AreBools(t), |t.keys|, x);
  }
}
