/** The package selection and archive member renaming of
    src/wpe/deployment.py: which entries of a plugin bundle are deployed, the
    plugin name an archive file name carries, and the names the members of
    an SDK tarball are given before extraction into an Unreal project. */
module Deployment {
  import opened Wrappers
  import opened Strings
  import opened Paths

  /** One entry of a file's `groups` list in bundle.json. */
  datatype Group = Group(groupId: string, groupValueId: string)

  /** `_Package`: one entry of the bundle's `files` list. */
  datatype Package = Package(sourceName: string, groups: seq<Group>)

  /** `_get_group_value_by_id(group_id)`: the value of the first group with
      that id, `None` when there is none. */
  function GroupValueById(groups: seq<Group>, groupId: string): (r: Option<string>)
    ensures r.None? <==> forall i :: 0 <= i < |groups| ==> groups[i].groupId != groupId
    ensures r.Some? ==>
      exists i :: (&& 0 <= i < |groups| && groups[i].groupId == groupId && r.value == groups[i].groupValueId
                   && forall j :: 0 <= j < i ==> groups[j].groupId != groupId)
  {
    if groups == [] then None
    else if groups[0].groupId == groupId then Some(groups[0].groupValueId)
    else
      var r := GroupValueById(groups[1..], groupId);
      assert forall i :: 1 <= i < |groups| ==> groups[1..][i - 1] == groups[i];
      r
  }

  /** Groups placed before the first match do not change the answer. */
  lemma {:induction false} GroupValueByIdSkips(other: seq<Group>, groups: seq<Group>, groupId: string)
    requires forall i :: 0 <= i < |other| ==> other[i].groupId != groupId
    ensures GroupValueById(other + groups, groupId) == GroupValueById(groups, groupId)
  {
    if other != [] {
      assert (other + groups)[0] == other[0];
      assert (other + groups)[1..] == other[1..] + groups;
      GroupValueByIdSkips(other[1..], groups, groupId);
    } else {
      assert other + groups == groups;
    }
  }

  /** `belong_to_packages()` */
  function BelongToPackages(pkg: Package): Option<string>
  {
    GroupValueById(pkg.groups, "Packages")
  }

  /** `deployment_platforms()` */
  function DeploymentPlatforms(pkg: Package): Option<string>
  {
    GroupValueById(pkg.groups, "DeploymentPlatforms")
  }

  /** `is_sdk_package()` */
  predicate IsSdkPackage(pkg: Package)
  {
    BelongToPackages(pkg) == Some("SDK")
  }

  /** `should_deploy(target_dir)`: the target directory plays no part. */
  predicate ShouldDeploy(pkg: Package, targetDir: string)
  {
    EndsWith(pkg.sourceName, ".tar.xz") && IsSdkPackage(pkg)
  }

  /** A package is deployed exactly when its source is an xz tarball and its
      first `Packages` group says `SDK`, whatever the target. */
  lemma ShouldDeploySpec(pkg: Package, targetDir: string, otherDir: string)
    ensures ShouldDeploy(pkg, targetDir) <==>
      && EndsWith(pkg.sourceName, ".tar.xz")
      && exists i :: (&& 0 <= i < |pkg.groups| && pkg.groups[i].groupId == "Packages"
                      && pkg.groups[i].groupValueId == "SDK"
                      && forall j :: 0 <= j < i ==> pkg.groups[j].groupId != "Packages")
    ensures ShouldDeploy(pkg, targetDir) == ShouldDeploy(pkg, otherDir)
  {
    var r := GroupValueById(pkg.groups, "Packages");
    if r.Some? {
      var i :| (&& 0 <= i < |pkg.groups| && pkg.groups[i].groupId == "Packages"
                && r.value == pkg.groups[i].groupValueId
                && forall j :: 0 <= j < i ==> pkg.groups[j].groupId != "Packages");
      forall k | 0 <= k < |pkg.groups| && pkg.groups[k].groupId == "Packages"
                 && (forall j :: 0 <= j < k ==> pkg.groups[j].groupId != "Packages")
        ensures k == i
      {
      }
    }
  }

  // ---------------------------------------------------------------------
  // _get_plugin_name_from_archive

  /** `osp.basename(archive).split('_')[0]` */
  function PluginNameFromArchive(archive: string): string
  {
    BeforeFirst(Basename(archive), '_')
  }

  /** The plugin name is the start of the archive's file name up to its first
      '_' (the whole file name when it has none), and holds neither '_' nor '/'. */
  lemma PluginNameFromArchiveSpec(archive: string)
    ensures var name := PluginNameFromArchive(archive);
      && StartsWith(Basename(archive), name)
      && '_' !in name && '/' !in name
      && (name == Basename(archive) || Basename(archive)[|name|] == '_')
    ensures '_' !in Basename(archive) ==> PluginNameFromArchive(archive) == Basename(archive)
  {
    var b := Basename(archive);
    var name := PluginNameFromArchive(archive);
    assert b[..|name|] == name;
    forall c | c in name
      ensures c != '/'
    {
      var k :| 0 <= k < |name| && name[k] == c;
      assert b[k] == c;
    }
    if name != b {
      assert b[|name|] == '_';
      assert '_' in b;
    }
  }

  // ---------------------------------------------------------------------
  // The member-name rewrite of UEDeployment._deploy_package

  /** The characters `lstrip('SDK/')` removes: a set, not a prefix. */
  const StripSet: set<char> := {'S', 'D', 'K', '/'}

  /** The architectures whose `Android_<arch>` directories are split. */
  const AndroidArchs: seq<string> := ["arm64-v8a", "armeabi-v7a", "x86", "x86_64"]

  /** The name after the first `k` architecture replacements. */
  function ArchsReplaced(name: string, k: nat): string
    requires k <= |AndroidArchs|
  {
    if k == 0 then name
    else Replace(ArchsReplaced(name, k - 1), "Android_" + AndroidArchs[k - 1], "Android/" + AndroidArchs[k - 1], -1)
  }

  /** The new name of a tar member: leading characters from {S, D, K, /}
      stripped, then for an Android package each `Android_<arch>` made
      `Android/<arch>`. */
  function MemberName(name: string, isAndroid: bool): string
  {
    var stripped := LStripChars(name, StripSet);
    if isAndroid then ArchsReplaced(stripped, |AndroidArchs|) else stripped
  }

  /** The stripped name starts with none of the stripped characters, and what
      was removed was made only of them. */
  lemma MemberNameStripped(name: string)
    ensures var r := MemberName(name, false);
      && r == name[|name| - |r|..]
      && (forall i :: 0 <= i < |name| - |r| ==> name[i] in StripSet)
      && (r == [] || r[0] !in StripSet)
  {
  }

  /** Stripping works on characters, not on the prefix `SDK/`: a leading
      directory that starts with one of the letters loses them too. */
  lemma MemberNameStripsCharacters()
    ensures MemberName("SDK/Shared/lib", false) == "hared/lib"
  {
    LStripCharsPrefix("SDK/S", "hared/lib", StripSet);
    assert "SDK/Shared/lib" == "SDK/S" + "hared/lib";
  }

  /** The usual `SDK/` prefix goes away as a whole. */
  lemma MemberNameStripsSdk(rest: string)
    requires rest == [] || rest[0] !in StripSet
    ensures MemberName("SDK/" + rest, false) == rest
  {
    LStripCharsPrefix("SDK/", rest, StripSet);
  }

  /** A name containing no `Android_` is only stripped, Android or not. */
  lemma MemberNameNoAndroidDirectory(name: string)
    requires !Contains(LStripChars(name, StripSet), "Android_")
    ensures MemberName(name, true) == MemberName(name, false)
  {
    var s := LStripChars(name, StripSet);
    forall k | 0 <= k <= |AndroidArchs|
      ensures ArchsReplaced(s, k) == s
    {
      ArchsUntouched(s, k);
    }
  }

  lemma {:induction false} ArchsUntouched(s: string, k: nat)
    requires k <= |AndroidArchs| && !Contains(s, "Android_")
    ensures ArchsReplaced(s, k) == s
  {
    if k > 0 {
      ArchsUntouched(s, k - 1);
      ContainsLonger(s, "Android_", AndroidArchs[k - 1]);
      ReplaceAbsent(s, "Android_" + AndroidArchs[k - 1], "Android/" + AndroidArchs[k - 1], -1);
    }
  }

  /** A string that contains `t + u` contains `t`. */
  lemma {:induction false} ContainsLonger(s: string, t: string, u: string)
    ensures Contains(s, t + u) ==> Contains(s, t)
    decreases |s|
  {
    if Contains(s, t + u) {
      if StartsWith(s, t + u) {
        assert s[..|t|] == (t + u)[..|t|] == t;
      } else {
        ContainsLonger(s[1..], t, u);
      }
    }
  }

  /** The rename loop for one member: the stripped name, then for an Android
      package the replacement of each architecture in turn. */
  method RenameMember(name: string, isAndroid: bool) returns (newName: string)
    ensures newName == MemberName(name, isAndroid)
  {
    newName := LStripChars(name, StripSet);
    if isAndroid {
      ghost var stripped := newName;
      for k := 0 to |AndroidArchs|
        invariant newName == ArchsReplaced(stripped, k)
      {
        var arch := AndroidArchs[k];
        newName := Replace(newName, "Android_" + arch, "Android/" + arch, -1);
      }
    }
  }

  /** `pkg.deployment_platforms() == 'Android'`: a package without a
      `DeploymentPlatforms` group is not an Android one. */
  predicate IsAndroid(pkg: Package)
  {
    DeploymentPlatforms(pkg) == Some("Android")
  }

  /** `for member in tar.getmembers(): ... member.name = new_name`: every
      member of the package's tarball renamed in place, with the Android
      replacements exactly for an Android package. */
  method RenameMembers(members: array<string>, pkg: Package)
    modifies members
    ensures forall i :: 0 <= i < members.Length ==> members[i] == MemberName(old(members[i]), IsAndroid(pkg))
  {
    var isAndroid := DeploymentPlatforms(pkg) == Some("Android");
    for i := 0 to members.Length
      invariant forall k :: 0 <= k < i ==> members[k] == MemberName(old(members[k]), isAndroid)
      invariant forall k :: i <= k < members.Length ==> members[k] == old(members[k])
    {
      var newName := RenameMember(members[i], isAndroid);
      members[i] := newName;
    }
  }
}
