/** List, path and template-copy helpers of src/wpe/util.py. */
module Util {
  import opened Wrappers
  import opened Errors
  import opened Strings
  import opened Paths

  // ---------------------------------------------------------------------
  // auto_add_line_end / add_indent

  /** One line after `auto_add_line_end`: a newline is appended unless one is already there. */
  function LineEnded(line: string): string
  {
    if EndsWith(line, "\n") then line else line + "\n"
  }

  /** The list `auto_add_line_end` leaves behind. */
  function AddLineEnds(lines: seq<string>): (r: seq<string>)
    ensures |r| == |lines|
    ensures forall i :: 0 <= i < |r| ==> EndsWith(r[i], "\n")
    ensures forall i :: 0 <= i < |r| && EndsWith(lines[i], "\n") ==> r[i] == lines[i]
    ensures forall i :: 0 <= i < |r| && !EndsWith(lines[i], "\n") ==> r[i] == lines[i] + "\n"
  {
    seq(|lines|, i requires 0 <= i < |lines| => LineEnded(lines[i]))
  }

  /** Applying `auto_add_line_end` a second time changes nothing. */
  lemma AddLineEndsIdempotent(lines: seq<string>)
    ensures AddLineEnds(AddLineEnds(lines)) == AddLineEnds(lines)
  {
  }

  /** `auto_add_line_end(lines)`: appends '\n' in place to every element that
      lacks one and returns the same list object. */
  method AutoAddLineEnd(lines: array<string>) returns (r: array<string>)
    modifies lines
    ensures r == lines
    ensures lines[..] == AddLineEnds(old(lines[..]))
  {
    for i := 0 to lines.Length
      invariant forall k :: 0 <= k < i ==> lines[k] == LineEnded(old(lines[k]))
      invariant forall k :: i <= k < lines.Length ==> lines[k] == old(lines[k])
    {
      if !EndsWith(lines[i], "\n") {
        lines[i] := lines[i] + "\n";
      }
    }
    r := lines;
  }

  /** `add_indent(lines, indent)`: every line prefixed with `indent` spaces
      (none for a negative indent). */
  function AddIndent(lines: seq<string>, indent: int): (r: seq<string>)
    ensures |r| == |lines|
    ensures forall i :: 0 <= i < |r| ==>
      EndsWith(r[i], lines[i]) && |r[i]| == |lines[i]| + (if indent < 0 then 0 else indent)
      && forall k :: 0 <= k < |r[i]| - |lines[i]| ==> r[i][k] == ' '
  {
    if lines == [] then []
    else [Spaces(indent) + lines[0]] + AddIndent(lines[1..], indent)
  }

  /** Every indented line starts with the indentation. */
  lemma IndentedBy(lines: seq<string>, indent: nat)
    ensures forall i :: 0 <= i < |lines| ==> StartsWith(AddIndent(lines, indent)[i], Spaces(indent))
  {
    var r := AddIndent(lines, indent);
    forall i | 0 <= i < |lines|
      ensures StartsWith(r[i], Spaces(indent))
    {
      assert r[i][..indent] == Spaces(indent);
    }
  }

  // ---------------------------------------------------------------------
  // Paths

  /** `replace_in_basename(path, old, new, count)` */
  function ReplaceInBasename(path: string, pat: string, repl: string, count: int): string
  {
    PathJoin(Dirname(path), Replace(Basename(path), pat, repl, count))
  }

  /** The replacement touches only the last component: the directory part is
      unchanged and the new last component is the replaced old one, as long as
      the replacement text brings in no '/'. */
  lemma ReplaceInBasenameKeepsDirectory(path: string, pat: string, repl: string, count: int)
    requires '/' !in repl
    ensures Dirname(ReplaceInBasename(path, pat, repl, count)) == Dirname(path)
    ensures Basename(ReplaceInBasename(path, pat, repl, count)) == Replace(Basename(path), pat, repl, count)
  {
    var b := Replace(Basename(path), pat, repl, count);
    ReplaceChars(Basename(path), pat, repl, count);
    assert '/' !in b;
    JoinDirname(path, b);
  }

  /** `path_is_under(child, parent)`: `Path(parent) in Path(child).parents`,
      i.e. the parent's components are a proper prefix of the child's, with the
      same anchoring. */
  predicate PathIsUnder(child: string, parent: string)
  {
    var c, p := Components(child), Components(parent);
    IsAbsolute(child) == IsAbsolute(parent) && |p| < |c| && c[..|p|] == p
  }

  /** No path lies under itself, and lying under is transitive. */
  lemma PathIsUnderStrictOrder(a: string, b: string, c: string)
    ensures !PathIsUnder(a, a)
    ensures PathIsUnder(a, b) && PathIsUnder(b, c) ==> PathIsUnder(a, c)
  {
    if PathIsUnder(a, b) && PathIsUnder(b, c) {
      var ca, cb, cc := Components(a), Components(b), Components(c);
      assert ca[..|cc|] == ca[..|cb|][..|cc|];
    }
  }

  // ---------------------------------------------------------------------
  // copy_template

  /** The marker a generated file carries while it may still be regenerated. */
  const TemplateMarker := "[wp-enhanced template]"

  /** What copy_template reads from its PathMan argument. */
  datatype PathMan = PathMan(root: string, templatesDir: string, pluginName: string, pluginId: string,
                            projConfig: string, parameterConfig: string)

  /** The keywords `substitute_keywords_in_file` is given after a copy. */
  datatype Keywords = Keywords(name: string, displayName: string, pluginId: string, suffix: string)

  /** The result of copy_template: the returned destination (or None) and the
      files afterwards, as a map from path to content. */
  datatype CopyOutcome = CopyOutcome(returned: Option<string>, files: map<string, string>)

  /** Where copy_template writes: the target under the project root, with
      `ProjectName` in its last component replaced by the plugin name (followed by
      the library suffix when asked for). */
  function TemplateDestination(relative: string, pm: PathMan, libSuffix: string, addSuffix: bool): string
  {
    ReplaceInBasename(PathJoin(pm.root, relative), "ProjectName",
                      if addSuffix then pm.pluginName + libSuffix else pm.pluginName, -1)
  }

  /** `copy_template`. `files` maps each existing regular file to its content;
      `substitute` stands for `substitute_keywords_in_file`, which is not part of
      this model. */
  function CopyTemplate(relative: string, pm: PathMan, files: map<string, string>,
                        isForced: bool, libSuffix: string, addSuffix: bool,
                        substitute: (string, Keywords) -> string): (r: Result<CopyOutcome, Error>)
    ensures var dst := TemplateDestination(relative, pm, libSuffix, addSuffix);
      var src := PathJoin(pm.templatesDir, relative);
      && (dst !in files ==> r == Ok(CopyOutcome(None, files)))
      && (dst in files && !isForced && Contains(files[dst], TemplateMarker) ==>
            r == Ok(CopyOutcome(Some(dst), files)))
      && (dst in files && (isForced || !Contains(files[dst], TemplateMarker)) ==>
            if src in files
            then r == Ok(CopyOutcome(Some(dst), files[dst := substitute(files[src], Keywords(pm.pluginName, pm.pluginName, pm.pluginId, libSuffix))]))
            else r == Err(FileNotFound(src)))
  {
    var src := PathJoin(pm.templatesDir, relative);
    var dst := TemplateDestination(relative, pm, libSuffix, addSuffix);
    if dst !in files then Ok(CopyOutcome(None, files))
    else if !(isForced || !Contains(files[dst], TemplateMarker)) then Ok(CopyOutcome(Some(dst), files))
    else if src in files then
      var kw := Keywords(pm.pluginName, pm.pluginName, pm.pluginId, libSuffix);
      Ok(CopyOutcome(Some(dst), files[dst := substitute(files[src], kw)]))
    else Err(FileNotFound(src))
  }

  /** copy_template writes at most the destination file, and never one that
      carries the marker unless forced. */
  lemma CopyTemplateWritesOnlyDestination(relative: string, pm: PathMan, files: map<string, string>,
                                          isForced: bool, libSuffix: string, addSuffix: bool,
                                          substitute: (string, Keywords) -> string)
    ensures var r := CopyTemplate(relative, pm, files, isForced, libSuffix, addSuffix, substitute);
      var dst := TemplateDestination(relative, pm, libSuffix, addSuffix);
      r.Ok? ==>
        && r.value.files.Keys == files.Keys
        && (forall p :: p in files && p != dst ==> r.value.files[p] == files[p])
        && (!isForced && dst in files && Contains(files[dst], TemplateMarker) ==> r.value.files == files)
        && (r.value.returned.Some? <==> dst in files)
  {
  }

  /** The destination keeps the target's directory; only `ProjectName` in the
      file name is replaced, by the plugin name plus the suffix exactly when
      `add_suffix_after_project_name` is set. */
  lemma TemplateDestinationName(relative: string, pm: PathMan, libSuffix: string, addSuffix: bool)
    requires '/' !in pm.pluginName && '/' !in libSuffix
    ensures var dst := TemplateDestination(relative, pm, libSuffix, addSuffix);
      var target := PathJoin(pm.root, relative);
      && Dirname(dst) == Dirname(target)
      && Basename(dst) == Replace(Basename(target), "ProjectName",
                                  if addSuffix then pm.pluginName + libSuffix else pm.pluginName, -1)
  {
    var name := if addSuffix then pm.pluginName + libSuffix else pm.pluginName;
    assert '/' !in name;
    ReplaceInBasenameKeepsDirectory(PathJoin(pm.root, relative), "ProjectName", name, -1);
  }
}
