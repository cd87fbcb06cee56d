/** The part of Python's `os.path` (POSIX flavour) and `pathlib` that the
    modelled helpers use: `basename`, `dirname`, `join` and path components. */
module Paths {
  import opened Strings

  /** Index of the last '/' in `p`, or -1 when there is none. */
  function LastSlash(p: string): (i: int)
    ensures -1 <= i < |p|
    ensures i >= 0 ==> p[i] == '/'
    ensures forall j :: i < j < |p| ==> p[j] != '/'
  {
    if p == [] then -1
    else if p[|p| - 1] == '/' then |p| - 1
    else LastSlash(p[..|p| - 1])
  }

  /** `os.path.basename(p)`: everything after the last '/'. */
  function Basename(p: string): (r: string)
    ensures '/' !in r
  {
    p[LastSlash(p) + 1..]
  }

  predicate AllSlashes(s: string)
  {
    forall i :: 0 <= i < |s| ==> s[i] == '/'
  }

  /** `s.rstrip('/')` */
  function RStripSlashes(s: string): (r: string)
    ensures |r| <= |s| && r == s[..|r|]
    ensures r == [] || r[|r| - 1] != '/'
    ensures forall i :: |r| <= i < |s| ==> s[i] == '/'
  {
    if s != [] && s[|s| - 1] == '/' then RStripSlashes(s[..|s| - 1]) else s
  }

  /** `os.path.dirname(p)`: everything up to the last '/', with trailing
      slashes removed unless the head consists of slashes only. */
  function Dirname(p: string): string
  {
    var head := p[..LastSlash(p) + 1];
    if head != [] && !AllSlashes(head) then RStripSlashes(head) else head
  }

  /** `os.path.join(a, b)` */
  function PathJoin(a: string, b: string): string
  {
    if StartsWith(b, "/") then b
    else if a == [] || EndsWith(a, "/") then a + b
    else a + "/" + b
  }

  /** A directory part is empty, made of slashes only, or ends in a non-slash. */
  lemma DirnameShape(p: string)
    ensures var d := Dirname(p);
      d == [] || (AllSlashes(d) && EndsWith(d, "/")) || d[|d| - 1] != '/'
  {
    var head := p[..LastSlash(p) + 1];
  }

  /** Joining the directory part of a path with a slash-free name gives a
      path whose directory part is unchanged and whose last component is that name. */
  lemma JoinDirname(p: string, name: string)
    requires '/' !in name
    ensures Dirname(PathJoin(Dirname(p), name)) == Dirname(p)
    ensures Basename(PathJoin(Dirname(p), name)) == name
  {
    var d := Dirname(p);
    DirnameShape(p);
    var j := PathJoin(d, name);
    assert !StartsWith(name, "/") by {
      if |name| >= 1 { assert name[0] in name; }
    }
    if d == [] {
      assert j == name;
      assert LastSlash(j) == -1;
    } else if AllSlashes(d) && EndsWith(d, "/") {
      assert j == d + name;
      assert j[|d| - 1] == '/';
      assert LastSlash(j) == |d| - 1 by {
        forall k | |d| - 1 < k < |j| ensures j[k] != '/' {
          assert j[k] == name[k - |d|];
        }
      }
      assert j[..|d|] == d;
      assert j[|d|..] == name;
    } else {
      assert !EndsWith(d, "/");
      assert j == d + "/" + name;
      assert j[|d|] == '/';
      assert LastSlash(j) == |d| by {
        forall k | |d| < k < |j| ensures j[k] != '/' {
          assert j[k] == name[k - |d| - 1];
        }
      }
      var head := j[..|d| + 1];
      assert head == d + "/";
      assert !AllSlashes(head) by { assert head[|d| - 1] == d[|d| - 1]; }
      var r := RStripSlashes(head);
      assert r == d by {
        assert head[..|d|] == d;
      }
      assert j[|d| + 1..] == name;
    }
  }

  /** The components pathlib keeps for a path: the pieces between slashes,
      without empty pieces and without '.'. */
  function Components(p: string): seq<string>
  {
    KeepParts(SplitOn(p, '/'))
  }

  function KeepParts(parts: seq<string>): seq<string>
  {
    if parts == [] then []
    else if parts[0] == "" || parts[0] == "." then KeepParts(parts[1..])
    else [parts[0]] + KeepParts(parts[1..])
  }

  predicate IsAbsolute(p: string)
  {
    StartsWith(p, "/")
  }
}
