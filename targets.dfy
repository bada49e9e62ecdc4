/**
 Rules shared by both license scripts: which top-level entries of the project
 are scanned, how a directory path is formed, and which comment marker the
 header of each kind of file uses.
 */
module Targets {

  /** A file-system path, as text. */
  type Path = string

  /** The single top-level entry both scripts never scan. */
  const Vendor: string := "vendor"

  /** `os.path.join(dir, name)` for two components: an absolute `name` wins,
      otherwise a separator is put between them unless `dir` is empty or
      already ends with one. */
  function Join(dir: Path, name: string): (p: Path)
    ensures |name| > 0 && name[0] == '/' ==> p == name
    ensures (|name| == 0 || name[0] != '/') ==>
              |dir| + |name| <= |p| <= |dir| + |name| + 1
              && p[..|dir|] == dir && p[|p| - |name|..] == name
    ensures (|name| == 0 || name[0] != '/') ==>
              (|p| == |dir| + |name| + 1 <==> dir != [] && dir[|dir| - 1] != '/')
    ensures (|name| == 0 || name[0] != '/') && |p| == |dir| + |name| + 1 ==> p[|dir|] == '/'
  {
    if |name| > 0 && name[0] == '/' then name
    else if dir == [] || dir[|dir| - 1] == '/' then dir + name
    else dir + "/" + name
  }

  /** The entries of the project root that are searched: all of them, in
      listing order, except `vendor`. */
  function TargetNames(entries: seq<string>): (names: seq<string>)
    ensures forall x :: x in names <==> x in entries && x != Vendor
    ensures |names| + multiset(entries)[Vendor] == |entries|
    ensures Vendor !in entries ==> names == entries
    ensures |entries| == 1 ==> names == (if entries[0] != Vendor then entries else [])
  {
    if entries == [] then []
    else
      assert entries == [entries[0]] + entries[1..];
      (if entries[0] != Vendor then [entries[0]] else []) + TargetNames(entries[1..])
  }

  /** Filtering keeps the listing order: the kept names of two listings one
      after the other are the kept names of each, one after the other. */
  lemma {:induction false} TargetNamesAppend(a: seq<string>, b: seq<string>)
    ensures TargetNames(a + b) == TargetNames(a) + TargetNames(b)
  {
    if a == [] {
      assert a + b == b;
    } else {
      var head := if a[0] != Vendor then [a[0]] else [];
      assert TargetNames(a + b) == head + TargetNames(a[1..] + b) by {
        assert (a + b)[0] == a[0];
        assert (a + b)[1..] == a[1..] + b;
      }
      TargetNamesAppend(a[1..], b);
      assert head + (TargetNames(a[1..]) + TargetNames(b))
             == (head + TargetNames(a[1..])) + TargetNames(b);
    }
  }

  /** `target_dirs`: the project root joined with every entry that is searched. */
  function TargetDirs(root: Path, entries: seq<string>): (dirs: seq<Path>)
    ensures |dirs| == |TargetNames(entries)|
    ensures forall i :: 0 <= i < |dirs| ==> dirs[i] == Join(root, TargetNames(entries)[i])
  {
    var names := TargetNames(entries);
    seq(|names|, i requires 0 <= i < |names| => Join(root, names[i]))
  }

  /** Every entry other than `vendor` yields a target directory. */
  lemma TargetDirsCover(root: Path, entries: seq<string>, d: string)
    requires d in entries && d != Vendor
    ensures Join(root, d) in TargetDirs(root, entries)
  {
  }

  /** The three kinds of file that carry a header. */
  datatype Ext = Go | Py | Sh

  /** The order in which both scripts visit the kinds within one directory. */
  const Extensions: seq<Ext> := [Go, Py, Sh]

  /** The recursive glob pattern used for each kind. */
  function Pattern(e: Ext): (g: string)
    ensures |g| == 7 && g[..5] == "**/*."
    ensures g[5..] == "go" <==> e == Go
    ensures g[5..] == "py" <==> e == Py
    ensures g[5..] == "sh" <==> e == Sh
  {
    match e
    case Go => "**/*.go"
    case Py => "**/*.py"
    case Sh => "**/*.sh"
  }

  /** The line-comment marker the header is written with. */
  function Marker(e: Ext): (m: string)
    ensures m == "//" <==> e == Go
    ensures m == "#" <==> (e == Py || e == Sh)
  {
    match e
    case Go => "//"
    case Py => "#"
    case Sh => "#"
  }
}
