/**
 `add.py`: put the license header at the top of every file that lacks it,
 keeping a shebang line first.
 */
module AddLicense {
  import opened Targets
  import opened Lines
  import opened FileSystem

  /** `line[:2] == "#!"`: the first two characters are `#` and `!`; a line
      shorter than two characters never matches. */
  predicate IsShebang(line: string)
    ensures IsShebang(line) <==> |line| >= 2 && line[..2] == "#!"
  {
    |line| >= 2 && line[0] == '#' && line[1] == '!'
  }

  /** The `IndexError`s the layout raises: `content[0]` on an empty file,
      `content[1]` on a file whose only line is a shebang. */
  datatype LayoutError = NoFirstLine | NoSecondLine

  datatype Layout = Laid(lines: seq<string>) | Failed(error: LayoutError)

  /** The new list of lines: the header after a leading shebang line, with a
      blank line on each side, or at the very top followed by two newlines. */
  function WithHeader(content: seq<string>, header: string): (r: Layout)
    ensures |content| == 0 ==> r == Failed(NoFirstLine)
    ensures |content| == 1 && IsShebang(content[0]) ==> r == Failed(NoSecondLine)
    ensures |content| >= 2 && IsShebang(content[0]) ==>
              r.Laid?
              && |r.lines| == |content| + (if content[1] == "\n" then 3 else 4)
              && r.lines[..4] == [content[0], "\n", header, "\n"]
              && (content[1] != "\n" ==> r.lines[4] == "\n")
              && r.lines[|r.lines| - (|content| - 1)..] == content[1..]
    ensures |content| >= 1 && !IsShebang(content[0]) ==>
              r.Laid?
              && |r.lines| == |content| + 3
              && r.lines[..3] == [header, "\n", "\n"]
              && r.lines[3..] == content
  {
    if |content| == 0 then Failed(NoFirstLine)
    else if IsShebang(content[0]) then
      if |content| == 1 then Failed(NoSecondLine)
      else
        var head := [content[0], "\n", header, "\n"];
        var spacer := if content[1] != "\n" then ["\n"] else [];
        Laid(head + spacer + content[1..])
    else Laid([header, "\n", "\n"] + content)
  }

  lemma ConcatPlain(header: string, content: seq<string>)
    ensures Concat([header, "\n", "\n"] + content) == header + "\n" + "\n" + Concat(content)
  {
    assert [header, "\n", "\n"] + content == [header] + (["\n"] + (["\n"] + content));
    ConcatCons(header, ["\n"] + (["\n"] + content));
    ConcatCons("\n", ["\n"] + content);
    ConcatCons("\n", content);
  }

  lemma ConcatShebang(shebang: string, header: string, spacer: seq<string>, rest: seq<string>)
    ensures Concat([shebang, "\n", header, "\n"] + spacer + rest)
            == shebang + "\n" + header + "\n" + Concat(spacer) + Concat(rest)
  {
    var tail := spacer + rest;
    assert [shebang, "\n", header, "\n"] + spacer + rest
           == [shebang] + (["\n"] + ([header] + (["\n"] + tail)));
    ConcatCons(shebang, ["\n"] + ([header] + (["\n"] + tail)));
    ConcatCons("\n", [header] + (["\n"] + tail));
    ConcatCons(header, ["\n"] + tail);
    ConcatCons("\n", tail);
    ConcatAppend(spacer, rest);
  }

  /** The text written for a shebang file: the shebang line, a newline, the
      header, one or two newlines, then the joined original lines after the first. */
  lemma WrittenShebang(content: seq<string>, header: string)
    requires WithHeader(content, header).Laid?
    requires IsShebang(content[0])
    ensures Concat(WithHeader(content, header).lines)
            == content[0] + "\n" + header + "\n"
               + (if content[1] != "\n" then "\n" else "") + Concat(content[1..])
  {
    var out := WithHeader(content, header).lines;
    var spacer: seq<string> := if content[1] != "\n" then ["\n"] else [];
    assert out == [content[0], "\n", header, "\n"] + spacer + content[1..];
    ConcatShebang(content[0], header, spacer, content[1..]);
    assert Concat(spacer) == (if content[1] != "\n" then "\n" else "") by {
      if content[1] != "\n" { ConcatCons("\n", []); }
    }
  }

  /** The text written for any other file: the header, two newlines, then the
      original text. */
  lemma WrittenPlain(content: seq<string>, header: string)
    requires WithHeader(content, header).Laid?
    requires !IsShebang(content[0])
    ensures Concat(WithHeader(content, header).lines) == header + "\n" + "\n" + Concat(content)
  {
    assert WithHeader(content, header).lines == [header, "\n", "\n"] + content;
    ConcatPlain(header, content);
  }

  /** The first line read from a text is a shebang exactly when the text
      itself starts with `#!`. */
  lemma ShebangFirstLine(text: string)
    requires text != []
    ensures IsShebang(SplitLines(text)[0]) <==> IsShebang(text)
  {
  }

  /** A text that does not start with `#!` gets the header and two newlines
      in front of it; nothing else changes. */
  lemma AddToPlainText(text: string, header: string)
    requires text != [] && !IsShebang(text)
    ensures WithHeader(SplitLines(text), header).Laid?
    ensures Concat(WithHeader(SplitLines(text), header).lines) == header + "\n\n" + text
  {
    ShebangFirstLine(text);
    WrittenPlain(SplitLines(text), header);
    SplitLinesConcat(text);
  }

  /** A text made of one shebang line and nothing after it makes the layout fail. */
  lemma AddToShebangOnly(text: string, header: string)
    requires IsShebang(text) && FirstLineLength(text) == |text|
    ensures WithHeader(SplitLines(text), header) == Failed(NoSecondLine)
  {
  }

  /** A text that starts with a shebang line followed by more text gets the
      header inserted after its first line, with a blank line before it and a
      blank line after it (the original one when its second line is blank);
      every character of the original text is kept, in order. */
  lemma AddToShebangText(text: string, header: string)
    requires IsShebang(text) && FirstLineLength(text) < |text|
    ensures var n := FirstLineLength(text);
            WithHeader(SplitLines(text), header).Laid?
            && Concat(WithHeader(SplitLines(text), header).lines)
               == text[..n] + "\n" + header + "\n"
                  + (if text[n] == '\n' then "" else "\n") + text[n..]
  {
    var content := SplitLines(text);
    var n := FirstLineLength(text);
    ShebangFirstLine(text);
    assert content == [text[..n]] + SplitLines(text[n..]);
    assert content[1..] == SplitLines(text[n..]);
    SplitLinesConcat(text[n..]);
    var m := FirstLineLength(text[n..]);
    assert content[1] == text[n..][..m];
    assert content[1] == "\n" <==> text[n] == '\n' by {
      if text[n] == '\n' {
        assert m == 1;
      }
      if content[1] == "\n" {
        assert text[n..][0] == content[1][0];
      }
    }
    WrittenShebang(content, header);
  }

  /** Why a run of `add` stopped: the file could not be opened, or the layout
      raised an `IndexError`. Either exception ends the whole script. */
  datatype Failure = CannotOpen(path: Path) | IndexError(path: Path, error: LayoutError)

  datatype Outcome = Completed | Aborted(failure: Failure)

  /** What happens to one file. */
  datatype Visit = Skip | Rewrite(text: string) | Stop(failure: Failure)

  /** One iteration of the loop in `add`: a file that already has the header
      is skipped; any other file is read as lines, laid out with the header and
      written back joined. */
  function VisitFile(files: map<Path, string>, p: Path, header: string,
                     hasHeader: (string, string) -> bool): (v: Visit)
    ensures v == Stop(CannotOpen(p)) <==> p !in files
    ensures v == Skip <==> p in files && hasHeader(files[p], header)
    ensures v.Rewrite? <==> p in files && !hasHeader(files[p], header)
                            && WithHeader(SplitLines(files[p]), header).Laid?
    ensures p in files && files[p] == [] && !hasHeader(files[p], header) ==>
              v == Stop(IndexError(p, NoFirstLine))
  {
    if p !in files then Stop(CannotOpen(p))
    else if hasHeader(files[p], header) then Skip
    else
      match WithHeader(SplitLines(files[p]), header)
      case Laid(lines) => Rewrite(Concat(lines))
      case Failed(e) => Stop(IndexError(p, e))
  }

  /** What a visit writes and where it stops: a rewritten file gets the
      laid-out text, and a file that is one shebang line lacking the header
      stops the run at `content[1]`. */
  lemma VisitFileResult(files: map<Path, string>, p: Path, header: string,
                        hasHeader: (string, string) -> bool)
    ensures var v := VisitFile(files, p, header, hasHeader);
            v.Rewrite? ==> p in files && WithHeader(SplitLines(files[p]), header).Laid?
                           && v.text == Licensed(files[p], header)
    ensures p in files && IsShebang(files[p]) && FirstLineLength(files[p]) == |files[p]|
            && !hasHeader(files[p], header) ==>
              VisitFile(files, p, header, hasHeader) == Stop(IndexError(p, NoSecondLine))
  {
  }

  /** The state a run of the script leaves behind: the files, the paths it
      rewrote (in the order it announced them) and how it ended. */
  datatype AddRun = AddRun(files: map<Path, string>, rewritten: seq<Path>, outcome: Outcome)

  /** A unit of work: a path and the header it must carry. */
  type Task = (Path, string)

  /** Every path of `paths` paired with `header`: one call of `add`. */
  function Tag(paths: seq<Path>, header: string): (tasks: seq<Task>)
    ensures |tasks| == |paths|
    ensures forall i :: 0 <= i < |tasks| ==> tasks[i] == (paths[i], header)
  {
    if paths == [] then [] else [(paths[0], header)] + Tag(paths[1..], header)
  }

  /** The run of the loop in `add` over `tasks`, starting from `files`. */
  function AddAll(files: map<Path, string>, tasks: seq<Task>,
                  hasHeader: (string, string) -> bool): (r: AddRun)
    ensures r.files.Keys == files.Keys
    ensures |r.rewritten| <= |tasks|
    decreases |tasks|
  {
    if tasks == [] then AddRun(files, [], Completed)
    else
      var (p, header) := tasks[0];
      match VisitFile(files, p, header, hasHeader)
      case Stop(f) => AddRun(files, [], Aborted(f))
      case Skip => AddAll(files, tasks[1..], hasHeader)
      case Rewrite(text) =>
        var rest := AddAll(files[p := text], tasks[1..], hasHeader);
        AddRun(rest.files, [p] + rest.rewritten, rest.outcome)
  }

  /** The run `next`, started from the files `first` left behind, appended to `first`. */
  function Then(first: AddRun, next: AddRun): AddRun
  {
    AddRun(next.files, first.rewritten + next.rewritten, next.outcome)
  }

  /** Running two lists of tasks one after the other is running their
      concatenation; an aborted first part runs nothing of the second. */
  lemma {:induction false} AddAllAppend(files: map<Path, string>, a: seq<Task>, b: seq<Task>,
                                        hasHeader: (string, string) -> bool)
    ensures AddAll(files, a + b, hasHeader)
            == (var first := AddAll(files, a, hasHeader);
                if first.outcome.Aborted? then first
                else Then(first, AddAll(first.files, b, hasHeader)))
    decreases |a|
  {
    if a == [] {
      assert a + b == b;
    } else {
      assert (a + b)[0] == a[0];
      assert (a + b)[1..] == a[1..] + b;
      var (p, header) := a[0];
      match VisitFile(files, p, header, hasHeader)
      case Stop(f) =>
      case Skip =>
        AddAllAppend(files, a[1..], b, hasHeader);
      case Rewrite(text) =>
        AddAllAppend(files[p := text], a[1..], b, hasHeader);
        var first := AddAll(files[p := text], a[1..], hasHeader);
        if first.outcome.Completed? {
          var next := AddAll(first.files, b, hasHeader);
          assert [p] + (first.rewritten + next.rewritten) == ([p] + first.rewritten) + next.rewritten;
        }
    }
  }

  /** `add(paths, license_header)`: the files of `paths` that lack `header` get
      it; the loop stops at the first exception. */
  method Add(disk: Disk, paths: seq<Path>, header: string,
             hasHeader: (string, string) -> bool)
    returns (rewritten: seq<Path>, outcome: Outcome)
    modifies disk
    ensures AddAll(old(disk.files), Tag(paths, header), hasHeader)
            == AddRun(disk.files, rewritten, outcome)
  {
    ghost var tasks := Tag(paths, header);
    ghost var whole := AddAll(disk.files, tasks, hasHeader);
    rewritten, outcome := [], Completed;
    assert tasks[0..] == tasks;
    var i := 0;
    while i < |paths|
      invariant 0 <= i <= |paths|
      invariant whole == Then(AddRun(disk.files, rewritten, Completed),
                              AddAll(disk.files, tasks[i..], hasHeader))
    {
      var p := paths[i];
      assert tasks[i..][0] == (p, header);
      assert tasks[i..][1..] == tasks[i + 1..];
      if p !in disk.files {
        outcome := Aborted(CannotOpen(p));
        return;
      }
      var text := disk.files[p];
      if !hasHeader(text, header) {
        var content := SplitLines(text);
        var layout := WithHeader(content, header);
        if layout.Failed? {
          outcome := Aborted(IndexError(p, layout.error));
          return;
        }
        disk.Write(p, Concat(layout.lines));
        ghost var rest := AddAll(disk.files, tasks[i + 1..], hasHeader);
        assert rewritten + ([p] + rest.rewritten) == (rewritten + [p]) + rest.rewritten;
        rewritten := rewritten + [p];
      }
      i := i + 1;
    }
    assert tasks[i..] == [];
    assert rewritten + [] == rewritten;
  }

  /** Once a run aborts, nothing after it is run. */
  lemma AbortedPrefix(files: map<Path, string>, done: seq<Task>, rest: seq<Task>,
                      hasHeader: (string, string) -> bool)
    requires AddAll(files, done, hasHeader).outcome.Aborted?
    ensures AddAll(files, done + rest, hasHeader) == AddAll(files, done, hasHeader)
  {
    AddAllAppend(files, done, rest, hasHeader);
  }

  /** The tasks of one target directory, in the order `main` runs them:
      Go files with the `//` header, then Python and shell files with `#`. */
  function DirTasks(d: Path, glob: (Path, string) -> seq<Path>,
                    licenseHeader: string -> string): (tasks: seq<Task>)
    ensures |tasks| == |glob(d, Pattern(Go))| + |glob(d, Pattern(Py))| + |glob(d, Pattern(Sh))|
  {
    Tag(glob(d, Pattern(Go)), licenseHeader(Marker(Go)))
    + Tag(glob(d, Pattern(Py)), licenseHeader(Marker(Py)))
    + Tag(glob(d, Pattern(Sh)), licenseHeader(Marker(Sh)))
  }

  /** One directory's tasks, task by task: every `.go` path with the `//`
      header, then every `.py` path and every `.sh` path with the `#` header,
      each in the order `glob` yields them. */
  lemma DirTasksContents(d: Path, glob: (Path, string) -> seq<Path>,
                         licenseHeader: string -> string)
    ensures var tasks := DirTasks(d, glob, licenseHeader);
            var go, py, sh := glob(d, "**/*.go"), glob(d, "**/*.py"), glob(d, "**/*.sh");
            |tasks| == |go| + |py| + |sh|
            && (forall i :: 0 <= i < |go| ==> tasks[i] == (go[i], licenseHeader("//")))
            && (forall i :: 0 <= i < |py| ==> tasks[|go| + i] == (py[i], licenseHeader("#")))
            && (forall i :: 0 <= i < |sh| ==> tasks[|go| + |py| + i] == (sh[i], licenseHeader("#")))
  {
  }

  /** The tasks of all target directories, in order (see `TasksAppend`). */
  function Tasks(dirs: seq<Path>, glob: (Path, string) -> seq<Path>,
                 licenseHeader: string -> string): seq<Task>
  {
    if dirs == [] then []
    else DirTasks(dirs[0], glob, licenseHeader) + Tasks(dirs[1..], glob, licenseHeader)
  }

  /** The directories are worked through in order: a single directory
      contributes exactly its own tasks, and the tasks of two lists of
      directories one after the other are the tasks of each, one after the other. */
  lemma {:induction false} TasksAppend(a: seq<Path>, b: seq<Path>,
                                       glob: (Path, string) -> seq<Path>,
                                       licenseHeader: string -> string)
    ensures |a| == 1 ==> Tasks(a, glob, licenseHeader) == DirTasks(a[0], glob, licenseHeader)
    ensures Tasks(a + b, glob, licenseHeader) == Tasks(a, glob, licenseHeader) + Tasks(b, glob, licenseHeader)
  {
    if |a| == 1 {
      assert a[1..] == [];
      assert DirTasks(a[0], glob, licenseHeader) + [] == DirTasks(a[0], glob, licenseHeader);
    }
    if a == [] {
      assert a + b == b;
    } else {
      assert (a + b)[0] == a[0];
      assert (a + b)[1..] == a[1..] + b;
      TasksAppend(a[1..], b, glob, licenseHeader);
    }
  }

  /** A completed run followed by a run of more tasks from the files it left. */
  lemma RunMore(start: map<Path, string>, done: seq<Task>, more: seq<Task>,
                hasHeader: (string, string) -> bool,
                files: map<Path, string>, rewritten: seq<Path>,
                files': map<Path, string>, rewritten': seq<Path>, outcome: Outcome)
    requires AddAll(start, done, hasHeader) == AddRun(files, rewritten, Completed)
    requires AddAll(files, more, hasHeader) == AddRun(files', rewritten', outcome)
    ensures AddAll(start, done + more, hasHeader) == AddRun(files', rewritten + rewritten', outcome)
  {
    AddAllAppend(start, done, more, hasHeader);
  }

  /** The body of the loop in `main` of `add.py`: `add` runs on the Go,
      Python and shell files of one directory in turn. */
  method AddDir(disk: Disk, d: Path, glob: (Path, string) -> seq<Path>,
                licenseHeader: string -> string, hasHeader: (string, string) -> bool)
    returns (rewritten: seq<Path>, outcome: Outcome)
    modifies disk
    ensures AddAll(old(disk.files), DirTasks(d, glob, licenseHeader), hasHeader)
            == AddRun(disk.files, rewritten, outcome)
  {
    ghost var start := disk.files;
    ghost var goTasks := Tag(glob(d, Pattern(Go)), licenseHeader(Marker(Go)));
    ghost var pyTasks := Tag(glob(d, Pattern(Py)), licenseHeader(Marker(Py)));
    ghost var shTasks := Tag(glob(d, Pattern(Sh)), licenseHeader(Marker(Sh)));
    assert DirTasks(d, glob, licenseHeader) == goTasks + pyTasks + shTasks;

    rewritten, outcome := Add(disk, glob(d, Pattern(Go)), licenseHeader(Marker(Go)), hasHeader);
    if outcome.Aborted? {
      assert goTasks + pyTasks + shTasks == goTasks + (pyTasks + shTasks);
      AbortedPrefix(start, goTasks, pyTasks + shTasks, hasHeader);
      return;
    }
    ghost var files := disk.files;
    var w, o := Add(disk, glob(d, Pattern(Py)), licenseHeader(Marker(Py)), hasHeader);
    RunMore(start, goTasks, pyTasks, hasHeader, files, rewritten, disk.files, w, o);
    rewritten, outcome := rewritten + w, o;
    if outcome.Aborted? {
      AbortedPrefix(start, goTasks + pyTasks, shTasks, hasHeader);
      return;
    }
    files := disk.files;
    w, o := Add(disk, glob(d, Pattern(Sh)), licenseHeader(Marker(Sh)), hasHeader);
    RunMore(start, goTasks + pyTasks, shTasks, hasHeader, files, rewritten, disk.files, w, o);
    rewritten, outcome := rewritten + w, o;
  }

  lemma TasksCons(dirs: seq<Path>, j: nat, glob: (Path, string) -> seq<Path>,
                  licenseHeader: string -> string)
    requires j < |dirs|
    ensures Tasks(dirs[j..], glob, licenseHeader)
            == DirTasks(dirs[j], glob, licenseHeader) + Tasks(dirs[j + 1..], glob, licenseHeader)
  {
  }

  /** One directory's run inside the whole run of `main`. */
  lemma DirStep(whole: AddRun, files: map<Path, string>, rewritten: seq<Path>,
                dirs: seq<Path>, j: nat, glob: (Path, string) -> seq<Path>,
                licenseHeader: string -> string, hasHeader: (string, string) -> bool,
                files': map<Path, string>, w: seq<Path>, o: Outcome)
    requires j < |dirs|
    requires whole == Then(AddRun(files, rewritten, Completed),
                           AddAll(files, Tasks(dirs[j..], glob, licenseHeader), hasHeader))
    requires AddAll(files, DirTasks(dirs[j], glob, licenseHeader), hasHeader) == AddRun(files', w, o)
    ensures o.Aborted? ==> whole == AddRun(files', rewritten + w, o)
    ensures o.Completed? ==>
              whole == Then(AddRun(files', rewritten + w, Completed),
                            AddAll(files', Tasks(dirs[j + 1..], glob, licenseHeader), hasHeader))
  {
    var here := DirTasks(dirs[j], glob, licenseHeader);
    var rest := Tasks(dirs[j + 1..], glob, licenseHeader);
    TasksCons(dirs, j, glob, licenseHeader);
    AddAllAppend(files, here, rest, hasHeader);
    if o.Completed? {
      var next := AddAll(files', rest, hasHeader);
      assert rewritten + (w + next.rewritten) == (rewritten + w) + next.rewritten;
    }
  }

  /** The loop of `main` in `add.py`: `add` over every directory and every
      kind of file; an exception ends the script. */
  method AddTargets(disk: Disk, dirs: seq<Path>,
                    glob: (Path, string) -> seq<Path>, licenseHeader: string -> string,
                    hasHeader: (string, string) -> bool)
    returns (rewritten: seq<Path>, outcome: Outcome)
    modifies disk
    ensures AddAll(old(disk.files), Tasks(dirs, glob, licenseHeader), hasHeader)
            == AddRun(disk.files, rewritten, outcome)
  {
    ghost var whole := AddAll(disk.files, Tasks(dirs, glob, licenseHeader), hasHeader);
    rewritten, outcome := [], Completed;
    assert dirs[0..] == dirs;
    for j := 0 to |dirs|
      invariant whole == Then(AddRun(disk.files, rewritten, Completed),
                              AddAll(disk.files, Tasks(dirs[j..], glob, licenseHeader), hasHeader))
    {
      ghost var files := disk.files;
      var w, o := AddDir(disk, dirs[j], glob, licenseHeader, hasHeader);
      DirStep(whole, files, rewritten, dirs, j, glob, licenseHeader, hasHeader, disk.files, w, o);
      rewritten := rewritten + w;
      if o.Aborted? {
        outcome := o;
        return;
      }
    }
    assert dirs[|dirs|..] == [];
    assert rewritten + [] == rewritten;
  }

  /** `main` of `add.py`, over the target directories of the project root. */
  method AddMain(disk: Disk, root: Path, entries: seq<string>,
                 glob: (Path, string) -> seq<Path>, licenseHeader: string -> string,
                 hasHeader: (string, string) -> bool)
    returns (rewritten: seq<Path>, outcome: Outcome)
    modifies disk
    ensures AddAll(old(disk.files), Tasks(TargetDirs(root, entries), glob, licenseHeader), hasHeader)
            == AddRun(disk.files, rewritten, outcome)
  {
    rewritten, outcome := AddTargets(disk, TargetDirs(root, entries), glob, licenseHeader, hasHeader);
  }

  /** The paths a list of tasks touches. */
  function TaskPaths(tasks: seq<Task>): set<Path>
  {
    set i | 0 <= i < |tasks| :: tasks[i].0
  }

  /** A list of tasks in which no path occurs twice, as `glob` yields them. */
  predicate DistinctPaths(tasks: seq<Task>)
  {
    forall i, j :: 0 <= i < j < |tasks| ==> tasks[i].0 != tasks[j].0
  }

  /** When every file already carries its header, the run writes nothing,
      announces nothing and completes. */
  lemma {:induction false} SkipsLicensed(files: map<Path, string>, tasks: seq<Task>,
                                         hasHeader: (string, string) -> bool)
    requires forall i :: 0 <= i < |tasks| ==>
               tasks[i].0 in files && hasHeader(files[tasks[i].0], tasks[i].1)
    ensures AddAll(files, tasks, hasHeader) == AddRun(files, [], Completed)
    decreases |tasks|
  {
    if tasks != [] {
      assert forall i :: 0 <= i < |tasks[1..]| ==> tasks[1..][i] == tasks[i + 1];
      SkipsLicensed(files, tasks[1..], hasHeader);
    }
  }

  /** A file that no task names keeps its text, whatever happens to the run. */
  lemma {:induction false} UntouchedOutside(files: map<Path, string>, tasks: seq<Task>,
                                            hasHeader: (string, string) -> bool, q: Path)
    requires q in files && q !in TaskPaths(tasks)
    ensures AddAll(files, tasks, hasHeader).files[q] == files[q]
    decreases |tasks|
  {
    if tasks != [] {
      var (p, header) := tasks[0];
      assert p in TaskPaths(tasks);
      assert TaskPaths(tasks[1..]) <= TaskPaths(tasks) by {
        forall x | x in TaskPaths(tasks[1..]) ensures x in TaskPaths(tasks) {
          var i :| 0 <= i < |tasks[1..]| && tasks[1..][i].0 == x;
          assert tasks[i + 1].0 == x;
        }
      }
      match VisitFile(files, p, header, hasHeader)
      case Stop(_) =>
      case Skip =>
        UntouchedOutside(files, tasks[1..], hasHeader, q);
      case Rewrite(text) =>
        UntouchedOutside(files[p := text], tasks[1..], hasHeader, q);
    }
  }

  /** The text `add` gives a file that lacks the header. */
  function Licensed(text: string, header: string): string
    requires WithHeader(SplitLines(text), header).Laid?
  {
    Concat(WithHeader(SplitLines(text), header).lines)
  }

  /** A completed run over distinct paths: every file existed; each one that
      lacked its header now holds the laid-out text and was announced, each
      one that had it is unchanged and was not. */
  lemma {:induction false} RewritesEach(files: map<Path, string>, tasks: seq<Task>,
                                        hasHeader: (string, string) -> bool)
    requires DistinctPaths(tasks)
    requires AddAll(files, tasks, hasHeader).outcome.Completed?
    ensures forall i :: 0 <= i < |tasks| ==> tasks[i].0 in files
    ensures forall q :: q in AddAll(files, tasks, hasHeader).rewritten ==> q in TaskPaths(tasks)
    ensures forall i :: 0 <= i < |tasks| ==>
              var (p, header) := tasks[i];
              var r := AddAll(files, tasks, hasHeader);
              (hasHeader(files[p], header) ==> r.files[p] == files[p] && p !in r.rewritten)
              && (!hasHeader(files[p], header) ==>
                    WithHeader(SplitLines(files[p]), header).Laid?
                    && r.files[p] == Licensed(files[p], header) && p in r.rewritten)
    decreases |tasks|
  {
    if tasks != [] {
      var (p, header) := tasks[0];
      var rest := tasks[1..];
      assert forall i :: 0 <= i < |rest| ==> rest[i] == tasks[i + 1];
      assert DistinctPaths(rest);
      assert p !in TaskPaths(rest);
      assert TaskPaths(rest) <= TaskPaths(tasks) by {
        forall x | x in TaskPaths(rest) ensures x in TaskPaths(tasks) {
          var i :| 0 <= i < |rest| && rest[i].0 == x;
          assert tasks[i + 1].0 == x;
        }
      }
      var files' := match VisitFile(files, p, header, hasHeader)
                    case Rewrite(text) => files[p := text]
                    case _ => files;
      RewritesEach(files', rest, hasHeader);
      UntouchedOutside(files', rest, hasHeader, p);
      forall i | 1 <= i < |tasks|
        ensures tasks[i].0 in files' && files'[tasks[i].0] == files[tasks[i].0]
      {
        assert rest[i - 1] == tasks[i];
        assert tasks[i].0 != p;
      }
    }
  }

  /** Running `add` again after a completed run changes nothing, provided the
      header check recognises every text `add` writes. */
  lemma SecondRunChangesNothing(files: map<Path, string>, tasks: seq<Task>,
                                hasHeader: (string, string) -> bool)
    requires DistinctPaths(tasks)
    requires AddAll(files, tasks, hasHeader).outcome.Completed?
    requires forall text, header :: WithHeader(SplitLines(text), header).Laid? ==>
               hasHeader(Licensed(text, header), header)
    ensures var first := AddAll(files, tasks, hasHeader);
            AddAll(first.files, tasks, hasHeader) == AddRun(first.files, [], Completed)
  {
    var first := AddAll(files, tasks, hasHeader);
    RewritesEach(files, tasks, hasHeader);
    SkipsLicensed(first.files, tasks, hasHeader);
  }
}
