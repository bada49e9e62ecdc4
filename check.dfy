/**
 `check.py`: report every file that is missing or lacks the license header,
 and turn the verdict into an exit code.
 */
module CheckLicense {
  import opened Targets
  import opened FileSystem

  /** What `check` prints about a failing path. */
  datatype Problem = Missing(path: Path) | NoHeader(path: Path)

  /** One iteration of the loop in `check`: a path that does not exist is
      reported as such and not tested for the header. */
  function ProblemAt(files: map<Path, string>, p: Path, header: string,
                     hasHeader: (string, string) -> bool): (r: seq<Problem>)
    ensures r == [] <==> p in files && hasHeader(files[p], header)
    ensures r == [Missing(p)] <==> p !in files
    ensures r == [NoHeader(p)] <==> p in files && !hasHeader(files[p], header)
  {
    if p !in files then [Missing(p)]
    else if !hasHeader(files[p], header) then [NoHeader(p)]
    else []
  }

  /** Everything `check` reports over `paths`, in order. */
  function Problems(files: map<Path, string>, paths: seq<Path>, header: string,
                    hasHeader: (string, string) -> bool): (r: seq<Problem>)
    ensures |r| <= |paths|
  {
    if paths == [] then []
    else Problems(files, paths[..|paths| - 1], header, hasHeader)
         + ProblemAt(files, paths[|paths| - 1], header, hasHeader)
  }

  /** Every path exists and carries the header. */
  predicate AllLicensed(files: map<Path, string>, paths: seq<Path>, header: string,
                        hasHeader: (string, string) -> bool)
  {
    forall i :: 0 <= i < |paths| ==> paths[i] in files && hasHeader(files[paths[i]], header)
  }

  /** Nothing is reported exactly when every path passes. */
  lemma {:induction false} ProblemsEmpty(files: map<Path, string>, paths: seq<Path>, header: string,
                                         hasHeader: (string, string) -> bool)
    ensures Problems(files, paths, header, hasHeader) == [] <==> AllLicensed(files, paths, header, hasHeader)
  {
    if paths != [] {
      var front := paths[..|paths| - 1];
      ProblemsEmpty(files, front, header, hasHeader);
      assert forall i :: 0 <= i < |front| ==> front[i] == paths[i];
    }
  }

  /** Every failing path is reported, with the reason it fails, and nothing
      else is: a missing path only as missing. */
  lemma {:induction false} ProblemsReported(files: map<Path, string>, paths: seq<Path>, header: string,
                                            hasHeader: (string, string) -> bool, q: Path)
    ensures Missing(q) in Problems(files, paths, header, hasHeader) <==> q in paths && q !in files
    ensures NoHeader(q) in Problems(files, paths, header, hasHeader)
            <==> q in paths && q in files && !hasHeader(files[q], header)
  {
    if paths != [] {
      var front := paths[..|paths| - 1];
      var last := paths[|paths| - 1];
      ProblemsReported(files, front, header, hasHeader, q);
      assert paths == front + [last];
      assert q in paths <==> q in front || q == last;
    }
  }

  /** `check(paths, license_header)`: visits every path, even after a
      failure, and returns whether all of them passed. */
  method Check(disk: Disk, paths: seq<Path>, header: string,
               hasHeader: (string, string) -> bool)
    returns (ok: bool, problems: seq<Problem>)
    ensures ok <==> AllLicensed(disk.files, paths, header, hasHeader)
    ensures problems == Problems(disk.files, paths, header, hasHeader)
    ensures ok <==> problems == []
  {
    ok, problems := true, [];
    for i := 0 to |paths|
      invariant ok <==> AllLicensed(disk.files, paths[..i], header, hasHeader)
      invariant ok <==> problems == []
      invariant problems == Problems(disk.files, paths[..i], header, hasHeader)
    {
      var p := paths[i];
      assert paths[..i + 1][..i] == paths[..i];
      assert paths[..i + 1][i] == p;
      if p !in disk.files {
        problems := problems + [Missing(p)];
        ok := false;
        continue;
      }
      if !hasHeader(disk.files[p], header) {
        problems := problems + [NoHeader(p)];
        ok := false;
      }
    }
    assert paths[..|paths|] == paths;
  }

  /** The three reports `main` collects for one directory: at most one entry
      per file, and none exactly when every file passes with its kind's header. */
  function DirProblems(files: map<Path, string>, d: Path, glob: (Path, string) -> seq<Path>,
                       licenseHeader: string -> string,
                       hasHeader: (string, string) -> bool): (r: seq<Problem>)
    ensures |r| <= |glob(d, Pattern(Go))| + |glob(d, Pattern(Py))| + |glob(d, Pattern(Sh))|
    ensures r == [] <==> DirLicensed(files, d, glob, licenseHeader, hasHeader)
  {
    ProblemsEmpty(files, glob(d, Pattern(Go)), licenseHeader(Marker(Go)), hasHeader);
    ProblemsEmpty(files, glob(d, Pattern(Py)), licenseHeader(Marker(Py)), hasHeader);
    ProblemsEmpty(files, glob(d, Pattern(Sh)), licenseHeader(Marker(Sh)), hasHeader);
    assert Extensions == [Go, Py, Sh];
    Problems(files, glob(d, Pattern(Go)), licenseHeader(Marker(Go)), hasHeader)
    + Problems(files, glob(d, Pattern(Py)), licenseHeader(Marker(Py)), hasHeader)
    + Problems(files, glob(d, Pattern(Sh)), licenseHeader(Marker(Sh)), hasHeader)
  }

  /** Everything `main` reports, directory by directory. */
  function MainProblems(files: map<Path, string>, dirs: seq<Path>, glob: (Path, string) -> seq<Path>,
                        licenseHeader: string -> string,
                        hasHeader: (string, string) -> bool): (r: seq<Problem>)
    ensures dirs == [] ==> r == []
    ensures |dirs| == 1 ==> r == DirProblems(files, dirs[0], glob, licenseHeader, hasHeader)
  {
    if dirs == [] then []
    else MainProblems(files, dirs[..|dirs| - 1], glob, licenseHeader, hasHeader)
         + DirProblems(files, dirs[|dirs| - 1], glob, licenseHeader, hasHeader)
  }

  /** The directories are reported in order: the report of the first `j`
      directories is the start of the whole report. */
  lemma {:induction false} MainProblemsPrefix(files: map<Path, string>, dirs: seq<Path>, j: nat,
                                              glob: (Path, string) -> seq<Path>,
                                              licenseHeader: string -> string,
                                              hasHeader: (string, string) -> bool)
    requires j <= |dirs|
    ensures MainProblems(files, dirs[..j], glob, licenseHeader, hasHeader)
            <= MainProblems(files, dirs, glob, licenseHeader, hasHeader)
    decreases |dirs|
  {
    if j < |dirs| {
      var front := dirs[..|dirs| - 1];
      assert front[..j] == dirs[..j];
      MainProblemsPrefix(files, front, j, glob, licenseHeader, hasHeader);
    } else {
      assert dirs[..j] == dirs;
    }
  }

  /** Every file of every kind in one directory passes, with that kind's header. */
  predicate DirLicensed(files: map<Path, string>, d: Path, glob: (Path, string) -> seq<Path>,
                        licenseHeader: string -> string, hasHeader: (string, string) -> bool)
  {
    forall e :: e in Extensions ==>
      AllLicensed(files, glob(d, Pattern(e)), licenseHeader(Marker(e)), hasHeader)
  }

  /** Every file of every kind in every directory passes. */
  predicate TreeLicensed(files: map<Path, string>, dirs: seq<Path>, glob: (Path, string) -> seq<Path>,
                         licenseHeader: string -> string, hasHeader: (string, string) -> bool)
  {
    forall j :: 0 <= j < |dirs| ==> DirLicensed(files, dirs[j], glob, licenseHeader, hasHeader)
  }

  lemma TreeLicensedSnoc(files: map<Path, string>, dirs: seq<Path>, j: nat,
                         glob: (Path, string) -> seq<Path>, licenseHeader: string -> string,
                         hasHeader: (string, string) -> bool)
    requires j < |dirs|
    ensures TreeLicensed(files, dirs[..j + 1], glob, licenseHeader, hasHeader)
            <==> TreeLicensed(files, dirs[..j], glob, licenseHeader, hasHeader)
                 && DirLicensed(files, dirs[j], glob, licenseHeader, hasHeader)
  {
  }

  /** The body of the loop in `main` of `check.py`: `check` runs on the Go,
      Python and shell files of one directory, each call made whatever the
      previous one returned. */
  method CheckDir(disk: Disk, d: Path, glob: (Path, string) -> seq<Path>,
                  licenseHeader: string -> string, hasHeader: (string, string) -> bool)
    returns (ok: bool, problems: seq<Problem>)
    ensures ok <==> DirLicensed(disk.files, d, glob, licenseHeader, hasHeader)
    ensures problems == DirProblems(disk.files, d, glob, licenseHeader, hasHeader)
    ensures ok <==> problems == []
  {
    ok := true;
    var okGo, pGo := Check(disk, glob(d, Pattern(Go)), licenseHeader(Marker(Go)), hasHeader);
    ok := ok && okGo;
    var okPy, pPy := Check(disk, glob(d, Pattern(Py)), licenseHeader(Marker(Py)), hasHeader);
    ok := ok && okPy;
    var okSh, pSh := Check(disk, glob(d, Pattern(Sh)), licenseHeader(Marker(Sh)), hasHeader);
    ok := ok && okSh;
    problems := pGo + pPy + pSh;
    assert Extensions == [Go, Py, Sh];
  }

  /** The loop of `main` in `check.py`: every directory is checked, even
      after an earlier one failed; the exit code is 0 exactly when all passed. */
  method CheckTargets(disk: Disk, dirs: seq<Path>,
                      glob: (Path, string) -> seq<Path>, licenseHeader: string -> string,
                      hasHeader: (string, string) -> bool)
    returns (code: int, problems: seq<Problem>)
    ensures code == 0 || code == 1
    ensures code == 0 <==> TreeLicensed(disk.files, dirs, glob, licenseHeader, hasHeader)
    ensures problems == MainProblems(disk.files, dirs, glob, licenseHeader, hasHeader)
    ensures code == 0 <==> problems == []
  {
    var ok := true;
    problems := [];
    for j := 0 to |dirs|
      invariant ok <==> problems == []
      invariant problems == MainProblems(disk.files, dirs[..j], glob, licenseHeader, hasHeader)
    {
      var okDir, found := CheckDir(disk, dirs[j], glob, licenseHeader, hasHeader);
      ok := ok && okDir;
      problems := problems + found;
      assert dirs[..j + 1][..j] == dirs[..j];
    }
    assert dirs[..|dirs|] == dirs;
    MainProblemsEmpty(disk.files, dirs, glob, licenseHeader, hasHeader);
    code := if ok then 0 else 1;
  }

  /** `main` of `check.py`, over the target directories of the project root. */
  method CheckMain(disk: Disk, root: Path, entries: seq<string>,
                   glob: (Path, string) -> seq<Path>, licenseHeader: string -> string,
                   hasHeader: (string, string) -> bool)
    returns (code: int, problems: seq<Problem>)
    ensures code == 0 || code == 1
    ensures code == 0 <==> TreeLicensed(disk.files, TargetDirs(root, entries), glob, licenseHeader, hasHeader)
    ensures problems == MainProblems(disk.files, TargetDirs(root, entries), glob, licenseHeader, hasHeader)
  {
    code, problems := CheckTargets(disk, TargetDirs(root, entries), glob, licenseHeader, hasHeader);
  }

  /** A failing call does not hide later ones: every problem any single
      `check` call finds appears in the report of `main`. */
  lemma {:induction false} MainReportsEvery(files: map<Path, string>, dirs: seq<Path>,
                                            glob: (Path, string) -> seq<Path>,
                                            licenseHeader: string -> string,
                                            hasHeader: (string, string) -> bool,
                                            j: nat, e: Ext, q: Problem)
    requires j < |dirs|
    requires q in Problems(files, glob(dirs[j], Pattern(e)), licenseHeader(Marker(e)), hasHeader)
    ensures q in MainProblems(files, dirs, glob, licenseHeader, hasHeader)
  {
    var front := dirs[..|dirs| - 1];
    if j < |dirs| - 1 {
      assert front[j] == dirs[j];
      MainReportsEvery(files, front, glob, licenseHeader, hasHeader, j, e, q);
    } else {
      assert q in DirProblems(files, dirs[j], glob, licenseHeader, hasHeader);
    }
  }

  /** The exit code agrees with the report: 0 exactly when nothing was reported. */
  lemma {:induction false} MainProblemsEmpty(files: map<Path, string>, dirs: seq<Path>,
                                             glob: (Path, string) -> seq<Path>,
                                             licenseHeader: string -> string,
                                             hasHeader: (string, string) -> bool)
    ensures MainProblems(files, dirs, glob, licenseHeader, hasHeader) == []
            <==> TreeLicensed(files, dirs, glob, licenseHeader, hasHeader)
  {
    if dirs != [] {
      var j := |dirs| - 1;
      var d := dirs[j];
      MainProblemsEmpty(files, dirs[..j], glob, licenseHeader, hasHeader);
      TreeLicensedSnoc(files, dirs, j, glob, licenseHeader, hasHeader);
      assert dirs[..j + 1] == dirs;
      ProblemsEmpty(files, glob(d, Pattern(Go)), licenseHeader(Marker(Go)), hasHeader);
      ProblemsEmpty(files, glob(d, Pattern(Py)), licenseHeader(Marker(Py)), hasHeader);
      ProblemsEmpty(files, glob(d, Pattern(Sh)), licenseHeader(Marker(Sh)), hasHeader);
      assert Extensions == [Go, Py, Sh];
    }
  }
}
