# License-header tooling, modelled in Dafny

This project models the two license-header scripts of the repository:

- `scripts/license/add.py` puts the license header at the top of every Go,
  Python and shell file of the project that lacks one. It keeps a leading
  shebang line (`#!...`) first. Files that already carry the header are left
  alone.
- `scripts/license/check.py` reports every such file that is missing or has
  no header. It exits with 0 when there is nothing to report and 1 otherwise.

The model has five modules:

- `Targets` (targets.dfy): the rules both scripts share. The project root's
  entries minus `vendor` are the target directories (`TargetNames`,
  `TargetDirs`, with `Join` playing `os.path.join`). Each kind of file has a
  glob pattern and a comment marker: `//` for `.go`, `#` for `.py` and `.sh`.
- `Lines` (lines.dfy): a file's text as a list of lines. `SplitLines` is
  `readlines` and `Concat` is `''.join`. They are inverse to each other in both
  directions.
- `FileSystem` (filesystem.dfy): the files on disk, as a class `Disk` whose
  field maps each existing path to its text.
- `AddLicense` (add.dfy): the header layout `WithHeader` as a pure function
  of the line list and the header. The loops of `add` and `main` are methods
  on a `Disk`, each proved equal to the specification function `AddAll`.
  Lemmas about `AddAll` and `WithHeader` state what the script promises.
- `CheckLicense` (check.dfy): the loops of `check` and `main` as methods that
  change nothing. They are proved against the report functions `Problems`
  and `MainProblems`, and lemmas relate those to "every file exists and
  carries its header".

Parameters stand in for what the scripts get from outside:

- `entries`: the result of `os.listdir` of the project root.
- `root`: the project root, which the scripts get from `git rev-parse`.
- `glob(dir, pattern)`: the paths `Path(dir).glob(pattern)` yields.
- `licenseHeader(marker)`: the `license_header` function of the helper
  module, which is not part of this model.
- `hasHeader(text, header)`: `has_license_header`, also from that module. It
  is modelled as a predicate on the file's text.

The scripts crash in two cases, and the model treats both as outcomes rather
than preconditions:

- An empty file makes `content[0]` raise `IndexError`. A file whose only line
  is a shebang makes `content[1]` raise it. `add` then stops at that file
  without writing it, and the whole script ends. The model returns
  `Aborted(IndexError(path, NoFirstLine | NoSecondLine))`. Empty files, such
  as an empty `__init__.py`, therefore stop `add.py` as written.
- A path that is not among the files when it is visited ends the run, as
  `Aborted(CannotOpen(path))`.

The `rewritten` list of a run holds the files it wrote, in the order the
script announces them. On a run that stops with `IndexError`, the script has
already announced the file it stops at ("Add license header to file ...")
but not written it. That file is not in `rewritten`.

## Model

| member | source | states |
|---|---|---|
| Targets.Join | scripts/license/add.py:27 | an absolute name is taken as is; otherwise the path is the root, then at most one extra character, then the name; the extra character is `/` and is there exactly when the root is non-empty and does not already end with `/` |
| Targets.TargetNames | scripts/license/check.py:27 | a name is kept exactly when it is a listed entry other than `vendor`; the number kept is the listing's length less its `vendor` entries; a listing without `vendor` is kept whole, and a one-entry listing is kept unless that entry is `vendor` |
| Targets.TargetNamesAppend | scripts/license/check.py:27 | filtering keeps listing order: the kept names of two listings one after the other are the kept names of each, in turn |
| Targets.TargetDirs | scripts/license/add.py:27 | one target directory per kept entry, in listing order, each the root joined with that entry |
| Targets.TargetDirsCover | scripts/license/check.py:27 | every listed entry other than `vendor` yields a target directory |
| Targets.Pattern | scripts/license/add.py:32-34 | each kind's glob pattern is `**/*.` (any depth) followed by its two-letter extension: `go` exactly for Go, `py` exactly for Python, `sh` exactly for shell |
| Targets.Marker | scripts/license/add.py:32-34 | the header marker is `//` exactly for Go files and `#` exactly for Python and shell files |
| Lines.Concat | scripts/license/add.py:61 | `''.join` of no lines is the empty text and of one line is that line; with `ConcatAppend` this fixes the join of every list |
| Lines.FirstLineLength | scripts/license/add.py:48 | the first line runs up to and including the first newline, or to the end of the text when there is none |
| Lines.SplitLines | scripts/license/add.py:48 | `readlines` gives no lines exactly for the empty text; each line is non-empty with no newline except at its end, and every line but the last ends with a newline |
| Lines.SplitLinesConcat | scripts/license/add.py:47-48 | joining the lines that were read gives back the file's text |
| Lines.ConcatSplitLines | scripts/license/add.py:60-61 | reading back a joined well-formed line list gives the same list |
| Lines.ConcatAppend | scripts/license/add.py:61 | joining two lists one after the other is joining their concatenation |
| FileSystem.Disk.Write | scripts/license/add.py:60-61 | writing a file replaces its text and touches no other file |
| AddLicense.IsShebang | scripts/license/add.py:50 | the first line is a shebang exactly when it has at least two characters and its first two are `#!` |
| AddLicense.WithHeader | scripts/license/add.py:50-58 | an empty list fails at `content[0]` and a lone shebang fails at `content[1]`; with a shebang, the output starts with the shebang, a newline, the header and a newline, has one more newline exactly when the second line is not blank, ends with every original line after the first, and is 3 or 4 lines longer; otherwise the output is the header and two newlines followed by the whole original list, 3 lines longer |
| AddLicense.WrittenShebang | scripts/license/add.py:50-56 | the text written for a shebang file is the shebang line, a newline, the header, a newline, one more newline unless the second line is blank, then the joined remaining lines |
| AddLicense.WrittenPlain | scripts/license/add.py:57-61 | the text written for any other file is the header, two newlines, then the joined original lines |
| AddLicense.ShebangFirstLine | scripts/license/add.py:48-50 | the first line read is a shebang exactly when the text itself starts with `#!` |
| AddLicense.AddToPlainText | scripts/license/add.py:47-61 | a non-empty text that does not start with `#!` is rewritten to the header, two newlines and the unchanged original text |
| AddLicense.AddToShebangOnly | scripts/license/add.py:50-54 | a text that is one shebang line with nothing after it makes the layout fail at the second line |
| AddLicense.AddToShebangText | scripts/license/add.py:47-61 | a text that starts with a shebang line and continues gets the header after its first line, with a newline on each side and an extra one unless the next character starts a blank line; all original characters are kept in order |
| AddLicense.VisitFile | scripts/license/add.py:42-58 | a file is skipped exactly when it exists and has the header; it is rewritten exactly when it exists, lacks the header and the layout succeeds; an unopenable file stops the run; an empty file lacking the header stops it with the `content[0]` error |
| AddLicense.VisitFileResult | scripts/license/add.py:47-61 | a rewritten file gets exactly the laid-out text; a file that is one shebang line without the header stops the run with the `content[1]` error |
| AddLicense.Tag | scripts/license/add.py:32-34 | one call of `add` works on each of its paths, in order, with that call's header |
| AddLicense.AddAll | scripts/license/add.py:37-61 | a run never creates or deletes a file and announces at most one rewrite per path visited |
| AddLicense.AddAllAppend | scripts/license/add.py:30-38 | running two lists of files one after the other is running their concatenation; once a run aborts, nothing after it runs |
| AddLicense.AbortedPrefix | scripts/license/add.py:30-34 | an exception in one call of `add` ends the script: no later file is touched |
| AddLicense.Add | scripts/license/add.py:37-61 | the loop of `add` leaves exactly the files, announcements and outcome of `AddAll` over its paths |
| AddLicense.DirTasks | scripts/license/add.py:32-34 | one directory has one task per file that the three globs yield |
| AddLicense.DirTasksContents | scripts/license/add.py:32-34 | one directory's tasks, task by task: each `**/*.go` path with the `//` header, then each `**/*.py` path and each `**/*.sh` path with the `#` header, in glob order |
| AddLicense.TasksAppend | scripts/license/add.py:31-34 | the directories are worked through in order: one directory gives exactly its own tasks, and two lists of directories give the tasks of the first followed by those of the second |
| AddLicense.AddDir | scripts/license/add.py:32-34 | the three calls of `add` for one directory (Go with `//`, then Python and shell with `#`) leave exactly the state of `AddAll` over that directory's files |
| AddLicense.AddTargets | scripts/license/add.py:30-34 | the loop of `main` leaves exactly the state of `AddAll` over every directory's files in order |
| AddLicense.AddMain | scripts/license/add.py:25-34 | `main` runs over the target directories of the project root, that is, every entry except `vendor` |
| AddLicense.SkipsLicensed | scripts/license/add.py:42-43 | when every file already has its header, nothing is written, nothing is announced and the run completes |
| AddLicense.UntouchedOutside | scripts/license/add.py:37-61 | a file that no task names keeps its text, however the run ends |
| AddLicense.RewritesEach | scripts/license/add.py:37-61 | after a completed run over distinct paths: every file existed; a file that had its header is unchanged and not announced; a file that lacked it holds the laid-out text and is announced |
| AddLicense.SecondRunChangesNothing | scripts/license/add.py:42-43 | if the header check accepts every text `add` writes, a second run after a completed one writes nothing |
| CheckLicense.ProblemAt | scripts/license/check.py:51-58 | a path is reported as missing exactly when it does not exist, as lacking the header exactly when it exists without one, and not at all when it passes; a missing path is not tested for the header |
| CheckLicense.Problems | scripts/license/check.py:47-58 | the report has at most one entry per path |
| CheckLicense.ProblemsEmpty | scripts/license/check.py:44-60 | nothing is reported exactly when every path exists and has the header |
| CheckLicense.ProblemsReported | scripts/license/check.py:47-58 | every missing path is reported as missing and every path without the header as such, and nothing else is reported, so a failure does not stop the scan |
| CheckLicense.Check | scripts/license/check.py:44-60 | `check` returns true exactly when every path exists and has the header, exactly when its report is empty, and its report is `Problems` over all paths |
| CheckLicense.DirProblems | scripts/license/check.py:33-39 | one directory's report has at most one entry per file the three globs yield, and is empty exactly when every Go, Python and shell file passes with its marker's header |
| CheckLicense.MainProblems | scripts/license/check.py:31-41 | no directories give an empty report, and a single directory gives exactly its own report |
| CheckLicense.MainProblemsPrefix | scripts/license/check.py:33-39 | the directories are reported in order: the report of the first `j` directories is the start of the whole report |
| CheckLicense.CheckDir | scripts/license/check.py:33-39 | the three calls for one directory are all made; the combined verdict holds exactly when every Go, Python and shell file passes with its marker's header |
| CheckLicense.CheckTargets | scripts/license/check.py:31-41 | the exit code is 0 or 1, and 0 exactly when every file of every kind in every directory passes, exactly when the combined report is empty |
| CheckLicense.CheckMain | scripts/license/check.py:25-41 | `main` checks the target directories of the project root, every entry except `vendor`, with the same exit-code rule |
| CheckLicense.MainReportsEvery | scripts/license/check.py:33-39 | every problem that any single `check` call finds appears in the report of `main`, so a failing call does not suppress later ones |
| CheckLicense.MainProblemsEmpty | scripts/license/check.py:31-41 | `main`'s report is empty exactly when every file of every kind in every target directory passes |

## Left out

- Running `git rev-parse` to find the project root, `os.listdir`, and
  `Path.glob`. These are I/O. They become the parameters `root`, `entries`
  and `glob`. `glob` is a fixed function of directory and pattern. That is
  faithful because `add` only rewrites existing files and never creates any.
- `license_header` and `has_license_header` live in a helper module that is
  not part of this model. They are the parameters `licenseHeader` and
  `hasHeader`. `hasHeader` is taken to depend only on the file's text.
- What `has_license_header` does with a path that does not exist is unseen.
  For `add`, the model stops the run at such a path as a failed open
  (`CannotOpen`), whichever of the two calls would raise first.
- The `print` output (`Checking ...`, `Add license header to file ...`, the
  failure messages) and the `verbose` flag. The model returns the rewritten
  paths and the `Problem` list instead. These match the messages except on a
  run of `add` that stops with `IndexError`: the script announces the file it
  stops at, but `rewritten` leaves it out because it was not written.
- Failures of an existing file: a file that cannot be read or decoded as
  text (add.py:47-48), or that cannot be opened for writing (add.py:60). The
  model assumes every file in the map can be read and written. In the script
  each of these raises and ends the run; in the model such a file is
  rewritten.
- Directories among the paths. The file map holds regular files only, so
  every path a glob yields is taken to be a file. In the script, `add` would
  pass a directory whose name matches a pattern to `has_license_header` and
  then fail to open it. For `check`, `p.exists()` at check.py:51 is true for a
  directory, so it would go on to `has_license_header`.
  The model has no directories: such a path is absent from the map, so it
  stops `add` as `CannotOpen` and is reported `Missing` by `check`.
- `AddLicense.Tasks` carries no contract of its own: its meaning, the
  directories' task lists in order, is stated by `TasksAppend`.
- Argument parsing and the process exit itself. `CheckMain` returns the exit
  code.
- Python's universal-newline translation of `\r\n` and `\r` in text mode.
  The model splits lines only at `\n`. Text is a sequence of characters, with
  no encoding.
- `pkg/ghost/git/repo.go` and `pkg/ghost/git/validation.go`. Each of their
  functions builds a `git` argument list and runs the external program. Their
  only behaviour is a process exit status and its error text.
