// hermes/file_ops.py and hermes/repo_ops.py: guarded writes, reverts, sequential application and
// dry-run preview over the files of a workspace.

module Workspaces {
  import opened Basics
  import opened Paths

  type Files = map<Path, string>

  // Where the workspace is, the directories that were there from the start, and the two library calls
  // that describe a text: its length in UTF-8 and the first twelve digits of its SHA-256.
  datatype Env = Env(root: Path, dirs: set<Path>, size: string -> nat, digest: string -> string)

  datatype FileError =
    | BadPath(error: PathError)
    | ParentIsFile        // mkdir finds a file where a directory has to be
    | TargetIsDirectory   // read_text finds a directory
    | OverwriteRefused
    | NoChanges

  datatype FileWriteResult = FileWriteResult(
    path: Path,
    bytesWritten: nat,
    existedBefore: bool,
    changed: bool,
    previousBytes: nat,
    previousContent: string,
    previousDigest: Option<string>,
    newDigest: string,
    changePreview: string)

  datatype FileRevertResult = FileRevertResult(
    path: Path,
    reverted: bool,
    existedBefore: bool,
    restoredBytes: nat,
    restoredDigest: string,
    previousDigest: Option<string>,
    changePreview: string)

  datatype Change = Change(filePath: Option<string>, content: Option<string>, overwrite: bool, overwriteApproved: bool)

  datatype FileRecord = FileRecord(
    path: string,
    content: string,
    bytesWritten: nat,
    existedBefore: bool,
    changed: bool,
    previousBytes: nat,
    previousDigest: Option<string>,
    newDigest: string,
    changePreview: string,
    overwrite: bool,
    overwriteApproved: bool)

  function OrEmpty(s: Option<string>): string {
    if s.Some? then s.value else ""
  }

  // What reading the file yields, nothing when it is absent.
  function View(files: Files, p: Path): string {
    if p in files then files[p] else ""
  }

  function Escaped(s: string): string {
    if s == "" then "" else (if s[0] == '\n' then "\\n" else [s[0]]) + Escaped(s[1..])
  }

  function Head(s: string): string {
    if |s| <= 80 then s else s[..80]
  }

  function PreviewChange(previous: string, new_: string): string {
    if previous == new_ then "no content change"
    else "prev='" + Escaped(Head(previous)) + "' -> new='" + Escaped(Head(new_)) + "'"
  }

  // ----- files and directories

  // A directory from the start, or one that a file or such a directory lies in.
  predicate IsDirectory(env: Env, files: Files, p: Path) {
    (exists q :: q in files && Below(p, q)) || (exists d :: d in env.dirs && p <= d)
  }

  // Something on the way to the path is a file.
  predicate UnderFile(files: Files, p: Path) {
    exists q :: q in files && Below(q, p)
  }

  // What a file system guarantees: nothing is a file and a directory.
  ghost predicate TreeShaped(env: Env, files: Files) {
    forall p :: p in files ==> !IsDirectory(env, files, p)
  }

  // A file can be at the path, and whether there is one can be read off `files`.
  predicate Reachable(env: Env, files: Files, p: Path) {
    !IsDirectory(env, files, p) && !UnderFile(files, p)
  }

  lemma WriteKeepsTree(env: Env, files: Files, p: Path, data: string)
    requires TreeShaped(env, files) && Reachable(env, files, p)
    ensures TreeShaped(env, files[p := data])
  {
    var after := files[p := data];
    forall q | q in after ensures !IsDirectory(env, after, q) {
      if q in files {
        assert !IsDirectory(env, files, q);
      }
      forall r | r in after ensures !Below(q, r) {}
      forall d | d in env.dirs ensures !(q <= d) {}
    }
  }

  // Where there is a file, everything on the way is a directory.
  lemma FilesAreReachable(env: Env, files: Files, p: Path)
    requires TreeShaped(env, files) && p in files
    ensures Reachable(env, files, p)
  {
    if q :| q in files && Below(q, p) {
      assert IsDirectory(env, files, q);
    }
  }

  lemma AboveDirectory(env: Env, files: Files, f: Path, p: Path)
    requires IsDirectory(env, files, p) && Below(f, p)
    ensures IsDirectory(env, files, f)
  {
    if q :| q in files && Below(p, q) {
      assert Below(f, q);
    } else {
      var d :| d in env.dirs && p <= d;
      assert f <= d;
    }
  }

  // A path cannot both lie below a file and be a directory.
  lemma DirectoriesAreNotUnderFiles(env: Env, files: Files, p: Path)
    requires TreeShaped(env, files) && IsDirectory(env, files, p)
    ensures !UnderFile(files, p)
  {
    hide IsDirectory;
    if f :| f in files && Below(f, p) {
      AboveDirectory(env, files, f, p);
    }
  }

  // ----- what each call does to the files

  function TargetOf(env: Env, c: Change): Resolved {
    Resolve(env.root, OrEmpty(c.filePath))
  }

  // The change can be looked at: its path is valid and not that of a directory.
  predicate Inspectable(env: Env, files: Files, c: Change) {
    TargetOf(env, c).Target? && !IsDirectory(env, files, TargetOf(env, c).path)
  }

  // The change can be made now: its path is valid and neither a directory nor below a file, and the
  // file is absent, may be overwritten, or has the content already.
  predicate Acceptable(env: Env, files: Files, c: Change) {
    && TargetOf(env, c).Target? && Reachable(env, files, TargetOf(env, c).path)
    && (var p := TargetOf(env, c).path; p !in files || c.overwrite || files[p] == OrEmpty(c.content))
  }

  // Why a change that is not acceptable is refused.
  function RefusalOf(env: Env, files: Files, c: Change): FileError {
    if TargetOf(env, c).Unresolved? then BadPath(TargetOf(env, c).error)
    else if IsDirectory(env, files, TargetOf(env, c).path) then TargetIsDirectory
    else if UnderFile(files, TargetOf(env, c).path) then ParentIsFile
    else OverwriteRefused
  }

  // The files with the targets of the changes set to their contents, in order.
  function Overlay(env: Env, files: Files, changes: seq<Change>): Files {
    if changes == [] then files
    else
      var before, c := Overlay(env, files, changes[..|changes| - 1]), changes[|changes| - 1];
      if TargetOf(env, c).Target? then before[TargetOf(env, c).path := OrEmpty(c.content)] else before
  }

  // A recorded earlier content can be written back.
  predicate Revertible(env: Env, files: Files, relative: string) {
    Resolve(env.root, relative).Target? && Reachable(env, files, Resolve(env.root, relative).path)
  }

  // The files after writing it back.
  function Reverted(env: Env, files: Files, relative: string, previousContent: string): Files {
    if Revertible(env, files, relative) then files[Resolve(env.root, relative).path := previousContent] else files
  }

  function DescribeWrite(env: Env, files: Files, target: Path, data: string): FileWriteResult {
    var previous := View(files, target);
    FileWriteResult(target, env.size(data), target in files, previous != data, env.size(previous), previous,
                    if target in files then Some(env.digest(previous)) else None, env.digest(data),
                        PreviewChange(previous, data))
  }

  function DescribeRevert(env: Env, files: Files, target: Path, restored: string): FileRevertResult {
    var current := View(files, target);
    FileRevertResult(target, current != restored, target in files, env.size(restored), env.digest(restored),
                     if target in files then Some(env.digest(current)) else None, PreviewChange(current, restored))
  }

  function DescribeChange(env: Env, files: Files, c: Change): FileRecord
    requires TargetOf(env, c).Target?
  {
    var target, content := TargetOf(env, c).path, OrEmpty(c.content);
    var previous := View(files, target);
    FileRecord(RelativeTo(env.root, target), content, env.size(content), target in files, previous != content,
        env.size(previous),
               if target in files then Some(env.digest(previous)) else None, env.digest(content),
                   PreviewChange(previous, content),
               c.overwrite, c.overwriteApproved)
  }

  // The number of leading changes that can be made one after the other.
  function Progress(env: Env, files: Files, changes: seq<Change>): (n: nat)
    ensures n <= |changes|
    decreases |changes|
  {
    if changes == [] || !Acceptable(env, files, changes[0]) then 0
    else 1 + Progress(env, Overlay(env, files, changes[..1]), changes[1..])
  }

  class Workspace {
    const env: Env
    var files: Files

    ghost predicate Valid()
      reads this
    {
      TreeShaped(env, files)
    }

    constructor (env: Env, files: Files)
      requires TreeShaped(env, files)
      ensures Valid() && this.env == env && this.files == files
    {
      this.env, this.files := env, files;
    }

    // target.parent.mkdir and target.read_text, which raise where a file is in the way of a directory
    // or a directory is in the place of a file.
    method Refusal(target: Path) returns (error: Option<FileError>)
      requires Valid()
      ensures error.None? <==> Reachable(env, files, target)
      ensures error.Some? ==> error == Some(if IsDirectory(env, files, target) then TargetIsDirectory else ParentIsFile)
    {
      if UnderFile(files, target) {
        if IsDirectory(env, files, target) {
          DirectoriesAreNotUnderFiles(env, files, target);
        }
        return Some(ParentIsFile);
      }
      error := if IsDirectory(env, files, target) then Some(TargetIsDirectory) else None;
    }

    method WriteFile(relative: string, content: string, overwrite: bool) returns (error: Option<FileError>,
            result: Option<FileWriteResult>)
      requires Valid()
      modifies this
      ensures Valid()
      ensures var c := Change(Some(relative), Some(content), overwrite, false);
              && (error.None? <==> Acceptable(env, old(files), c))
              && (error.None? ==> files == Overlay(env, old(files), [c])
                                  && result == Some(DescribeWrite(env, old(files), TargetOf(env, c).path, content)))
              && (error.Some? ==> files == old(files) && result == None)
              && (error.Some? ==> error == Some(RefusalOf(env, old(files), c)))
      ensures error.None? ==>
                var target, r := Resolve(env.root, relative).path, result.value;
                var previous := if target in old(files) then old(files)[target] else "";
                && files == old(files)[target := content]
                && r.path == target && (r.existedBefore <==> target in old(files))
                && (r.changed <==> previous != content)
                && r.previousContent == previous && r.previousBytes == env.size(previous)
                && r.previousDigest == (if target in old(files) then Some(env.digest(previous)) else None)
                && r.bytesWritten == env.size(content) && r.newDigest == env.digest(content)
                && r.changePreview == PreviewChange(previous, content)
    {
      var target := Resolve(env.root, relative);
      if target.Unresolved? {
        return Some(BadPath(target.error)), None;
      }
      var refused := Refusal(target.path);
      if refused.Some? {
        return refused, None;
      }
      var existedBefore := target.path in files;
      var previous := if existedBefore then files[target.path] else "";
      if existedBefore && !overwrite && previous != content {
        return Some(OverwriteRefused), None;
      }
      ghost var c := Change(Some(relative), Some(content), overwrite, false);
      OverlayOne(env, files, c);
      WriteKeepsTree(env, files, target.path, content);
      files := files[target.path := content];
      result := Some(FileWriteResult(target.path, env.size(content), existedBefore, previous != content,
          env.size(previous), previous,
                                     if existedBefore then Some(env.digest(previous)) else None, env.digest(content),
                                     PreviewChange(previous, content)));
      error := None;
    }

    method RevertFile(relative: string, previousContent: string) returns (error: Option<FileError>,
            result: Option<FileRevertResult>)
      requires Valid()
      modifies this
      ensures Valid()
      ensures files == Reverted(env, old(files), relative, previousContent)
      ensures error.None? <==> Revertible(env, old(files), relative)
      ensures error.Some? ==>
          error == Some(RefusalOf(env, old(files), Change(Some(relative), Some(previousContent), true, false)))
      ensures error.None? ==>
                var target := Resolve(env.root, relative).path;
                result == Some(DescribeRevert(env, old(files), target, previousContent)) &&
                    View(files, target) == previousContent
      ensures error.None? ==>
                var target, r := Resolve(env.root, relative).path, result.value;
                var current := if target in old(files) then old(files)[target] else "";
                && files == old(files)[target := previousContent]
                && r.path == target && (r.existedBefore <==> target in old(files))
                && (r.reverted <==> current != previousContent)
                && r.previousDigest == (if target in old(files) then Some(env.digest(current)) else None)
                && r.restoredBytes == env.size(previousContent) && r.restoredDigest == env.digest(previousContent)
                && r.changePreview == PreviewChange(current, previousContent)
    {
      var target := Resolve(env.root, relative);
      if target.Unresolved? {
        return Some(BadPath(target.error)), None;
      }
      var refused := Refusal(target.path);
      if refused.Some? {
        return refused, None;
      }
      var existedBefore := target.path in files;
      var current := if existedBefore then files[target.path] else "";
      WriteKeepsTree(env, files, target.path, previousContent);
      files := files[target.path := previousContent];
      result := Some(FileRevertResult(target.path, current != previousContent, existedBefore, env.size(previousContent),
          env.digest(previousContent),
                                      if existedBefore then Some(env.digest(current))
                                          else None, PreviewChange(current, previousContent)));
      error := None;
    }

    method InspectChange(c: Change) returns (error: Option<FileError>, record: Option<FileRecord>)
      ensures error.None? <==> Inspectable(env, files, c)
      ensures error.None? ==> record == Some(DescribeChange(env, files, c))
      ensures error.Some? ==> error == Some(RefusalOf(env, files, c))
      ensures error.None? ==>
                var target := Resolve(env.root, OrEmpty(c.filePath)).path;
                var r, content := record.value, if c.content.Some? then c.content.value else "";
                var previous := if target in files then files[target] else "";
                && Below(env.root, target) && r.path == Join(target[|env.root|..]) && r.content == content
                && (r.existedBefore <==> target in files) && (r.changed <==> previous != content)
                && r.previousBytes == env.size(previous)
                && r.previousDigest == (if target in files then Some(env.digest(previous)) else None)
                && r.bytesWritten == env.size(content) && r.newDigest == env.digest(content)
                && r.changePreview == PreviewChange(previous, content)
                && r.overwrite == c.overwrite && r.overwriteApproved == c.overwriteApproved
    {
      var target := Resolve(env.root, OrEmpty(c.filePath));
      if target.Unresolved? {
        return Some(BadPath(target.error)), None;
      }
      if IsDirectory(env, files, target.path) {
        return Some(TargetIsDirectory), None;
      }
      var content := OrEmpty(c.content);
      var existedBefore := target.path in files;
      var previous := if existedBefore then files[target.path] else "";
      record := Some(FileRecord(RelativeTo(env.root, target.path), content, env.size(content), existedBefore,
          previous != content, env.size(previous),
                                if existedBefore then Some(env.digest(previous)) else None, env.digest(content),
                                    PreviewChange(previous, content),
                                c.overwrite, c.overwriteApproved));
      error := None;
    }

    // The body of the loop of apply_repo_write.
    method ApplyChange(c: Change) returns (error: Option<FileError>, record: Option<FileRecord>)
      requires Valid()
      modifies this
      ensures Valid()
      ensures error.None? <==> Acceptable(env, old(files), c)
      ensures error.None? ==> files == Overlay(env, old(files), [c])
      ensures error.None? ==> record == Some(DescribeChange(env, old(files), c))
      ensures error.Some? ==> files == old(files) && error == Some(RefusalOf(env, old(files), c))
    {
      var refused, inspected := InspectChange(c);
      if refused.Some? {
        return refused, None;
      }
      var failed, written := WriteFile(OrEmpty(c.filePath), OrEmpty(c.content), inspected.value.overwrite);
      if failed.Some? {
        return failed, None;
      }
      OverlayOne(env, old(files), c);
      OverlayOne(env, old(files), Change(Some(OrEmpty(c.filePath)), Some(OrEmpty(c.content)), c.overwrite, false));
      var w := written.value;
      record := Some(FileRecord(RelativeTo(env.root, w.path), OrEmpty(c.content), w.bytesWritten, w.existedBefore,
          w.changed, w.previousBytes,
                                w.previousDigest, w.newDigest, w.changePreview, inspected.value.overwrite,
                                    inspected.value.overwriteApproved));
      error := None;
    }

    // The changes are made one by one until one of them cannot be; what was written stays.
    method ApplyRepoWrite(changes: seq<Change>) returns (error: Option<FileError>, records: seq<FileRecord>)
      requires Valid()
      modifies this
      ensures Valid()
      ensures files == Overlay(env, old(files), changes[..Progress(env, old(files), changes)])
      ensures error.None? <==> changes != [] && Progress(env, old(files), changes) == |changes|
      ensures error.None? ==> |records| == |changes| &&
                              forall i :: 0 <= i < |changes| ==>
                                TargetOf(env, changes[i]).Target? &&
                                    records[i] ==
                                    DescribeChange(env, Overlay(env, old(files), changes[..i]), changes[i])
      ensures error.Some? ==>
          error == Some(if changes == [] then NoChanges
          else RefusalOf(env, files, changes[Progress(env, old(files), changes)]))
    {
      hide Overlay, DescribeChange, Progress, TargetOf, RefusalOf, TreeShaped, Reachable;
      OverlayNone(env, files);
      assert changes[..0] == [];
      records := [];
      if changes == [] {
        return Some(NoChanges), [];
      }
      for n := 0 to |changes|
        invariant Valid() && |records| == n && n <= Progress(env, old(files), changes)
        invariant files == Overlay(env, old(files), changes[..n])
        invariant forall i :: 0 <= i < n ==>
                    TargetOf(env, changes[i]).Target? &&
                        records[i] == DescribeChange(env, Overlay(env, old(files), changes[..i]), changes[i])
      {
        ProgressReaches(env, old(files), changes, n);
        assert changes[..n + 1][..n] == changes[..n];
        OverlaySnoc(env, old(files), changes, n);
        var failed, record := ApplyChange(changes[n]);
        if failed.Some? {
          return failed, [];
        }
        records := records + [record.value];
      }
      error := None;
      assert changes[..|changes|] == changes;
    }

    // Nothing is written; the first path that does not resolve or is a directory ends the preview.
    method PreviewRepoWrite(changes: seq<Change>) returns (error: Option<FileError>, records: seq<FileRecord>)
      ensures error.Some? ==> if changes == [] then error == Some(NoChanges)
          else FirstRefused(env, files, changes, error.value)
      ensures error.None? <==> changes != [] && forall i :: 0 <= i < |changes| ==> Inspectable(env, files, changes[i])
      ensures error.None? ==> |records| == |changes| && forall i :: 0 <= i < |changes| ==>
          records[i] == DescribeChange(env, files, changes[i])
    {
      hide DescribeChange, RefusalOf, IsDirectory;
      records := [];
      if changes == [] {
        return Some(NoChanges), [];
      }
      for n := 0 to |changes|
        invariant |records| == n
        invariant forall i :: 0 <= i < n ==> Inspectable(env, files, changes[i])
        invariant forall i :: 0 <= i < n ==> records[i] == DescribeChange(env, files, changes[i])
      {
        var refused, inspected := InspectChange(changes[n]);
        if refused.Some? {
          assert RefusedAt(env, files, changes, n, refused.value);
          return refused, [];
        }
        records := records + [inspected.value];
      }
      error := None;
    }
  }

  // The n-th change is the first that cannot be looked at, for the given reason.
  predicate RefusedAt(env: Env, files: Files, changes: seq<Change>, n: nat, error: FileError) {
    && n < |changes| && !Inspectable(env, files, changes[n]) && error == RefusalOf(env, files, changes[n])
    && forall i :: 0 <= i < n ==> Inspectable(env, files, changes[i])
  }

  ghost predicate FirstRefused(env: Env, files: Files, changes: seq<Change>, error: FileError) {
    exists n: nat :: RefusedAt(env, files, changes, n, error)
  }

  lemma OverlayOne(env: Env, files: Files, c: Change)
    ensures Overlay(env, files, [c]) == if TargetOf(env, c).Target? then
        files[TargetOf(env, c).path := OrEmpty(c.content)] else files
  {
    assert [c][..0] == [];
  }

  lemma OverlayNone(env: Env, files: Files)
    ensures Overlay(env, files, []) == files
  {
  }

  lemma {:induction false} OverlayConcat(env: Env, files: Files, a: seq<Change>, b: seq<Change>)
    ensures Overlay(env, files, a + b) == Overlay(env, Overlay(env, files, a), b)
  {
    if b == [] {
      assert a + b == a;
    } else {
      assert (a + b)[..|a + b| - 1] == a + b[..|b| - 1];
      OverlayConcat(env, files, a, b[..|b| - 1]);
    }
  }

  lemma OverlaySnoc(env: Env, files: Files, changes: seq<Change>, n: nat)
    requires n < |changes|
    ensures Overlay(env, files, changes[..n + 1]) == Overlay(env, Overlay(env, files, changes[..n]), [changes[n]])
  {
    assert changes[..n + 1] == changes[..n] + [changes[n]];
    OverlayConcat(env, files, changes[..n], [changes[n]]);
  }

  // The application gets past the n-th change exactly when it can be made after the ones before it.
  lemma {:induction false} ProgressReaches(env: Env, files: Files, changes: seq<Change>, n: nat)
    requires n < |changes| && n <= Progress(env, files, changes)
    ensures n < Progress(env, files, changes) <==> Acceptable(env, Overlay(env, files, changes[..n]), changes[n])
    decreases n
  {
    hide Acceptable;
    if n == 0 {
      assert changes[..0] == [];
    } else {
      ProgressReaches(env, Overlay(env, files, changes[..1]), changes[1..], n - 1);
      assert changes[..n] == changes[..1] + changes[1..][..n - 1];
      OverlayConcat(env, files, changes[..1], changes[1..][..n - 1]);
    }
  }
}
