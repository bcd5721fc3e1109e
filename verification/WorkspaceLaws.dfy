// What writes, reverts, previews and applications promise over whole sequences of changes.

module WorkspaceLaws {
  import opened Paths
  import opened Workspaces

  predicate AllResolve(env: Env, changes: seq<Change>) {
    forall i :: 0 <= i < |changes| ==> TargetOf(env, changes[i]).Target?
  }

  predicate Targets(env: Env, changes: seq<Change>, p: Path) {
    exists i :: 0 <= i < |changes| && TargetOf(env, changes[i]) == Target(p)
  }

  predicate DistinctTargets(env: Env, changes: seq<Change>) {
    forall i, j :: 0 <= i < j < |changes| ==> TargetOf(env, changes[i]) != TargetOf(env, changes[j])
  }

  // ----- success, failure and confinement

  // An application succeeds exactly when every change can be made at its turn.
  lemma {:induction false} AppliesIff(env: Env, files: Files, changes: seq<Change>)
    ensures Progress(env, files, changes) == |changes| <==>
            forall n :: 0 <= n < |changes| ==> Acceptable(env, Overlay(env, files, changes[..n]), changes[n])
  {
    var done := Progress(env, files, changes);
    forall n | 0 <= n < done ensures Acceptable(env, Overlay(env, files, changes[..n]), changes[n]) {
      ProgressReaches(env, files, changes, n);
    }
    if done < |changes| {
      ProgressReaches(env, files, changes, done);
    }
  }

  // When it fails, it fails at the first change that cannot be made.
  lemma FailsAtFirstRefusal(env: Env, files: Files, changes: seq<Change>)
    requires Progress(env, files, changes) < |changes|
    ensures var n := Progress(env, files, changes);
            && !Acceptable(env, Overlay(env, files, changes[..n]), changes[n])
            && forall i :: 0 <= i < n ==> Acceptable(env, Overlay(env, files, changes[..i]), changes[i])
  {
    var done := Progress(env, files, changes);
    ProgressReaches(env, files, changes, done);
    forall i | 0 <= i < done ensures Acceptable(env, Overlay(env, files, changes[..i]), changes[i]) {
      ProgressReaches(env, files, changes, i);
    }
  }

  lemma TargetsSnoc(env: Env, changes: seq<Change>, p: Path)
    requires changes != []
    ensures Targets(env, changes, p) <==>
            Targets(env, changes[..|changes| - 1], p) || TargetOf(env, changes[|changes| - 1]) == Target(p)
  {
    hide TargetOf;
    var init := changes[..|changes| - 1];
    if i :| 0 <= i < |changes| && TargetOf(env, changes[i]) == Target(p) {
      assert i < |init| ==> TargetOf(env, init[i]) == Target(p);
    }
    if i :| 0 <= i < |init| && TargetOf(env, init[i]) == Target(p) {
      assert TargetOf(env, changes[i]) == Target(p);
    }
  }

  // Files that no change names stay as they are.
  lemma {:induction false} OthersStay(env: Env, files: Files, changes: seq<Change>, p: Path)
    requires !Targets(env, changes, p)
    ensures p in Overlay(env, files, changes) <==> p in files
    ensures View(Overlay(env, files, changes), p) == View(files, p)
  {
    if changes != [] {
      var init, c := changes[..|changes| - 1], changes[|changes| - 1];
      TargetsSnoc(env, changes, p);
      OthersStay(env, files, init, p);
    }
  }

  // Nothing outside the root is created or changed, whatever the changes are and wherever they stop,
  // except that the root and the directories it lies in are made when they are missing.
  lemma ApplicationIsConfined(env: Env, files: Files, changes: seq<Change>, p: Path)
    requires !Below(env.root, p)
    ensures var after := Overlay(env, files, changes[..Progress(env, files, changes)]);
            && (p in after <==> p in files) && View(after, p) == View(files, p)
            && (IsDirectory(env, after, p) ==> IsDirectory(env, files, p) || p <= env.root)
  {
    hide Progress, IsDirectory, Overlay;
    var made := changes[..Progress(env, files, changes)];
    MadeOutside(env, made, p);
    OthersStay(env, files, made, p);
    if IsDirectory(env, Overlay(env, files, made), p) {
      DirectoriesOutside(env, files, made, p);
    }
  }

  lemma MadeOutside(env: Env, made: seq<Change>, p: Path)
    requires !Below(env.root, p)
    ensures !Targets(env, made, p)
  {
  }

  lemma DirectoriesOutside(env: Env, files: Files, made: seq<Change>, p: Path)
    requires !Below(env.root, p) && IsDirectory(env, Overlay(env, files, made), p)
    ensures IsDirectory(env, files, p) || p <= env.root
  {
    hide Overlay;
    var after := Overlay(env, files, made);
    if q :| q in after && Below(p, q) {
      WrittenFilesExist(env, files, made, q);
      if q !in files {
        TargetsAreBelow(env, made, q);
        BothAbove(env.root, p, q);
      }
    }
  }

  lemma TargetsAreBelow(env: Env, made: seq<Change>, q: Path)
    requires Targets(env, made, q)
    ensures Below(env.root, q)
  {
  }

  // Of two directories that a path lies in, one lies in the other or they are the same.
  lemma BothAbove(a: Path, b: Path, p: Path)
    requires Below(a, p) && Below(b, p)
    ensures Below(a, b) || b <= a
  {
  }

  // After every change that was made, nothing is a file and a directory at once.
  lemma {:induction false} ApplicationKeepsTree(env: Env, files: Files, changes: seq<Change>, n: nat)
    requires TreeShaped(env, files) && n <= Progress(env, files, changes)
    ensures TreeShaped(env, Overlay(env, files, changes[..n]))
  {
    hide TreeShaped;
    if n == 0 {
      OverlayNone(env, files);
      assert changes[..0] == [];
    } else {
      ApplicationKeepsTree(env, files, changes, n - 1);
      ProgressReaches(env, files, changes, n - 1);
      OverlaySnoc(env, files, changes, n - 1);
      var before, c := Overlay(env, files, changes[..n - 1]), changes[n - 1];
      OverlayOne(env, before, c);
      WriteKeepsTree(env, before, TargetOf(env, c).path, OrEmpty(c.content));
    }
  }

  // Every file is still one, and every directory, too.
  lemma {:induction false} NothingVanishes(env: Env, files: Files, changes: seq<Change>, p: Path)
    ensures p in files ==> p in Overlay(env, files, changes)
    ensures IsDirectory(env, files, p) ==> IsDirectory(env, Overlay(env, files, changes), p)
  {
    if changes != [] {
      NothingVanishes(env, files, changes[..|changes| - 1], p);
    }
  }

  // ----- preview

  lemma AppliedChangesResolve(env: Env, files: Files, changes: seq<Change>)
    requires Progress(env, files, changes) == |changes|
    ensures AllResolve(env, changes)
  {
    AppliesIff(env, files, changes);
    forall i | 0 <= i < |changes| ensures TargetOf(env, changes[i]).Target? {
      assert Acceptable(env, Overlay(env, files, changes[..i]), changes[i]);
    }
  }

  lemma DistinctBefore(env: Env, changes: seq<Change>, i: nat)
    requires DistinctTargets(env, changes) && AllResolve(env, changes) && i < |changes|
    ensures !Targets(env, changes[..i], TargetOf(env, changes[i]).path)
  {
    forall j | 0 <= j < i ensures TargetOf(env, changes[..i][j]) != Target(TargetOf(env, changes[i]).path) {
      assert TargetOf(env, changes[j]) != TargetOf(env, changes[i]);
    }
  }

  // For pairwise distinct targets and an application that succeeds, the preview on the initial files
  // succeeds as well, and reports of each change what the application reports of it at its turn.
  lemma PreviewPredictsApply(env: Env, files: Files, changes: seq<Change>)
    requires DistinctTargets(env, changes) && Progress(env, files, changes) == |changes|
    ensures forall i :: 0 <= i < |changes| ==>
              && Inspectable(env, files, changes[i])
              && DescribeChange(env, Overlay(env, files, changes[..i]), changes[i]) ==
                  DescribeChange(env, files, changes[i])
  {
    hide IsDirectory, UnderFile;
    AppliesIff(env, files, changes);
    AppliedChangesResolve(env, files, changes);
    forall i | 0 <= i < |changes|
      ensures Inspectable(env, files, changes[i])
      ensures DescribeChange(env, Overlay(env, files, changes[..i]), changes[i]) ==
          DescribeChange(env, files, changes[i])
    {
      assert Acceptable(env, Overlay(env, files, changes[..i]), changes[i]);
      NothingVanishes(env, files, changes[..i], TargetOf(env, changes[i]).path);
      DistinctBefore(env, changes, i);
      OthersStay(env, files, changes[..i], TargetOf(env, changes[i]).path);
    }
  }

  // After the application every target has the content of its change.
  lemma {:induction false} ContentsLand(env: Env, files: Files, changes: seq<Change>, i: nat)
    requires DistinctTargets(env, changes) && AllResolve(env, changes) && i < |changes|
    ensures var p := TargetOf(env, changes[i]).path;
            p in Overlay(env, files, changes) && Overlay(env, files, changes)[p] == OrEmpty(changes[i].content)
  {
    hide TargetOf;
    if i < |changes| - 1 {
      var init := changes[..|changes| - 1];
      assert forall j, k :: 0 <= j < k < |init| ==> TargetOf(env, init[j]) != TargetOf(env, init[k]) by {
        assert forall j :: 0 <= j < |init| ==> init[j] == changes[j];
      }
      ContentsLand(env, files, init, i);
      assert TargetOf(env, changes[i]) != TargetOf(env, changes[|changes| - 1]);
    }
  }

  lemma {:induction false} LandedStays(env: Env, files: Files, changes: seq<Change>)
    requires forall i :: 0 <= i < |changes| ==> TargetOf(env, changes[i]).Target? ==>
               TargetOf(env, changes[i]).path in files &&
                   files[TargetOf(env, changes[i]).path] == OrEmpty(changes[i].content)
    ensures Overlay(env, files, changes) == files
  {
    if changes != [] {
      var init := changes[..|changes| - 1];
      assert forall i :: 0 <= i < |init| ==> init[i] == changes[i];
      LandedStays(env, files, init);
    }
  }

  // No application succeeds with one target below another, nor with one below or above a file that
  // is there, in whatever order the changes come.
  lemma AppliedTargetsAreApart(env: Env, files: Files, changes: seq<Change>, i: nat, p: Path)
    requires TreeShaped(env, files) && Progress(env, files, changes) == |changes| && i < |changes|
    requires p in files || Targets(env, changes, p)
    ensures TargetOf(env, changes[i]).Target? && !Below(TargetOf(env, changes[i]).path, p) &&
        !Below(p, TargetOf(env, changes[i]).path)
  {
    hide Progress, Overlay;
    AppliedChangesResolve(env, files, changes);
    ApplicationKeepsTree(env, files, changes, |changes|);
    assert changes[..|changes|] == changes;
    var once, target := Overlay(env, files, changes), TargetOf(env, changes[i]).path;
    WrittenFilesExist(env, files, changes, p);
    assert Targets(env, changes, target);
    WrittenFilesExist(env, files, changes, target);
    assert !IsDirectory(env, once, target) && !IsDirectory(env, once, p);
  }

  // After a successful application every target holds the content of its change, and can be written again.
  lemma AppliedChangesStand(env: Env, files: Files, changes: seq<Change>, i: nat)
    requires TreeShaped(env, files) && DistinctTargets(env, changes) && Progress(env, files, changes) == |changes| &&
        i < |changes|
    ensures var once := Overlay(env, files, changes);
            && TargetOf(env, changes[i]).Target? && Acceptable(env, once, changes[i])
            && TargetOf(env, changes[i]).path in once &&
                once[TargetOf(env, changes[i]).path] == OrEmpty(changes[i].content)
  {
    hide TreeShaped, Reachable;
    AppliedChangesResolve(env, files, changes);
    ApplicationKeepsTree(env, files, changes, |changes|);
    assert changes[..|changes|] == changes;
    ContentsLand(env, files, changes, i);
    FilesAreReachable(env, Overlay(env, files, changes), TargetOf(env, changes[i]).path);
  }

  // Applying the same changes again after they were applied succeeds, leaves the files alone, and
  // reports no change.
  lemma ReapplyingIsIdle(env: Env, files: Files, changes: seq<Change>)
    requires TreeShaped(env, files) && DistinctTargets(env, changes) && Progress(env, files, changes) == |changes|
    ensures var once := Overlay(env, files, changes);
            && Progress(env, once, changes) == |changes|
            && Overlay(env, once, changes) == once
            && forall i :: 0 <= i < |changes| ==>
                 TargetOf(env, changes[i]).Target? &&
                     !DescribeChange(env, Overlay(env, once, changes[..i]), changes[i]).changed
  {
    hide TreeShaped, Acceptable, DistinctTargets;
    var once := Overlay(env, files, changes);
    forall i | 0 <= i < |changes|
      ensures TargetOf(env, changes[i]).Target? && Acceptable(env, once, changes[i])
      ensures TargetOf(env, changes[i]).path in once &&
          once[TargetOf(env, changes[i]).path] == OrEmpty(changes[i].content)
    {
      AppliedChangesStand(env, files, changes, i);
    }
    LandedStays(env, once, changes);
    forall n | 0 <= n < |changes| ensures Overlay(env, once, changes[..n]) == once {
      assert forall i :: 0 <= i < n ==> changes[..n][i] == changes[i];
      LandedStays(env, once, changes[..n]);
    }
    AppliesIff(env, once, changes);
  }

  // ----- undo

  // What write_workspace_file reported of each of the writes, made one after the other.
  ghost predicate Reported(env: Env, start: Files, writes: seq<Change>, results: seq<FileWriteResult>) {
    && |results| == |writes|
    && forall i :: 0 <= i < |writes| ==>
         && TargetOf(env, writes[i]).Target?
         && results[i] == DescribeWrite(env, Overlay(env, start, writes[..i]), TargetOf(env, writes[i]).path,
                                        OrEmpty(writes[i].content))
  }

  // Reverting the writes, last one first, each to the content that its own report recorded.
  function UndoAll(env: Env, now: Files, writes: seq<Change>, results: seq<FileWriteResult>): Files
    requires |results| == |writes|
    decreases |writes|
  {
    if writes == [] then now
    else
      var n := |writes| - 1;
      UndoAll(env, Reverted(env, now, OrEmpty(writes[n].filePath), results[n].previousContent), writes[..n],
          results[..n])
  }

  // Each of these reverts can be made at its turn.
  predicate UndoSucceeds(env: Env, now: Files, writes: seq<Change>, results: seq<FileWriteResult>)
    requires |results| == |writes|
    decreases |writes|
  {
    writes == [] ||
    (var n := |writes| - 1;
     Revertible(env, now, OrEmpty(writes[n].filePath)) &&
     UndoSucceeds(env, Reverted(env, now, OrEmpty(writes[n].filePath), results[n].previousContent), writes[..n],
         results[..n]))
  }

  ghost predicate SameView(a: Files, b: Files) {
    forall p :: View(a, p) == View(b, p)
  }

  lemma SameFilesSameTree(env: Env, a: Files, b: Files)
    requires TreeShaped(env, a) && a.Keys == b.Keys
    ensures TreeShaped(env, b)
  {
    forall p | p in b ensures !IsDirectory(env, b, p) {
      assert p in a.Keys && !IsDirectory(env, a, p);
      forall q | q in b ensures !Below(p, q) {
        assert q in a.Keys;
      }
    }
  }

  lemma ReportedEarlier(env: Env, start: Files, writes: seq<Change>, results: seq<FileWriteResult>)
    requires writes != [] && Reported(env, start, writes, results)
    ensures var n := |writes| - 1; Reported(env, start, writes[..n], results[..n])
  {
    var n := |writes| - 1;
    forall i | 0 <= i < n ensures writes[..n][..i] == writes[..i] {}
  }

  // What a write recorded of the content before it is what reading its target yielded then.
  lemma RecordsEarlierView(env: Env, files: Files, target: Path, data: string)
    ensures DescribeWrite(env, files, target, data).previousContent == View(files, target)
  {
  }

  // Putting the earlier content back where it was overwritten.
  lemma RevertRestores(env: Env, before: Files, now: Files, c: Change)
    requires TargetOf(env, c).Target? && Revertible(env, now, OrEmpty(c.filePath))
    requires SameView(now, before[TargetOf(env, c).path := OrEmpty(c.content)]) && TargetOf(env, c).path in now
    ensures var now' := Reverted(env, now, OrEmpty(c.filePath), View(before, TargetOf(env, c).path));
            SameView(now', before) && now'.Keys == now.Keys
  {
    hide Revertible, Resolve;
    var target := TargetOf(env, c).path;
    var now' := Reverted(env, now, OrEmpty(c.filePath), View(before, target));
    assert now' == now[target := View(before, target)];
    forall p ensures View(now', p) == View(before, p) {
      assert View(now, p) == View(before[target := OrEmpty(c.content)], p);
    }
  }

  // Reverting the last write to what it recorded brings back what reading any file yielded before it.
  lemma OneUndo(env: Env, start: Files, now: Files, writes: seq<Change>, results: seq<FileWriteResult>)
    requires writes != [] && Reported(env, start, writes, results) && SameView(now, Overlay(env, start, writes))
    requires TreeShaped(env, now) && forall p :: Targets(env, writes, p) ==> p in now
    ensures var n := |writes| - 1;
            var now' := Reverted(env, now, OrEmpty(writes[n].filePath), results[n].previousContent);
            && Revertible(env, now, OrEmpty(writes[n].filePath))
            && SameView(now', Overlay(env, start, writes[..n])) && now'.Keys == now.Keys
            && (forall p :: Targets(env, writes[..n], p) ==> p in now')
  {
    hide TreeShaped, Reachable, DescribeWrite, SameView, Reverted, Resolve;
    var n := |writes| - 1;
    var last, before := writes[n], Overlay(env, start, writes[..n]);
    var target := TargetOf(env, last).path;
    RecordsEarlierView(env, before, target, OrEmpty(last.content));
    assert Targets(env, writes, target) by {
      assert TargetOf(env, writes[n]) == Target(target);
    }
    FilesAreReachable(env, now, target);
    RevertRestores(env, before, now, last);
    forall p | Targets(env, writes[..n], p) ensures p in now.Keys {
      TargetsSnoc(env, writes, p);
    }
  }

  lemma {:induction false} UndoFrom(env: Env, start: Files, now: Files, writes: seq<Change>,
          results: seq<FileWriteResult>)
    requires Reported(env, start, writes, results) && SameView(now, Overlay(env, start, writes))
    requires TreeShaped(env, now) && forall p :: Targets(env, writes, p) ==> p in now
    ensures SameView(UndoAll(env, now, writes, results), start) && UndoSucceeds(env, now, writes, results)
    ensures UndoAll(env, now, writes, results).Keys == now.Keys
    decreases |writes|
  {
    hide TreeShaped, Revertible, Reverted, SameView, Targets;
    if writes != [] {
      var n := |writes| - 1;
      ReportedEarlier(env, start, writes, results);
      OneUndo(env, start, now, writes, results);
      var now' := Reverted(env, now, OrEmpty(writes[n].filePath), results[n].previousContent);
      SameFilesSameTree(env, now, now');
      UndoFrom(env, start, now', writes[..n], results[..n]);
    }
  }

  lemma {:induction false} WrittenFilesExist(env: Env, start: Files, writes: seq<Change>, p: Path)
    ensures p in Overlay(env, start, writes) <==> p in start || Targets(env, writes, p)
  {
    hide Targets, TargetOf;
    if writes != [] {
      WrittenFilesExist(env, start, writes[..|writes| - 1], p);
      TargetsSnoc(env, writes, p);
    } else {
      NoTargets(env, p);
    }
  }

  lemma NoTargets(env: Env, p: Path)
    ensures !Targets(env, [], p)
  {
  }

  // Undoing a sequence of successful writes from what they reported succeeds and restores what reading
  // any file yields; the only trace left is that files which the writes created remain, empty.
  lemma UndoRestoresEveryView(env: Env, start: Files, writes: seq<Change>, results: seq<FileWriteResult>)
    requires TreeShaped(env, start) && Progress(env, start, writes) == |writes|
    requires Reported(env, start, writes, results)
    ensures UndoSucceeds(env, Overlay(env, start, writes), writes, results)
    ensures var undone := UndoAll(env, Overlay(env, start, writes), writes, results);
            && SameView(undone, start)
            && (forall p :: p in undone <==> p in start || Targets(env, writes, p))
            && (forall p :: p in undone && p !in start ==> undone[p] == "")
            && (forall p :: p in start ==> undone[p] == start[p])
  {
    hide TreeShaped, IsDirectory, UnderFile;
    var after := Overlay(env, start, writes);
    assert writes[..|writes|] == writes;
    ApplicationKeepsTree(env, start, writes, |writes|);
    forall p ensures p in after <==> p in start || Targets(env, writes, p) {
      WrittenFilesExist(env, start, writes, p);
    }
    UndoFrom(env, start, after, writes, results);
    var undone := UndoAll(env, after, writes, results);
    forall p ensures p in undone <==> p in start || Targets(env, writes, p) {
      assert p in undone.Keys <==> p in after.Keys;
    }
    forall p | p in undone ensures undone[p] == View(start, p) {
      assert View(undone, p) == View(start, p);
    }
  }

  // ----- reports

  lemma {:induction false} EscapedConcat(a: string, b: string)
    ensures Escaped(a + b) == Escaped(a) + Escaped(b)
  {
    if a == "" {
      assert a + b == b;
    } else {
      assert (a + b)[1..] == a[1..] + b;
      EscapedConcat(a[1..], b);
    }
  }

  // The lines with something between them.
  function Lines(lines: seq<string>, between: string): string
    requires lines != []
  {
    if |lines| == 1 then lines[0] else lines[0] + between + Lines(lines[1..], between)
  }

  lemma {:induction false} EscapedLine(line: string)
    requires '\n' !in line
    ensures Escaped(line) == line
  {
    if line != "" {
      EscapedLine(line[1..]);
      assert [line[0]] + line[1..] == line;
    }
  }

  lemma {:induction false} EscapedIsOneLine(s: string)
    ensures '\n' !in Escaped(s)
  {
    if s != "" {
      EscapedIsOneLine(s[1..]);
    }
  }

  lemma EscapedNewline()
    ensures Escaped("\n") == "\\n"
  {
  }

  // Escaping writes every newline as two characters and leaves the lines alone.
  lemma {:induction false} EscapedLines(lines: seq<string>)
    requires lines != [] && forall i :: 0 <= i < |lines| ==> '\n' !in lines[i]
    ensures Escaped(Lines(lines, "\n")) == Lines(lines, "\\n")
  {
    hide Escaped;
    EscapedLine(lines[0]);
    if |lines| > 1 {
      EscapedLines(lines[1..]);
      EscapedNewline();
      EscapedConcat(lines[0], "\n");
      EscapedConcat(lines[0] + "\n", Lines(lines[1..], "\n"));
    }
  }

  // A preview is one line.  It says that nothing changes exactly when nothing does; otherwise it shows
  // the first eighty characters of the two texts, the old one first.
  lemma PreviewTells(a: string, x: string, b: string, y: string)
    requires |a| <= 80 && (x == "" || |a| == 80) && |b| <= 80 && (y == "" || |b| == 80)
    ensures '\n' !in PreviewChange(a + x, b + y)
    ensures PreviewChange(a + x, b + y) == "no content change" <==> a + x == b + y
    ensures a + x != b + y ==>
              PreviewChange(a + x, b + y) == "prev='" + Escaped(a) + "' -> new='" + Escaped(b) + "'"
  {
    hide Escaped;
    assert (a + x)[..|a|] == a && (b + y)[..|b|] == b;
    EscapedIsOneLine(a);
    EscapedIsOneLine(b);
    if a + x != b + y {
      assert Head(a + x) == a && Head(b + y) == b;
      assert PreviewChange(a + x, b + y)[0] == 'p';
    }
  }

  // Every change that can be made now, in terms of what is at, above and below its target; and which
  // of the reasons is given for one that cannot.
  lemma RefusedBecause(env: Env, files: Files, c: Change)
    requires TreeShaped(env, files)
    ensures var t := Resolve(env.root, if c.filePath.Some? then c.filePath.value else "");
            var content := if c.content.Some? then c.content.value else "";
            if t.Unresolved? then !Acceptable(env, files, c) && RefusalOf(env, files, c) == BadPath(t.error)
            else if (exists q :: q in files && t.path < q) || (exists d :: d in env.dirs && t.path <= d) then
              !Acceptable(env, files, c) && RefusalOf(env, files, c) == TargetIsDirectory
            else if exists q :: q in files && q < t.path then
              !Acceptable(env, files, c) && RefusalOf(env, files, c) == ParentIsFile
            else if t.path in files && !c.overwrite && files[t.path] != content then
              !Acceptable(env, files, c) && RefusalOf(env, files, c) == OverwriteRefused
            else Acceptable(env, files, c)
  {
  }
}
