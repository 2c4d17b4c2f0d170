/** The convergent file installer and the report it gives of what it changed. */
module FileInstaller {
  import opened Options
  import opened HostTree
  import opened Occurrences

  /** A rendered file; an empty path stands for a blank host path. */
  datatype Staged = Staged(path: Path, content: string, mode: nat, activations: seq<string>)

  datatype InstallResult = InstallResult(
    path: Path,
    changed: bool,
    created: bool,
    contentChanged: bool,
    modeChanged: bool,
    activations: seq<string>)

  function Target(f: Staged): Node {
    File(f.content, f.mode)
  }

  function Paths(files: seq<Staged>): set<Path> {
    set f <- files :: f.path
  }

  ghost predicate Distinct(files: seq<Staged>) {
    forall i, j :: 0 <= i < j < |files| ==> files[i].path != files[j].path
  }

  /** The file at `p` differs between the two trees in content, in mode or in being there at all. */
  predicate FileDiffers(t: Tree, t': Tree, p: Path) {
    p in t' && t'[p].File? && (p !in t || t[p] != t'[p])
  }

  predicate Installed(t: Tree, f: Staged) {
    f.path in t && t[f.path] == Target(f)
  }

  /** The tree grew by directories above the staged paths, and only staged files changed. */
  ghost predicate Installs(t: Tree, t': Tree, paths: set<Path>) {
    && (forall p :: p in t && p !in paths ==> p in t' && t'[p] == t[p])
    && (forall p :: p in t' && p !in t && p !in paths ==> t'[p].Dir? && exists f :: f in paths && Above(p, f))
    && (forall p :: p in paths && p in t && (p !in t' || t'[p] != t[p]) ==> t[p].File? && p in t' && t'[p].File?)
    && (forall p :: p in paths && p !in t && p in t' ==> t'[p].File? || exists f :: f in paths && Above(p, f))
  }

  /** Nothing stands in the way of a regular file at `p`. */
  ghost predicate Placeable(t: Tree, p: Path) {
    p != [] && (p in t ==> t[p].File?) && DirsOnly(t, Parent(p))
  }

  /** No staged file lies above another, and nothing stands in the way of any. */
  ghost predicate AllPlaceable(t: Tree, files: seq<Staged>) {
    && (forall f, g :: f in files && g in files ==> !Above(f.path, g.path))
    && (forall f <- files :: Placeable(t, f.path))
  }

  lemma PlaceableStays(t: Tree, t': Tree, p: Path, q: Path)
    requires Installs(t, t', {p}) && !Above(p, q) && !Above(q, p) && Placeable(t, q)
    ensures Placeable(t', q)
  {
    forall r | r in t' && r <= Parent(q) ensures t'[r].Dir? {
      assert r == p ==> Above(p, q);
    }
  }

  lemma AllPlaceableStays(t: Tree, t': Tree, files: seq<Staged>, i: nat)
    requires i < |files| && Installs(t, t', {files[i].path}) && AllPlaceable(t, files)
    ensures AllPlaceable(t', files)
  {
    assert files[i] in files;
    forall f | f in files ensures Placeable(t', f.path) {
      PlaceableStays(t, t', files[i].path, f.path);
    }
  }

  function Write(f: Staged): Change {
    Change(f.path, Some(Target(f)))
  }

  /** The report tells a new file from new content and from a new mode. */
  predicate SeesDifference(t: Tree, file: Staged, r: InstallResult) {
    if file.path in t
    then && t[file.path].File? && !r.created
         && (r.contentChanged <==> t[file.path].content != file.content)
         && (r.modeChanged <==> t[file.path].mode != file.mode)
    else r.created && r.contentChanged && r.modeChanged
  }

  method InstallOne(host: Host, file: Staged) returns (r: InstallResult, ok: bool)
    requires WellFormed(host.tree)
    modifies host`tree, host`log, host`troubles
    ensures WellFormed(host.tree)
    ensures r.path == file.path
    ensures Installs(old(host.tree), host.tree, {file.path})
    ensures ok ==> Installed(host.tree, file)
    ensures r.changed <==> FileDiffers(old(host.tree), host.tree, file.path)
    ensures r.activations == if r.changed then file.activations else []
    ensures ok ==> SeesDifference(old(host.tree), file, r)
    ensures Installed(old(host.tree), file) ==> !r.changed && (ok ==> host.tree == old(host.tree))
    ensures !ok ==> !r.changed
    ensures host.log == Logged(old(host.log), Write(file), r.changed)
    ensures Files(host.tree) == Applied(Files(old(host.tree)), Write(file), r.changed)
    ensures host.Endured()
    ensures ok ==> host.troubles == old(host.troubles)
    ensures !ok && Placeable(old(host.tree), file.path) ==> host.troubles > old(host.troubles)
  {
    r := InstallResult(file.path, false, false, false, false, []);
    if file.path == [] {
      return r, false;
    }
    ok := host.MkdirAll(Parent(file.path));
    NoFilesAdded(old(host.tree), host.tree, Parent(file.path));
    assert Above(Parent(file.path), file.path);
    if !ok {
      return;
    }
    if file.path in old(host.tree) {
      MkdirAddsNothing(old(host.tree), host.tree, file.path);
    }
    var info := host.Lstat(file.path);
    if info.Failed? || (info.Found? && !info.node.File?) {
      return r, false;
    }
    var current := "";
    if info.Missing? {
      r := r.(created := true);
    } else {
      var content := host.ReadFile(file.path);
      if content.None? {
        return r, false;
      }
      current := content.value;
    }
    r := r.(contentChanged := r.created || current != file.content,
            modeChanged := r.created || info.node.mode != file.mode);
    if !r.contentChanged && !r.modeChanged {
      return r, true;
    }
    r, ok := WriteOne(host, file, r, current);
  }

  /** Write a file whose content, or whose mode only, is to change. */
  method WriteOne(host: Host, file: Staged, seen: InstallResult, current: string) returns (r: InstallResult, ok: bool)
    requires WellFormed(host.tree) && (seen.contentChanged || (seen.modeChanged && current == file.content))
    requires seen.path == file.path && !seen.changed && seen.activations == []
    modifies host`tree, host`log, host`troubles
    ensures WellFormed(host.tree)
    ensures r == if ok then seen.(changed := true, activations := file.activations) else seen
    ensures host.tree == Applied(old(host.tree), Write(file), ok)
    ensures host.log == Logged(old(host.log), Write(file), ok)
    ensures ok ==> file.path in old(host.tree) ==> old(host.tree)[file.path].File?
    ensures host.Endured()
    ensures ok ==> host.troubles == old(host.troubles)
    ensures !ok && old(host.CanWrite(file.path)) ==> host.troubles > old(host.troubles)
  {
    r, ok := seen, true;
    if r.contentChanged {
      ok := host.WriteFile(file.path, file.content, file.mode);
      if !ok {
        return;
      }
      r := r.(changed := true, activations := file.activations);
    }
    if r.modeChanged && !r.contentChanged {
      ok := host.WriteFile(file.path, current, file.mode);
      if !ok {
        return;
      }
      r := r.(changed := true, activations := file.activations);
    }
  }

  /** Nothing needs creating above a path that is already there. */
  lemma MkdirAddsNothing(t: Tree, t': Tree, p: Path)
    requires WellFormed(t) && p in t && p != [] && AddsDirs(t, t', Parent(p))
    ensures t' == t
  {
    forall q | q in t' ensures q in t {
      if q !in t {
        assert Above(q, p);
        PrefixesExist(t, p, q);
      }
    }
  }

  /** Some result reports a change of `p`. */
  predicate Reported(results: seq<InstallResult>, p: Path) {
    exists r <- results :: r.changed && r.path == p
  }

  lemma InstallsCompose(t0: Tree, t1: Tree, t2: Tree, paths: set<Path>, p: Path)
    requires Installs(t0, t1, paths) && Installs(t1, t2, {p})
    ensures Installs(t0, t2, paths + {p})
  {
  }

  /** One more installed file changes the overall difference at its own path only. */
  lemma DifferenceGrows(t0: Tree, t1: Tree, t2: Tree, paths: set<Path>, p: Path, q: Path)
    requires Installs(t0, t1, paths) && Installs(t1, t2, {p}) && p !in paths
    ensures FileDiffers(t0, t2, q) <==> if q == p then FileDiffers(t1, t2, q) else FileDiffers(t0, t1, q)
  {
  }

  /** The state of an installation after `i` files. */
  ghost predicate Progress(start: Tree, now: Tree, files: seq<Staged>, i: nat, results: seq<InstallResult>)
    requires i <= |files|
  {
    && |results| == i && (forall j :: 0 <= j < i ==> results[j].path == files[j].path)
    && Installs(start, now, Paths(files[..i]))
    && (Distinct(files) ==> forall p :: Reported(results, p) <==> FileDiffers(start, now, p))
    && (AllInstalled(start, files) ==> forall r <- results :: !r.changed)
  }

  lemma InstallsOneMore(start: Tree, t1: Tree, t2: Tree, files: seq<Staged>, i: nat)
    requires i < |files| && Installs(start, t1, Paths(files[..i])) && Installs(t1, t2, {files[i].path})
    ensures Installs(start, t2, Paths(files[..i + 1]))
  {
    InstallsCompose(start, t1, t2, Paths(files[..i]), files[i].path);
    assert files[..i + 1] == files[..i] + [files[i]];
    assert Paths(files[..i + 1]) == Paths(files[..i]) + {files[i].path};
  }

  lemma ProgressStep(start: Tree, t1: Tree, t2: Tree, files: seq<Staged>, i: nat, results: seq<InstallResult>,
                     r: InstallResult)
    requires i < |files| && Progress(start, t1, files, i, results)
    requires Installs(t1, t2, {files[i].path})
    requires r.path == files[i].path && (r.changed <==> FileDiffers(t1, t2, files[i].path))
    requires AllInstalled(start, files) ==> !r.changed
    ensures Progress(start, t2, files, i + 1, results + [r])
  {
    InstallsOneMore(start, t1, t2, files, i);
    if Distinct(files) {
      ReportGrows(start, t1, t2, files, i, results, r);
    }
  }

  ghost predicate AllInstalled(t: Tree, files: seq<Staged>) {
    forall f <- files :: Installed(t, f)
  }

  lemma InstalledStep(t1: Tree, t2: Tree, files: seq<Staged>, i: nat)
    requires i < |files| && Distinct(files) && AllInstalled(t1, files[..i])
    requires Installs(t1, t2, {files[i].path}) && Installed(t2, files[i])
    ensures AllInstalled(t2, files[..i + 1])
  {
    forall f <- files[..i + 1] ensures Installed(t2, f) {
      if f in files[..i] {
        assert Installed(t1, f);
      }
    }
  }

  /** All `i` files so far are in place. */
  ghost predicate Going(start: Tree, now: Tree, files: seq<Staged>, i: nat, results: seq<InstallResult>)
    requires i <= |files|
  {
    && Progress(start, now, files, i, results)
    && (Distinct(files) ==> AllInstalled(now, files[..i]))
    && (AllInstalled(start, files) ==> now == start)
  }

  lemma GoingStep(start: Tree, t1: Tree, t2: Tree, files: seq<Staged>, i: nat, results: seq<InstallResult>,
                  r: InstallResult)
    requires i < |files| && Going(start, t1, files, i, results)
    requires Installs(t1, t2, {files[i].path})
    requires r.path == files[i].path && (r.changed <==> FileDiffers(t1, t2, files[i].path))
    requires Installed(t1, files[i]) ==> !r.changed
    ensures Progress(start, t2, files, i + 1, results + [r])
    ensures Installed(t2, files[i]) && (Installed(t1, files[i]) ==> t2 == t1) ==>
      Going(start, t2, files, i + 1, results + [r])
  {
    assert AllInstalled(start, files) ==> Installed(t1, files[i]);
    ProgressStep(start, t1, t2, files, i, results, r);
    if Distinct(files) && Installed(t2, files[i]) {
      InstalledStep(t1, t2, files, i);
    }
  }

  /** The changes an installation reports, in its order. */
  function Writes(files: seq<Staged>, results: seq<InstallResult>): seq<Change>
    requires |results| <= |files|
  {
    if results == [] then []
    else
      var n := |results| - 1;
      Logged(Writes(files, results[..n]), Write(files[n]), results[n].changed)
  }

  /** They are what has happened to files and links between the two trees and in the log. */
  ghost predicate Carried(start: Tree, before: seq<Change>, t: Tree, log: seq<Change>, files: seq<Staged>,
                          results: seq<InstallResult>)
    requires |results| <= |files|
  {
    log == before + Writes(files, results) && Files(t) == Replay(Files(start), Writes(files, results))
  }

  lemma CarriedStep(start: Tree, before: seq<Change>, t1: Tree, log1: seq<Change>, t2: Tree, log2: seq<Change>,
                    files: seq<Staged>, results: seq<InstallResult>, r: InstallResult)
    requires |results| < |files| && Carried(start, before, t1, log1, files, results)
    requires log2 == Logged(log1, Write(files[|results|]), r.changed)
    requires Files(t2) == Applied(Files(t1), Write(files[|results|]), r.changed)
    ensures Carried(start, before, t2, log2, files, results + [r])
  {
    var w := Writes(files, results);
    WritesStep(files, results, r);
    if r.changed {
      ReplayOneMore(Files(start), w, Write(files[|results|]));
      assert before + w + [Write(files[|results|])] == before + (w + [Write(files[|results|])]);
    } else {
      assert w + [] == w;
    }
  }

  lemma WritesStep(files: seq<Staged>, results: seq<InstallResult>, r: InstallResult)
    requires |results| < |files|
    ensures Writes(files, results + [r]) == Logged(Writes(files, results), Write(files[|results|]), r.changed)
  {
    assert (results + [r])[..|results|] == results;
  }

  /** A file that was dealt with without being changed was there already. */
  ghost predicate UnchangedWereThere(start: Tree, files: seq<Staged>, results: seq<InstallResult>, n: nat)
    requires n <= |results| <= |files|
  {
    forall j :: 0 <= j < n && !results[j].changed ==> Installed(start, files[j])
  }

  lemma UnchangedWasThere(start: Tree, t1: Tree, t2: Tree, files: seq<Staged>, i: nat)
    requires i < |files| && Distinct(files) && Installs(start, t1, Paths(files[..i]))
    requires Installed(t2, files[i]) && !FileDiffers(t1, t2, files[i].path)
    ensures Installed(start, files[i])
  {
    assert files[i].path !in Paths(files[..i]);
  }

  /** What an installation has done, and has reported, after `i` files. */
  ghost predicate Done(start: Tree, before: seq<Change>, t: Tree, log: seq<Change>,
                       files: seq<Staged>, i: nat, results: seq<InstallResult>)
    requires i <= |results| <= |files|
  {
    && Carried(start, before, t, log, files, results)
    && (Distinct(files) ==> UnchangedWereThere(start, files, results, i))
    && (i < |results| ==> !results[i].changed)
  }

  lemma DoneStep(start: Tree, before: seq<Change>, t1: Tree, log1: seq<Change>, t2: Tree, log2: seq<Change>,
                 files: seq<Staged>, results: seq<InstallResult>, r: InstallResult, ok: bool)
    requires |results| < |files| && Done(start, before, t1, log1, files, |results|, results)
    requires Distinct(files) ==> Installs(start, t1, Paths(files[..|results|]))
    requires log2 == Logged(log1, Write(files[|results|]), r.changed)
    requires Files(t2) == Applied(Files(t1), Write(files[|results|]), r.changed)
    requires if ok then Installed(t2, files[|results|]) else !r.changed
    requires r.changed <==> FileDiffers(t1, t2, files[|results|].path)
    ensures Done(start, before, t2, log2, files, |results| + if ok then 1 else 0, results + [r])
  {
    CarriedStep(start, before, t1, log1, t2, log2, files, results, r);
    if ok && !r.changed && Distinct(files) {
      UnchangedWasThere(start, t1, t2, files, |results|);
    }
  }

  /** One file more, as `InstallOne` leaves it. */
  ghost predicate OneMore(t1: Tree, log1: seq<Change>, t2: Tree, log2: seq<Change>, f: Staged, r: InstallResult,
                          ok: bool)
  {
    && r.path == f.path && Installs(t1, t2, {f.path}) && (r.changed <==> FileDiffers(t1, t2, f.path))
    && (if ok then Installed(t2, f) else !r.changed)
    && (Installed(t1, f) ==> !r.changed && (ok ==> t2 == t1))
    && log2 == Logged(log1, Write(f), r.changed)
    && Files(t2) == Applied(Files(t1), Write(f), r.changed)
  }

  lemma InstallStep(start: Tree, before: seq<Change>, t1: Tree, log1: seq<Change>, t2: Tree, log2: seq<Change>,
                    files: seq<Staged>, results: seq<InstallResult>, r: InstallResult, ok: bool)
    requires |results| < |files| && Going(start, t1, files, |results|, results)
    requires Done(start, before, t1, log1, files, |results|, results)
    requires OneMore(t1, log1, t2, log2, files[|results|], r, ok)
    ensures Done(start, before, t2, log2, files, |results| + if ok then 1 else 0, results + [r])
    ensures if ok then Going(start, t2, files, |results| + 1, results + [r]) else Ended(start, t2, files, results + [r])
    ensures AllPlaceable(t1, files) ==> AllPlaceable(t2, files)
  {
    DoneStep(start, before, t1, log1, t2, log2, files, results, r, ok);
    GoingStep(start, t1, t2, files, |results|, results, r);
    if AllPlaceable(t1, files) {
      AllPlaceableStays(t1, t2, files, |results|);
    }
    if !ok {
      ProgressEnds(start, t2, files, |results| + 1, results + [r]);
    }
  }

  /** Install the next file. */
  method InstallNext(host: Host, files: seq<Staged>, i: nat, ghost results: seq<InstallResult>, ghost start: Tree,
                     ghost logged: seq<Change>)
    returns (r: InstallResult, ok: bool)
    requires WellFormed(host.tree) && i == |results| < |files| && Going(start, host.tree, files, |results|, results)
    requires Done(start, logged, host.tree, host.log, files, |results|, results)
    modifies host`tree, host`log, host`troubles
    ensures WellFormed(host.tree)
    ensures Done(start, logged, host.tree, host.log, files, |results| + if ok then 1 else 0, results + [r])
    ensures if ok then Going(start, host.tree, files, |results| + 1, results + [r])
            else Ended(start, host.tree, files, results + [r])
    ensures host.Endured()
    ensures ok ==> host.troubles == old(host.troubles)
    ensures AllPlaceable(old(host.tree), files) ==>
      AllPlaceable(host.tree, files) && (!ok ==> host.troubles > old(host.troubles))
  {
    ghost var before, log := host.tree, host.log;
    r, ok := InstallOne(host, files[i]);
    InstallStep(start, logged, before, log, host.tree, host.log, files, results, r, ok);
  }

  /** Install the files in order, stopping at the first failure. */
  method Install(host: Host, files: seq<Staged>) returns (results: seq<InstallResult>, ok: bool)
    requires WellFormed(host.tree)
    modifies host`tree, host`log, host`troubles
    ensures WellFormed(host.tree)
    ensures Ended(old(host.tree), host.tree, files, results)
    ensures ok ==> |results| == |files| && (Distinct(files) ==> AllInstalled(host.tree, files))
    ensures ok && AllInstalled(old(host.tree), files) ==> host.tree == old(host.tree)
    ensures !ok ==> results != []
    ensures Done(old(host.tree), old(host.log), host.tree, host.log, files,
                 if ok then |results| else |results| - 1, results)
    ensures host.Endured()
    ensures ok ==> host.troubles == old(host.troubles)
    ensures !ok && AllPlaceable(old(host.tree), files) ==> host.troubles > old(host.troubles)
    ensures AllPlaceable(old(host.tree), files) ==> AllPlaceable(host.tree, files)
  {
    ghost var start := host.tree;
    results := [];
    var i := 0;
    while i < |files|
      invariant 0 <= i == |results| <= |files| && WellFormed(host.tree)
      invariant Going(start, host.tree, files, i, results)
      invariant Done(start, old(host.log), host.tree, host.log, files, i, results)
      invariant host.troubles == old(host.troubles)
      invariant AllPlaceable(start, files) ==> AllPlaceable(host.tree, files)
    {
      var r;
      r, ok := InstallNext(host, files, i, results, start, old(host.log));
      results := results + [r];
      if !ok {
        return;
      }
      i := i + 1;
    }
    GoingEnds(start, host.tree, files, results);
    ok := true;
  }

  lemma GoingEnds(start: Tree, now: Tree, files: seq<Staged>, results: seq<InstallResult>)
    requires Going(start, now, files, |files|, results)
    ensures Ended(start, now, files, results)
    ensures |results| == |files| && (Distinct(files) ==> AllInstalled(now, files))
    ensures AllInstalled(start, files) ==> now == start
  {
  }

  /** What the report of an installation says, complete or not. */
  ghost predicate Ended(start: Tree, now: Tree, files: seq<Staged>, results: seq<InstallResult>) {
    && Installs(start, now, Paths(files))
    && |results| <= |files| && (forall i :: 0 <= i < |results| ==> results[i].path == files[i].path)
    && (Distinct(files) ==> forall p :: Reported(results, p) <==> FileDiffers(start, now, p))
    && (AllInstalled(start, files) ==> forall r <- results :: !r.changed)
  }

  lemma ProgressEnds(start: Tree, now: Tree, files: seq<Staged>, i: nat, results: seq<InstallResult>)
    requires i <= |files| && Progress(start, now, files, i, results)
    ensures Ended(start, now, files, results)
  {
  }

  lemma ReportGrows(t0: Tree, t1: Tree, t2: Tree, files: seq<Staged>, i: nat, results: seq<InstallResult>,
                    r: InstallResult)
    requires i < |files| && Distinct(files) && |results| == i
    requires Installs(t0, t1, Paths(files[..i])) && Installs(t1, t2, {files[i].path})
    requires forall p :: Reported(results, p) <==> FileDiffers(t0, t1, p)
    requires forall j :: 0 <= j < i ==> results[j].path == files[j].path
    requires r.path == files[i].path && (r.changed <==> FileDiffers(t1, t2, files[i].path))
    ensures forall p :: Reported(results + [r], p) <==> FileDiffers(t0, t2, p)
  {
    var q := files[i].path;
    assert q !in Paths(files[..i]);
    assert forall x <- results :: x.path != q;
    forall p ensures Reported(results + [r], p) <==> FileDiffers(t0, t2, p) {
      DifferenceGrows(t0, t1, t2, Paths(files[..i]), q, p);
      ReportedAppend(results, r, p);
    }
  }

  lemma ReportedAppend(results: seq<InstallResult>, r: InstallResult, p: Path)
    ensures Reported(results + [r], p) <==> Reported(results, p) || (r.changed && r.path == p)
  {
  }

  /** The paths of the changed files, as they are reported. */
  function ChangedPaths(results: seq<InstallResult>): seq<Path> {
    if results == [] then []
    else
      var front, last := ChangedPaths(results[..|results| - 1]), results[|results| - 1];
      if last.changed && last.path != [] then front + [last.path] else front
  }

  /** And their activations. */
  function ChangedActivations(results: seq<InstallResult>): seq<string> {
    if results == [] then []
    else
      var front, last := ChangedActivations(results[..|results| - 1]), results[|results| - 1];
      if last.changed then front + last.activations else front
  }

  lemma {:induction false} ChangedPathsAre(results: seq<InstallResult>, p: Path)
    ensures p in ChangedPaths(results) <==> p != [] && Reported(results, p)
  {
    if results != [] {
      var front, last := results[..|results| - 1], results[|results| - 1];
      ChangedPathsAre(front, p);
      ReportedAppend(front, last, p);
      assert front + [last] == results;
    }
  }

  lemma {:induction false} ChangedActivationsAre(results: seq<InstallResult>, a: string)
    ensures a in ChangedActivations(results) <==> exists r <- results :: r.changed && a in r.activations
  {
    if results != [] {
      var front, last := results[..|results| - 1], results[|results| - 1];
      ChangedActivationsAre(front, a);
      assert results == front + [last];
    }
  }

  /** The reported paths, each once, in the order of first report. */
  method CollectModifiedPaths(results: seq<InstallResult>) returns (paths: seq<Path>)
    ensures forall p :: p in paths <==> p != [] && Reported(results, p)
    ensures forall i, j :: 0 <= i < j < |paths| ==> paths[i] != paths[j]
    ensures InOrderOf(paths, ChangedPaths(results))
    ensures (forall r <- results :: !r.changed) ==> paths == []
  {
    paths := [];
    var seen := {};
    NoFirsts<Path>();
    for i := 0 to |results|
      invariant Firsts(paths, ChangedPaths(results[..i]))
      invariant forall p :: p in seen <==> p in paths
      invariant (forall r <- results :: !r.changed) ==> paths == []
    {
      assert results[..i + 1][..i] == results[..i];
      OneMoreOccurs(paths, ChangedPaths(results[..i]), results[i].path);
      if !results[i].changed || results[i].path == [] || results[i].path in seen {
        continue;
      }
      seen := seen + {results[i].path};
      paths := paths + [results[i].path];
    }
    assert results[..|results|] == results;
    FirstsMean(paths, ChangedPaths(results));
    forall p ensures p in ChangedPaths(results) <==> p != [] && Reported(results, p) {
      ChangedPathsAre(results, p);
    }
  }

  /** The activations of the changed files, each once. */
  method CollectActivations(results: seq<InstallResult>) returns (activations: seq<string>)
    ensures forall a :: a in activations <==> exists r <- results :: r.changed && a in r.activations
    ensures forall i, j :: 0 <= i < j < |activations| ==> activations[i] != activations[j]
    ensures InOrderOf(activations, ChangedActivations(results))
  {
    activations := [];
    NoFirsts<string>();
    for i := 0 to |results|
      invariant Firsts(activations, ChangedActivations(results[..i]))
    {
      assert results[..i + 1][..i] == results[..i];
      if results[i].changed {
        var more := results[i].activations;
        ghost var before := ChangedActivations(results[..i]);
        assert before + more[..0] == before;
        for n := 0 to |more|
          invariant Firsts(activations, before + more[..n])
        {
          assert before + more[..n + 1] == before + more[..n] + [more[n]];
          OneMoreOccurs(activations, before + more[..n], more[n]);
          if more[n] !in activations {
            activations := activations + [more[n]];
          }
        }
        assert more[..|more|] == more;
      }
    }
    assert results[..|results|] == results;
    FirstsMean(activations, ChangedActivations(results));
    forall a ensures a in ChangedActivations(results) <==> exists r <- results :: r.changed && a in r.activations {
      ChangedActivationsAre(results, a);
    }
  }

  /** The report is honest, whether the installation succeeds or stops half way: the collected paths
      are exactly the files whose content or mode is now different on disk. */
  method InstallAndReport(host: Host, files: seq<Staged>) returns (paths: seq<Path>, ok: bool)
    requires WellFormed(host.tree) && Distinct(files)
    modifies host`tree, host`log, host`troubles
    ensures WellFormed(host.tree)
    ensures forall p :: p in paths <==> FileDiffers(old(host.tree), host.tree, p)
    ensures ok ==> AllInstalled(host.tree, files)
    ensures ok ==> host.troubles == old(host.troubles)
    ensures !ok && AllPlaceable(old(host.tree), files) ==> host.troubles > old(host.troubles)
  {
    var results;
    results, ok := Install(host, files);
    paths := CollectModifiedPaths(results);
  }

  /** Installing the same files again changes nothing and reports nothing; and if nothing stands in
      the way and no command fails, both installations succeed. */
  method InstallTwice(host: Host, files: seq<Staged>)
    returns (paths: seq<Path>, first: bool, second: bool, ghost between: Tree)
    requires WellFormed(host.tree) && Distinct(files)
    modifies host`tree, host`log, host`troubles
    ensures first ==> AllInstalled(between, files) && paths == []
    ensures first && second ==> host.tree == between
    ensures first && second ==> host.troubles == old(host.troubles)
    ensures AllPlaceable(old(host.tree), files) && host.troubles == old(host.troubles) ==> first && second
  {
    paths, second := [], false;
    var _, done := Install(host, files);
    first, between := done, host.tree;
    if first {
      var results;
      results, second := Install(host, files);
      paths := CollectModifiedPaths(results);
    }
  }
}
