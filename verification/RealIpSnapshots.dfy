/** Taking and restoring the snapshots of a real-IP deploy or refresh. */
module RealIpSnapshots {
  import opened Options
  import opened HostTree
  import opened FileInstaller

  /** What was at a path; `before` is `None` when nothing was there. */
  datatype Snapshot = Snapshot(path: Path, before: Option<Node>)

  datatype DirSnapshot = DirSnapshot(path: Path, existed: bool)

  datatype Undo = Undone | UndoFailed | MetNonEmptyDirectory

  /** The two trees agree at `p`. */
  predicate SameAt(t: Tree, t': Tree, p: Path) {
    if p in t then p in t' && t'[p] == t[p] else p !in t'
  }

  lemma SameEverywhere(t: Tree, t': Tree)
    requires forall p :: SameAt(t, t', p)
    ensures t' == t
  {
    assert t'.Keys == t.Keys by {
      forall p ensures p in t' <==> p in t {
        assert SameAt(t, t', p);
      }
    }
    forall p | p in t ensures t'[p] == t[p] {
      assert SameAt(t, t', p);
    }
  }

  predicate Matches(t: Tree, s: Snapshot) {
    if s.before.Some? then s.path in t && t[s.path] == s.before.value else s.path !in t
  }

  predicate Restorable(s: Snapshot) {
    s.before.Some? ==> s.before.value.File?
  }

  ghost predicate AllMatch(t: Tree, snapshots: seq<Snapshot>) {
    forall s <- snapshots :: Matches(t, s)
  }

  ghost predicate DistinctPaths(snapshots: seq<Snapshot>) {
    forall i, j :: 0 <= i < j < |snapshots| ==> snapshots[i].path != snapshots[j].path
  }

  function SnapshotPaths(snapshots: seq<Snapshot>): set<Path> {
    set s <- snapshots :: s.path
  }

  /** A regular file, or, if it is not required, nothing. */
  predicate Regular(t: Tree, p: Path, required: bool) {
    if p in t then t[p].File? else !required
  }

  method SnapshotFile(host: Host, p: Path, required: bool) returns (r: Option<Snapshot>)
    modifies host`troubles
    ensures r.Some? ==> r.value.path == p && Matches(host.tree, r.value) && Restorable(r.value)
    ensures r.Some? && required ==> r.value.before.Some?
    ensures host.Endured()
    ensures r.Some? ==> host.troubles == old(host.troubles)
    ensures r.None? && Regular(host.tree, p, required) ==> host.troubles > old(host.troubles)
  {
    var info := host.Lstat(p);
    if info.Missing? {
      return if required then None else Some(Snapshot(p, Option.None));
    }
    if info.Failed? || !info.node.File? {
      return None;
    }
    var content := host.ReadFile(p);
    if content.None? {
      return None;
    }
    return Some(Snapshot(p, Some(File(content.value, info.node.mode))));
  }

  method SnapshotFiles(host: Host, staged: seq<Staged>, required: bool) returns (r: Option<seq<Snapshot>>)
    modifies host`troubles
    ensures r.Some? ==>
      && |r.value| == |staged| && (forall i :: 0 <= i < |staged| ==> r.value[i].path == staged[i].path)
      && AllMatch(host.tree, r.value) && (forall s <- r.value :: Restorable(s))
      && (required ==> forall s <- r.value :: s.before.Some?)
    ensures host.Endured()
    ensures r.Some? ==> host.troubles == old(host.troubles)
    ensures r.None? && (forall f <- staged :: Regular(host.tree, f.path, required)) ==>
      host.troubles > old(host.troubles)
  {
    var snapshots: seq<Snapshot> := [];
    for i := 0 to |staged|
      invariant host.troubles == old(host.troubles)
      invariant |snapshots| == i && (forall j :: 0 <= j < i ==> snapshots[j].path == staged[j].path)
      invariant AllMatch(host.tree, snapshots) && (forall s <- snapshots :: Restorable(s))
      invariant required ==> forall s <- snapshots :: s.before.Some?
    {
      var s := SnapshotFile(host, staged[i].path, required);
      if s.None? {
        return None;
      }
      snapshots := snapshots + [s.value];
    }
    return Some(snapshots);
  }

  /** Nothing but a failing command can keep the snapshot from being restored. */
  predicate CanRestore(t: Tree, s: Snapshot) {
    && (s.before.Some? ==> s.path != [] && s.path in t && t[s.path].File?)
    && (s.before.None? && s.path in t ==> !t[s.path].Dir?)
  }

  ghost predicate AllCanRestore(t: Tree, snapshots: seq<Snapshot>) {
    forall s <- snapshots :: CanRestore(t, s)
  }

  /** The change that restores a snapshot. */
  function Put(s: Snapshot): Change {
    Change(s.path, s.before)
  }

  /** Write the old file back, or remove the new one. */
  method RestoreFile(host: Host, s: Snapshot) returns (ok: bool)
    requires WellFormed(host.tree) && Restorable(s)
    modifies host`tree, host`log, host`troubles
    ensures WellFormed(host.tree)
    ensures ok ==> Matches(host.tree, s)
    ensures !ok ==> host.tree == old(host.tree)
    ensures host.log == Logged(old(host.log), Put(s), ok)
    ensures ok ==> Files(host.tree) == Changed(Files(old(host.tree)), Put(s))
    ensures forall p :: p != s.path ==> SameAt(old(host.tree), host.tree, p)
    ensures host.Endured()
    ensures ok ==> host.troubles == old(host.troubles)
    ensures !ok && CanRestore(old(host.tree), s) ==> host.troubles > old(host.troubles)
  {
    if s.before.Some? {
      ok := host.WriteFile(s.path, s.before.value.content, s.before.value.mode);
    } else {
      ok := host.Remove(s.path);
    }
  }

  /** The files from `i` on are restored, the others still can be, and nothing else has changed. */
  ghost predicate Restoring(start: Tree, t: Tree, snapshots: seq<Snapshot>, i: nat)
    requires i <= |snapshots|
  {
    && (forall p :: p !in SnapshotPaths(snapshots) ==> SameAt(start, t, p))
    && (forall j :: i <= j < |snapshots| ==> Matches(t, snapshots[j]))
    && (AllCanRestore(start, snapshots) ==> forall j :: 0 <= j < i ==> CanRestore(t, snapshots[j]))
  }

  lemma RestoreStep(start: Tree, before: Tree, after: Tree, snapshots: seq<Snapshot>, i: nat)
    requires i < |snapshots| && DistinctPaths(snapshots) && Restoring(start, before, snapshots, i + 1)
    requires forall p :: p != snapshots[i].path ==> SameAt(before, after, p)
    ensures forall p :: p !in SnapshotPaths(snapshots) ==> SameAt(start, after, p)
    ensures Matches(after, snapshots[i]) ==> Restoring(start, after, snapshots, i)
  {
    assert snapshots[i].path in SnapshotPaths(snapshots);
    forall p | p !in SnapshotPaths(snapshots) ensures SameAt(start, after, p) {
      assert SameAt(before, after, p);
    }
    forall j | 0 <= j < |snapshots| && j != i ensures SameAt(before, after, snapshots[j].path) {
    }
  }

  /** The changes that restore the snapshots from `i` on, the last one first. */
  function Restores(snapshots: seq<Snapshot>, i: nat): seq<Change>
    requires i <= |snapshots|
    decreases |snapshots| - i
  {
    if i == |snapshots| then [] else Restores(snapshots, i + 1) + [Put(snapshots[i])]
  }

  /** From one tree and log to the other, the snapshots from `left` on have been restored. */
  ghost predicate Undid(t: Tree, log: seq<Change>, t': Tree, log': seq<Change>, snapshots: seq<Snapshot>, left: nat) {
    && left <= |snapshots|
    && log' == log + Restores(snapshots, left) && Files(t') == Replay(Files(t), Restores(snapshots, left))
  }

  lemma UndidOneMore(t: Tree, log: seq<Change>, t1: Tree, log1: seq<Change>, t2: Tree, log2: seq<Change>,
                     snapshots: seq<Snapshot>, i: nat)
    requires i < |snapshots| && Undid(t, log, t1, log1, snapshots, i + 1)
    requires log2 == log1 + [Put(snapshots[i])] && Files(t2) == Changed(Files(t1), Put(snapshots[i]))
    ensures Undid(t, log, t2, log2, snapshots, i)
  {
    var w := Restores(snapshots, i + 1);
    ReplayOneMore(Files(t), w, Put(snapshots[i]));
    assert log + w + [Put(snapshots[i])] == log + (w + [Put(snapshots[i])]);
  }

  /** `left` says how many snapshots have not been restored. */
  method RestoreFiles(host: Host, snapshots: seq<Snapshot>) returns (ok: bool, ghost left: nat)
    requires WellFormed(host.tree) && DistinctPaths(snapshots) && forall s <- snapshots :: Restorable(s)
    modifies host`tree, host`log, host`troubles
    ensures WellFormed(host.tree)
    ensures Undid(old(host.tree), old(host.log), host.tree, host.log, snapshots, left) && (ok <==> left == 0)
    ensures ok ==> AllMatch(host.tree, snapshots)
    ensures forall p :: p !in SnapshotPaths(snapshots) ==> SameAt(old(host.tree), host.tree, p)
    ensures host.Endured()
    ensures ok ==> host.troubles == old(host.troubles)
    ensures !ok && AllCanRestore(old(host.tree), snapshots) ==> host.troubles > old(host.troubles)
  {
    ghost var start := host.tree;
    var i := |snapshots|;
    while i > 0
      invariant 0 <= i <= |snapshots| && WellFormed(host.tree) && host.troubles == old(host.troubles)
      invariant Restoring(start, host.tree, snapshots, i)
      invariant Undid(start, old(host.log), host.tree, host.log, snapshots, i)
    {
      i := i - 1;
      ghost var before, logged := host.tree, host.log;
      ok := RestoreFile(host, snapshots[i]);
      RestoreStep(start, before, host.tree, snapshots, i);
      if !ok {
        return false, i + 1;
      }
      UndidOneMore(start, old(host.log), before, logged, host.tree, host.log, snapshots, i);
    }
    return true, 0;
  }

  method SnapshotDirs(host: Host, specs: seq<Path>) returns (r: Option<seq<DirSnapshot>>)
    modifies host`troubles
    ensures r.Some? ==>
      && |r.value| == |specs|
      && forall i :: 0 <= i < |specs| ==> r.value[i].path == specs[i] && (r.value[i].existed <==> specs[i] in host.tree)
    ensures host.Endured()
    ensures r.Some? ==> host.troubles == old(host.troubles)
    ensures r.None? && (forall d <- specs :: d in host.tree ==> host.tree[d].Dir?) ==>
      host.troubles > old(host.troubles)
  {
    var snapshots: seq<DirSnapshot> := [];
    for i := 0 to |specs|
      invariant host.troubles == old(host.troubles)
      invariant |snapshots| == i
      invariant forall j :: 0 <= j < i ==>
        snapshots[j].path == specs[j] && (snapshots[j].existed <==> specs[j] in host.tree)
    {
      var info := host.Lstat(specs[i]);
      if info.Failed? || (info.Found? && !info.node.Dir?) {
        return None;
      }
      snapshots := snapshots + [DirSnapshot(specs[i], info.Found?)];
    }
    return Some(snapshots);
  }

  /** `t` is `start` plus new directories, each of them on the rest of the removal list. */
  ghost predicate OnlyNewDirs(start: Tree, t: Tree, specs: seq<Path>) {
    && (forall p :: p in start ==> SameAt(start, t, p))
    && (forall p :: p in t && p !in start ==> t[p].Dir? && p in specs)
  }

  ghost predicate ChildrenFirst(specs: seq<Path>) {
    && (forall i :: 0 <= i < |specs| ==> specs[i] != [])
    && (forall i, j :: 0 <= i < j < |specs| ==> Parent(specs[j]) != specs[i])
  }

  /** Nothing is left inside a new directory once its turn to be removed has come. */
  lemma TurnIsEmpty(start: Tree, t: Tree, specs: seq<Path>, i: nat)
    requires WellFormed(start) && WellFormed(t) && ChildrenFirst(specs) && i < |specs|
    requires OnlyNewDirs(start, t, specs[i..]) && specs[i] !in start
    ensures forall c :: c in t && c != [] ==> Parent(c) != specs[i]
  {
    forall c | c in t && c != [] ensures Parent(c) != specs[i] {
      if c !in start {
        var j :| 0 <= j < |specs[i..]| && specs[i..][j] == c;
        assert c == specs[i + j];
        assert |c| != |Parent(c)|;
      }
    }
  }

  /** Once its turn is over, a directory is gone or was there from the start. */
  lemma TurnIsOver(start: Tree, t: Tree, t': Tree, specs: seq<Path>, i: nat)
    requires i < |specs| && OnlyNewDirs(start, t, specs[i..])
    requires t' == t || (specs[i] !in start && t' == t - {specs[i]})
    requires specs[i] in start || specs[i] !in t'
    ensures OnlyNewDirs(start, t', specs[i + 1..])
  {
  }

  lemma NoNewDirsLeft(start: Tree, t: Tree)
    requires OnlyNewDirs(start, t, [])
    ensures t == start
  {
    assert forall p :: p in t <==> p in start by {
      forall p | p in start ensures p in t {
        assert SameAt(start, t, p);
      }
    }
    forall p | p in start ensures t[p] == start[p] {
      assert SameAt(start, t, p);
    }
  }

  /** Remove the new directories.  The directory list is child before parent, so no removal meets a
      directory that still has something in it, and in the end the tree is what it was. */
  method RestoreDirs(host: Host, snapshots: seq<DirSnapshot>, ghost start: Tree, ghost specs: seq<Path>)
    returns (r: Undo)
    requires WellFormed(host.tree) && WellFormed(start) && |snapshots| == |specs|
    requires forall i :: 0 <= i < |specs| ==>
      snapshots[i].path == specs[i] && (snapshots[i].existed <==> specs[i] in start)
    requires forall d <- specs :: d != []
    modifies host`tree, host`troubles
    ensures WellFormed(host.tree) && Files(host.tree) == Files(old(host.tree))
    ensures ChildrenFirst(specs) && OnlyNewDirs(start, old(host.tree), specs) ==>
      && !r.MetNonEmptyDirectory? && (r.Undone? ==> host.tree == start)
      && (r.UndoFailed? ==> host.troubles > old(host.troubles))
    ensures host.Endured() && (r.Undone? ==> host.troubles == old(host.troubles))
  {
    ghost var planned := ChildrenFirst(specs) && OnlyNewDirs(start, host.tree, specs);
    assert specs[0..] == specs;
    for i := 0 to |snapshots|
      invariant WellFormed(host.tree) && Files(host.tree) == Files(old(host.tree))
      invariant host.troubles == old(host.troubles)
      invariant planned ==> OnlyNewDirs(start, host.tree, specs[i..])
    {
      ghost var before := host.tree;
      var d := snapshots[i];
      if d.existed {
        if planned {
          TurnIsOver(start, before, host.tree, specs, i);
        }
        continue;
      }
      var info := host.Lstat(d.path);
      if info.Missing? {
        if planned {
          TurnIsOver(start, before, host.tree, specs, i);
        }
        continue;
      }
      if info.Failed? || !info.node.Dir? {
        return UndoFailed;
      }
      if planned {
        TurnIsEmpty(start, host.tree, specs, i);
      }
      var removed := host.RemoveEmptyDir(d.path);
      if removed.NotEmpty? {
        return MetNonEmptyDirectory;
      }
      if removed.CommandFailed? {
        return UndoFailed;
      }
      if planned {
        TurnIsOver(start, before, host.tree, specs, i);
      }
    }
    assert specs[|specs|..] == [];
    if planned {
      NoNewDirsLeft(start, host.tree);
    }
    return Undone;
  }
}
