/** Refreshing a deployed profile: all or nothing, on disk and in the running Nginx. */
module RealIpRefresh {
  import opened Options
  import opened HostTree
  import opened FileInstaller
  import opened RealIpSnapshots

  /** `RolledBack(true)`: the restored files were also made active again as far as necessary. */
  datatype Outcome = NotStarted | Refreshed | RolledBack(active: bool) | RollbackFailed

  /** Overwriting files that are all there creates nothing. */
  lemma OverwriteAddsNothing(t: Tree, t': Tree, paths: set<Path>)
    requires WellFormed(t) && Installs(t, t', paths) && forall p :: p in paths ==> p in t
    ensures forall p :: p !in paths ==> SameAt(t, t', p)
  {
    forall p | p !in paths ensures SameAt(t, t', p) {
      if p in t' && p !in t {
        var f :| f in paths && Above(p, f);
        PrefixesExist(t, f, p);
      }
    }
  }

  lemma RestoredTree(t0: Tree, t1: Tree, t2: Tree, snapshots: seq<Snapshot>)
    requires AllMatch(t0, snapshots) && AllMatch(t2, snapshots)
    requires forall p :: p !in SnapshotPaths(snapshots) ==> SameAt(t0, t1, p)
    requires forall p :: p !in SnapshotPaths(snapshots) ==> SameAt(t1, t2, p)
    ensures t2 == t0
  {
    forall p ensures SameAt(t0, t2, p) {
      if p in SnapshotPaths(snapshots) {
        var s :| s in snapshots && s.path == p;
        assert Matches(t0, s) && Matches(t2, s);
      } else {
        assert SameAt(t0, t1, p) && SameAt(t1, t2, p);
      }
    }
    SameEverywhere(t0, t2);
  }

  /** Make the restored files active: reload Nginx exactly when a reload had been tried. */
  method ActivateRestored(host: Host, reload: bool) returns (ok: bool)
    modifies host`loaded, host`units, host`troubles, host`accepted, host`blindReloads
    ensures ok ==> host.units == host.tree && host.accepted == Some(host.tree)
    ensures !reload ==> host.loaded == old(host.loaded)
    ensures reload && ok ==> host.loaded == host.tree
    ensures host.Endured() && (!ok ==> host.troubles > old(host.troubles))
    ensures ok ==> host.troubles == old(host.troubles)
    ensures host.blindReloads == old(host.blindReloads)
  {
    var daemonReload := host.DaemonReload();
    if !daemonReload {
      return false;
    }
    var test := host.TestNginx();
    if !test {
      return false;
    }
    if reload {
      ok := host.ReloadNginx();
      return;
    }
    return true;
  }

  /** Restore all files of the snapshots. */
  method RestoreAll(host: Host, snapshots: seq<Snapshot>, ghost start: Tree) returns (ok: bool, ghost undoTroubles: nat)
    requires WellFormed(host.tree) && DistinctPaths(snapshots) && (forall s <- snapshots :: Restorable(s))
    requires AllMatch(start, snapshots) && AllCanRestore(host.tree, snapshots)
    requires forall p :: p !in SnapshotPaths(snapshots) ==> SameAt(start, host.tree, p)
    modifies host`tree, host`log, host`troubles
    ensures ok ==> host.tree == start
    ensures ok <==> undoTroubles == 0
    ensures host.troubles == old(host.troubles) + undoTroubles && host.Endured()
  {
    ghost var before, already := host.tree, host.troubles;
    ghost var left;
    ok, left := RestoreFiles(host, snapshots);
    undoTroubles := host.troubles - already;
    if ok {
      RestoredTree(start, before, host.tree, snapshots);
    }
  }

  /** `undoTroubles` counts the commands of the rollback that failed. */
  method RollBack(host: Host, snapshots: seq<Snapshot>, reload: bool, ghost start: Tree)
    returns (r: Outcome, ghost undoTroubles: nat)
    requires WellFormed(host.tree) && DistinctPaths(snapshots) && (forall s <- snapshots :: Restorable(s))
    requires AllMatch(start, snapshots) && AllCanRestore(host.tree, snapshots)
    requires forall p :: p !in SnapshotPaths(snapshots) ==> SameAt(start, host.tree, p)
    modifies host`tree, host`log, host`loaded, host`units, host`troubles, host`accepted, host`blindReloads
    ensures r.RolledBack? || r.RollbackFailed?
    ensures r.RolledBack? ==> host.tree == start
    ensures r.RolledBack? && r.active ==> host.loaded == if reload then start else old(host.loaded)
    ensures r.RolledBack? && r.active ==> host.units == start
    ensures undoTroubles == 0 <==> r == RolledBack(true)
    ensures host.troubles == old(host.troubles) + undoTroubles
    ensures host.Endured() && host.blindReloads == old(host.blindReloads)
  {
    var ok;
    ok, undoTroubles := RestoreAll(host, snapshots, start);
    if !ok {
      return RollbackFailed, undoTroubles;
    }
    ghost var already := host.troubles;
    var active := ActivateRestored(host, reload);
    undoTroubles := undoTroubles + host.troubles - already;
    return RolledBack(active), undoTroubles;
  }

  /** Overwritten files can be written again. */
  lemma CanStillRestore(start: Tree, t: Tree, snapshots: seq<Snapshot>)
    requires WellFormed(start) && AllMatch(start, snapshots)
    requires forall s <- snapshots :: Restorable(s) && s.before.Some?
    requires Installs(start, t, SnapshotPaths(snapshots))
    ensures AllCanRestore(t, snapshots)
  {
    forall s | s in snapshots ensures CanRestore(t, s) {
      assert Matches(start, s) && s.path in SnapshotPaths(snapshots);
    }
  }

  /** All artifacts are there as regular files. */
  ghost predicate AllRegular(t: Tree, staged: seq<Staged>) {
    forall f <- staged :: f.path in t && t[f.path].File?
  }

  lemma RegularIsPlaceable(t: Tree, staged: seq<Staged>)
    requires WellFormed(t) && AllRegular(t, staged)
    ensures AllPlaceable(t, staged)
  {
    forall f, g | f in staged && g in staged ensures !Above(f.path, g.path) {
      if Above(f.path, g.path) {
        PrefixesExist(t, g.path, f.path);
      }
    }
    forall f | f in staged ensures Placeable(t, f.path) {
      forall q | q in t && q <= Parent(f.path) ensures t[q].Dir? {
        PrefixesExist(t, f.path, q);
      }
    }
  }

  /** On success no command has failed, every staged artifact has its new content, and systemd and the
      running Nginx have read it.  On a failure the disk is exactly as before, and if systemd and
      Nginx had read what was on disk, they still have; and this is so exactly if no command of the
      rollback fails.  A refresh fails only if a command does, or an artifact is not there as a
      regular file; and Nginx is never reloaded blindly. */
  method InstallAndActivate(host: Host, staged: seq<Staged>) returns (r: Outcome, ghost undoTroubles: nat)
    requires WellFormed(host.tree) && Distinct(staged)
    modifies host`tree, host`log, host`loaded, host`units, host`troubles, host`accepted, host`blindReloads
    ensures r.NotStarted? ==>
      host.tree == old(host.tree) && host.loaded == old(host.loaded) && host.units == old(host.units)
    ensures r.Refreshed? ==> AllInstalled(host.tree, staged) && host.loaded == host.tree && host.units == host.tree
    ensures r.Refreshed? ==> host.troubles == old(host.troubles)
    ensures r.Refreshed? ==> forall p :: p !in Paths(staged) ==> SameAt(old(host.tree), host.tree, p)
    ensures r.Refreshed? ==> forall f <- staged :: f.path in old(host.tree)
    ensures r.RolledBack? ==> host.tree == old(host.tree)
    ensures r.RolledBack? && r.active && old(host.loaded) == old(host.tree) ==> host.loaded == host.tree
    ensures r.RolledBack? && r.active && old(host.units) == old(host.tree) ==> host.units == host.tree
    ensures undoTroubles == 0 <==> !r.RollbackFailed? && (r.RolledBack? ==> r.active)
    ensures !r.Refreshed? && AllRegular(old(host.tree), staged) ==> host.troubles > old(host.troubles)
    ensures host.blindReloads == old(host.blindReloads)
  {
    undoTroubles := 0;
    ghost var start := host.tree;
    var taken := SnapshotFiles(host, staged, true);
    if taken.None? {
      return NotStarted, 0;
    }
    var snapshots := taken.value;
    SamePaths(start, staged, snapshots);
    var ok := Overwrite(host, staged, snapshots);
    if !ok {
      ok, undoTroubles := RestoreAll(host, snapshots, start);
      return if ok then RolledBack(true) else RollbackFailed, undoTroubles;
    }
    r, undoTroubles := ActivateRefreshed(host, snapshots, start);
  }

  /** Install over files that are all there: nothing else changes, and all can be put back. */
  method Overwrite(host: Host, staged: seq<Staged>, ghost snapshots: seq<Snapshot>) returns (ok: bool)
    requires WellFormed(host.tree) && Distinct(staged) && SnapshotPaths(snapshots) == Paths(staged)
    requires AllMatch(host.tree, snapshots) && (forall s <- snapshots :: Restorable(s) && s.before.Some?)
    requires forall p :: p in Paths(staged) ==> p in host.tree
    modifies host`tree, host`log, host`troubles
    ensures WellFormed(host.tree) && AllCanRestore(host.tree, snapshots)
    ensures forall p :: p !in Paths(staged) ==> SameAt(old(host.tree), host.tree, p)
    ensures ok ==> AllInstalled(host.tree, staged)
    ensures host.Endured()
    ensures ok ==> host.troubles == old(host.troubles)
    ensures !ok && AllRegular(old(host.tree), staged) ==> host.troubles > old(host.troubles)
  {
    ghost var start := host.tree;
    if AllRegular(start, staged) {
      RegularIsPlaceable(start, staged);
    }
    var results;
    results, ok := Install(host, staged);
    OverwriteAddsNothing(start, host.tree, Paths(staged));
    CanStillRestore(start, host.tree, snapshots);
  }

  method ActivateRefreshed(host: Host, snapshots: seq<Snapshot>, ghost start: Tree)
    returns (r: Outcome, ghost undoTroubles: nat)
    requires WellFormed(host.tree) && DistinctPaths(snapshots) && (forall s <- snapshots :: Restorable(s))
    requires AllMatch(start, snapshots) && AllCanRestore(host.tree, snapshots)
    requires forall p :: p !in SnapshotPaths(snapshots) ==> SameAt(start, host.tree, p)
    modifies host`tree, host`log, host`loaded, host`units, host`troubles, host`accepted, host`blindReloads
    ensures r.Refreshed? || r.RolledBack? || r.RollbackFailed?
    ensures r.Refreshed? ==>
      && host.tree == old(host.tree) && host.loaded == host.tree && host.units == host.tree
      && host.troubles == old(host.troubles)
    ensures r.RolledBack? ==> host.tree == start
    ensures r.RolledBack? && r.active ==> host.loaded == start || host.loaded == old(host.loaded)
    ensures r.RolledBack? && r.active ==> host.units == start
    ensures undoTroubles == 0 <==> r.Refreshed? || r == RolledBack(true)
    ensures host.Endured() && (!r.Refreshed? ==> host.troubles > old(host.troubles))
    ensures host.blindReloads == old(host.blindReloads)
  {
    undoTroubles := 0;
    var daemonReload := host.DaemonReload();
    if !daemonReload {
      r, undoTroubles := RollBack(host, snapshots, false, start);
      return;
    }
    var test := host.TestNginx();
    if !test {
      r, undoTroubles := RollBack(host, snapshots, false, start);
      return;
    }
    var reload := host.ReloadNginx();
    if !reload {
      r, undoTroubles := RollBack(host, snapshots, true, start);
      return;
    }
    return Refreshed, 0;
  }

  lemma SamePaths(t: Tree, staged: seq<Staged>, snapshots: seq<Snapshot>)
    requires |snapshots| == |staged| && (forall i :: 0 <= i < |staged| ==> snapshots[i].path == staged[i].path)
    ensures SnapshotPaths(snapshots) == Paths(staged)
    ensures Distinct(staged) ==> DistinctPaths(snapshots)
    ensures AllMatch(t, snapshots) && (forall s <- snapshots :: s.before.Some?) ==>
      forall p :: p in Paths(staged) ==> p in t
  {
    forall p ensures p in SnapshotPaths(snapshots) <==> p in Paths(staged) {
      if p in SnapshotPaths(snapshots) {
        var i :| 0 <= i < |snapshots| && snapshots[i].path == p;
        assert staged[i] in staged;
      }
      if p in Paths(staged) {
        var i :| 0 <= i < |staged| && staged[i].path == p;
        assert snapshots[i] in snapshots;
      }
    }
    if AllMatch(t, snapshots) && forall s <- snapshots :: s.before.Some? {
      forall p | p in Paths(staged) ensures p in t {
        var i :| 0 <= i < |staged| && staged[i].path == p;
        assert Matches(t, snapshots[i]);
      }
    }
  }
}
