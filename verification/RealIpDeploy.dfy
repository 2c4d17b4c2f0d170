/** The real-IP part of one app deploy, with the flags and snapshots its rollback works from.

    The app's other runtime files are installed beside the site and are never rolled back; they are
    not part of this model. */
module RealIpDeploy {
  import opened Options
  import opened HostTree
  import opened FileInstaller
  import opened RealIpLayout
  import opened RealIpSnapshots
  import opened RealIpRefresh
  import opened RealIpView
  import opened RealIpTrack
  import opened RealIpStanding

  /** How a deploy ended.  `Stopped(undo, active)`: it failed before the commit; `undo` says how the
      restore of files and directories went, `active` whether what was restored runs again. */
  datatype Result = Deployed | FailedAfterCommit | Stopped(undo: Undo, active: bool)

  /** The tree differs from `start` at managed paths and by directories above them only. */
  ghost predicate Grown(start: Tree, t: Tree, paths: set<Path>) {
    && (forall p :: p in start && p !in paths ==> SameAt(start, t, p))
    && (forall p :: p in t && p !in start && p !in paths ==> t[p].Dir? && exists f :: f in paths && Above(p, f))
  }

  /** Nothing stands in the way of the files, the link and the directories of a deploy. */
  ghost predicate WayIsClear(layout: Layout, t: Tree) {
    && (forall p :: p in layout.shared || p == layout.available || p == layout.reference ==> Placeable(t, p))
    && layout.enabled != [] && IsDir(t, Parent(layout.enabled))
    && (layout.enabled in t ==> t[layout.enabled] == Symlink(layout.available))
    && (forall d <- layout.specs :: d in t ==> t[d].Dir?)
  }

  predicate NoDirAt(t: Tree, p: Path) {
    p in t ==> !t[p].Dir?
  }

  /** One of the app's own files was written, if `changed`; nothing else has happened to files and links. */
  predicate WroteOwn(t: Tree, log: seq<Change>, t': Tree, log': seq<Change>, file: Staged, changed: bool) {
    && log' == Logged(log, Write(file), changed)
    && Files(t') == Applied(Files(t), Write(file), changed)
  }

  /** A snapshot was put back, if `ok`; nothing else has happened to files and links. */
  predicate PutBack(t: Tree, log: seq<Change>, t': Tree, log': seq<Change>, s: Snapshot, ok: bool) {
    && log' == Logged(log, Put(s), ok)
    && Files(t') == Applied(Files(t), Put(s), ok)
  }

  class Deploy {
    const host: Host
    const layout: Layout
    const shared: seq<Staged>
    const site: Staged
    const reference: Staged

    /** Whether lego already holds a certificate for the app. */
    const certified: bool

    /** Whether the certificate authority refuses the app. */
    const refused: bool

    var sharedInstalled: bool
    var sharedCommitted: bool
    var fileSnapshots: seq<Snapshot>
    var dirSnapshots: seq<DirSnapshot>
    var siteSnapshot: Option<Snapshot>
    var enabledBefore: bool
    var referenceSnapshot: Option<Snapshot>
    var referenceInstalled: bool
    var reloadAttempted: bool

    /** A restore of the reference has failed. */
    var referenceLost: bool

    /** How many of the commands that undo something have failed. */
    ghost var undoTroubles: nat

    /** How many commands of certificate hooks have failed without lego minding. */
    ghost var hookTroubles: nat

    /** Nginx has loaded what a certificate hook found on disk. */
    ghost var hookLoaded: bool

    /** Lego has issued or renewed the certificate. */
    ghost var issued: bool

    /** What the step system is told about this deploy. */
    ghost const setting: Setting

    /** The host when the deploy took the lock. */
    ghost const start: Tree
    ghost const loadedAtStart: Tree
    ghost const unitsAtStart: Tree

    constructor (host: Host, layout: Layout, shared: seq<Staged>, site: Staged, reference: Staged,
                 certified: bool, refused: bool, ghost setting: Setting)
      requires WellFormed(host.tree) && layout.Sound() && Distinct(shared) && Paths(shared) == layout.shared
      requires site.path == layout.available && reference.path == layout.reference
      ensures this.host == host && Valid() && Fresh()
      ensures start == host.tree && loadedAtStart == host.loaded && unitsAtStart == host.units
      ensures this.layout == layout
      ensures this.shared == shared && this.site == site && this.reference == reference
      ensures this.certified == certified && this.refused == refused && this.setting == setting
    {
      this.host, this.layout := host, layout;
      this.shared, this.site, this.reference := shared, site, reference;
      this.certified, this.refused := certified, refused;
      sharedInstalled, sharedCommitted := false, false;
      fileSnapshots, dirSnapshots := [], [];
      siteSnapshot, enabledBefore := None, false;
      referenceSnapshot, referenceInstalled := None, false;
      reloadAttempted, referenceLost := false, false;
      undoTroubles, hookTroubles, hookLoaded, issued := 0, 0, false, false;
      start, loadedAtStart, unitsAtStart := host.tree, host.loaded, host.units;
      this.setting := setting;
    }

    /** The setting speaks of this deploy. */
    ghost predicate Describes(x: Setting) {
      && x.Sound() && x.files == Files(start) && Planned(x, shared)
      && x.lens.reference == layout.reference && x.plan.reference == ContentOf(reference)
      && x.lens.available == layout.available && x.plan.body == ContentOf(site)
      && x.lens.enabled == layout.enabled
    }

    /** The same, unfolded only where `TiedDescribes` asks for it. */
    ghost predicate Tied() {
      forall x {:trigger Describes(x)} :: x == setting ==> Describes(x)
    }

    lemma Describe()
      requires Describes(setting)
      ensures Tied()
    {
    }

    lemma TiedDescribes()
      requires Tied()
      ensures Describes(setting)
    {
    }

    /** The record of the steps has reached what is on disk now. */
    ghost predicate Shown(at: Standing)
      reads `referenceLost, host`tree, host`log
    {
      Known(setting, at, host.tree, host.log, referenceLost)
    }

    lemma SnapshotRecalls(s: Snapshot, p: Path)
      requires Describes(setting) && TrueSnapshot(s, p)
      ensures Recalls(setting, s, p)
    {
    }

    lemma SnapshotsRemember(files: seq<Snapshot>)
      requires Inputs() && Describes(setting) && TrueFiles(files)
      ensures Remembered(setting, files)
    {
      assert AsPlanned(setting, shared);
      forall s | s in files
        ensures s.before == AsFile(Read(setting.files, s.path)) && exists f :: setting.lens.artifact(f) == s.path
      {
        assert s.path in Paths(shared) && Matches(start, s);
        var file :| file in shared && file.path == s.path;
        var f :| IsArtifact(setting, f, file);
      }
      forall f ensures IsAmong(setting, f, SnapshotPaths(files)) {
        assert IsAmong(setting, f, Paths(shared));
      }
    }

    /** The record goes on with the installation of the shared files. */
    lemma NoteShared(at: Standing, t: Tree, log: seq<Change>, t': Tree, log': seq<Change>, lost: bool,
                     results: seq<InstallResult>, ok: bool)
      returns (next: Standing)
      requires Tied() && Known(setting, at, t, log, lost) && at.place.AtLock?
      requires |results| <= |shared| && (if ok then |results| == |shared| else results != [])
      requires Done(t, log, t', log', shared, if ok then |results| else |results| - 1, results)
      ensures Known(setting, next, t', log', lost) && next.place == if ok then AtShared else BackToShared
    {
      TiedDescribes();
      next := SharedInstalled(setting, at, t, log, t', log', lost, shared, results, ok);
    }

    /** With their restoration. */
    lemma NoteUndo(at: Standing, t: Tree, log: seq<Change>, t': Tree, log': seq<Change>, lost: bool,
                   files: seq<Snapshot>, left: nat)
      returns (next: Standing)
      requires Inputs() && Tied() && Known(setting, at, t, log, lost) && at.place.BackToShared?
      requires TrueFiles(files) && Undid(t, log, t', log', files, left)
      ensures Known(setting, next, t', log', lost) && next.place == if left == 0 then Back else Stuck
    {
      TiedDescribes();
      SnapshotsRemember(files);
      next := SharedRestored(setting, at, t, log, t', log', lost, files, left);
    }

    /** With the site or the reference, and with the snapshot taken before. */
    lemma NoteOwn(at: Standing, t: Tree, log: seq<Change>, t': Tree, log': seq<Change>, lost: bool,
                  file: Staged, changed: bool, ok: bool)
      returns (next: Standing)
      requires Inputs() && Tied() && Known(setting, at, t, log, lost)
      requires (at.place.AtShared? && file == site) || (at.place.AtSite? && file == reference)
      requires WroteOwn(t, log, t', log', file, changed)
      requires if ok then changed || Installed(t, file) else !changed
      ensures Known(setting, next, t', log', lost)
      ensures next.place ==
        if !ok then Ahead(at.place) else if at.place.AtShared? then AtSite else AtReference
    {
      TiedDescribes();
      next := GoOn(setting, at, t, log, lost);
      if ok {
        next := OwnInstalled(setting, next, t, log, t', log', lost, file, changed);
      } else {
        StandsStill(setting, next, t, t', log, lost);
      }
    }

    /** With the reference put back, after a failure if it had been installed. */
    lemma NoteReference(at: Standing, t: Tree, log: seq<Change>, t': Tree, log': seq<Change>, lost: bool,
                        s: Snapshot, ok: bool)
      returns (next: Standing)
      requires Tied() && Known(setting, at, t, log, lost) && TrueSnapshot(s, layout.reference)
      requires at.place.AtRefSnapshot? || at.place.AtReference? || at.place.AtLink?
      requires PutBack(t, log, t', log', s, ok)
      ensures Known(setting, next, t', log', lost || !ok)
      ensures next.place == if at.place.AtRefSnapshot? then AtRefSnapshot else BackToSite
    {
      TiedDescribes();
      SnapshotRecalls(s, layout.reference);
      next := at;
      if !at.place.AtRefSnapshot? {
        next := TurnBack(setting, at, t, log, lost);
      }
      next := ReferenceRestored(setting, next, t, log, t', log', lost, s, ok);
    }

    /** With the site put back. */
    lemma NoteSite(at: Standing, t: Tree, log: seq<Change>, t': Tree, log': seq<Change>, lost: bool, s: Snapshot,
                   ok: bool)
      returns (next: Standing)
      requires Tied() && Known(setting, at, t, log, lost) && TrueSnapshot(s, layout.available)
      requires at.place.BackToSite? && PutBack(t, log, t', log', s, ok)
      ensures Known(setting, next, t', log', lost) && next.place == if ok then BackToLink else BackToSite
    {
      if ok {
        TiedDescribes();
        SnapshotRecalls(s, layout.available);
        next := SiteRestored(setting, at, t, log, t', log', lost, s);
      } else {
        StandsStill(setting, at, t, t', log, lost);
        next := at;
      }
    }

    /** With the link made. */
    lemma NoteLink(at: Standing, t: Tree, log: seq<Change>, lost: bool) returns (next: Standing)
      requires Tied() && Known(setting, at, t, log, lost) && at.place.AtReference?
      requires layout.enabled in t ==> !t[layout.enabled].Dir?
      ensures var node := Symlink(layout.available);
        Known(setting, next, t[layout.enabled := node], log + [Change(layout.enabled, Some(node))], lost)
      ensures next.place.AtLink?
    {
      TiedDescribes();
      var c := Change(layout.enabled, Some(Symlink(layout.available)));
      assert Files(Changed(t, c)) == Changed(Files(t), c);
      next := LinkMade(setting, at, t, log, Changed(t, c), log + [c], lost);
    }

    /** With the link removed if there was none at the start. */
    lemma NoteUnlink(at: Standing, t: Tree, log: seq<Change>, lost: bool, stays: bool) returns (next: Standing)
      requires Tied() && Known(setting, at, t, log, lost) && at.place.BackToLink?
      requires stays ==> layout.enabled in start && start[layout.enabled].Symlink?
      requires !stays ==> layout.enabled !in start && (layout.enabled in t ==> !t[layout.enabled].Dir?)
      ensures if stays then Known(setting, next, t, log, lost)
        else Known(setting, next, t - {layout.enabled}, log + [Change(layout.enabled, None)], lost)
      ensures next.place.BackToShared?
    {
      TiedDescribes();
      var c := Change(layout.enabled, None);
      if stays {
        next := LinkRestored(setting, at, t, log, t, log, lost, true);
      } else {
        assert Files(Changed(t, c)) == Changed(Files(t), c);
        next := LinkRestored(setting, at, t, log, Changed(t, c), log + [c], lost, false);
      }
    }

    ghost predicate Unobstructed() {
      WayIsClear(layout, start)
    }

    lemma SharedPlaceable()
      requires Inputs() && Unobstructed()
      ensures AllPlaceable(start, shared) && forall f <- shared :: Regular(start, f.path, false)
    {
      forall f | f in shared ensures Placeable(start, f.path) && f.path in layout.Paths() {
        assert f.path in Paths(shared);
      }
    }

    /** Directories on the way to a managed path are directories in any grown tree. */
    lemma WayStays(t: Tree, p: Path)
      requires Inputs() && Grown(start, t, layout.Paths()) && p in layout.Paths() && p != []
      requires DirsOnly(start, Parent(p))
      ensures DirsOnly(t, Parent(p))
    {
      forall q | q in t && q <= Parent(p) ensures t[q].Dir? {
        assert Above(q, p);
        if q in start {
          assert SameAt(start, t, q);
        }
      }
    }

    ghost predicate Inputs() {
      && WellFormed(start) && layout.Sound() && Distinct(shared) && Paths(shared) == layout.shared
      && site.path == layout.available && reference.path == layout.reference
    }

    ghost predicate TrueSnapshot(s: Snapshot, p: Path) {
      s.path == p && Matches(start, s) && Restorable(s)
    }

    ghost predicate TrueFiles(snapshots: seq<Snapshot>) {
      && SnapshotPaths(snapshots) == layout.shared && DistinctPaths(snapshots)
      && AllMatch(start, snapshots) && (forall s <- snapshots :: Restorable(s))
    }

    ghost predicate TrueDirs(snapshots: seq<DirSnapshot>) {
      var specs := layout.specs;
      && |snapshots| == |specs|
      && forall i :: 0 <= i < |specs| ==> snapshots[i].path == specs[i] && (snapshots[i].existed <==> specs[i] in start)
    }

    /** The snapshots of the shared files and directories are true, and nothing but a failing command can
        keep the files from being put back. */
    ghost predicate CanPutBack(t: Tree, files: seq<Snapshot>, dirs: seq<DirSnapshot>) {
      TrueFiles(files) && TrueDirs(dirs) && AllCanRestore(t, files)
    }

    /** The same, unfolded only where it is asked for. */
    ghost predicate SharedKept(t: Tree, files: seq<Snapshot>, dirs: seq<DirSnapshot>) {
      forall x {:trigger CanPutBack(x, files, dirs)} :: x == t ==> CanPutBack(x, files, dirs)
    }

    /** The snapshot of the site is true and can be put back; as long as there is none, site and link are untouched. */
    ghost predicate SiteKept(t: Tree, snapshot: Option<Snapshot>, enabled: bool) {
      && (if snapshot.Some?
          then && TrueSnapshot(snapshot.value, layout.available) && CanRestore(t, snapshot.value)
               && NoDirAt(t, layout.enabled) && (enabled <==> layout.enabled in start)
          else SameAt(start, t, layout.available) && SameAt(start, t, layout.enabled))
      && (enabled ==> SameAt(start, t, layout.enabled) && layout.enabled in start && start[layout.enabled].Symlink?)
    }

    /** So is the snapshot of the reference, if there is one. */
    ghost predicate ReferenceKept(t: Tree, snapshot: Option<Snapshot>) {
      snapshot.Some? ==> TrueSnapshot(snapshot.value, layout.reference) && CanRestore(t, snapshot.value)
    }

    /** What is on disk can be put back as it was. */
    ghost predicate Sane()
      reads this, host`tree, host`loaded
    {
      && Inputs() && WellFormed(host.tree) && Grown(start, host.tree, layout.Paths())
      && (if sharedInstalled then SharedKept(host.tree, fileSnapshots, dirSnapshots)
          else host.tree == start && siteSnapshot.None?)
      && SiteKept(host.tree, siteSnapshot, enabledBefore) && ReferenceKept(host.tree, referenceSnapshot)
      && (referenceLost <==> undoTroubles > 0) && (host.steady ==> undoTroubles == 0)
      && (sharedCommitted ==> reloadAttempted) && (!reloadAttempted ==> LoadedByHook())
    }

    /** Everything the deploy installs before the certificate is already there. */
    ghost predicate NothingNew() {
      AllInstalled(start, shared) && Installed(start, site)
    }

    /** The tree a certificate hook finds: new shared files and site, the link as it was. */
    ghost predicate Prepared(t: Tree) {
      && AllInstalled(t, shared) && Installed(t, site) && SameAt(start, t, layout.enabled)
      && (NothingNew() ==> t == start)
    }

    /** What Nginx runs as long as the deploy itself has not reloaded it. */
    ghost predicate LoadedByHook()
      reads `hookLoaded, host`loaded
    {
      if hookLoaded then Prepared(host.loaded) else host.loaded == loadedAtStart
    }

    /** The flags fit what is on disk. */
    ghost predicate Consistent(t: Tree)
      reads this, host`tree, host`loaded
    {
      && t == host.tree && Sane()
      && (referenceInstalled ==> referenceSnapshot.Some?)
      && (!referenceInstalled && !referenceLost ==> SameAt(start, t, layout.reference))
    }

    /** The same, unfolded only where `ValidMeans` asks for it. */
    ghost predicate Valid()
      reads this, host`tree, host`loaded
    {
      forall t {:trigger Consistent(t)} :: t == host.tree ==> Consistent(t)
    }

    lemma ValidMeans()
      requires Valid()
      ensures Consistent(host.tree)
    {
    }

    ghost predicate Fresh()
      reads this, host`tree, host`loaded
    {
      && !sharedInstalled && !sharedCommitted && siteSnapshot.None? && referenceSnapshot.None?
      && !referenceInstalled && !reloadAttempted && !referenceLost && !enabledBefore && undoTroubles == 0
      && hookTroubles == 0 && !hookLoaded && !issued
    }

    /** Everything managed but the shared files is as it was at the start. */
    ghost predicate OwnFilesBack()
      reads host`tree
    {
      && SameAt(start, host.tree, layout.available) && SameAt(start, host.tree, layout.enabled)
      && SameAt(start, host.tree, layout.reference)
    }

    /** Put the shared files back, then remove the directories that were not there. */
    method RestoreShared(files: seq<Snapshot>, dirs: seq<DirSnapshot>, ghost at: Standing)
      returns (undo: Undo, ghost next: Standing)
      requires Inputs() && WellFormed(host.tree) && Grown(start, host.tree, layout.Paths())
      requires TrueFiles(files) && TrueDirs(dirs)
      requires Tied() && Shown(at) && at.place.BackToShared?
      modifies host`tree, host`log, host`troubles
      ensures Shown(next) && next.place.Ended(undo.Undone?)
      ensures layout.HasBase(start) && old(OwnFilesBack()) ==> !undo.MetNonEmptyDirectory?
      ensures layout.HasBase(start) && old(OwnFilesBack()) && undo.Undone? ==> host.tree == start
      ensures host.Endured() && (undo.Undone? ==> host.troubles == old(host.troubles))
      ensures
        layout.HasBase(start) && old(OwnFilesBack()) && AllCanRestore(old(host.tree), files) && undo.UndoFailed? ==>
          host.troubles > old(host.troubles)
    {
      ghost var before := host.tree;
      var ok;
      ok, next := RestoreTracked(files, at);
      if !ok {
        return UndoFailed, next;
      }
      if layout.HasBase(start) && old(OwnFilesBack()) {
        SharedBack(before, host.tree, files);
        OnlyDirsRemain(start, host.tree, layout);
      }
      ghost var restored := host.tree;
      undo := RestoreDirs(host, dirs, start, layout.specs);
      StandsStill(setting, next, restored, host.tree, host.log, referenceLost);
    }

    /** Put the shared files back, step by step. */
    method RestoreTracked(files: seq<Snapshot>, ghost at: Standing) returns (ok: bool, ghost next: Standing)
      requires Inputs() && WellFormed(host.tree) && TrueFiles(files)
      requires Tied() && Shown(at) && at.place.BackToShared?
      modifies host`tree, host`log, host`troubles
      ensures WellFormed(host.tree) && (ok ==> AllMatch(host.tree, files))
      ensures forall p :: p !in SnapshotPaths(files) ==> SameAt(old(host.tree), host.tree, p)
      ensures host.Endured()
      ensures ok ==> host.troubles == old(host.troubles)
      ensures !ok && AllCanRestore(old(host.tree), files) ==> host.troubles > old(host.troubles)
      ensures Shown(next) && next.place == if ok then Back else Stuck
    {
      ghost var before, logged := host.tree, host.log;
      ghost var left;
      ok, left := RestoreFiles(host, files);
      next := NoteUndo(at, before, logged, host.tree, host.log, referenceLost, files, left);
    }

    lemma SharedBack(t: Tree, t': Tree, files: seq<Snapshot>)
      requires TrueFiles(files) && AllMatch(t', files) && Grown(start, t, layout.Paths())
      requires SameAt(start, t, layout.available) && SameAt(start, t, layout.enabled)
      requires SameAt(start, t, layout.reference)
      requires forall p :: p !in layout.shared ==> SameAt(t, t', p)
      ensures Grown(start, t', layout.Paths())
      ensures forall p :: p in layout.Paths() ==> SameAt(start, t', p)
    {
      forall p | p in layout.Paths() ensures SameAt(start, t', p) {
        if p in layout.shared {
          var s :| s in files && s.path == p;
          assert Matches(start, s) && Matches(t', s);
        } else {
          assert SameAt(t, t', p);
        }
      }
      forall p | p !in layout.Paths() ensures SameAt(t, t', p) {
      }
    }

    lemma SharedCanBeRestored(t: Tree, files: seq<Snapshot>, s: Snapshot)
      requires Inputs() && Installs(start, t, layout.shared) && TrueFiles(files) && s in files
      ensures CanRestore(t, s)
    {
    }

    /** Installing the shared files leaves the app's own files alone. */
    lemma AfterSharedInstall(t: Tree)
      requires Inputs() && Installs(start, t, layout.shared)
      ensures Grown(start, t, layout.Paths())
      ensures SameAt(start, t, layout.available) && SameAt(start, t, layout.enabled)
      ensures SameAt(start, t, layout.reference)
      ensures forall files :: TrueFiles(files) ==> AllCanRestore(t, files)
    {
      forall files, s | TrueFiles(files) && s in files ensures CanRestore(t, s) {
        SharedCanBeRestored(t, files, s);
      }
      GrownInstalls(start, start, t, layout.Paths(), layout.shared);
      InstallsElsewhere(start, t, layout.shared, layout, layout.available);
      InstallsElsewhere(start, t, layout.shared, layout, layout.enabled);
      InstallsElsewhere(start, t, layout.shared, layout, layout.reference);
    }

    /** Install the shared files, or leave the host as it was. */
    method InstallShared(ghost at: Standing) returns (ok: bool, undo: Undo, ghost next: Standing)
      requires Valid() && Fresh() && Tied() && Shown(at) && at.place.AtLock?
      modifies this`sharedInstalled, this`fileSnapshots, this`dirSnapshots, this`undoTroubles
      modifies host`tree, host`log, host`troubles
      ensures Shown(next) && if ok then next.place.AtShared? else next.place.Ended(undo.Undone?)
      ensures ok ==> Valid() && sharedInstalled
      ensures ok ==> AllInstalled(host.tree, shared) && (AllInstalled(start, shared) ==> host.tree == start)
      ensures !ok && layout.HasBase(start) ==> !undo.MetNonEmptyDirectory? && (undo.Undone? ==> host.tree == start)
      ensures !ok && layout.HasBase(start) ==> (undoTroubles == 0 <==> undo.Undone?)
      ensures !ok && Unobstructed() ==> host.troubles > old(host.troubles)
      ensures host.Endured()
      ensures ok ==> host.troubles == old(host.troubles)
    {
      ValidMeans();
      var guard := host.Command();
      if !guard {
        next := TurnBack(setting, at, host.tree, host.log, referenceLost);
        return false, Undone, next;
      }
      var files, dirs;
      files, dirs, ok := SnapshotShared();
      if !ok {
        next := TurnBack(setting, at, host.tree, host.log, referenceLost);
        return false, Undone, next;
      }
      ok, undo, next := WriteShared(files, dirs, at);
    }

    /** Remember the shared files and the directories. */
    method SnapshotShared() returns (files: seq<Snapshot>, dirs: seq<DirSnapshot>, ok: bool)
      requires Inputs() && host.tree == start
      modifies host`troubles
      ensures ok ==> TrueFiles(files) && TrueDirs(dirs)
      ensures !ok && Unobstructed() ==> host.troubles > old(host.troubles)
      ensures host.Endured()
      ensures ok ==> host.troubles == old(host.troubles)
    {
      if Unobstructed() {
        SharedPlaceable();
      }
      var takenDirs := SnapshotDirs(host, layout.specs);
      if takenDirs.None? {
        return [], [], false;
      }
      var takenFiles := SnapshotFiles(host, shared, false);
      if takenFiles.None? {
        return [], [], false;
      }
      SamePaths(start, shared, takenFiles.value);
      return takenFiles.value, takenDirs.value, true;
    }

    /** The installation itself: the app's own files are left alone, and all can be undone. */
    method PutShared(ghost files: seq<Snapshot>, ghost at: Standing) returns (ok: bool, ghost next: Standing)
      requires Inputs() && host.tree == start && TrueFiles(files)
      requires Tied() && Shown(at) && at.place.AtLock?
      modifies host`tree, host`log, host`troubles
      ensures Shown(next) && next.place == if ok then AtShared else BackToShared
      ensures WellFormed(host.tree) && Grown(start, host.tree, layout.Paths()) && OwnFilesBack()
      ensures AllCanRestore(host.tree, files)
      ensures ok ==> AllInstalled(host.tree, shared) && (AllInstalled(start, shared) ==> host.tree == start)
      ensures !ok && Unobstructed() ==> host.troubles > old(host.troubles)
      ensures host.Endured()
      ensures ok ==> host.troubles == old(host.troubles)
    {
      if Unobstructed() {
        SharedPlaceable();
      }
      ghost var logged := host.log;
      var results;
      results, ok := Install(host, shared);
      next := NoteShared(at, start, logged, host.tree, host.log, referenceLost, results, ok);
      AfterSharedInstall(host.tree);
    }

    /** Write the shared files; a failing installation is undone at once. */
    method WriteShared(files: seq<Snapshot>, dirs: seq<DirSnapshot>, ghost at: Standing)
      returns (ok: bool, undo: Undo, ghost next: Standing)
      requires Valid() && Fresh() && TrueFiles(files) && TrueDirs(dirs)
      requires Tied() && Shown(at) && at.place.AtLock?
      modifies this`sharedInstalled, this`fileSnapshots, this`dirSnapshots, this`undoTroubles
      modifies host`tree, host`log, host`troubles
      ensures Shown(next) && if ok then next.place.AtShared? else next.place.Ended(undo.Undone?)
      ensures ok ==> Valid() && sharedInstalled
      ensures ok ==> AllInstalled(host.tree, shared) && (AllInstalled(start, shared) ==> host.tree == start)
      ensures !ok && layout.HasBase(start) ==> !undo.MetNonEmptyDirectory? && (undo.Undone? ==> host.tree == start)
      ensures !ok && layout.HasBase(start) ==> (undoTroubles == 0 <==> undo.Undone?)
      ensures !ok && Unobstructed() ==> host.troubles > old(host.troubles)
      ensures host.Endured()
      ensures ok ==> host.troubles == old(host.troubles)
    {
      ValidMeans();
      ok, next := PutShared(files, at);
      if !ok {
        ghost var already := host.troubles;
        undo, next := RestoreShared(files, dirs, next);
        undoTroubles := host.troubles - already;
        return;
      }
      KeepShared(files, dirs);
      undo := Undone;
    }

    /** From now on a failure has the shared files to put back. */
    method KeepShared(files: seq<Snapshot>, dirs: seq<DirSnapshot>)
      requires Inputs() && Fresh() && WellFormed(host.tree) && Grown(start, host.tree, layout.Paths())
      requires OwnFilesBack() && CanPutBack(host.tree, files, dirs) && LoadedByHook()
      modifies this`sharedInstalled, this`fileSnapshots, this`dirSnapshots
      ensures Valid() && sharedInstalled
    {
      assert SharedKept(host.tree, files, dirs) && SiteKept(host.tree, siteSnapshot, enabledBefore);
      fileSnapshots, dirSnapshots, sharedInstalled := files, dirs, true;
      assert Sane();
    }

    /** Remember the app's site and whether it is enabled. */
    method SnapshotSite() returns (ok: bool)
      requires Valid() && sharedInstalled && siteSnapshot.None?
      modifies this`siteSnapshot, this`enabledBefore, host`troubles
      ensures Valid() && (ok <==> siteSnapshot.Some?)
      ensures !ok && Unobstructed() ==> host.troubles > old(host.troubles)
      ensures host.Endured()
      ensures ok ==> host.troubles == old(host.troubles)
    {
      ValidMeans();
      var snapshot, enabled;
      snapshot, enabled, ok := LookAtSite();
      if ok {
        assert SiteKept(host.tree, Some(snapshot), enabled);
        siteSnapshot, enabledBefore := Some(snapshot), enabled;
      }
    }

    method LookAtSite() returns (snapshot: Snapshot, enabled: bool, ok: bool)
      requires Inputs() && SameAt(start, host.tree, layout.available) && SameAt(start, host.tree, layout.enabled)
      modifies host`troubles
      ensures ok ==> TrueSnapshot(snapshot, layout.available) && (enabled <==> layout.enabled in start)
      ensures ok && enabled ==> start[layout.enabled].Symlink?
      ensures ok ==> CanRestore(host.tree, snapshot) && NoDirAt(host.tree, layout.enabled)
      ensures !ok && Unobstructed() ==> host.troubles > old(host.troubles)
      ensures host.Endured()
      ensures ok ==> host.troubles == old(host.troubles)
    {
      var available := SnapshotFile(host, layout.available, false);
      if available.None? {
        return Snapshot(layout.available, Option.None), false, false;
      }
      var link := host.Lstat(layout.enabled);
      if link.Failed? || (link.Found? && !link.node.Symlink?) {
        return Snapshot(layout.available, Option.None), false, false;
      }
      return available.value, link.Found?, true;
    }

    /** Install one of the app's own two files. */
    method InstallOwn(file: Staged) returns (ok: bool, ghost changed: bool)
      requires Inputs() && WellFormed(host.tree) && Grown(start, host.tree, layout.Paths())
      requires file.path == layout.available || file.path == layout.reference
      modifies host`tree, host`log, host`troubles
      ensures WellFormed(host.tree) && Grown(start, host.tree, layout.Paths())
      ensures ok ==> Installed(host.tree, file) && (Installed(old(host.tree), file) ==> host.tree == old(host.tree))
      ensures forall p :: p in layout.Paths() && p != file.path ==> SameAt(old(host.tree), host.tree, p)
      ensures !ok ==> !changed
      ensures ok && !changed ==> Installed(old(host.tree), file)
      ensures WroteOwn(old(host.tree), old(host.log), host.tree, host.log, file, changed)
      ensures forall s: Snapshot :: s.path == file.path && CanRestore(old(host.tree), s) ==> CanRestore(host.tree, s)
      ensures !ok && Unobstructed() && SameAt(start, old(host.tree), file.path) ==> host.troubles > old(host.troubles)
      ensures host.Endured()
      ensures ok ==> host.troubles == old(host.troubles)
    {
      ghost var before := host.tree;
      if Unobstructed() {
        WayStays(before, file.path);
      }
      var result, done := InstallOne(host, file);
      AfterOneInstall(before, host.tree, file);
      return done, result.changed;
    }

    /** Files that are as before can be restored as before. */
    lemma SharedStillKept(t: Tree, t': Tree, files: seq<Snapshot>, dirs: seq<DirSnapshot>)
      requires SharedKept(t, files, dirs)
      requires forall p :: p in layout.shared ==> SameAt(t, t', p)
      ensures SharedKept(t', files, dirs)
    {
      assert CanPutBack(t, files, dirs);
      forall s | s in files ensures CanRestore(t', s) {
        assert s.path in SnapshotPaths(files);
        assert SameAt(t, t', s.path);
      }
    }

    lemma SiteStillKept(t: Tree, t': Tree, snapshot: Option<Snapshot>, enabled: bool)
      requires SiteKept(t, snapshot, enabled)
      requires SameAt(t, t', layout.available) && SameAt(t, t', layout.enabled)
      ensures SiteKept(t', snapshot, enabled)
    {
    }

    method WriteSite(ghost at: Standing) returns (ok: bool, ghost next: Standing)
      requires Valid() && sharedInstalled && siteSnapshot.Some? && SameAt(start, host.tree, layout.available)
      requires Tied() && Shown(at) && at.place.AtShared?
      modifies host`tree, host`log, host`troubles
      ensures Valid()
      ensures Shown(next) && next.place == if ok then AtSite else AtSnapshot
      ensures ok ==> Installed(host.tree, site) && (Installed(old(host.tree), site) ==> host.tree == old(host.tree))
      ensures !ok && Unobstructed() ==> host.troubles > old(host.troubles)
      ensures forall p :: p in layout.Paths() && p != layout.available ==> SameAt(old(host.tree), host.tree, p)
      ensures host.Endured()
      ensures ok ==> host.troubles == old(host.troubles)
    {
      OwnPathsApart();
      ghost var before, logged := host.tree, host.log;
      ghost var changed;
      ok, changed := PutSite();
      next := NoteOwn(at, before, logged, host.tree, host.log, referenceLost, site, changed, ok);
    }

    method PutSite() returns (ok: bool, ghost changed: bool)
      requires Valid() && sharedInstalled && siteSnapshot.Some? && SameAt(start, host.tree, layout.available)
      modifies host`tree, host`log, host`troubles
      ensures Valid()
      ensures WroteOwn(old(host.tree), old(host.log), host.tree, host.log, site, changed)
      ensures if ok then changed || Installed(old(host.tree), site) else !changed
      ensures ok ==> Installed(host.tree, site) && (Installed(old(host.tree), site) ==> host.tree == old(host.tree))
      ensures !ok && Unobstructed() ==> host.troubles > old(host.troubles)
      ensures forall p :: p in layout.Paths() && p != layout.available ==> SameAt(old(host.tree), host.tree, p)
      ensures host.Endured()
      ensures ok ==> host.troubles == old(host.troubles)
    {
      ValidMeans();
      ghost var before := host.tree;
      ok, changed := InstallOwn(site);
      SharedStillKept(before, host.tree, fileSnapshots, dirSnapshots);
    }

    /** Installing one of the app's own two files leaves the other managed files alone. */
    lemma AfterOneInstall(t: Tree, t': Tree, file: Staged)
      requires Inputs() && Grown(start, t, layout.Paths()) && Installs(t, t', {file.path})
      requires file.path == layout.available || file.path == layout.reference
      ensures Grown(start, t', layout.Paths())
      ensures forall p :: p in layout.Paths() && p != file.path ==> SameAt(t, t', p)
    {
      GrownInstalls(start, t, t', layout.Paths(), {file.path});
      forall p | p in layout.Paths() && p != file.path ensures SameAt(t, t', p) {
        InstallsElsewhere(t, t', {file.path}, layout, p);
      }
    }

    /** Remember the app's reference. */
    method SnapshotReference() returns (ok: bool)
      requires Valid() && siteSnapshot.Some? && !referenceInstalled && referenceSnapshot.None? && !referenceLost
      modifies this`referenceSnapshot, host`troubles
      ensures Valid() && (ok <==> referenceSnapshot.Some?)
      ensures !ok && Unobstructed() ==> host.troubles > old(host.troubles)
      ensures host.Endured()
      ensures ok ==> host.troubles == old(host.troubles)
    {
      ValidMeans();
      ok := host.Command();
      if ok {
        referenceSnapshot := SnapshotFile(host, layout.reference, false);
        ok := referenceSnapshot.Some?;
      }
    }

    /** Register the app; a failing installation is undone at once. */
    method InstallReference(ghost at: Standing) returns (ok: bool, ghost next: Standing)
      requires Valid() && siteSnapshot.Some? && !referenceInstalled && referenceSnapshot.None? && !referenceLost
      requires Tied() && Shown(at) && at.place.AtSite?
      modifies this`referenceSnapshot, this`referenceInstalled, this`referenceLost, this`undoTroubles
      modifies host`tree, host`log, host`troubles
      ensures Shown(next) && if ok then next.place.AtReference? else next.place.AtSite? || next.place.AtRefSnapshot?
      ensures Valid() && (ok <==> referenceInstalled)
      ensures ok ==> Installed(host.tree, reference) && !referenceLost
      ensures !ok && Unobstructed() ==> host.troubles > old(host.troubles)
      ensures forall p :: p in layout.Paths() && p != layout.reference ==> SameAt(old(host.tree), host.tree, p)
      ensures host.Endured()
      ensures ok ==> host.troubles == old(host.troubles)
    {
      ok := SnapshotReference();
      if !ok {
        return false, at;
      }
      ok, next := WriteReference(at);
    }

    method WriteReference(ghost at: Standing) returns (ok: bool, ghost next: Standing)
      requires Valid() && siteSnapshot.Some? && !referenceInstalled && referenceSnapshot.Some? && !referenceLost
      requires Tied() && Shown(at) && at.place.AtSite?
      modifies this`referenceInstalled, this`referenceLost, this`undoTroubles
      modifies host`tree, host`log, host`troubles
      ensures Shown(next) && next.place == if ok then AtReference else AtRefSnapshot
      ensures Valid() && (ok <==> referenceInstalled)
      ensures ok ==> Installed(host.tree, reference) && !referenceLost
      ensures !ok && Unobstructed() ==> host.troubles > old(host.troubles)
      ensures forall p :: p in layout.Paths() && p != layout.reference ==> SameAt(old(host.tree), host.tree, p)
      ensures host.Endured()
      ensures ok ==> host.troubles == old(host.troubles)
    {
      OwnPathsApart();
      ghost var before, logged := host.tree, host.log;
      ghost var changed;
      ok, changed := PutReference();
      next := NoteOwn(at, before, logged, host.tree, host.log, referenceLost, reference, changed, ok);
      if !ok {
        label written:
        next := RestoreReference(next);
        forall p | p in layout.Paths() && p != layout.reference ensures SameAt(old(host.tree), host.tree, p) {
          assert SameAt(old@written(host.tree), host.tree, p);
        }
      }
    }

    method PutReference() returns (ok: bool, ghost changed: bool)
      requires Valid() && siteSnapshot.Some? && !referenceInstalled && referenceSnapshot.Some? && !referenceLost
      modifies this`referenceInstalled, host`tree, host`log, host`troubles
      ensures Sane() && sharedInstalled && (ok <==> referenceInstalled) &&
        (ok ==> Valid() && Installed(host.tree, reference))
      ensures WroteOwn(old(host.tree), old(host.log), host.tree, host.log, reference, changed)
      ensures if ok then changed || Installed(old(host.tree), reference) else !changed
      ensures !ok && Unobstructed() ==> host.troubles > old(host.troubles)
      ensures forall p :: p in layout.Paths() && p != layout.reference ==> SameAt(old(host.tree), host.tree, p)
      ensures host.Endured()
      ensures ok ==> host.troubles == old(host.troubles)
    {
      ValidMeans();
      ghost var before := host.tree;
      ok, changed := InstallOwn(reference);
      SharedStillKept(before, host.tree, fileSnapshots, dirSnapshots);
      referenceInstalled := ok;
    }

    /** Put one of the app's own two files back. */
    method RestoreOwn(s: Snapshot) returns (ok: bool)
      requires Inputs() && WellFormed(host.tree) && Grown(start, host.tree, layout.Paths())
      requires TrueSnapshot(s, layout.available) || TrueSnapshot(s, layout.reference)
      requires CanRestore(host.tree, s)
      modifies host`tree, host`log, host`troubles
      ensures WellFormed(host.tree) && Grown(start, host.tree, layout.Paths()) && CanRestore(host.tree, s)
      ensures forall p :: p != s.path ==> SameAt(old(host.tree), host.tree, p)
      ensures ok ==> SameAt(start, host.tree, s.path)
      ensures PutBack(old(host.tree), old(host.log), host.tree, host.log, s, ok)
      ensures host.Endured() && (!ok ==> host.troubles > old(host.troubles))
      ensures ok ==> host.troubles == old(host.troubles)
    {
      ghost var before := host.tree;
      ok := RestoreFile(host, s);
      GrownRestored(start, before, host.tree, layout.Paths(), s.path);
    }

    /** Put the app's reference back. */
    method RestoreReference(ghost at: Standing) returns (ghost next: Standing)
      requires Sane() && sharedInstalled && siteSnapshot.Some? && referenceSnapshot.Some? && !referenceLost
      requires Tied() && Shown(at) && (at.place.AtRefSnapshot? || at.place.AtReference? || at.place.AtLink?)
      modifies this`referenceInstalled, this`referenceLost, this`undoTroubles
      modifies host`tree, host`log, host`troubles
      ensures Shown(next) && next.place == if at.place.AtRefSnapshot? then AtRefSnapshot else BackToSite
      ensures Valid() && !referenceInstalled
      ensures forall p :: p != layout.reference ==> SameAt(old(host.tree), host.tree, p)
      ensures host.Endured()
    {
      ghost var before, logged, s := host.tree, host.log, referenceSnapshot.value;
      PutReferenceBack();
      next := NoteReference(at, before, logged, host.tree, host.log, false, s, !referenceLost);
    }

    method PutReferenceBack()
      requires Sane() && sharedInstalled && siteSnapshot.Some? && referenceSnapshot.Some? && !referenceLost
      modifies this`referenceInstalled, this`referenceLost, this`undoTroubles
      modifies host`tree, host`log, host`troubles
      ensures Valid() && !referenceInstalled
      ensures PutBack(old(host.tree), old(host.log), host.tree, host.log, referenceSnapshot.value, !referenceLost)
      ensures forall p :: p != layout.reference ==> SameAt(old(host.tree), host.tree, p)
      ensures host.Endured()
    {
      ghost var already := host.troubles;
      var ok := RestoreReferenceFile();
      undoTroubles := undoTroubles + host.troubles - already;
      referenceInstalled, referenceLost := false, !ok;
      assert Sane();
    }

    method RestoreReferenceFile() returns (ok: bool)
      requires Sane() && sharedInstalled && siteSnapshot.Some? && referenceSnapshot.Some?
      modifies host`tree, host`log, host`troubles
      ensures Sane() && (ok ==> SameAt(start, host.tree, layout.reference))
      ensures PutBack(old(host.tree), old(host.log), host.tree, host.log, referenceSnapshot.value, ok)
      ensures forall p :: p != layout.reference ==> SameAt(old(host.tree), host.tree, p)
      ensures host.Endured() && (!ok ==> host.troubles > old(host.troubles))
      ensures ok ==> host.troubles == old(host.troubles)
    {
      ghost var before := host.tree;
      ok := RestoreOwn(referenceSnapshot.value);
      SharedStillKept(before, host.tree, fileSnapshots, dirSnapshots);
      SiteStillKept(before, host.tree, siteSnapshot, enabledBefore);
    }

    /** The app's reference is withdrawn again. */
    method Unregister(ghost at: Standing) returns (ghost next: Standing)
      requires Valid() && siteSnapshot.Some? && referenceInstalled && !referenceLost
      requires Tied() && Shown(at) && (at.place.AtReference? || at.place.AtLink?)
      modifies this`referenceInstalled, this`referenceLost, this`undoTroubles
      modifies host`tree, host`log, host`troubles
      ensures Shown(next) && next.place.BackToSite?
      ensures Valid() && !referenceInstalled
      ensures host.Endured()
    {
      ValidMeans();
      next := RestoreReference(at);
    }

    lemma OwnPathsApart()
      requires Valid()
      ensures layout.available != layout.enabled && layout.available != layout.reference
      ensures layout.enabled != layout.reference && layout.enabled !in layout.shared &&
        layout.reference !in layout.shared
      ensures site.path == layout.available && reference.path == layout.reference && Inputs()
    {
      ValidMeans();
    }

    lemma CanStillLink(t: Tree)
      requires Inputs() && Unobstructed() && Grown(start, t, layout.Paths()) && SameAt(start, t, layout.enabled)
      ensures layout.enabled != [] && IsDir(t, Parent(layout.enabled))
      ensures layout.enabled in t ==> t[layout.enabled] == Symlink(layout.available)
    {
      assert Above(Parent(layout.enabled), layout.enabled);
      assert SameAt(start, t, Parent(layout.enabled));
    }

    method MakeLink(ghost at: Standing) returns (ok: bool, ghost next: Standing)
      requires Valid() && siteSnapshot.Some? && SameAt(start, host.tree, layout.enabled)
      requires Tied() && Shown(at) && at.place.AtReference?
      modifies host`tree, host`log, host`troubles
      ensures Shown(next) && next.place == if ok then AtLink else AtReference
      ensures Valid()
      ensures ok ==> layout.enabled in host.tree && host.tree[layout.enabled] == Symlink(layout.available)
      ensures forall p :: p != layout.enabled ==> SameAt(old(host.tree), host.tree, p)
      ensures !ok && Unobstructed() ==> host.troubles > old(host.troubles)
      ensures host.Endured()
      ensures ok ==> host.troubles == old(host.troubles)
    {
      ghost var before, logged := host.tree, host.log;
      ok := PutLink();
      next := at;
      if ok {
        next := NoteLink(at, before, logged, referenceLost);
      }
    }

    method PutLink() returns (ok: bool)
      requires Valid() && siteSnapshot.Some? && SameAt(start, host.tree, layout.enabled)
      modifies host`tree, host`log, host`troubles
      ensures Valid()
      ensures !ok ==> host.tree == old(host.tree)
      ensures ok ==> NoDirAt(old(host.tree), layout.enabled)
      ensures ok ==> host.tree == old(host.tree)[layout.enabled := Symlink(layout.available)]
      ensures host.log == Logged(old(host.log), Change(layout.enabled, Some(Symlink(layout.available))), ok)
      ensures !ok && Unobstructed() ==> host.troubles > old(host.troubles)
      ensures host.Endured()
      ensures ok ==> host.troubles == old(host.troubles)
    {
      ValidMeans();
      ghost var before := host.tree;
      if Unobstructed() {
        CanStillLink(before);
      }
      ok := host.LinkSite(layout.available, layout.enabled);
      if ok {
        LinkChanged(before, host.tree);
        SiteKeptWithLink(before, host.tree, siteSnapshot, enabledBefore);
      }
    }

    lemma SiteKeptWithLink(t: Tree, t': Tree, snapshot: Option<Snapshot>, enabled: bool)
      requires SiteKept(t, snapshot, enabled) && snapshot.Some? && SameAt(t, t', layout.available)
      requires NoDirAt(t', layout.enabled) && (enabled ==> SameAt(t, t', layout.enabled))
      ensures SiteKept(t', snapshot, enabled)
    {
    }

    /** A change of the link leaves everything else as it can be put back. */
    lemma LinkChanged(t: Tree, t': Tree)
      requires Inputs() && Grown(start, t, layout.Paths()) && forall p :: p != layout.enabled ==> SameAt(t, t', p)
      ensures Grown(start, t', layout.Paths())
      ensures forall files, dirs :: SharedKept(t, files, dirs) ==> SharedKept(t', files, dirs)
      ensures SameAt(t, t', layout.available) && SameAt(t, t', layout.reference)
    {
      GrownRestored(start, t, t', layout.Paths(), layout.enabled);
      forall files, dirs | SharedKept(t, files, dirs) ensures SharedKept(t', files, dirs) {
        SharedStillKept(t, t', files, dirs);
      }
    }

    /** Enable the site: check who owns the link, make it, and test the configuration. */
    method EnableSite(ghost at: Standing) returns (ok: bool, ghost next: Standing)
      requires Valid() && siteSnapshot.Some? && SameAt(start, host.tree, layout.enabled)
      requires Tied() && Shown(at) && at.place.AtReference?
      modifies host`tree, host`log, host`troubles, host`accepted
      ensures Shown(next) && (next.place.AtLink? || (!ok && next.place.AtReference?))
      ensures Valid()
      ensures ok ==> host.accepted == Some(host.tree)
      ensures !ok && Unobstructed() ==> host.troubles > old(host.troubles)
      ensures ok ==> layout.enabled in host.tree && host.tree[layout.enabled] == Symlink(layout.available)
      ensures forall p :: p != layout.enabled ==> SameAt(old(host.tree), host.tree, p)
      ensures host.Endured()
      ensures ok ==> host.troubles == old(host.troubles)
    {
      next := at;
      ok := host.Command();
      if !ok {
        return;
      }
      ok, next := MakeLink(at);
      if !ok {
        return;
      }
      ok := host.TestNginx();
    }

    /** Remove the link that was not there at the start. */
    method RemoveLink(ghost at: Standing) returns (ok: bool, ghost next: Standing)
      requires Valid() && siteSnapshot.Some? && !enabledBefore
      requires Tied() && Shown(at) && at.place.BackToLink?
      modifies host`tree, host`log, host`troubles
      ensures Shown(next) && next.place == if ok then BackToShared else BackToLink
      ensures Valid()
      ensures ok ==> SameAt(start, host.tree, layout.enabled)
      ensures SameAt(old(host.tree), host.tree, layout.available)
      ensures host.Endured() && (!ok ==> host.troubles > old(host.troubles))
      ensures ok ==> host.troubles == old(host.troubles)
    {
      ghost var before, logged := host.tree, host.log;
      ok := DropLink();
      next := at;
      if ok {
        next := NoteUnlink(at, before, logged, referenceLost, false);
      }
    }

    method DropLink() returns (ok: bool)
      requires Valid() && siteSnapshot.Some? && !enabledBefore
      modifies host`tree, host`log, host`troubles
      ensures Valid()
      ensures !ok ==> host.tree == old(host.tree)
      ensures ok ==> NoDirAt(old(host.tree), layout.enabled) && layout.enabled !in start
      ensures ok ==> host.tree == old(host.tree) - {layout.enabled}
      ensures layout.available != layout.enabled
      ensures host.log == Logged(old(host.log), Change(layout.enabled, None), ok)
      ensures host.Endured() && (!ok ==> host.troubles > old(host.troubles))
      ensures ok ==> host.troubles == old(host.troubles)
    {
      ValidMeans();
      ghost var before := host.tree;
      ok := host.Remove(layout.enabled);
      LinkChanged(before, host.tree);
      SiteKeptWithLink(before, host.tree, siteSnapshot, enabledBefore);
    }

    /** Put the app's site back, and remove the link if there was none. */
    method RestoreSite(ghost at: Standing) returns (ok: bool, ghost next: Standing)
      requires Valid() && siteSnapshot.Some?
      requires Tied() && Shown(at) && at.place.BackToSite?
      modifies host`tree, host`log, host`troubles
      ensures Shown(next) && next.place == if ok then BackToShared else Stuck
      ensures Valid()
      ensures ok ==> SameAt(start, host.tree, layout.available) && SameAt(start, host.tree, layout.enabled)
      ensures host.Endured() && (!ok ==> host.troubles > old(host.troubles))
      ensures ok ==> host.troubles == old(host.troubles)
    {
      ValidMeans();
      ok, next := RestoreSiteFile(at);
      if ok && !enabledBefore {
        ok, next := RemoveLink(next);
      } else if ok {
        next := NoteUnlink(next, host.tree, host.log, referenceLost, true);
      }
      if !ok {
        next := StopHere(setting, next, host.tree, host.log, referenceLost);
      }
    }

    method RestoreSiteFile(ghost at: Standing) returns (ok: bool, ghost next: Standing)
      requires Valid() && siteSnapshot.Some?
      requires Tied() && Shown(at) && at.place.BackToSite?
      modifies host`tree, host`log, host`troubles
      ensures Shown(next) && next.place == if ok then BackToLink else BackToSite
      ensures Valid()
      ensures ok ==> SameAt(start, host.tree, layout.available)
      ensures SameAt(old(host.tree), host.tree, layout.enabled)
      ensures host.Endured() && (!ok ==> host.troubles > old(host.troubles))
      ensures ok ==> host.troubles == old(host.troubles)
    {
      ValidMeans();
      ghost var before, logged := host.tree, host.log;
      ok := RestoreOwn(siteSnapshot.value);
      next := NoteSite(at, before, logged, host.tree, host.log, referenceLost, siteSnapshot.value, ok);
      SharedStillKept(before, host.tree, fileSnapshots, dirSnapshots);
      assert SameAt(before, host.tree, layout.enabled) && SameAt(before, host.tree, layout.reference);
    }

    /** Register the app and switch its site on. */
    method RegisterAndEnable(ghost at: Standing) returns (ok: bool, ghost next: Standing)
      requires Valid() && siteSnapshot.Some? && !sharedCommitted && !reloadAttempted
      requires SameAt(start, host.tree, layout.enabled)
      requires !referenceInstalled && referenceSnapshot.None? && !referenceLost
      requires Tied() && Shown(at) && at.place.AtSite?
      modifies this`referenceSnapshot, this`referenceInstalled, this`referenceLost, this`undoTroubles
      modifies host`tree, host`log, host`troubles, host`accepted
      ensures Shown(next) && if ok then next.place.AtLink? else next.place.Inactive()
      ensures Valid() && (ok <==> referenceInstalled)
      ensures ok ==> Installed(host.tree, reference) && !referenceLost
      ensures !ok && Unobstructed() ==> host.troubles > old(host.troubles)
      ensures ok ==> host.accepted == Some(host.tree)
      ensures ok ==> layout.enabled in host.tree && host.tree[layout.enabled] == Symlink(layout.available)
      ensures ok ==> forall p :: p in layout.shared || p == layout.available ==> SameAt(old(host.tree), host.tree, p)
      ensures host.Endured()
      ensures ok ==> host.troubles == old(host.troubles)
    {
      OwnPathsApart();
      ok, next := InstallReference(at);
      if !ok {
        return;
      }
      label registered:
      assert layout.enabled in layout.Paths() && SameAt(old(host.tree), host.tree, layout.enabled);
      ok, next := EnableSite(next);
      assert SameAt(old@registered(host.tree), host.tree, layout.reference);
      if !ok {
        next := Unregister(next);
        return;
      }
      forall p | p in layout.shared || p == layout.available ensures SameAt(old(host.tree), host.tree, p) {
        assert SameAt(old(host.tree), old@registered(host.tree), p);
        assert SameAt(old@registered(host.tree), host.tree, p);
      }
    }

    /** The reload that commits. */
    method ReloadAndCommit() returns (ok: bool)
      requires Valid() && referenceInstalled && !sharedCommitted && !reloadAttempted
      requires host.accepted == Some(host.tree)
      modifies this`reloadAttempted, this`sharedCommitted, host`loaded, host`troubles, host`blindReloads
      ensures Valid() && (ok <==> sharedCommitted) && (ok ==> host.loaded == host.tree)
      ensures !ok ==> host.troubles > old(host.troubles)
      ensures host.Endured()
      ensures ok ==> host.troubles == old(host.troubles)
      ensures host.blindReloads == old(host.blindReloads)
    {
      ValidMeans();
      reloadAttempted := true;
      ok := host.ReloadNginx();
      sharedCommitted := ok;
    }

    /** Clear the listeners that stand in the way, and let Nginx read what is on disk. */
    method ClearAndReload() returns (ok: bool)
      requires Valid() && referenceInstalled && !sharedCommitted && !reloadAttempted
      requires host.accepted == Some(host.tree)
      modifies this`reloadAttempted, this`sharedCommitted, host`loaded, host`troubles, host`blindReloads
      ensures Valid() && (ok <==> sharedCommitted) && (ok ==> host.loaded == host.tree)
      ensures !ok ==> host.troubles > old(host.troubles)
      ensures host.Endured()
      ensures ok ==> host.troubles == old(host.troubles)
      ensures host.blindReloads == old(host.blindReloads)
    {
      ok := host.Command();
      if ok {
        ok := ReloadAndCommit();
      }
    }

    /** Register, enable and let Nginx read it: the commit. */
    method Activate(ghost at: Standing) returns (ok: bool, ghost next: Standing)
      requires Valid() && siteSnapshot.Some? && !sharedCommitted && !reloadAttempted
      requires SameAt(start, host.tree, layout.enabled)
      requires !referenceInstalled && referenceSnapshot.None? && !referenceLost
      requires Tied() && Shown(at) && at.place.AtSite?
      modifies this`referenceSnapshot, this`referenceInstalled, this`referenceLost, this`undoTroubles
      modifies this`reloadAttempted, this`sharedCommitted
      modifies host`tree, host`log, host`loaded, host`troubles, host`accepted, host`blindReloads
      ensures Shown(next) && if ok then next.place.AtCommit? else next.place.Inactive()
      ensures Valid() && (ok <==> sharedCommitted) && (ok <==> referenceInstalled)
      ensures !ok && Unobstructed() ==> host.troubles > old(host.troubles)
      ensures ok ==> Installed(host.tree, reference) && host.loaded == host.tree
      ensures ok ==> layout.enabled in host.tree && host.tree[layout.enabled] == Symlink(layout.available)
      ensures ok ==> forall p :: p in layout.shared || p == layout.available ==> SameAt(old(host.tree), host.tree, p)
      ensures host.Endured()
      ensures ok ==> host.troubles == old(host.troubles)
      ensures host.blindReloads == old(host.blindReloads)
    {
      ok, next := RegisterAndEnable(at);
      if !ok {
        return;
      }
      ok := ClearAndReload();
      if ok {
        next := GoOn(setting, next, host.tree, host.log, referenceLost);
      } else {
        next := Unregister(next);
      }
    }

    /** Put the site, the shared files and the directories back. */
    method UndoFiles(ghost at: Standing) returns (undo: Undo, ghost failed: nat, ghost next: Standing)
      requires Valid() && sharedInstalled && !referenceInstalled
      requires Tied() && Shown(at) && at.place.Failing(siteSnapshot.Some?)
      modifies host`tree, host`log, host`troubles
      ensures Shown(next) && next.place.Ended(undo.Undone?)
      ensures layout.HasBase(start) && !referenceLost ==>
        && !undo.MetNonEmptyDirectory? && (undo.Undone? ==> host.tree == start)
        && (failed == 0 ==> undo.Undone?)
      ensures undo.Undone? ==> failed == 0
      ensures host.troubles == old(host.troubles) + failed && host.Endured()
    {
      ghost var already := host.troubles;
      failed := 0;
      next := TurnAround(setting, at, host.tree, host.log, referenceLost, siteSnapshot.Some?);
      if siteSnapshot.Some? {
        var ok;
        ok, next := RestoreSite(next);
        failed := host.troubles - already;
        if !ok {
          return UndoFailed, failed, next;
        }
      }
      ValidMeans();
      assert CanPutBack(host.tree, fileSnapshots, dirSnapshots);
      undo, next := RestoreShared(fileSnapshots, dirSnapshots, next);
      failed := host.troubles - already;
    }

    /** How the record ends: committed, or rolled back, or cut short while something was being undone. */
    predicate EndsWell(r: Result, at: Standing) {
      if r.Stopped? then at.place.Ended(r.undo.Undone?) else at.place.AtCommit?
    }

    /** Stop: before the commit everything is put back, after it nothing is. */
    method Fail(ghost at: Standing) returns (r: Result, ghost next: Standing)
      requires Valid() && sharedInstalled && (referenceInstalled ==> sharedCommitted)
      requires Tied() && Shown(at)
      requires if sharedCommitted then at.place.AtCommit? else at.place.Failing(siteSnapshot.Some?)
      modifies this`sharedInstalled, this`undoTroubles
      modifies host`tree, host`log, host`loaded, host`units, host`troubles, host`accepted, host`blindReloads
      ensures Shown(next) && EndsWell(r, next)
      ensures old(sharedCommitted) ==>
        && r.FailedAfterCommit? && host.tree == old(host.tree) && host.loaded == old(host.loaded)
        && host.units == old(host.units)
      ensures !old(sharedCommitted) ==> r.Stopped? && StoppedWell(r)
      ensures host.steady ==> undoTroubles == 0
      ensures host.Endured()
      ensures host.blindReloads == old(host.blindReloads)
    {
      ValidMeans();
      if sharedCommitted {
        return FailedAfterCommit, at;
      }
      var undo;
      ghost var failed;
      undo, failed, next := UndoFiles(at);
      undoTroubles := undoTroubles + failed;
      if !undo.Undone? {
        return Stopped(undo, false), next;
      }
      ghost var already := host.troubles;
      var active := ActivateRestored(host, reloadAttempted);
      undoTroubles := undoTroubles + host.troubles - already;
      sharedInstalled := false;
      return Stopped(Undone, active), next;
    }

    /** What a deploy promises that stops before its commit: everything is undone, and is active again,
        exactly if none of the commands that undo its steps fails; and what it reports about the
        rollback is true. */
    ghost predicate StoppedWell(r: Result)
      requires r.Stopped?
      reads this, host`tree, host`loaded, host`units
    {
      layout.HasBase(start) ==>
        && (undoTroubles == 0 <==> !referenceLost && r == Stopped(Undone, true))
        && (r == Stopped(Undone, true) ==> host.units == host.tree || host.units == unitsAtStart)
        && (!referenceLost ==> !r.undo.MetNonEmptyDirectory? && (r.undo.Undone? ==> host.tree == start))
        && (!referenceLost && r == Stopped(Undone, true) && loadedAtStart == start ==>
              (host.loaded == start <==> reloadAttempted || !hookLoaded || NothingNew()))
        && (r == Stopped(Undone, true) && !reloadAttempted ==> LoadedByHook())
    }

    /** Everything the deploy is for is in place, there is a certificate, and systemd and Nginx have read
        what concerns them. */
    ghost predicate Live()
      reads `issued, host`tree, host`loaded, host`units
    {
      && AllInstalled(host.tree, shared) && Installed(host.tree, site) && Installed(host.tree, reference)
      && layout.enabled in host.tree && host.tree[layout.enabled] == Symlink(layout.available)
      && host.loaded == host.tree && AllInstalled(host.units, shared) && issued
    }

    /** Failures that matter: all but those of hooks that lego did not mind. */
    ghost function Grave(): int
      reads `hookTroubles, host`troubles
    {
      host.troubles - hookTroubles
    }

    /** What the outcome says about failing commands. */
    twostate predicate Accounted(r: Result)
      reads `hookTroubles, host`troubles, host`timers
    {
      && (r.Deployed? ==> Grave() == old(Grave()) && layout.timer in host.timers && !refused)
      && (r.FailedAfterCommit? ==> Grave() > old(Grave()) && !refused)
      && (r.Stopped? && Unobstructed() ==> refused || Grave() > old(Grave()))
    }

    lemma StillInstalled(t: Tree, t': Tree)
      requires Inputs() && AllInstalled(t, shared)
      requires forall p :: p in layout.shared ==> SameAt(t, t', p)
      ensures AllInstalled(t', shared)
    {
      forall f <- shared ensures Installed(t', f) {
        assert f.path in Paths(shared);
        assert Installed(t, f) && SameAt(t, t', f.path);
      }
    }

    /** One deploy.  Stopped before its commit, it leaves shared files, site, link, reference and
        directories as they were, if the commands that undo its steps succeed; from the commit on,
        nothing is undone.  It is carried through only if no command fails that matters and the
        certificate is not refused, and only one of these, or something in the way, keeps it from
        that.  Nginx is never reloaded blindly. */
    method Run(ghost at: Standing) returns (r: Result, ghost next: Standing)
      requires Valid() && Fresh() && Tied() && Shown(at) && at.place.AtLock? && host.units == unitsAtStart
      modifies this
      modifies host`tree, host`log, host`loaded, host`units, host`timers, host`troubles, host`accepted
      modifies host`blindReloads
      ensures Shown(next) && EndsWell(r, next) && Accounted(r)
      ensures r.Deployed? || r.FailedAfterCommit? ==> Live()
      ensures r.Stopped? ==> StoppedWell(r)
      ensures Unobstructed() && refused && host.steady ==> StopsAtTheCertificate()
      ensures hookTroubles <= 1
      ensures host.Endured()
      ensures host.blindReloads == old(host.blindReloads)
    {
      ValidMeans();
      var ok, undo;
      ok, undo, next := InstallShared(at);
      if !ok {
        return Stopped(undo, true), next;
      }
      r, next := Proceed(next);
    }

    /** From the shared files on. */
    method Proceed(ghost at: Standing) returns (r: Result, ghost next: Standing)
      requires Valid() && sharedInstalled && siteSnapshot.None? && referenceSnapshot.None? && !referenceInstalled
      requires !sharedCommitted && !reloadAttempted && !referenceLost && !hookLoaded && hookTroubles == 0
      requires AllInstalled(host.tree, shared) && (AllInstalled(start, shared) ==> host.tree == start)
      requires Tied() && Shown(at) && at.place.AtShared?
      modifies this
      modifies host`tree, host`log, host`loaded, host`units, host`timers, host`troubles, host`accepted
      modifies host`blindReloads
      ensures Shown(next) && EndsWell(r, next) && Accounted(r)
      ensures r.Deployed? || r.FailedAfterCommit? ==> Live()
      ensures r.Stopped? ==> StoppedWell(r)
      ensures Unobstructed() && refused && host.steady ==> StopsAtTheCertificate()
      ensures hookTroubles <= 1
      ensures host.Endured()
      ensures host.blindReloads == old(host.blindReloads)
    {
      var ok;
      ok, next := PrepareSite(at);
      if !ok {
        r, next := Fail(next);
        return;
      }
      r, next := Finish(next);
    }

    /** A steady deploy whose certificate is refused. */
    ghost predicate StopsAtTheCertificate()
      reads `reloadAttempted, `undoTroubles, `hookLoaded
    {
      !reloadAttempted && undoTroubles == 0 && (certified <==> hookLoaded)
    }

    /** The app's own site. */
    method PlaceSite(ghost at: Standing) returns (ok: bool, ghost next: Standing)
      requires Valid() && sharedInstalled && siteSnapshot.None? && AllInstalled(host.tree, shared)
      requires AllInstalled(start, shared) ==> host.tree == start
      requires Tied() && Shown(at) && at.place.AtShared?
      modifies this`siteSnapshot, this`enabledBefore, host`tree, host`log, host`troubles
      ensures Shown(next) && if ok then next.place.AtSite? else next.place.Failing(siteSnapshot.Some?)
      ensures Valid() && (ok ==> siteSnapshot.Some? && Prepared(host.tree))
      ensures !ok && Unobstructed() ==> host.troubles > old(host.troubles)
      ensures host.Endured()
      ensures ok ==> host.troubles == old(host.troubles)
    {
      ValidMeans();
      ok := SnapshotSite();
      if !ok {
        return false, at;
      }
      ghost var before := host.tree;
      ok, next := WriteSite(at);
      if !ok {
        return;
      }
      StillInstalled(before, host.tree);
      assert SameAt(before, host.tree, layout.enabled);
    }

    /** The site, and everything else that comes before the activation. */
    method PrepareSite(ghost at: Standing) returns (ok: bool, ghost next: Standing)
      requires Valid() && sharedInstalled && siteSnapshot.None? && AllInstalled(host.tree, shared)
      requires !reloadAttempted && !hookLoaded && (AllInstalled(start, shared) ==> host.tree == start)
      requires Tied() && Shown(at) && at.place.AtShared?
      modifies this`siteSnapshot, this`enabledBefore, this`hookLoaded, this`hookTroubles, this`issued
      modifies host`tree, host`log, host`loaded, host`units, host`troubles, host`accepted, host`blindReloads
      ensures Shown(next) && if ok then next.place.AtSite? else next.place.Failing(siteSnapshot.Some?)
      ensures Valid() && (ok ==> siteSnapshot.Some? && Prepared(host.tree))
      ensures ok ==> AllInstalled(host.units, shared) && issued
      ensures !ok && Unobstructed() ==> refused || Grave() > old(Grave())
      ensures hookTroubles <= old(hookTroubles) + 1
      ensures refused ==> !ok
      ensures host.steady && certified && Unobstructed() ==> hookLoaded
      ensures refused && !certified ==> !hookLoaded
      ensures host.Endured() && host.blindReloads == old(host.blindReloads)
      ensures ok ==> Grave() == old(Grave())
    {
      ok, next := PlaceSite(at);
      if !ok {
        return;
      }
      // The other runtime files.
      ok := host.Command();
      if !ok {
        return;
      }
      ok := host.DaemonReload();
      if !ok {
        return;
      }
      // The migration of lego's storage.
      ok := host.Command();
      if ok {
        ok := IssueCertificate();
      }
    }

    /** The certificate hook, and what it has loaded. */
    method RunHook() returns (ok: bool)
      requires Valid() && !reloadAttempted && Prepared(host.tree)
      modifies this`hookLoaded, host`loaded, host`troubles, host`accepted, host`blindReloads
      ensures Valid() && (host.steady ==> ok) && (ok || old(hookLoaded) ==> hookLoaded)
      ensures !ok ==> host.troubles == old(host.troubles) + 1
      ensures host.Endured() && host.blindReloads == old(host.blindReloads)
      ensures ok ==> host.troubles == old(host.troubles)
    {
      ValidMeans();
      ghost var read;
      ok, read := CertificateHook(host);
      hookLoaded := hookLoaded || read;
    }

    /** Obtain or renew the certificate by DNS-01.  The hook runs at once if there is a certificate, and
        again for a new one. */
    method IssueCertificate() returns (ok: bool)
      requires Valid() && !reloadAttempted && Prepared(host.tree)
      modifies this`hookLoaded, this`hookTroubles, this`issued
      modifies host`loaded, host`troubles, host`accepted, host`blindReloads
      ensures Valid() && (ok ==> issued)
      ensures refused ==> !ok
      ensures hookTroubles <= old(hookTroubles) + 1
      ensures host.steady && certified ==> hookLoaded
      ensures refused && !certified ==> hookLoaded == old(hookLoaded)
      ensures !ok ==> refused || Grave() > old(Grave())
      ensures host.Endured() && host.blindReloads == old(host.blindReloads)
      ensures ok ==> Grave() == old(Grave())
    {
      if certified {
        ok := RunHook();
        if !ok {
          return;
        }
      }
      if refused {
        return false;
      }
      ok := RunLego();
    }

    /** Lego itself.  It may find a new certificate due, and then runs the hook. */
    method RunLego() returns (ok: bool)
      requires Valid() && !reloadAttempted && Prepared(host.tree)
      modifies this`hookLoaded, this`hookTroubles, this`issued
      modifies host`loaded, host`troubles, host`accepted, host`blindReloads
      ensures Valid() && (old(hookLoaded) ==> hookLoaded) && (ok ==> issued)
      ensures hookTroubles <= old(hookTroubles) + 1
      ensures !ok ==> Grave() > old(Grave())
      ensures host.Endured() && host.blindReloads == old(host.blindReloads)
      ensures ok ==> Grave() == old(Grave())
    {
      var renewed: bool := *;
      if renewed {
        RunRenewalHook();
      }
      ok := host.Command();
      if ok {
        NoteIssued();
      }
    }

    /** The hook of a new certificate: lego does not mind its failure. */
    method RunRenewalHook()
      requires Valid() && !reloadAttempted && Prepared(host.tree)
      modifies this`hookLoaded, this`hookTroubles, host`loaded, host`troubles, host`accepted, host`blindReloads
      ensures Valid() && (old(hookLoaded) ==> hookLoaded)
      ensures hookTroubles <= old(hookTroubles) + 1 && Grave() == old(Grave())
      ensures host.Endured() && host.blindReloads == old(host.blindReloads)
    {
      var ok := RunHook();
      NoteHookTroubles(if ok then 0 else 1);
    }

    ghost method NoteHookTroubles(more: nat)
      requires Valid()
      modifies this`hookTroubles
      ensures Valid() && hookTroubles == old(hookTroubles) + more
    {
      ValidMeans();
      hookTroubles := hookTroubles + more;
      assert Consistent(host.tree);
    }

    ghost method NoteIssued()
      requires Valid()
      modifies this`issued
      ensures Valid() && issued
    {
      ValidMeans();
      issued := true;
      assert Consistent(host.tree);
    }

    /** After the commit: the services, the renewal of the certificate and the refresh of the profile. */
    method StartServices() returns (ok: bool)
      modifies host`timers, host`troubles
      ensures ok ==> layout.timer in host.timers && host.troubles == old(host.troubles)
      ensures host.Endured() && (!ok ==> host.troubles > old(host.troubles))
    {
      ok := host.Command();
      if ok {
        ok := host.StartTimer(layout.timer);
      }
    }

    /** The activation and what comes after it. */
    method Finish(ghost at: Standing) returns (r: Result, ghost next: Standing)
      requires Valid() && siteSnapshot.Some? && !sharedCommitted && !reloadAttempted
      requires !referenceInstalled && referenceSnapshot.None? && !referenceLost
      requires Prepared(host.tree) && AllInstalled(host.units, shared) && issued && !refused
      requires Tied() && Shown(at) && at.place.AtSite?
      modifies this`referenceSnapshot, this`referenceInstalled, this`referenceLost, this`undoTroubles
      modifies this`reloadAttempted, this`sharedCommitted, this`sharedInstalled
      modifies host`tree, host`log, host`loaded, host`units, host`timers, host`troubles, host`accepted
      modifies host`blindReloads
      ensures Shown(next) && EndsWell(r, next) && Accounted(r)
      ensures r.Deployed? || r.FailedAfterCommit? ==> Live()
      ensures r.Stopped? ==> StoppedWell(r)
      ensures host.Endured()
      ensures host.blindReloads == old(host.blindReloads)
    {
      ValidMeans();
      assert sharedInstalled;
      var ok;
      ok, next := GoLive(at);
      if ok {
        r, next := AfterCommit(next);
      } else {
        r, next := Fail(next);
      }
    }

    /** The commit, and what is there then. */
    method GoLive(ghost at: Standing) returns (ok: bool, ghost next: Standing)
      requires Valid() && siteSnapshot.Some? && !sharedCommitted && !reloadAttempted
      requires !referenceInstalled && referenceSnapshot.None? && !referenceLost
      requires Prepared(host.tree) && AllInstalled(host.units, shared) && issued
      requires Tied() && Shown(at) && at.place.AtSite?
      modifies this`referenceSnapshot, this`referenceInstalled, this`referenceLost, this`undoTroubles
      modifies this`reloadAttempted, this`sharedCommitted
      modifies host`tree, host`log, host`loaded, host`troubles, host`accepted, host`blindReloads
      ensures Shown(next) && if ok then next.place.AtCommit? else next.place.Inactive()
      ensures Valid() && (ok <==> sharedCommitted) && (ok <==> referenceInstalled)
      ensures ok ==> Live() && host.troubles == old(host.troubles)
      ensures !ok && Unobstructed() ==> host.troubles > old(host.troubles)
      ensures host.Endured()
      ensures host.blindReloads == old(host.blindReloads)
    {
      ValidMeans();
      ghost var before := host.tree;
      ok, next := Activate(at);
      if ok {
        StillInstalled(before, host.tree);
        assert SameAt(before, host.tree, layout.available);
      }
    }

    /** From the commit on nothing is undone. */
    method AfterCommit(ghost at: Standing) returns (r: Result, ghost next: Standing)
      requires Valid() && sharedInstalled && sharedCommitted && Live() && !refused
      requires Tied() && Shown(at) && at.place.AtCommit?
      modifies this`sharedInstalled, this`undoTroubles
      modifies host`tree, host`log, host`loaded, host`units, host`timers, host`troubles, host`accepted
      modifies host`blindReloads
      ensures Shown(next) && EndsWell(r, next) && Accounted(r)
      ensures !r.Stopped? && Live()
      ensures host.Endured()
      ensures host.blindReloads == old(host.blindReloads)
    {
      var ok := StartServices();
      if ok {
        return Deployed, at;
      }
      r, next := Fail(at);
    }
  }

  /** Copy the certificate, and let Nginx read it with whatever else is on disk; `read` says whether
      it did. */
  method CertificateHook(host: Host) returns (ok: bool, ghost read: bool)
    modifies host`loaded, host`troubles, host`accepted, host`blindReloads
    ensures host.loaded == if read then host.tree else old(host.loaded)
    ensures (ok ==> read) && (host.steady ==> ok)
    ensures !ok ==> host.troubles == old(host.troubles) + 1
    ensures host.Endured() && host.blindReloads == old(host.blindReloads)
    ensures ok ==> host.troubles == old(host.troubles)
  {
    read := false;
    ok := host.Command();
    if !ok {
      return;
    }
    ok := host.TestNginx();
    if !ok {
      return;
    }
    ok := host.ReloadNginx();
    read := host.loaded == host.tree;
  }

  /** Managed files installed on top of a grown tree grow it further. */
  lemma GrownInstalls(start: Tree, t: Tree, t': Tree, paths: set<Path>, more: set<Path>)
    requires Grown(start, t, paths) && Installs(t, t', more) && more <= paths
    ensures Grown(start, t', paths)
  {
    forall p | p in start && p !in paths ensures SameAt(start, t', p) {
      assert SameAt(start, t, p);
    }
  }

  /** So does any other change of a single managed path. */
  lemma GrownRestored(start: Tree, t: Tree, t': Tree, paths: set<Path>, p: Path)
    requires Grown(start, t, paths) && p in paths && forall q :: q != p ==> SameAt(t, t', q)
    ensures Grown(start, t', paths)
  {
    forall q | q in start && q !in paths ensures SameAt(start, t', q) {
      assert SameAt(start, t, q) && SameAt(t, t', q);
    }
    forall q | q in t' && q !in start && q !in paths ensures t'[q].Dir? && exists f :: f in paths && Above(q, f) {
      assert SameAt(t, t', q);
    }
  }

  /** Managed files not being installed keep their state: no managed file lies above another. */
  lemma InstallsElsewhere(t: Tree, t': Tree, more: set<Path>, layout: Layout, p: Path)
    requires layout.Sound() && Installs(t, t', more) && more <= layout.Paths() && p in layout.Paths() && p !in more
    ensures SameAt(t, t', p)
  {
  }

  /** Once every managed path is as it was, only new directories from the removal list remain. */
  lemma OnlyDirsRemain(start: Tree, t: Tree, layout: Layout)
    requires layout.Sound() && layout.HasBase(start) && Grown(start, t, layout.Paths())
    requires forall p :: p in layout.Paths() ==> SameAt(start, t, p)
    ensures OnlyNewDirs(start, t, layout.specs)
  {
    forall p | p in start ensures SameAt(start, t, p) {
    }
    forall p | p in t && p !in start ensures t[p].Dir? && p in layout.specs {
      assert p !in layout.Paths() by {
        assert p in layout.Paths() ==> SameAt(start, t, p);
      }
      var f :| f in layout.Paths() && Above(p, f);
      assert p in layout.base || p in layout.specs;
      assert p in layout.base ==> IsDir(start, p);
    }
  }

  /** One deploy of `app` under `profile`, at the paths the tool uses, with the record of its steps:
      `at` has every change of a file or link that the host has logged, from the lock to the end,
      with the step that makes it. */
  method DeployTracked(host: Host, profile: string, app: string, shared: seq<Staged>, site: Staged,
                       reference: Staged, certified: bool, refused: bool, ghost includes: Includes)
    returns (deploy: Deploy, r: Result, ghost at: Standing)
    requires WellFormed(host.tree) && Distinct(shared) && Paths(shared) == SharedPaths(profile)
    requires site.path == SiteAvailable(app) && reference.path == ReferencePath(profile, app)
    requires includes(ContentOf(site)) == Some(profile)
    modifies host`tree, host`log, host`loaded, host`units, host`timers, host`troubles, host`accepted
    modifies host`blindReloads
    ensures fresh(deploy) && deploy.host == host && deploy.layout == LayoutOf(profile, app)
    ensures deploy.shared == shared && deploy.site == site && deploy.reference == reference
    ensures deploy.start == old(host.tree) && deploy.loadedAtStart == old(host.loaded)
    ensures deploy.unitsAtStart == old(host.units)
    ensures deploy.certified == certified && deploy.refused == refused
    ensures deploy.setting == SettingOf(profile, app, includes, shared, site, reference, old(host.tree), old(host.log))
    ensures deploy.Shown(at) && deploy.EndsWell(r, at)
    ensures r.Deployed? || r.FailedAfterCommit? ==> deploy.Live()
    ensures r.Stopped? ==> deploy.StoppedWell(r)
    ensures r.Deployed? ==>
      host.troubles == old(host.troubles) + deploy.hookTroubles && RefreshTimer(profile) in host.timers
    ensures r.FailedAfterCommit? ==> host.troubles > old(host.troubles) + deploy.hookTroubles
    ensures r.Stopped? && deploy.Unobstructed() ==>
      refused || host.troubles > old(host.troubles) + deploy.hookTroubles
    ensures (refused ==> r.Stopped?) && deploy.hookTroubles <= 1
    ensures deploy.Unobstructed() && refused && host.steady ==> deploy.StopsAtTheCertificate()
    ensures host.Endured() && host.blindReloads == old(host.blindReloads)
  {
    LayoutIsSound(profile, app);
    ghost var setting := SettingOf(profile, app, includes, shared, site, reference, host.tree, host.log);
    SettingIsSound(profile, app, includes, shared, site, reference, host.tree, host.log);
    deploy := new Deploy(host, LayoutOf(profile, app), shared, site, reference, certified, refused, setting);
    deploy.Describe();
    at := Begin(setting, host.tree);
    r, at := deploy.Run(at);
  }

  /** One deploy of `app` under `profile`, at the paths the tool uses.  `lost` says that a restore of
      the app's reference failed, `attempted` that the deploy itself has tried to reload Nginx,
      `hookLoaded` that a certificate hook has made Nginx load what was on disk, `issued` that lego has
      issued or renewed the certificate, `undoTroubles` how many commands that undo something failed,
      and `hookTroubles` how many commands of a hook failed without lego minding.

      It is carried through only if no other command fails and the certificate is not refused; and
      where nothing is in the way, only that keeps it from being carried through.  It fails after its
      commit only if a command does.

      Stopped before its commit and completely undone, it leaves Nginx running what is on disk
      exactly if it has tried a reload itself, or no hook has loaded anything, or all it had
      installed by then was there already. */
  method DeployApp(host: Host, profile: string, app: string, shared: seq<Staged>, site: Staged, reference: Staged,
                   certified: bool, refused: bool)
    returns (r: Result, lost: bool, attempted: bool, ghost hookLoaded: bool, ghost issued: bool,
             ghost undoTroubles: nat, ghost hookTroubles: nat)
    requires WellFormed(host.tree) && Distinct(shared) && Paths(shared) == SharedPaths(profile)
    requires site.path == SiteAvailable(app) && reference.path == ReferencePath(profile, app)
    modifies host`tree, host`log, host`loaded, host`units, host`timers, host`troubles, host`accepted
    modifies host`blindReloads
    ensures host.Endured() && host.blindReloads == old(host.blindReloads)
    ensures r.Deployed? ==> host.troubles == old(host.troubles) + hookTroubles && RefreshTimer(profile) in host.timers
    ensures r.FailedAfterCommit? ==> host.troubles > old(host.troubles) + hookTroubles
    ensures r.Stopped? && WayIsClear(LayoutOf(profile, app), old(host.tree)) ==>
      refused || host.troubles > old(host.troubles) + hookTroubles
    ensures (refused ==> r.Stopped?) && hookTroubles <= 1
    ensures !r.Stopped? ==>
      && AllInstalled(host.tree, shared) && Installed(host.tree, site) && Installed(host.tree, reference)
      && SiteEnabled(app) in host.tree && host.tree[SiteEnabled(app)] == Symlink(SiteAvailable(app))
      && host.loaded == host.tree && AllInstalled(host.units, shared) && issued
    ensures r.Stopped? && (forall d <- BASE :: IsDir(old(host.tree), d)) ==>
      && (undoTroubles == 0 <==> !lost && r == Stopped(Undone, true))
      && (r == Stopped(Undone, true) ==> host.units == host.tree || host.units == old(host.units))
      && (!lost ==> !r.undo.MetNonEmptyDirectory? && (r.undo.Undone? ==> host.tree == old(host.tree)))
      && (!lost && r == Stopped(Undone, true) && old(host.loaded == host.tree) ==>
            (host.loaded == host.tree <==>
               attempted || !hookLoaded || (AllInstalled(old(host.tree), shared) && Installed(old(host.tree), site))))
      && (r == Stopped(Undone, true) && !attempted ==>
            if hookLoaded
            then && AllInstalled(host.loaded, shared) && Installed(host.loaded, site)
                 && SameAt(old(host.tree), host.loaded, SiteEnabled(app))
            else host.loaded == old(host.loaded))
    ensures refused && WayIsClear(LayoutOf(profile, app), old(host.tree)) && host.steady ==>
      !attempted && undoTroubles == 0 && (certified <==> hookLoaded)
  {
    var deploy;
    ghost var at;
    deploy, r, at :=
      DeployTracked(host, profile, app, shared, site, reference, certified, refused, _ => Some(profile));
    lost, attempted := deploy.referenceLost, deploy.reloadAttempted;
    hookLoaded, issued := deploy.hookLoaded, deploy.issued;
    undoTroubles, hookTroubles := deploy.undoTroubles, deploy.hookTroubles;
  }

  /** So Nginx does not always run what it ran before.  On a host where every command works and nothing
      stands in the way, a deploy whose certificate is refused is completely undone on disk.  Nginx is
      left running what is on disk exactly if there is no certificate yet or all that the deploy had
      installed by then was there already; otherwise it runs the files that were withdrawn. */
  method RefusedDeploy(host: Host, profile: string, app: string, shared: seq<Staged>, site: Staged,
                       reference: Staged, certified: bool)
    returns (r: Result)
    requires WellFormed(host.tree) && Distinct(shared) && Paths(shared) == SharedPaths(profile)
    requires site.path == SiteAvailable(app) && reference.path == ReferencePath(profile, app)
    requires (forall d <- BASE :: IsDir(host.tree, d)) && WayIsClear(LayoutOf(profile, app), host.tree)
    requires host.steady && host.loaded == host.tree
    modifies host`tree, host`log, host`loaded, host`units, host`timers, host`troubles, host`accepted
    modifies host`blindReloads
    ensures r == Stopped(Undone, true) && host.troubles == old(host.troubles)
    ensures host.tree == old(host.tree)
    ensures host.loaded == host.tree <==>
      !certified || (AllInstalled(old(host.tree), shared) && Installed(old(host.tree), site))
    ensures host.loaded != host.tree ==>
      && AllInstalled(host.loaded, shared) && Installed(host.loaded, site)
      && SameAt(host.tree, host.loaded, SiteEnabled(app))
  {
    var lost, attempted;
    ghost var hookLoaded, issued, undoTroubles, hookTroubles;
    r, lost, attempted, hookLoaded, issued, undoTroubles, hookTroubles :=
      DeployApp(host, profile, app, shared, site, reference, certified, true);
  }

  lemma BaseParent(p: Path)
    requires p in BASE && p != []
    ensures Parent(p) in BASE
  {
    assert Parent(["etc"]) == [] && Parent(["var"]) == [];
    assert Parent(["etc", "nginx"]) == ["etc"] && Parent(["etc", "systemd"]) == ["etc"] &&
      Parent(["var", "lib"]) == ["var"];
    assert Parent(["etc", "nginx", "sites-available"]) == ["etc", "nginx"];
    assert Parent(["etc", "nginx", "sites-enabled"]) == ["etc", "nginx"];
    assert Parent(["etc", "systemd", "system"]) == ["etc", "systemd"];
  }

  lemma OnlyDirsAbove(t: Tree, profile: string, app: string, p: Path)
    requires p in Managed(profile, app)
    requires forall q :: q in t && !t[q].Dir? ==> q == SiteAvailable(app) || q == SiteEnabled(app)
    ensures p != [] && DirsOnly(t, Parent(p))
  {
    forall q | q in t && q <= Parent(p) ensures t[q].Dir? {
      if !t[q].Dir? {
        assert Above(q, p);
        NoNesting(profile, app, q, p);
      }
    }
  }

  /** A host with an enabled site and nothing else. */
  function SiteOnly(app: string, content: string): Tree {
    var dirs: Tree := map d | d in BASE :: Dir;
    dirs[SiteAvailable(app) := File(content, 420)][SiteEnabled(app) := Symlink(SiteAvailable(app))]
  }

  lemma SiteOnlyIsWellFormed(app: string, content: string)
    ensures WellFormed(SiteOnly(app, content))
  {
    assert Parent(SiteAvailable(app)) == ["etc", "nginx", "sites-available"];
    assert Parent(SiteEnabled(app)) == ["etc", "nginx", "sites-enabled"];
    forall p | p in BASE && p != [] ensures Parent(p) in BASE {
      BaseParent(p);
    }
  }

  lemma SiteOnlyHasRoom(profile: string, app: string, content: string, p: Path)
    requires p in SharedPaths(profile) || p == SiteAvailable(app) || p == ReferencePath(profile, app)
    ensures Placeable(SiteOnly(app, content), p)
  {
    OwnPaths(profile, app);
    assert |p| > 3;
    OnlyDirsAbove(SiteOnly(app, content), profile, app, p);
  }

  lemma SpecsApart(profile: string, app: string, d: Path)
    requires d in DirectorySpecs(profile)
    ensures d != SiteAvailable(app) && d != SiteEnabled(app)
  {
    assert |d| == 4 ==> d[2] == "lanpanel";
    assert "lanpanel"[0] == 'l' && "sites-available"[0] == 's' && "sites-enabled"[0] == 's';
  }

  /** Such a redeploy is possible: on this host nothing is in the way of any profile. */
  lemma SiteOnlyIsClear(profile: string, app: string, content: string)
    ensures WellFormed(SiteOnly(app, content)) && (forall d <- BASE :: IsDir(SiteOnly(app, content), d))
    ensures WayIsClear(LayoutOf(profile, app), SiteOnly(app, content)) && SiteEnabled(app) in SiteOnly(app, content)
  {
    var t := SiteOnly(app, content);
    SiteOnlyIsWellFormed(app, content);
    assert Parent(SiteEnabled(app)) == ["etc", "nginx", "sites-enabled"];
    forall p | p in SharedPaths(profile) || p == SiteAvailable(app) || p == ReferencePath(profile, app)
      ensures Placeable(t, p)
    {
      SiteOnlyHasRoom(profile, app, content, p);
    }
    forall d | d in DirectorySpecs(profile) && d in t ensures t[d].Dir? {
      SpecsApart(profile, app, d);
    }
  }
}
