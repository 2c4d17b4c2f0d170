/** The record of a deploy on the file tree: the steps of the step system it has taken so far, each with
    the change of a file or link it makes. */
module RealIpTrack {
  import opened Options
  import opened HostTree
  import opened FileInstaller
  import opened RealIpSnapshots
  import opened RealIpView
  import P = RealIpProtocol
  import S = RealIpSafety

  // ------------------------------------------------------------------ the record of a deploy

  /** What stays the same during a deploy: where things are, what is to be installed, and the files
      and the log at its start. */
  datatype Setting = Setting(lens: Lens, profile: P.Profile, plan: P.Plan, files: Tree, before: seq<Change>)
  {
    function Entry(): P.Entry {
      View(files, lens)
    }

    ghost predicate Sound() {
      lens.Clear() && P.Full(plan.files) && lens.includes(plan.body) == Some(profile)
    }

    function Begun(): P.Proc {
      P.Deploy(profile, P.Locked, plan, map[], None, false, None, true, Entry())
    }
  }

  /** A move of a deploy: a step with the change it makes, or with none if the view does not change; or
      the app's reference written once more as it is. */
  datatype Move = Stepped(step: P.DeployStep, change: Option<Change>) | Rewritten(again: Change)

  /** The files and links at one moment, and where the deploy of the step system stands. */
  datatype Point = Point(files: Tree, proc: P.Proc)

  predicate Fits(x: Setting, at: Point, m: Move) {
    && at.proc.Deploy?
    && match m
       case Stepped(step, change) =>
         && P.CanDeploy(at.proc, step)
         && (if change.Some? then Makes(x.lens, at.proc, step, change.value)
             else P.Effect(View(at.files, x.lens), at.proc, step) == View(at.files, x.lens))
       case Rewritten(c) => c == Change(x.lens.reference, AsFile(Read(at.files, x.lens.reference)))
  }

  function ChangeOf(m: Move): seq<Change> {
    match m
    case Stepped(_, change) => if change.Some? then [change.value] else []
    case Rewritten(c) => [c]
  }

  function Changes(moves: seq<Move>): seq<Change> {
    if moves == [] then [] else Changes(moves[..|moves| - 1]) + ChangeOf(moves[|moves| - 1])
  }

  function Next(x: Setting, at: Point, m: Move): Point
    requires Fits(x, at, m)
  {
    Point(Replay(at.files, ChangeOf(m)),
          if m.Stepped? then P.Goto(View(at.files, x.lens), at.proc, m.step) else at.proc)
  }

  /** The point is one of this deploy, and what is seen there is what its position says. */
  ghost predicate Proper(x: Setting, at: Point) {
    && at.proc.Deploy? && at.proc.profile == x.profile && at.proc.plan == x.plan && at.proc.entry == x.Entry()
    && S.Progress(View(at.files, x.lens), at.proc)
  }

  /** All points a deploy has passed, and the moves between them. */
  datatype Track = Track(points: seq<Point>, moves: seq<Move>)
  {
    function Last(): Point
      requires points != []
    {
      points[|points| - 1]
    }

    predicate IsAt(pc: P.Pc) {
      points != [] && Last().proc.Deploy? && Last().proc.pc == pc
    }

    /** Something is still to be put back. */
    predicate IsUndoing() {
      && points != [] && Last().proc.Deploy?
      && (Last().proc.pc.UndoSite? || Last().proc.pc.UndoLink? || Last().proc.pc.UndoShared?)
    }

    /** The reference is back, if it had to be restored. */
    predicate IsClean() {
      points != [] && Last().proc.Deploy? && Last().proc.clean
    }
  }

  /** A record of this deploy: it begins at the start, and every point comes from the one before. */
  ghost predicate Follows(x: Setting, track: Track) {
    && |track.points| == |track.moves| + 1
    && (forall i {:trigger PointOk(x, track, i)} :: 0 <= i <= |track.moves| ==> PointOk(x, track, i))
  }

  ghost predicate PointOk(x: Setting, track: Track, i: nat)
    requires i <= |track.moves| && |track.points| == |track.moves| + 1
  {
    && x.Sound() && Proper(x, track.points[i])
    && (i == 0 ==> track.points[0] == Point(x.files, x.Begun()))
    && (i > 0 ==> Linked(x, track.points[i - 1], track.moves[i - 1], track.points[i]))
  }

  predicate Linked(x: Setting, at: Point, m: Move, at': Point) {
    Fits(x, at, m) && at' == Next(x, at, m)
  }

  /** The record is complete: it ends with these files, and with this log. */
  ghost predicate Shows(x: Setting, track: Track, files: Tree, log: seq<Change>) {
    Follows(x, track) && track.Last().files == files && log == x.before + Changes(track.moves)
  }

  function Start(x: Setting): Track {
    Track([Point(x.files, x.Begun())], [])
  }

  lemma StartShows(x: Setting)
    requires x.Sound()
    ensures Shows(x, Start(x), x.files, x.before) && Start(x).IsAt(P.Locked)
  {
  }

  lemma ReplayOne(t: Tree, c: Change)
    ensures Replay(t, [c]) == Changed(t, c)
  {
    ReplayOneMore(t, [], c);
    assert [] + [c] == [c];
  }

  lemma ChangeIsSeen(x: Setting, at: Point, step: P.DeployStep, c: Change)
    requires x.Sound() && Proper(x, at) && Fits(x, at, Stepped(step, Some(c)))
    ensures View(Changed(at.files, c), x.lens) == P.Effect(View(at.files, x.lens), at.proc, step)
  {
    ChangeIsStep(at.files, x.lens, at.proc, step, c);
  }

  lemma AgainIsUnseen(x: Setting, at: Point, c: Change)
    requires x.Sound() && Fits(x, at, Rewritten(c))
    ensures View(Changed(at.files, c), x.lens) == View(at.files, x.lens)
  {
    ReferenceSeen(at.files, x.lens, Read(at.files, x.lens.reference));
  }

  /** What a step does is seen as its effect, whether it changes a file or not. */
  lemma MoveIsSeen(x: Setting, at: Point, m: Move)
    requires x.Sound() && Proper(x, at) && Fits(x, at, m)
    ensures View(Next(x, at, m).files, x.lens) ==
      if m.Stepped? then P.Effect(View(at.files, x.lens), at.proc, m.step) else View(at.files, x.lens)
  {
    match m
    case Stepped(step, change) =>
      if change.Some? {
        ReplayOne(at.files, change.value);
        ChangeIsSeen(x, at, step, change.value);
      }
    case Rewritten(c) =>
      ReplayOne(at.files, c);
      AgainIsUnseen(x, at, c);
  }

  lemma MoveIsProper(x: Setting, at: Point, m: Move)
    requires x.Sound() && Proper(x, at) && Fits(x, at, m)
    ensures Proper(x, Next(x, at, m))
  {
    MoveIsSeen(x, at, m);
    if m.Stepped? {
      S.StepProgress(View(at.files, x.lens), at.proc, m.step);
    }
  }

  lemma ChangesOneMore(moves: seq<Move>, m: Move)
    ensures Changes(moves + [m]) == Changes(moves) + ChangeOf(m)
  {
    assert (moves + [m])[..|moves|] == moves;
  }

  lemma LastIsProper(x: Setting, track: Track)
    requires Follows(x, track)
    ensures x.Sound() && Proper(x, track.Last())
  {
    assert PointOk(x, track, |track.moves|);
  }

  function Longer(x: Setting, track: Track, m: Move): Track
    requires track.points != [] && Fits(x, track.Last(), m)
  {
    Track(track.points + [Next(x, track.Last(), m)], track.moves + [m])
  }

  lemma NewPointOk(x: Setting, track: Track, m: Move)
    requires Follows(x, track) && Fits(x, track.Last(), m)
    ensures PointOk(x, Longer(x, track, m), |track.moves| + 1)
  {
    LastIsProper(x, track);
    MoveIsProper(x, track.Last(), m);
  }

  lemma PointStays(x: Setting, track: Track, r: Track, i: nat)
    requires Follows(x, track) && i <= |track.moves| <= |r.moves| && |r.points| == |r.moves| + 1
    requires track.points <= r.points && track.moves <= r.moves
    ensures PointOk(x, r, i)
  {
    assert PointOk(x, track, i);
  }

  lemma LongerOk(x: Setting, track: Track, m: Move, i: nat)
    requires Follows(x, track) && Fits(x, track.Last(), m) && i <= |track.moves| + 1
    ensures PointOk(x, Longer(x, track, m), i)
  {
    if i <= |track.moves| {
      PointStays(x, track, Longer(x, track, m), i);
    } else {
      NewPointOk(x, track, m);
    }
  }

  lemma Extend(x: Setting, track: Track, m: Move) returns (r: Track)
    requires Follows(x, track) && Fits(x, track.Last(), m)
    ensures Follows(x, r) && r.Last() == Next(x, track.Last(), m)
    ensures Changes(r.moves) == Changes(track.moves) + ChangeOf(m)
  {
    ChangesOneMore(track.moves, m);
    r := Longer(x, track, m);
    forall i: nat | i <= |r.moves| ensures PointOk(x, r, i) {
      LongerOk(x, track, m, i);
    }
  }

  lemma Associate(a: seq<Change>, b: seq<Change>, c: seq<Change>)
    ensures a + b + c == a + (b + c)
  {
  }

  // ------------------------------------------------------------------ following a deploy

  /** The record goes on with one move. */
  lemma Record(x: Setting, track: Track, files: Tree, log: seq<Change>, m: Move) returns (r: Track)
    requires Shows(x, track, files, log) && Fits(x, track.Last(), m)
    ensures Shows(x, r, Replay(files, ChangeOf(m)), log + ChangeOf(m)) && r.Last() == Next(x, track.Last(), m)
  {
    r := Extend(x, track, m);
    Associate(x.before, Changes(track.moves), ChangeOf(m));
  }

  /** A step that makes this change, or, if there is none, is not seen. */
  predicate Steps(lens: Lens, d: P.Proc, now: P.Entry, step: P.DeployStep, change: Option<Change>) {
    && d.Deploy? && P.CanDeploy(d, step)
    && (if change.Some? then Makes(lens, d, step, change.value) else P.Effect(now, d, step) == now)
  }

  function FilesAfter(files: Tree, change: Option<Change>): Tree {
    if change.Some? then Changed(files, change.value) else files
  }

  function LogAfter(log: seq<Change>, change: Option<Change>): seq<Change> {
    if change.Some? then log + [change.value] else log
  }

  lemma AfterChange(files: Tree, log: seq<Change>, step: P.DeployStep, change: Option<Change>)
    ensures Replay(files, ChangeOf(Stepped(step, change))) == FilesAfter(files, change)
    ensures log + ChangeOf(Stepped(step, change)) == LogAfter(log, change)
  {
    if change.Some? {
      ReplayOne(files, change.value);
    }
  }

  /** The deploy has taken one step. */
  lemma Take(x: Setting, track: Track, files: Tree, log: seq<Change>, step: P.DeployStep, change: Option<Change>)
    returns (r: Track)
    requires Shows(x, track, files, log) && Steps(x.lens, track.Last().proc, View(files, x.lens), step, change)
    ensures Shows(x, r, FilesAfter(files, change), LogAfter(log, change))
    ensures r.Last().proc == P.Goto(View(files, x.lens), track.Last().proc, step)
  {
    AfterChange(files, log, step, change);
    r := Record(x, track, files, log, Stepped(step, change));
  }

  /** The reference has been written once more as it is. */
  lemma TakeAgain(x: Setting, track: Track, files: Tree, log: seq<Change>, c: Change) returns (r: Track)
    requires Shows(x, track, files, log) && track.Last().proc.Deploy?
    requires c == Change(x.lens.reference, AsFile(Read(files, x.lens.reference)))
    ensures Shows(x, r, Changed(files, c), log + [c]) && r.Last().proc == track.Last().proc
  {
    ReplayOne(files, c);
    r := Record(x, track, files, log, Rewritten(c));
  }

  /** What is seen at the end of the record is what its position says. */
  lemma ShowsProper(x: Setting, track: Track, files: Tree, log: seq<Change>)
    requires Shows(x, track, files, log)
    ensures x.Sound() && Proper(x, track.Last()) && S.Progress(View(files, x.lens), track.Last().proc)
  {
    LastIsProper(x, track);
  }

  lemma PlanIsKnown(x: Setting, track: Track, files: Tree, log: seq<Change>)
    requires Shows(x, track, files, log)
    ensures track.Last().proc.Deploy? && track.Last().proc.plan == x.plan && track.Last().proc.profile == x.profile
    ensures x.lens.includes(x.plan.body) == Some(x.profile)
  {
    LastIsProper(x, track);
  }

  /** The deploy remembers the app's reference as it was. */
  lemma ReferenceIsSaved(x: Setting, track: Track, files: Tree, log: seq<Change>)
    requires Shows(x, track, files, log) && (track.IsAt(P.RefSaved) || track.IsAt(P.UndoRef))
    ensures track.Last().proc.savedRef == Read(x.files, x.lens.reference)
    ensures track.IsAt(P.RefSaved) ==> Read(files, x.lens.reference) == Read(x.files, x.lens.reference)
  {
    LastIsProper(x, track);
  }

  lemma SiteIsSaved(x: Setting, track: Track, files: Tree, log: seq<Change>, written: bool)
    requires Shows(x, track, files, log) && (track.IsAt(P.UndoSite(written)) || track.IsAt(P.UndoLink))
    ensures track.Last().proc.savedSite == x.Entry().site && track.Last().proc.savedEnabled == x.Entry().enabled
  {
    LastIsProper(x, track);
  }

  lemma FilesAreSaved(x: Setting, track: Track, files: Tree, log: seq<Change>, todo: set<P.Artifact>)
    requires Shows(x, track, files, log) && track.IsAt(P.UndoShared(todo))
    ensures track.Last().proc.savedFiles == x.Entry().files && x.Sound()
  {
    LastIsProper(x, track);
  }

  // ------------------------------------------------------------------ the shared files

  function ContentOf(f: Staged): P.Content {
    P.Content(f.content, f.mode)
  }

  /** The same as `AsPlanned`, unfolded only where it is asked for. */
  ghost predicate Planned(x: Setting, staged: seq<Staged>) {
    forall y {:trigger AsPlanned(y, staged)} :: y == x ==> AsPlanned(y, staged)
  }

  /** The staged files are the artifacts of the plan. */
  ghost predicate AsPlanned(x: Setting, staged: seq<Staged>) {
    && Distinct(staged)
    && (forall s <- staged :: exists f :: IsArtifact(x, f, s))
    && (forall f {:trigger IsAmong(x, f, Paths(staged))} :: IsAmong(x, f, Paths(staged)))
  }

  predicate IsAmong(x: Setting, f: P.Artifact, paths: set<Path>) {
    x.lens.artifact(f) in paths
  }

  ghost predicate IsArtifact(x: Setting, f: P.Artifact, s: Staged) {
    x.lens.artifact(f) == s.path && f in x.plan.files && x.plan.files[f] == ContentOf(s)
  }

  /** The artifacts that are not among the first `j` staged files. */
  function Left(x: Setting, staged: seq<Staged>, j: nat): set<P.Artifact>
    requires j <= |staged|
  {
    set f | f in P.ARTIFACTS && x.lens.artifact(f) !in Paths(staged[..j])
  }

  lemma LeftShrinks(x: Setting, staged: seq<Staged>, j: nat, f: P.Artifact)
    requires j < |staged| && x.lens.Clear() && Distinct(staged) && x.lens.artifact(f) == staged[j].path
    ensures f in Left(x, staged, j) && Left(x, staged, j + 1) == Left(x, staged, j) - {f}
  {
    S.EveryArtifact();
    assert staged[..j + 1] == staged[..j] + [staged[j]];
    assert Paths(staged[..j + 1]) == Paths(staged[..j]) + {staged[j].path};
    assert staged[j].path !in Paths(staged[..j]);
  }

  lemma NoneLeft(x: Setting, staged: seq<Staged>)
    requires Planned(x, staged)
    ensures Left(x, staged, 0) == P.ARTIFACTS && Left(x, staged, |staged|) == {}
  {
    assert AsPlanned(x, staged) && staged[..|staged|] == staged;
    assert forall f :: IsAmong(x, f, Paths(staged)) ==> x.lens.artifact(f) in Paths(staged);
  }

  /** Writing the first files does not touch a later one. */
  lemma {:induction false} WritesElsewhere(files: Tree, staged: seq<Staged>, results: seq<InstallResult>, p: Path)
    requires |results| <= |staged| && p !in Paths(staged[..|results|])
    ensures Read(Replay(files, Writes(staged, results)), p) == Read(files, p)
    decreases |results|
  {
    if results != [] {
      var n := |results| - 1;
      assert staged[..|results|] == staged[..n] + [staged[n]];
      WritesElsewhere(files, staged, results[..n], p);
      if results[n].changed {
        ReplayOneMore(files, Writes(staged, results[..n]), Write(staged[n]));
      } else {
        assert Writes(staged, results) == Writes(staged, results[..n]);
      }
    }
  }

  lemma WritesGrow(files: Tree, log: seq<Change>, staged: seq<Staged>, results: seq<InstallResult>, j: nat)
    requires j < |results| <= |staged|
    ensures var change := if results[j].changed then Some(Write(staged[j])) else None;
      && Replay(files, Writes(staged, results[..j + 1])) ==
        FilesAfter(Replay(files, Writes(staged, results[..j])), change)
      && log + Writes(staged, results[..j + 1]) == LogAfter(log + Writes(staged, results[..j]), change)
  {
    assert results[..j + 1] == results[..j] + [results[j]];
    WritesStep(staged, results[..j], results[j]);
    var w := Writes(staged, results[..j]);
    if results[j].changed {
      ReplayOneMore(files, w, Write(staged[j]));
    } else {
      assert w + [] == w;
    }
  }

  /** A file that is as planned is not seen to be installed. */
  lemma InstalledIsUnseen(x: Setting, now: Tree, f: P.Artifact)
    requires f in x.plan.files && Read(now, x.lens.artifact(f)) == Some(x.plan.files[f])
    ensures View(now, x.lens).(files := View(now, x.lens).files[f := x.plan.files[f]]) == View(now, x.lens)
  {
    ArtifactIsRead(now, x.lens, f);
    var seen := Artifacts(now, x.lens);
    assert seen[f := x.plan.files[f]] == seen;
  }

  lemma UnchangedIsThere(x: Setting, files: Tree, staged: seq<Staged>, results: seq<InstallResult>, j: nat,
                         f: P.Artifact)
    requires Distinct(staged) && j < |results| <= |staged| && Installed(files, staged[j]) && IsArtifact(x, f, staged[j])
    ensures Read(Replay(files, Writes(staged, results[..j])), x.lens.artifact(f)) == Some(x.plan.files[f])
  {
    assert staged[j].path !in Paths(staged[..j]);
    WritesElsewhere(files, staged, results[..j], staged[j].path);
  }

  /** The step that installs the next file: it changes the file, or finds it as it is to be. */
  lemma InstallSteps(x: Setting, d: P.Proc, now: Tree, staged: seq<Staged>, changed: bool, j: nat, f: P.Artifact)
    requires x.Sound() && Distinct(staged) && j < |staged|
    requires changed || Read(now, x.lens.artifact(f)) == Some(x.plan.files[f])
    requires d.Deploy? && d.plan == x.plan && d.pc == P.Installing(Left(x, staged, j)) && IsArtifact(x, f, staged[j])
    ensures Steps(x.lens, d, View(now, x.lens), P.InstallOne(f), if changed then Some(Write(staged[j])) else None)
  {
    LeftShrinks(x, staged, j, f);
    if !changed {
      InstalledIsUnseen(x, now, f);
    }
  }

  /** The first `j` files have been installed. */
  ghost predicate InstalledUpTo(x: Setting, track: Track, files: Tree, log: seq<Change>,
                                staged: seq<Staged>, results: seq<InstallResult>, j: nat)
    requires j <= |results| <= |staged|
  {
    && Shows(x, track, Replay(files, Writes(staged, results[..j])), log + Writes(staged, results[..j]))
    && track.IsAt(P.Installing(Left(x, staged, j)))
  }

  lemma InstallNone(x: Setting, track: Track, files: Tree, log: seq<Change>, staged: seq<Staged>,
                    results: seq<InstallResult>)
    requires Shows(x, track, files, log) && track.IsAt(P.Installing(P.ARTIFACTS)) && Planned(x, staged)
    requires |results| <= |staged|
    ensures InstalledUpTo(x, track, files, log, staged, results, 0)
  {
    NoneLeft(x, staged);
    assert results[..0] == [] && log + [] == log;
  }

  lemma InstallNext(x: Setting, track: Track, files: Tree, log: seq<Change>,
                    staged: seq<Staged>, results: seq<InstallResult>, j: nat)
    returns (r: Track)
    requires Planned(x, staged) && j < |results| <= |staged|
    requires results[j].changed || Installed(files, staged[j])
    requires InstalledUpTo(x, track, files, log, staged, results, j)
    ensures InstalledUpTo(x, r, files, log, staged, results, j + 1) && r.IsClean() == track.IsClean()
  {
    var now, logged := Replay(files, Writes(staged, results[..j])), log + Writes(staged, results[..j]);
    ShowsProper(x, track, now, logged);
    assert AsPlanned(x, staged) && staged[j] in staged;
    var f :| IsArtifact(x, f, staged[j]);
    if !results[j].changed {
      UnchangedIsThere(x, files, staged, results, j, f);
    }
    InstallSteps(x, track.Last().proc, now, staged, results[j].changed, j, f);
    LeftShrinks(x, staged, j, f);
    WritesGrow(files, log, staged, results, j);
    r := Take(x, track, now, logged, P.InstallOne(f), if results[j].changed then Some(Write(staged[j])) else None);
  }

  lemma {:induction false} FollowInstall(x: Setting, track: Track, files: Tree, log: seq<Change>,
                                         staged: seq<Staged>, results: seq<InstallResult>, j: nat)
    returns (r: Track)
    requires Shows(x, track, files, log) && track.IsAt(P.Installing(P.ARTIFACTS)) && Planned(x, staged)
    requires j <= |results| <= |staged|
    requires forall i :: 0 <= i < j && !results[i].changed ==> Installed(files, staged[i])
    ensures InstalledUpTo(x, r, files, log, staged, results, j) && r.IsClean() == track.IsClean()
    decreases j
  {
    if j == 0 {
      InstallNone(x, track, files, log, staged, results);
      r := track;
    } else {
      r := FollowInstall(x, track, files, log, staged, results, j - 1);
      r := InstallNext(x, r, files, log, staged, results, j - 1);
    }
  }

  /** The artifacts that are not among the snapshots from `i` on. */
  function Rest(x: Setting, snapshots: seq<Snapshot>, i: nat): set<P.Artifact>
    requires i <= |snapshots|
  {
    set f | f in P.ARTIFACTS && x.lens.artifact(f) !in SnapshotPaths(snapshots[i..])
  }

  /** The snapshots are those of the artifacts at the start. */
  ghost predicate Remembered(x: Setting, snapshots: seq<Snapshot>) {
    && DistinctPaths(snapshots)
    && (forall s <- snapshots :: s.before == AsFile(Read(x.files, s.path)) && exists f :: x.lens.artifact(f) == s.path)
    && (forall f {:trigger IsAmong(x, f, SnapshotPaths(snapshots))} :: IsAmong(x, f, SnapshotPaths(snapshots)))
  }

  lemma RestShrinks(x: Setting, snapshots: seq<Snapshot>, i: nat, f: P.Artifact)
    requires i < |snapshots| && x.lens.Clear() && DistinctPaths(snapshots) && x.lens.artifact(f) == snapshots[i].path
    ensures f in Rest(x, snapshots, i + 1) && Rest(x, snapshots, i) == Rest(x, snapshots, i + 1) - {f}
  {
    S.EveryArtifact();
    assert snapshots[i..] == [snapshots[i]] + snapshots[i + 1..];
    assert SnapshotPaths(snapshots[i..]) == {snapshots[i].path} + SnapshotPaths(snapshots[i + 1..]);
    assert snapshots[i].path !in SnapshotPaths(snapshots[i + 1..]);
  }

  lemma NoRest(x: Setting, snapshots: seq<Snapshot>)
    requires Remembered(x, snapshots)
    ensures Rest(x, snapshots, |snapshots|) == P.ARTIFACTS && Rest(x, snapshots, 0) == {}
  {
    assert snapshots[0..] == snapshots;
    assert forall f :: IsAmong(x, f, SnapshotPaths(snapshots)) ==> x.lens.artifact(f) in SnapshotPaths(snapshots);
  }

  lemma SavedIsPut(x: Setting, d: P.Proc, snapshots: seq<Snapshot>, i: nat, f: P.Artifact)
    requires Remembered(x, snapshots) && i < |snapshots| && x.lens.artifact(f) == snapshots[i].path
    requires d.Deploy? && d.savedFiles == x.Entry().files
    ensures Put(snapshots[i]) == Change(x.lens.artifact(f), AsFile(Saved(d, f)))
  {
    ArtifactIsRead(x.files, x.lens, f);
    assert snapshots[i] in snapshots;
  }

  lemma RestoreIsStep(lens: Lens, d: P.Proc, now: P.Entry, f: P.Artifact, c: Change)
    requires d.Deploy? && d.pc.UndoShared? && f in d.pc.todo && c == Change(lens.artifact(f), AsFile(Saved(d, f)))
    ensures Steps(lens, d, now, P.RestoreOne(f), Some(c))
  {
  }

  /** The step that restores the next snapshot. */
  lemma NextRestore(x: Setting, d: P.Proc, now: P.Entry, snapshots: seq<Snapshot>, i: nat) returns (f: P.Artifact)
    requires x.lens.Clear() && Remembered(x, snapshots) && i < |snapshots|
    requires d.Deploy? && d.savedFiles == x.Entry().files && d.pc == P.UndoShared(Rest(x, snapshots, i + 1))
    ensures Steps(x.lens, d, now, P.RestoreOne(f), Some(Put(snapshots[i])))
    ensures d.pc.todo - {f} == Rest(x, snapshots, i)
  {
    assert snapshots[i] in snapshots;
    f :| x.lens.artifact(f) == snapshots[i].path;
    RestShrinks(x, snapshots, i, f);
    SavedIsPut(x, d, snapshots, i, f);
    RestoreIsStep(x.lens, d, now, f, Put(snapshots[i]));
  }

  lemma TakeRestore(x: Setting, track: Track, files: Tree, log: seq<Change>, todo: set<P.Artifact>, f: P.Artifact,
                    c: Change)
    returns (r: Track)
    requires Shows(x, track, files, log) && track.IsAt(P.UndoShared(todo))
    requires Steps(x.lens, track.Last().proc, View(files, x.lens), P.RestoreOne(f), Some(c))
    ensures Shows(x, r, Changed(files, c), log + [c])
    ensures r.IsAt(P.UndoShared(todo - {f})) && r.IsClean() == track.IsClean()
  {
    r := Take(x, track, files, log, P.RestoreOne(f), Some(c));
  }

  lemma FollowRestore(x: Setting, track: Track, files: Tree, log: seq<Change>, snapshots: seq<Snapshot>, i: nat)
    returns (r: Track)
    requires Remembered(x, snapshots) && i < |snapshots|
    requires Shows(x, track, files, log) && track.IsAt(P.UndoShared(Rest(x, snapshots, i + 1)))
    ensures Shows(x, r, Changed(files, Put(snapshots[i])), log + [Put(snapshots[i])])
    ensures r.IsAt(P.UndoShared(Rest(x, snapshots, i))) && r.IsClean() == track.IsClean()
  {
    FilesAreSaved(x, track, files, log, Rest(x, snapshots, i + 1));
    var f := NextRestore(x, track.Last().proc, View(files, x.lens), snapshots, i);
    r := TakeRestore(x, track, files, log, Rest(x, snapshots, i + 1), f, Put(snapshots[i]));
  }

  lemma RestoresGrow(files: Tree, log: seq<Change>, snapshots: seq<Snapshot>, i: nat)
    requires i < |snapshots|
    ensures Replay(files, Restores(snapshots, i)) ==
      Changed(Replay(files, Restores(snapshots, i + 1)), Put(snapshots[i]))
    ensures log + Restores(snapshots, i) == log + Restores(snapshots, i + 1) + [Put(snapshots[i])]
  {
    ReplayOneMore(files, Restores(snapshots, i + 1), Put(snapshots[i]));
    Associate(log, Restores(snapshots, i + 1), [Put(snapshots[i])]);
  }

  /** The snapshots from `i` on have been restored. */
  ghost predicate RestoredFrom(x: Setting, track: Track, files: Tree, log: seq<Change>, snapshots: seq<Snapshot>,
                               i: nat)
    requires i <= |snapshots|
  {
    && Shows(x, track, Replay(files, Restores(snapshots, i)), log + Restores(snapshots, i))
    && track.IsAt(P.UndoShared(Rest(x, snapshots, i)))
  }

  lemma FollowNone(x: Setting, track: Track, files: Tree, log: seq<Change>, snapshots: seq<Snapshot>)
    requires Shows(x, track, files, log) && track.IsAt(P.UndoShared(P.ARTIFACTS)) && Remembered(x, snapshots)
    ensures RestoredFrom(x, track, files, log, snapshots, |snapshots|)
  {
    NoRest(x, snapshots);
    assert log + [] == log;
  }

  lemma FollowNext(x: Setting, track: Track, files: Tree, log: seq<Change>, snapshots: seq<Snapshot>, i: nat)
    returns (r: Track)
    requires Remembered(x, snapshots) && i < |snapshots| && RestoredFrom(x, track, files, log, snapshots, i + 1)
    ensures RestoredFrom(x, r, files, log, snapshots, i) && r.IsClean() == track.IsClean()
  {
    var w := Restores(snapshots, i + 1);
    RestoresGrow(files, log, snapshots, i);
    r := FollowRestore(x, track, Replay(files, w), log + w, snapshots, i);
  }

  lemma {:induction false} FollowRestores(x: Setting, track: Track, files: Tree, log: seq<Change>,
                                          snapshots: seq<Snapshot>, i: nat)
    returns (r: Track)
    requires Shows(x, track, files, log) && track.IsAt(P.UndoShared(P.ARTIFACTS))
    requires Remembered(x, snapshots) && i <= |snapshots|
    ensures RestoredFrom(x, r, files, log, snapshots, i) && r.IsClean() == track.IsClean()
    decreases |snapshots| - i
  {
    if i == |snapshots| {
      FollowNone(x, track, files, log, snapshots);
      r := track;
    } else {
      r := FollowRestores(x, track, files, log, snapshots, i + 1);
      r := FollowNext(x, r, files, log, snapshots, i);
    }
  }

  // ------------------------------------------------------------------ whole stretches of a deploy

  /** Steps that change no file or link. */
  predicate Silent(step: P.DeployStep) {
    || step.SnapshotShared? || step.SharedDone? || step.SnapshotSite? || step.SnapshotRef? || step.Commit?
    || step.Fail? || step == P.RestoreRef(false) || step.SharedRestored?
  }

  lemma TakeSilently(x: Setting, track: Track, files: Tree, log: seq<Change>, step: P.DeployStep) returns (r: Track)
    requires Shows(x, track, files, log) && track.Last().proc.Deploy?
    requires P.CanDeploy(track.Last().proc, step) && Silent(step)
    ensures Shows(x, r, files, log)
    ensures r.Last().proc == P.Goto(View(files, x.lens), track.Last().proc, step)
  {
    r := Take(x, track, files, log, step, None);
  }

  lemma AllDealtWith(files: Tree, log: seq<Change>, staged: seq<Staged>, results: seq<InstallResult>, j: nat)
    requires j <= |results| <= j + 1 && |results| <= |staged| && (j < |results| ==> !results[j].changed)
    ensures Writes(staged, results[..j]) == Writes(staged, results)
  {
    if j < |results| {
      assert results[..j + 1] == results;
      WritesStep(staged, results[..j], results[j]);
      assert results == results[..j] + [results[j]];
    } else {
      assert results[..j] == results;
    }
  }

  lemma UnchangedAreThere(x: Setting, t: Tree, log: seq<Change>, t': Tree, log': seq<Change>, staged: seq<Staged>,
                          n: nat, results: seq<InstallResult>)
    requires Planned(x, staged) && n <= |results| <= |staged| && Done(t, log, t', log', staged, n, results)
    ensures forall i :: 0 <= i < n && !results[i].changed ==> Installed(Files(t), staged[i])
  {
    assert AsPlanned(x, staged);
    forall i | 0 <= i < n && !results[i].changed ensures Installed(Files(t), staged[i]) {
      assert Installed(t, staged[i]);
    }
  }

  /** From taking the lock to the shared files, or to the beginning of their rollback. */
  lemma FollowShared(x: Setting, track: Track, t: Tree, log: seq<Change>, t': Tree, log': seq<Change>,
                     staged: seq<Staged>, results: seq<InstallResult>, ok: bool)
    returns (r: Track)
    requires Shows(x, track, Files(t), log) && track.IsAt(P.Locked) && Planned(x, staged)
    requires |results| <= |staged| && (if ok then |results| == |staged| else results != [])
    requires Done(t, log, t', log', staged, if ok then |results| else |results| - 1, results)
    ensures Shows(x, r, Files(t'), log') && r.IsClean() == track.IsClean()
    ensures r.IsAt(if ok then P.SharedReady else P.UndoShared(P.ARTIFACTS))
  {
    var n := if ok then |results| else |results| - 1;
    r := TakeSilently(x, track, Files(t), log, P.SnapshotShared);
    UnchangedAreThere(x, t, log, t', log', staged, n, results);
    r := FollowInstall(x, r, Files(t), log, staged, results, n);
    AllDealtWith(Files(t), log, staged, results, n);
    if ok {
      NoneLeft(x, staged);
      r := TakeSilently(x, r, Files(t'), log', P.SharedDone);
    } else {
      r := TakeSilently(x, r, Files(t'), log', P.Fail);
    }
  }

  /** The rollback of the shared files. */
  lemma FollowUndo(x: Setting, track: Track, t: Tree, log: seq<Change>, t': Tree, log': seq<Change>,
                   snapshots: seq<Snapshot>, left: nat)
    returns (r: Track)
    requires Shows(x, track, Files(t), log) && track.IsAt(P.UndoShared(P.ARTIFACTS))
    requires Remembered(x, snapshots) && Undid(t, log, t', log', snapshots, left)
    ensures Shows(x, r, Files(t'), log') && r.IsClean() == track.IsClean()
    ensures if left == 0 then r.IsAt(P.RolledBack) else r.IsUndoing()
  {
    r := FollowRestores(x, track, Files(t), log, snapshots, left);
    if left == 0 {
      NoRest(x, snapshots);
      r := TakeSilently(x, r, Files(t'), log', P.SharedRestored);
    }
  }

  /** One of the app's own two files has been installed. */
  lemma FollowWrite(x: Setting, track: Track, t: Tree, log: seq<Change>, t': Tree, log': seq<Change>,
                    step: P.DeployStep, file: Staged, changed: bool)
    returns (r: Track)
    requires Shows(x, track, Files(t), log)
    requires
      || (step == P.WriteSite && track.IsAt(P.SiteSaved) && file.path == x.lens.available &&
        x.plan.body == ContentOf(file))
      || (step == P.WriteRef && track.IsAt(P.RefSaved) && file.path == x.lens.reference &&
        x.plan.reference == ContentOf(file))
    requires changed || Installed(t, file)
    requires Files(t') == Applied(Files(t), Write(file), changed)
    requires log' == Logged(log, Write(file), changed)
    ensures Shows(x, r, Files(t'), log') && r.IsClean() == track.IsClean()
    ensures r.IsAt(if step.WriteSite? then P.SiteWritten else P.RefWritten)
  {
    PlanIsKnown(x, track, Files(t), log);
    if !changed {
      assert Read(Files(t), file.path) == Some(ContentOf(file));
      assert log + [] == log;
    }
    r := Take(x, track, Files(t), log, step, if changed then Some(Write(file)) else None);
  }

  /** The snapshot of one of the app's own two files. */
  predicate Recalls(x: Setting, s: Snapshot, p: Path) {
    s.path == p && s.before == AsFile(Read(x.files, p))
  }

  /** The reference has been restored, or could not be; or it had not been written at all. */
  lemma FollowReference(x: Setting, track: Track, files: Tree, log: seq<Change>, s: Snapshot, ok: bool)
    returns (r: Track)
    requires Shows(x, track, files, log) && Recalls(x, s, x.lens.reference)
    requires track.IsAt(P.RefSaved) || track.IsAt(P.UndoRef)
    ensures
      if ok then Shows(x, r, Changed(files, Put(s)), log + [Put(s)]) else Shows(x, r, files, log)
    ensures track.IsAt(P.RefSaved) ==> r.IsAt(P.RefSaved) && r.IsClean() == track.IsClean()
    ensures track.IsAt(P.UndoRef) ==> r.IsAt(P.UndoSite(true)) && r.IsClean() == ok
  {
    ReferenceIsSaved(x, track, files, log);
    if track.IsAt(P.RefSaved) {
      if ok {
        r := TakeAgain(x, track, files, log, Put(s));
      } else {
        r := track;
      }
    } else if ok {
      r := Take(x, track, files, log, P.RestoreRef(true), Some(Put(s)));
    } else {
      r := TakeSilently(x, track, files, log, P.RestoreRef(false));
    }
  }

  /** The site has been restored. */
  lemma FollowSite(x: Setting, track: Track, files: Tree, log: seq<Change>, s: Snapshot, written: bool)
    returns (r: Track)
    requires Shows(x, track, files, log) && Recalls(x, s, x.lens.available) && track.IsAt(P.UndoSite(written))
    ensures Shows(x, r, Changed(files, Put(s)), log + [Put(s)])
    ensures r.IsAt(P.UndoLink) && r.IsClean() == track.IsClean()
  {
    SiteIsSaved(x, track, files, log, written);
    r := Take(x, track, files, log, P.RestoreSite, Some(Put(s)));
  }

  /** The link has been made. */
  lemma FollowLink(x: Setting, track: Track, files: Tree, log: seq<Change>) returns (r: Track)
    requires Shows(x, track, files, log) && track.IsAt(P.RefWritten)
    ensures var c := Change(x.lens.enabled, Some(Symlink(x.lens.available)));
      Shows(x, r, Changed(files, c), log + [c])
    ensures r.IsAt(P.Enabled) && r.IsClean() == track.IsClean()
  {
    r := Take(x, track, files, log, P.Enable, Some(Change(x.lens.enabled, Some(Symlink(x.lens.available)))));
  }

  /** The link has been removed, or may stay. */
  lemma FollowUnlink(x: Setting, track: Track, files: Tree, log: seq<Change>, stays: bool) returns (r: Track)
    requires Shows(x, track, files, log) && track.IsAt(P.UndoLink) && stays == x.Entry().enabled
    ensures var c := Change(x.lens.enabled, None);
      if stays then Shows(x, r, files, log) else Shows(x, r, Changed(files, c), log + [c])
    ensures r.IsAt(P.UndoShared(P.ARTIFACTS)) && r.IsClean() == track.IsClean()
  {
    SiteIsSaved(x, track, files, log, false);
    r := Take(x, track, files, log, P.RestoreLink, if stays then None else Some(Change(x.lens.enabled, None)));
  }
}
