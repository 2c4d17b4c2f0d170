/** Where a deploy stands between its methods, and how each of them moves it on; at the paths the tool
    uses. */
module RealIpStanding {
  import opened Options
  import opened HostTree
  import opened FileInstaller
  import opened RealIpLayout
  import opened RealIpSnapshots
  import opened RealIpView
  import opened RealIpTrack
  import P = RealIpProtocol
  import S = RealIpSafety

  // ------------------------------------------------------------------ where a deploy stands

  /** The positions between the methods of a deploy: ahead, and, after a failure, back. */
  datatype Place =
    | AtLock
    | AtShared
    | AtSnapshot
    | AtSite
    | AtRefSnapshot
    | AtReference
    | AtLink
    | AtCommit
    | BackFromReference
    | BackToSite
    | BackToLink
    | BackToShared
    | Stuck
    | Back
  {
    /** A deploy fails from here; `site` says whether it has remembered the site. */
    predicate Failing(site: bool) {
      if site then AtSnapshot? || AtSite? || AtRefSnapshot? || BackToSite? else AtShared?
    }

    /** Not activated, and no reference is left to put back. */
    predicate Inactive() {
      AtSite? || AtRefSnapshot? || BackToSite?
    }

    /** All is undone, as far as the step system sees, or something could not be. */
    predicate Ended(undone: bool) {
      Back? || (Stuck? && !undone)
    }
  }

  /** The record so far, and the position it has reached. */
  datatype Standing = Standing(track: Track, place: Place)

  predicate PlaceIs(at: Standing) {
    match at.place
    case AtLock => at.track.IsAt(P.Locked)
    case AtShared => at.track.IsAt(P.SharedReady)
    case AtSnapshot => at.track.IsAt(P.SiteSaved)
    case AtSite => at.track.IsAt(P.SiteWritten)
    case AtRefSnapshot => at.track.IsAt(P.RefSaved)
    case AtReference => at.track.IsAt(P.RefWritten)
    case AtLink => at.track.IsAt(P.Enabled)
    case AtCommit => at.track.IsAt(P.Committed)
    case BackFromReference => at.track.IsAt(P.UndoRef)
    case BackToSite => at.track.IsAt(P.UndoSite(true)) || at.track.IsAt(P.UndoSite(false))
    case BackToLink => at.track.IsAt(P.UndoLink)
    case BackToShared => at.track.IsAt(P.UndoShared(P.ARTIFACTS))
    case Stuck => at.track.IsUndoing()
    case Back => at.track.IsAt(P.RolledBack)
  }

  /** The record shows what is on disk and in the log, and its position is known; `lost` says that a
      restore of the reference has failed. */
  ghost predicate Placed(x: Setting, at: Standing, t: Tree, log: seq<Change>, lost: bool) {
    Shows(x, at.track, Files(t), log) && PlaceIs(at) && (at.track.IsClean() || lost)
  }

  /** The same, unfolded only where `KnownIsPlaced` asks for it. */
  ghost predicate Known(x: Setting, at: Standing, t: Tree, log: seq<Change>, lost: bool) {
    forall z {:trigger Placed(x, z, t, log, lost)} :: z == at ==> Placed(x, z, t, log, lost)
  }

  lemma KnownIsPlaced(x: Setting, at: Standing, t: Tree, log: seq<Change>, lost: bool)
    requires Known(x, at, t, log, lost)
    ensures Placed(x, at, t, log, lost)
  {
  }

  lemma Begin(x: Setting, t: Tree) returns (at: Standing)
    requires x.Sound() && x.files == Files(t)
    ensures Known(x, at, t, x.before, false) && at.place.AtLock?
  {
    StartShows(x);
    at := Standing(Start(x), AtLock);
    assert Placed(x, at, t, x.before, false);
  }

  /** The next position after a snapshot, or the commit. */
  function Ahead(place: Place): Place {
    match place
    case AtShared => AtSnapshot
    case AtSite => AtRefSnapshot
    case AtLink => AtCommit
    case _ => place
  }

  lemma GoOn(x: Setting, at: Standing, t: Tree, log: seq<Change>, lost: bool) returns (next: Standing)
    requires Known(x, at, t, log, lost) && (at.place.AtShared? || at.place.AtSite? || at.place.AtLink?)
    ensures Known(x, next, t, log, lost) && next.place == Ahead(at.place)
  {
    KnownIsPlaced(x, at, t, log, lost);
    var step := if at.place.AtShared? then P.SnapshotSite else if at.place.AtSite? then P.SnapshotRef else P.Commit;
    var track := TakeSilently(x, at.track, Files(t), log, step);
    next := Standing(track, Ahead(at.place));
    assert Placed(x, next, t, log, lost);
  }

  /** The first position after a failure. */
  function AfterFailure(place: Place): Place {
    match place
    case AtLock => Back
    case AtShared => BackToShared
    case AtSnapshot => BackToSite
    case AtSite => BackToSite
    case AtRefSnapshot => BackToSite
    case AtReference => BackFromReference
    case AtLink => BackFromReference
    case _ => place
  }

  function PcOf(place: Place): P.Pc {
    match place
    case AtLock => P.Locked
    case AtShared => P.SharedReady
    case AtSnapshot => P.SiteSaved
    case AtSite => P.SiteWritten
    case AtRefSnapshot => P.RefSaved
    case AtReference => P.RefWritten
    case _ => P.Enabled
  }

  lemma FailFrom(x: Setting, track: Track, files: Tree, log: seq<Change>, pc: P.Pc, back: P.Pc) returns (r: Track)
    requires Shows(x, track, files, log) && track.IsAt(pc) && P.AfterFailure(pc) == Some(back)
    ensures Shows(x, r, files, log) && r.IsAt(back) && r.IsClean() == track.IsClean()
  {
    r := TakeSilently(x, track, files, log, P.Fail);
  }

  lemma TurnBack(x: Setting, at: Standing, t: Tree, log: seq<Change>, lost: bool) returns (next: Standing)
    requires Known(x, at, t, log, lost) && AfterFailure(at.place) != at.place
    ensures Known(x, next, t, log, lost) && next.place == AfterFailure(at.place)
  {
    KnownIsPlaced(x, at, t, log, lost);
    var pc := PcOf(at.place);
    var track := FailFrom(x, at.track, Files(t), log, pc, P.AfterFailure(pc).value);
    next := Standing(track, AfterFailure(at.place));
    assert Placed(x, next, t, log, lost);
  }

  /** A failure before the commit, wherever the app's own files stand. */
  lemma TurnAround(x: Setting, at: Standing, t: Tree, log: seq<Change>, lost: bool, site: bool) returns (next: Standing)
    requires Known(x, at, t, log, lost) && at.place.Failing(site)
    ensures Known(x, next, t, log, lost) && next.place == if site then BackToSite else BackToShared
  {
    next := at;
    if !at.place.BackToSite? {
      next := TurnBack(x, at, t, log, lost);
    }
  }

  /** New directories do not matter. */
  lemma StandsStill(x: Setting, at: Standing, t: Tree, t': Tree, log: seq<Change>, lost: bool)
    requires Known(x, at, t, log, lost) && Files(t') == Files(t)
    ensures Known(x, at, t', log, lost)
  {
    KnownIsPlaced(x, at, t, log, lost);
    assert Placed(x, at, t', log, lost);
  }

  /** The rollback stops half way. */
  lemma StopHere(x: Setting, at: Standing, t: Tree, log: seq<Change>, lost: bool) returns (next: Standing)
    requires Known(x, at, t, log, lost) && (at.place.BackToSite? || at.place.BackToLink?)
    ensures Known(x, next, t, log, lost) && next.place.Stuck?
  {
    KnownIsPlaced(x, at, t, log, lost);
    next := Standing(at.track, Stuck);
    assert Placed(x, next, t, log, lost);
  }

  lemma SharedInstalled(x: Setting, at: Standing, t: Tree, log: seq<Change>, t': Tree, log': seq<Change>, lost: bool,
                        staged: seq<Staged>, results: seq<InstallResult>, ok: bool)
    returns (next: Standing)
    requires Known(x, at, t, log, lost) && at.place.AtLock? && Planned(x, staged)
    requires |results| <= |staged| && (if ok then |results| == |staged| else results != [])
    requires Done(t, log, t', log', staged, if ok then |results| else |results| - 1, results)
    ensures Known(x, next, t', log', lost) && next.place == if ok then AtShared else BackToShared
  {
    KnownIsPlaced(x, at, t, log, lost);
    var track := FollowShared(x, at.track, t, log, t', log', staged, results, ok);
    next := Standing(track, if ok then AtShared else BackToShared);
    assert Placed(x, next, t', log', lost);
  }

  lemma SharedRestored(x: Setting, at: Standing, t: Tree, log: seq<Change>, t': Tree, log': seq<Change>, lost: bool,
                       snapshots: seq<Snapshot>, left: nat)
    returns (next: Standing)
    requires Known(x, at, t, log, lost) && at.place.BackToShared? && Remembered(x, snapshots)
    requires Undid(t, log, t', log', snapshots, left)
    ensures Known(x, next, t', log', lost) && next.place == if left == 0 then Back else Stuck
  {
    KnownIsPlaced(x, at, t, log, lost);
    var track := FollowUndo(x, at.track, t, log, t', log', snapshots, left);
    next := Standing(track, if left == 0 then Back else Stuck);
    assert Placed(x, next, t', log', lost);
  }

  lemma OwnInstalled(x: Setting, at: Standing, t: Tree, log: seq<Change>, t': Tree, log': seq<Change>, lost: bool,
                     file: Staged, changed: bool)
    returns (next: Standing)
    requires Known(x, at, t, log, lost)
    requires
      || (at.place.AtSnapshot? && file.path == x.lens.available && x.plan.body == ContentOf(file))
      || (at.place.AtRefSnapshot? && file.path == x.lens.reference && x.plan.reference == ContentOf(file))
    requires changed || Installed(t, file)
    requires Files(t') == Applied(Files(t), Write(file), changed)
    requires log' == Logged(log, Write(file), changed)
    ensures Known(x, next, t', log', lost) && next.place == if at.place.AtSnapshot? then AtSite else AtReference
  {
    KnownIsPlaced(x, at, t, log, lost);
    var step := if at.place.AtSnapshot? then P.WriteSite else P.WriteRef;
    var track := FollowWrite(x, at.track, t, log, t', log', step, file, changed);
    next := Standing(track, if at.place.AtSnapshot? then AtSite else AtReference);
    assert Placed(x, next, t', log', lost);
  }

  lemma ReferenceRestored(x: Setting, at: Standing, t: Tree, log: seq<Change>, t': Tree, log': seq<Change>, lost: bool,
                          s: Snapshot, ok: bool)
    returns (next: Standing)
    requires Known(x, at, t, log, lost) && Recalls(x, s, x.lens.reference)
    requires at.place.AtRefSnapshot? || at.place.BackFromReference?
    requires Files(t') == Applied(Files(t), Put(s), ok)
    requires log' == Logged(log, Put(s), ok)
    ensures Known(x, next, t', log', lost || !ok)
    ensures next.place == if at.place.AtRefSnapshot? then AtRefSnapshot else BackToSite
  {
    KnownIsPlaced(x, at, t, log, lost);
    assert log + [] == log;
    var track := FollowReference(x, at.track, Files(t), log, s, ok);
    next := Standing(track, if at.place.AtRefSnapshot? then AtRefSnapshot else BackToSite);
    assert Placed(x, next, t', log', lost || !ok);
  }

  lemma SiteRestored(x: Setting, at: Standing, t: Tree, log: seq<Change>, t': Tree, log': seq<Change>, lost: bool,
                     s: Snapshot)
    returns (next: Standing)
    requires Known(x, at, t, log, lost) && Recalls(x, s, x.lens.available) && at.place.BackToSite?
    requires Files(t') == Changed(Files(t), Put(s)) && log' == log + [Put(s)]
    ensures Known(x, next, t', log', lost) && next.place.BackToLink?
  {
    KnownIsPlaced(x, at, t, log, lost);
    var track := FollowSite(x, at.track, Files(t), log, s, at.track.IsAt(P.UndoSite(true)));
    next := Standing(track, BackToLink);
    assert Placed(x, next, t', log', lost);
  }

  lemma LinkMade(x: Setting, at: Standing, t: Tree, log: seq<Change>, t': Tree, log': seq<Change>, lost: bool)
    returns (next: Standing)
    requires Known(x, at, t, log, lost) && at.place.AtReference?
    requires var c := Change(x.lens.enabled, Some(Symlink(x.lens.available)));
      Files(t') == Changed(Files(t), c) && log' == log + [c]
    ensures Known(x, next, t', log', lost) && next.place.AtLink?
  {
    KnownIsPlaced(x, at, t, log, lost);
    var track := FollowLink(x, at.track, Files(t), log);
    next := Standing(track, AtLink);
    assert Placed(x, next, t', log', lost);
  }

  lemma LinkRestored(x: Setting, at: Standing, t: Tree, log: seq<Change>, t': Tree, log': seq<Change>, lost: bool,
                     stays: bool)
    returns (next: Standing)
    requires Known(x, at, t, log, lost) && at.place.BackToLink? && stays == x.Entry().enabled
    requires var c := Change(x.lens.enabled, None);
      if stays then Files(t') == Files(t) && log' == log else Files(t') == Changed(Files(t), c) && log' == log + [c]
    ensures Known(x, next, t', log', lost) && next.place.BackToShared?
  {
    KnownIsPlaced(x, at, t, log, lost);
    var track := FollowUnlink(x, at.track, Files(t), log, stays);
    next := Standing(track, BackToShared);
    assert Placed(x, next, t', log', lost);
  }

  // ------------------------------------------------------------------ the real paths

  function ArtifactPath(profile: string, f: P.Artifact): Path {
    match f
    case ActiveConf => ["etc", "nginx", "lanpanel", "realip", profile, "active.conf"]
    case TrustedCidrs => ["etc", "nginx", "lanpanel", "realip", profile, "trusted-cidrs.conf"]
    case RefreshService => ["etc", "systemd", "system", "lanpanel-realip-" + profile + "-refresh.service"]
    case RefreshTimer => ["etc", "systemd", "system", "lanpanel-realip-" + profile + "-refresh.timer"]
    case StateJson => ["var", "lib", "lanpanel", "realip", profile, "state.json"]
    case ProfileJson => ["var", "lib", "lanpanel", "realip", profile, "profile.json"]
  }

  function LensOf(profile: string, app: string, includes: Includes): Lens {
    Lens(f => ArtifactPath(profile, f), ReferencePath(profile, app), SiteAvailable(app), SiteEnabled(app), includes)
  }

  lemma ArtifactsApart(profile: string, f: P.Artifact, g: P.Artifact)
    ensures f != g ==> ArtifactPath(profile, f) != ArtifactPath(profile, g)
    ensures ArtifactPath(profile, f) in SharedPaths(profile)
  {
    assert |ArtifactPath(profile, P.RefreshService)[3]| != |ArtifactPath(profile, P.RefreshTimer)[3]|;
    assert "active.conf"[0] == 'a' && "trusted-cidrs.conf"[0] == 't' && "state.json"[0] == 's' &&
      "profile.json"[0] == 'p';
    assert "etc"[0] == 'e' && "var"[0] == 'v';
  }

  lemma LensIsClear(profile: string, app: string, includes: Includes)
    ensures LensOf(profile, app, includes).Clear()
  {
    OwnPaths(profile, app);
    forall f, g: P.Artifact | f != g ensures ArtifactPath(profile, f) != ArtifactPath(profile, g) {
      ArtifactsApart(profile, f, g);
    }
    forall f: P.Artifact ensures ArtifactPath(profile, f) in SharedPaths(profile) {
      ArtifactsApart(profile, f, f);
    }
  }

  lemma SharedIsArtifact(profile: string, p: Path) returns (f: P.Artifact)
    requires p in SharedPaths(profile)
    ensures ArtifactPath(profile, f) == p
  {
    f := if p == ArtifactPath(profile, P.ActiveConf) then P.ActiveConf
         else if p == ArtifactPath(profile, P.TrustedCidrs) then P.TrustedCidrs
         else if p == ArtifactPath(profile, P.RefreshService) then P.RefreshService
         else if p == ArtifactPath(profile, P.RefreshTimer) then P.RefreshTimer
         else if p == ArtifactPath(profile, P.StateJson) then P.StateJson
         else P.ProfileJson;
  }

  ghost function ContentAt(files: seq<Staged>, p: Path): P.Content
    requires p in Paths(files)
  {
    var f :| f in files && f.path == p;
    ContentOf(f)
  }

  /** What the step system calls the plan of a deploy. */
  ghost function PlanOf(profile: string, shared: seq<Staged>, site: Staged, reference: Staged): P.Plan
    requires Paths(shared) == SharedPaths(profile)
  {
    P.Plan(map f | f in P.ARTIFACTS && ArtifactPath(profile, f) in Paths(shared) ::
             ContentAt(shared, ArtifactPath(profile, f)),
           ContentOf(reference), ContentOf(site))
  }

  ghost function SettingOf(profile: string, app: string, includes: Includes, shared: seq<Staged>, site: Staged,
                           reference: Staged, t: Tree, log: seq<Change>): Setting
    requires Paths(shared) == SharedPaths(profile)
  {
    Setting(LensOf(profile, app, includes), profile, PlanOf(profile, shared, site, reference), Files(t), log)
  }

  lemma PlanIsFull(profile: string, shared: seq<Staged>, site: Staged, reference: Staged)
    requires Paths(shared) == SharedPaths(profile)
    ensures P.Full(PlanOf(profile, shared, site, reference).files)
  {
    S.EveryArtifact();
    forall f: P.Artifact ensures ArtifactPath(profile, f) in SharedPaths(profile) {
      ArtifactsApart(profile, f, f);
    }
  }

  lemma StagedIsPlanned(x: Setting, app: string, includes: Includes, shared: seq<Staged>, site: Staged,
                        reference: Staged, file: Staged)
    requires Distinct(shared) && Paths(shared) == SharedPaths(x.profile) && file in shared
    requires x.lens == LensOf(x.profile, app, includes) && x.plan == PlanOf(x.profile, shared, site, reference)
    ensures exists f :: IsArtifact(x, f, file)
  {
    var f := SharedIsArtifact(x.profile, file.path);
    S.EveryArtifact();
    var other :| other in shared && other.path == file.path && ContentAt(shared, file.path) == ContentOf(other);
    var i :| 0 <= i < |shared| && shared[i] == file;
    var j :| 0 <= j < |shared| && shared[j] == other;
    assert i == j;
    assert IsArtifact(x, f, file);
  }

  /** The setting of a deploy at the real paths. */
  lemma SettingIsSound(profile: string, app: string, includes: Includes, shared: seq<Staged>, site: Staged,
                       reference: Staged, t: Tree, log: seq<Change>)
    requires Distinct(shared) && Paths(shared) == SharedPaths(profile) && includes(ContentOf(site)) == Some(profile)
    ensures var x := SettingOf(profile, app, includes, shared, site, reference, t, log);
      x.Sound() && Planned(x, shared)
  {
    var x := SettingOf(profile, app, includes, shared, site, reference, t, log);
    LensIsClear(profile, app, includes);
    PlanIsFull(profile, shared, site, reference);
    forall file | file in shared ensures exists f :: IsArtifact(x, f, file) {
      StagedIsPlanned(x, app, includes, shared, site, reference, file);
    }
    forall f ensures IsAmong(x, f, Paths(shared)) {
      ArtifactsApart(profile, f, f);
    }
  }
}
