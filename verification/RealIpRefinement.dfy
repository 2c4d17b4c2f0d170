/** What a deploy does to files and links is, seen as the step system sees it, a run of that system:
    every change is the effect of one step, in the order in which the changes are made. */
module RealIpRefinement {
  import opened Options
  import opened HostTree
  import opened FileInstaller
  import opened RealIpLayout
  import opened RealIpSafety
  import opened RealIpIsolation
  import opened RealIpCrashes
  import opened RealIpView
  import opened RealIpTrack
  import P = RealIpProtocol
  import S = RealIpStanding
  import D = RealIpDeploy

  /** A run of the app's own steps, from `s`. */
  ghost predicate OwnRun(s: P.State, es: seq<P.Event>, app: string) {
    Run(s, es) && forall e <- es :: Actor(e) == Some(app)
  }

  /** The event of a move: its step.  Writing the reference once more is none. */
  function EventOf(app: string, m: Move): seq<P.Event> {
    if m.Stepped? then [P.Deploying(app, m.step)] else []
  }

  function StepsOf(app: string, moves: seq<Move>): seq<P.Event> {
    if moves == [] then [] else StepsOf(app, moves[..|moves| - 1]) + EventOf(app, moves[|moves| - 1])
  }

  /** A deploy of `app` that has got as far as these moves. */
  function Events(app: string, profile: string, plan: P.Plan, moves: seq<Move>): seq<P.Event> {
    [P.Begin(app, profile, plan)] + StepsOf(app, moves)
  }

  lemma OneMoreEvent(app: string, profile: string, plan: P.Plan, moves: seq<Move>, k: nat)
    requires k < |moves|
    ensures Events(app, profile, plan, moves[..k + 1]) ==
      Events(app, profile, plan, moves[..k]) + EventOf(app, moves[k])
  {
    assert moves[..k + 1][..k] == moves[..k];
  }

  /** After these events the step system stands where the deploy stands, and sees what is on disk. */
  ghost predicate Mirrors(s: P.State, es: seq<P.Event>, app: string, x: Setting, at: Point) {
    && OwnRun(s, es, app) && app in After(s, es).procs && After(s, es).procs[app] == at.proc
    && P.Sees(After(s, es), x.profile, app) == View(at.files, x.lens)
  }

  /** The step system can take the lock, and sees what is on disk at that time. */
  ghost predicate Idle(s: P.State, app: string, x: Setting) {
    app !in s.procs && x.profile !in s.holder && P.Sees(s, x.profile, app) == x.Entry()
  }

  lemma LockMirrors(s: P.State, app: string, x: Setting)
    requires Idle(s, app, x) && x.Sound()
    ensures Mirrors(s, Events(app, x.profile, x.plan, []), app, x, Point(x.files, x.Begun()))
  {
    RunExtends(s, [], P.Begin(app, x.profile, x.plan));
    assert [] + [P.Begin(app, x.profile, x.plan)] == Events(app, x.profile, x.plan, []);
    assert P.Sees(After(s, Events(app, x.profile, x.plan, [])), x.profile, app) == P.Sees(s, x.profile, app);
  }

  /** One more step, seen by the step system and by the file tree. */
  lemma StepMirrors(s: P.State, es: seq<P.Event>, app: string, x: Setting, at: Point, m: Move)
    requires Mirrors(s, es, app, x, at) && x.Sound() && Proper(x, at) && Fits(x, at, m) && m.Stepped?
    ensures Mirrors(s, es + [P.Deploying(app, m.step)], app, x, Next(x, at, m))
  {
    var now := View(at.files, x.lens);
    MoveIsSeen(x, at, m);
    PutSees(After(s, es), x.profile, app, P.Effect(now, at.proc, m.step), P.Goto(now, at.proc, m.step));
    RunExtends(s, es, P.Deploying(app, m.step));
  }

  lemma MoveMirrors(s: P.State, es: seq<P.Event>, app: string, x: Setting, at: Point, m: Move)
    requires Mirrors(s, es, app, x, at) && x.Sound() && Proper(x, at) && Fits(x, at, m)
    ensures Mirrors(s, es + EventOf(app, m), app, x, Next(x, at, m))
  {
    if m.Stepped? {
      StepMirrors(s, es, app, x, at, m);
    } else {
      assert es + [] == es;
      MoveIsSeen(x, at, m);
    }
  }

  lemma NextPoint(x: Setting, track: Track, k: nat)
    requires Follows(x, track) && k < |track.moves|
    ensures x.Sound() && Proper(x, track.points[k]) && Fits(x, track.points[k], track.moves[k])
    ensures track.points[k + 1] == Next(x, track.points[k], track.moves[k])
  {
    assert PointOk(x, track, k) && PointOk(x, track, k + 1);
  }

  /** At every moment of the record the step system, having taken its steps so far, sees the files and
      links of that moment. */
  lemma {:induction false} MovesMirror(s: P.State, app: string, x: Setting, track: Track, k: nat)
    requires Follows(x, track) && Idle(s, app, x) && k <= |track.moves|
    ensures Mirrors(s, Events(app, x.profile, x.plan, track.moves[..k]), app, x, track.points[k])
    decreases k
  {
    if k == 0 {
      assert PointOk(x, track, 0);
      assert track.moves[..0] == [];
      LockMirrors(s, app, x);
    } else {
      MovesMirror(s, app, x, track, k - 1);
      var es := Events(app, x.profile, x.plan, track.moves[..k - 1]);
      NextPoint(x, track, k - 1);
      OneMoreEvent(app, x.profile, x.plan, track.moves, k - 1);
      MoveMirrors(s, es, app, x, track.points[k - 1], track.moves[k - 1]);
    }
  }

  lemma ReplayMore(t: Tree, changes: seq<Change>, m: Move)
    ensures Replay(t, changes + ChangeOf(m)) == Replay(Replay(t, changes), ChangeOf(m))
  {
    if ChangeOf(m) == [] {
      assert changes + ChangeOf(m) == changes;
    } else {
      var c := ChangeOf(m)[0];
      assert ChangeOf(m) == [c];
      ReplayOneMore(t, changes, c);
      ReplayOne(Replay(t, changes), c);
    }
  }

  lemma NextFiles(x: Setting, track: Track, k: nat)
    requires Follows(x, track) && k < |track.moves|
    ensures track.points[0].files == x.files
    ensures track.points[k + 1].files == Replay(track.points[k].files, ChangeOf(track.moves[k]))
  {
    assert PointOk(x, track, 0);
    NextPoint(x, track, k);
  }

  lemma MoreChanges(moves: seq<Move>, k: nat)
    requires k < |moves|
    ensures Changes(moves[..k + 1]) == Changes(moves[..k]) + ChangeOf(moves[k])
  {
    assert moves[..k + 1] == moves[..k] + [moves[k]];
    ChangesOneMore(moves[..k], moves[k]);
  }

  /** The files and links of a moment are those at the start with the changes so far. */
  lemma {:induction false} FilesAt(x: Setting, track: Track, k: nat)
    requires Follows(x, track) && k <= |track.moves|
    ensures track.points[k].files == Replay(x.files, Changes(track.moves[..k]))
    decreases k
  {
    if k == 0 {
      assert PointOk(x, track, 0);
    } else {
      FilesAt(x, track, k - 1);
      NextFiles(x, track, k - 1);
      MoreChanges(track.moves, k - 1);
      ReplayMore(x.files, Changes(track.moves[..k - 1]), track.moves[k - 1]);
    }
  }

  /** The first `k` moves of a deploy, on disk and in the step system. */
  ghost predicate MirrorsAt(s: P.State, app: string, x: Setting, moves: seq<Move>, k: nat)
    requires k <= |moves|
  {
    && OwnRun(s, Events(app, x.profile, x.plan, moves[..k]), app)
    && var s' := After(s, Events(app, x.profile, x.plan, moves[..k]));
    && P.InDeploy(s', app) && s'.procs[app].profile == x.profile && s'.procs[app].plan == x.plan
    && P.Sees(s', x.profile, app) == View(Replay(x.files, Changes(moves[..k])), x.lens)
  }

  lemma RecordMirrors(s: P.State, app: string, x: Setting, track: Track)
    requires Follows(x, track) && Idle(s, app, x)
    ensures forall k :: 0 <= k <= |track.moves| ==> MirrorsAt(s, app, x, track.moves, k)
  {
    forall k | 0 <= k <= |track.moves| ensures MirrorsAt(s, app, x, track.moves, k) {
      MovesMirror(s, app, x, track, k);
      FilesAt(x, track, k);
      assert PointOk(x, track, k);
    }
  }

  /** How the step system ends such a deploy: the app commits and goes on to its cleanup, gives back its
      lock after a rollback or a failure after the commit, or is cut short while something is still to
      be undone.  Either way it sees what is on disk in the end, and the lock is free again. */
  ghost predicate Ends(s: P.State, app: string, x: Setting, moves: seq<Move>, end: P.Event, r: D.Result, lost: bool,
                       t: Tree)
  {
    var es := Events(app, x.profile, x.plan, moves);
    && OwnRun(s, es, app) && P.InDeploy(After(s, es), app)
    && OwnRun(s, es + [end], app)
    && P.Sees(After(s, es + [end]), x.profile, app) == View(t, x.lens) && x.profile !in After(s, es + [end]).holder
    && var d := After(s, es).procs[app];
    && (if r.Stopped? then d.pc.RolledBack? || (!r.undo.Undone? && Undoing(d.pc)) else d.pc.Committed?)
    && end == (if r.Deployed? then P.Finish(app) else if Undoing(d.pc) then P.Abort(app) else P.Release(app))
    && (d.clean || lost)
  }

  predicate Undoing(pc: P.Pc) {
    pc.UndoSite? || pc.UndoLink? || pc.UndoShared?
  }

  lemma EndMirrors(s: P.State, es: seq<P.Event>, app: string, x: Setting, at: Point, e: P.Event)
    requires Mirrors(s, es, app, x, at) && at.proc.Deploy? && at.proc.profile == x.profile && P.Can(After(s, es), e)
    requires e == P.Finish(app) || e == P.Release(app) || e == P.Abort(app)
    ensures OwnRun(s, es + [e], app) && P.Sees(After(s, es + [e]), x.profile, app) == View(at.files, x.lens)
    ensures x.profile !in After(s, es + [e]).holder
  {
    RunExtends(s, es, e);
  }

  /** The last point fits the result. */
  ghost predicate Final(x: Setting, at: Point, r: D.Result, lost: bool) {
    && at.proc.Deploy? && at.proc.profile == x.profile && (at.proc.clean || lost)
    && if r.Stopped? then at.proc.pc.RolledBack? || (!r.undo.Undone? && Undoing(at.proc.pc)) else at.proc.pc.Committed?
  }

  lemma LastEnds(s: P.State, app: string, x: Setting, moves: seq<Move>, at: Point, r: D.Result, lost: bool, t: Tree)
    returns (end: P.Event)
    requires Mirrors(s, Events(app, x.profile, x.plan, moves), app, x, at) && Final(x, at, r, lost) &&
      at.files == Files(t)
    ensures Ends(s, app, x, moves, end, r, lost, t)
  {
    FilesAreSeen(t, x.lens);
    end := if r.Deployed? then P.Finish(app) else if Undoing(at.proc.pc) then P.Abort(app) else P.Release(app);
    EndMirrors(s, Events(app, x.profile, x.plan, moves), app, x, at, end);
  }

  lemma LastIsOurs(x: Setting, track: Track)
    requires Follows(x, track)
    ensures track.Last().proc.Deploy? && track.Last().proc.profile == x.profile
  {
    LastIsProper(x, track);
  }

  lemma StandsFinally(x: Setting, at: S.Standing, r: D.Result, lost: bool, t: Tree, log: seq<Change>)
    requires S.Known(x, at, t, log, lost)
    requires if r.Stopped? then at.place.Ended(r.undo.Undone?) else at.place.AtCommit?
    ensures Follows(x, at.track) && at.track.points[|at.track.moves|].files == Files(t)
    ensures Final(x, at.track.points[|at.track.moves|], r, lost) && log == x.before + Changes(at.track.moves)
  {
    S.KnownIsPlaced(x, at, t, log, lost);
    LastIsOurs(x, at.track);
  }

  lemma RecordEnds(s: P.State, app: string, x: Setting, at: S.Standing, r: D.Result, lost: bool, t: Tree,
                   log: seq<Change>)
    returns (end: P.Event)
    requires S.Known(x, at, t, log, lost) && Idle(s, app, x)
    requires if r.Stopped? then at.place.Ended(r.undo.Undone?) else at.place.AtCommit?
    ensures Ends(s, app, x, at.track.moves, end, r, lost, t)
    ensures log == x.before + Changes(at.track.moves) && Files(t) == Replay(x.files, Changes(at.track.moves))
    ensures forall k :: 0 <= k <= |at.track.moves| ==> MirrorsAt(s, app, x, at.track.moves, k)
  {
    var moves := at.track.moves;
    StandsFinally(x, at, r, lost, t, log);
    RecordMirrors(s, app, x, at.track);
    assert moves[..|moves|] == moves;
    MovesMirror(s, app, x, at.track, |moves|);
    FilesAt(x, at.track, |moves|);
    end := LastEnds(s, app, x, moves, at.track.points[|moves|], r, lost, t);
  }

  /** Take any state of the step system in which the app is idle, the profile is free and the app sees
      what is on disk.  Every deploy of the app, however it ends, is a run of that system from there:
      the changes of files and links that the host has logged are those of `moves`, in their order;
      each move is one step with the one change it makes or with none, or else writes the reference
      once more as it is; and after every move the app sees there what is on disk then. */
  method DeployAsRun(host: Host, profile: string, app: string, shared: seq<Staged>, site: Staged, reference: Staged,
                     certified: bool, refused: bool, ghost includes: Includes, ghost s: P.State)
    returns (r: D.Result, lost: bool, ghost moves: seq<Move>, ghost end: P.Event)
    requires WellFormed(host.tree) && Distinct(shared) && Paths(shared) == SharedPaths(profile)
    requires site.path == SiteAvailable(app) && reference.path == ReferencePath(profile, app)
    requires includes(ContentOf(site)) == Some(profile)
    requires app !in s.procs && profile !in s.holder
    requires P.Sees(s, profile, app) == View(host.tree, S.LensOf(profile, app, includes))
    modifies host`tree, host`log, host`loaded, host`units, host`timers, host`troubles, host`accepted
    modifies host`blindReloads
    ensures host.log == old(host.log) + Changes(moves)
    ensures Files(host.tree) == Replay(Files(old(host.tree)), Changes(moves))
    ensures var x := S.SettingOf(profile, app, includes, shared, site, reference, old(host.tree), old(host.log));
      && (forall k :: 0 <= k <= |moves| ==> MirrorsAt(s, app, x, moves, k))
      && Ends(s, app, x, moves, end, r, lost, host.tree)
  {
    ghost var x := S.SettingOf(profile, app, includes, shared, site, reference, host.tree, host.log);
    FilesAreSeen(host.tree, x.lens);
    var deploy;
    ghost var at;
    deploy, r, at := D.DeployTracked(host, profile, app, shared, site, reference, certified, refused, includes);
    lost := deploy.referenceLost;
    moves := at.track.moves;
    end := RecordEnds(s, app, x, at, r, lost, host.tree, host.log);
  }
}
