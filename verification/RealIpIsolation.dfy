/** Isolation by the profile lock, in every interleaving and with every crash, and a run that shows
    why the safety theorem must exclude badly timed crashes. */
module RealIpIsolation {
  import opened Options
  import opened RealIpProtocol
  import opened RealIpSafety

  /** Locks, every deploy's progress, every refresh's progress. */
  ghost predicate Isolated(s: State) {
    && LocksOk(s)
    && (forall a :: DeployProgress(s, a))
    && (forall p :: RefreshOk(s, p))
  }

  ghost predicate DeployProgress(s: State, a: App) {
    InDeploy(s, a) ==> Progress(Sees(s, s.procs[a].profile, a), s.procs[a])
  }

  /** Whatever another app's step leaves alone includes everything a deploy has recorded about. */
  lemma FrameKeeps(s: State, s': State, a: App)
    requires Isolated(s) && Frame(s, s', a) && LocksOk(s') && DeployProgress(s', a)
    ensures Isolated(s')
  {
    forall b ensures DeployProgress(s', b) {
      assert DeployProgress(s, b);
      if b != a && InDeploy(s', b) {
        var q := s.procs[b].profile;
        assert Holding(s, q, b);
        assert !Holding(s, q, a);
        assert Sees(s', q, b) == Sees(s, q, b);
      }
    }
    forall p ensures RefreshOk(s', p) {
      assert RefreshOk(s, p);
      assert InRefresh(s', p) ==> !Holding(s, p, a);
    }
  }

  lemma DeployIsolated(s: State, a: App, step: DeployStep)
    requires Isolated(s) && Can(s, Deploying(a, step))
    ensures Isolated(Apply(s, Deploying(a, step)))
  {
    var d := s.procs[a];
    var now := Sees(s, d.profile, a);
    assert DeployProgress(s, a);
    assert Holding(s, d.profile, a);
    StepProgress(now, d, step);
    PutSees(s, d.profile, a, Effect(now, d, step), Goto(now, d, step));
    PutFrame(s, d.profile, a, Effect(now, d, step), Goto(now, d, step));
    DeployStepLocks(s, a, step);
    FrameKeeps(s, Apply(s, Deploying(a, step)), a);
  }

  lemma BeginIsolated(s: State, a: App, q: Profile, plan: Plan)
    requires Isolated(s) && Can(s, Begin(a, q, plan))
    ensures Isolated(Apply(s, Begin(a, q, plan)))
  {
    var s' := StartDeploy(s, a, q, plan);
    BeginGuarantee(s, a, q, plan, {});
    assert Sees(s', q, a) == Sees(s, q, a);
    FrameKeeps(s, s', a);
  }

  lemma LeaveIsolated(s: State, a: App, next: Option<Proc>)
    requires Isolated(s) && a in s.procs && (next.Some? ==> next.value.Sweep?)
    ensures Isolated(Leave(s, a, next))
  {
    LeaveFrame(s, a, next);
    LeaveLocks(s, a, next);
    FrameKeeps(s, Leave(s, a, next), a);
  }

  lemma PlainIsolated(s: State, a: App, site: Option<Site>, linked: bool, proc: Proc)
    requires Isolated(s) && (a in s.procs ==> s.procs[a].PlainDeploy?)
    requires (proc.PlainDeploy? || proc.Sweep?) && (site.Some? ==> site.value.uses.None?)
    ensures Isolated(PlainStep(s, a, site, linked, proc))
  {
    PlainGuarantee(s, a, site, linked, proc, {});
    FrameKeeps(s, PlainStep(s, a, site, linked, proc), a);
  }

  lemma SweepLockIsolated(s: State, a: App, p: Profile)
    requires Isolated(s) && Can(s, SweepLock(a, p))
    ensures Isolated(Apply(s, SweepLock(a, p)))
  {
    var s' := Apply(s, SweepLock(a, p));
    SweepLockGuarantee(s, a, p, s'.procs[a], {});
    SweepLockLocks(s, a, p);
    FrameKeeps(s, s', a);
  }

  lemma SweepIsolated(s: State, a: App, step: SweepStep)
    requires Isolated(s) && Can(s, Sweeping(a, step)) && !step.Unlock?
    ensures Isolated(Apply(s, Sweeping(a, step)))
  {
    assert Holding(s, s.procs[a].stale, a);
    SweepFrame(s, a, step);
    SweepLocks(s, a, step);
    FrameKeeps(s, ApplySweep(s, a, step), a);
  }

  /** A step of a refresh touches nothing but its own profile's files and lock. */
  lemma RefreshFrame(s: State, s': State, p: Profile)
    requires Isolated(s) && s'.refs == s.refs && s'.sites == s.sites && s'.links == s.links && s'.procs == s.procs
    requires forall r :: r != p ==> FilesOf(s', r) == FilesOf(s, r)
    requires forall r :: r != p ==>
      (r in s'.holder <==> r in s.holder) && (r in s.holder ==> s'.holder[r] == s.holder[r])
    requires p in s.holder ==> s.holder[p].ByRefresh?
    requires p in s'.holder ==> s'.holder[p].ByRefresh?
    requires RefreshOk(s', p)
    ensures Isolated(s')
  {
    forall r, a ensures Holding(s', r, a) == Holding(s, r, a) {
    }
    forall a ensures DeployProgress(s', a) {
      assert DeployProgress(s, a);
      if InDeploy(s, a) {
        assert Holding(s, s.procs[a].profile, a);
        assert Sees(s', s.procs[a].profile, a) == Sees(s, s.procs[a].profile, a);
      }
    }
    forall r ensures RefreshOk(s', r) {
      assert RefreshOk(s, r);
    }
  }

  lemma RefreshIsolated(s: State, p: Profile, step: RefreshStep)
    requires Isolated(s) && Can(s, Refreshing(p, step))
    ensures Isolated(Apply(s, Refreshing(p, step)))
  {
    assert RefreshOk(s, p);
    RefreshOwn(s, p, step);
    RefreshFrame(s, ApplyRefresh(s, p, step), p);
  }

  lemma StepIsolated(s: State, e: Event)
    requires Isolated(s) && Can(s, e)
    ensures Isolated(Apply(s, e))
  {
    match e
    case Begin(a, q, plan) => BeginIsolated(s, a, q, plan);
    case Deploying(a, step) => DeployIsolated(s, a, step);
    case Release(a) => LeaveIsolated(s, a, None);
    case Finish(a) => LeaveIsolated(s, a, Some(Sweep(Some(s.procs[a].profile))));
    case BeginPlain(a) => PlainIsolated(s, a, None, false, PlainDeploy);
    case WritePlain(a, body) =>
      PlainIsolated(s, a, Some(Site(None, body)), false, PlainDeploy);
      assert s.procs[a := PlainDeploy] == s.procs;
    case EnablePlain(a) =>
      PlainIsolated(s, a, None, true, PlainDeploy);
      assert s.procs[a := PlainDeploy] == s.procs;
    case FinishPlain(a) => PlainIsolated(s, a, None, false, Sweep(None));
    case SweepLock(a, p) => SweepLockIsolated(s, a, p);
    case Sweeping(a, step) =>
      if step.Unlock? {
        LeaveIsolated(s, a, Some(Sweep(s.procs[a].keep)));
      } else {
        SweepIsolated(s, a, step);
      }
    case SweepEnd(a) => LeaveIsolated(s, a, None);
    case Abort(a) => LeaveIsolated(s, a, None);
    case RefreshLock(p, latest) => RefreshFrame(s, Apply(s, e), p);
    case Refreshing(p, step) => RefreshIsolated(s, p, step);
  }

  lemma {:induction false} RunIsolated(s: State, es: seq<Event>)
    requires Isolated(s) && Run(s, es)
    ensures Isolated(After(s, es))
    decreases es
  {
    if es != [] {
      StepIsolated(s, es[0]);
      RunIsolated(Apply(s, es[0]), es[1..]);
    }
  }

  /** Whatever the other processes did meanwhile, crashes included, a deploy that has rolled back
      leaves the shared files, its reference, its site and its link as they were when it took the
      lock; only a reference whose own restore failed may differ, and then it is still registered. */
  lemma RollbackIsExact(es: seq<Event>, a: App)
    requires Run(INIT, es)
    ensures
      var s := After(INIT, es);
      InDeploy(s, a) && s.procs[a].pc.RolledBack? ==>
        var now, was := Sees(s, s.procs[a].profile, a), s.procs[a].entry;
        && now.(reference := was.reference) == was
        && (if s.procs[a].clean then now == was else now.reference.Some?)
  {
    RunIsolated(INIT, es);
    assert DeployProgress(After(INIT, es), a);
  }

  /** A refresh that has restored every artifact leaves the profile as its snapshot saw it, and one
      that has written every artifact leaves exactly the new contents. */
  lemma RefreshIsExact(es: seq<Event>, p: Profile)
    requires Run(INIT, es)
    ensures
      var s := After(INIT, es);
      && (InRefresh(s, p) && s.holder[p].stage == Restoring({}) ==> FilesOf(s, p) == s.holder[p].before)
      && (InRefresh(s, p) && s.holder[p].stage == Writing({}) ==> FilesOf(s, p) == s.holder[p].latest)
  {
    RunIsolated(INIT, es);
    assert RefreshOk(After(INIT, es), p);
  }

  /** While a process works on a profile, no other process and no refresh does. */
  lemma MutualExclusion(es: seq<Event>, a: App, p: Profile)
    requires Run(INIT, es)
    ensures
      var s := After(INIT, es);
      a in s.procs && Lock(s.procs[a]) == Some(p) ==>
        !InRefresh(s, p) && forall b :: b in s.procs && b != a ==> Lock(s.procs[b]) != Some(p)
  {
    RunIsolated(INIT, es);
    var s := After(INIT, es);
    if a in s.procs && Lock(s.procs[a]) == Some(p) {
      assert Holding(s, p, a);
      forall b | b in s.procs && b != a ensures Lock(s.procs[b]) != Some(p) {
        assert !Holding(s, p, b);
      }
    }
  }

  /** After the commit nothing is rolled back: whatever happened before, to this app or another, and
      whatever ends the deploy, the shared files, the reference, the site and the link are the ones
      it installed, and the app is protected without its lock. */
  lemma CommitStands(es: seq<Event>, a: App, next: Event)
    requires Run(INIT, es)
    requires InDeploy(After(INIT, es), a) && After(INIT, es).procs[a].pc.Committed?
    requires Can(After(INIT, es), next) && (next == Release(a) || next == Finish(a) || next == Abort(a))
    ensures
      var s := After(INIT, es);
      var q := s.procs[a].profile;
      var s' := Apply(s, next);
      && Sees(s', q, a) == Entry(s.procs[a].plan.files, Some(s.procs[a].plan.reference), NewSite(s.procs[a]), true)
      && Full(FilesOf(s', q)) && !Holding(s', q, a) && Uses(s', a, q) && Covered(s', a, q)
  {
    RunIsolated(INIT, es);
    var s := After(INIT, es);
    assert DeployProgress(s, a);
    assert Sees(Apply(s, next), s.procs[a].profile, a).reference.Some?;
  }

  // ------------------------------------------------------------------ driving a deploy

  lemma {:induction false} RunExtends(s: State, es: seq<Event>, e: Event)
    requires Run(s, es) && Can(After(s, es), e)
    ensures Run(s, es + [e]) && After(s, es + [e]) == Apply(After(s, es), e)
    decreases es
  {
    if es == [] {
      assert Run(Apply(s, e), []);
    } else {
      assert (es + [e])[1..] == es[1..] + [e];
      RunExtends(Apply(s, es[0]), es[1..], e);
    }
  }

  lemma Take(s: State, es: seq<Event>, e: Event) returns (es': seq<Event>)
    requires Run(s, es) && Can(After(s, es), e)
    ensures Run(s, es') && After(s, es') == Apply(After(s, es), e) && es' == es + [e]
  {
    RunExtends(s, es, e);
    es' := es + [e];
  }

  /** Nothing has changed but what belongs to `a` or to the profile `q`, and in `q` only the
      reference of `a` has. */
  ghost predicate Elsewhere(s: State, s': State, a: App, q: Profile) {
    && (forall b :: b != a ==> SiteOf(s', b) == SiteOf(s, b) && (b in s'.links <==> b in s.links))
    && (forall b :: b != a ==> (b in s'.procs <==> b in s.procs))
    && (forall p :: p != q ==> FilesOf(s', p) == FilesOf(s, p) && RefsOf(s', p) == RefsOf(s, p))
    && (forall p :: p != q ==> (p in s'.holder <==> p in s.holder))
    && RefsOf(s', q) - {a} == RefsOf(s, q) - {a}
  }

  lemma PutRefs(s: State, a: App, q: Profile, now: Entry, d: Proc)
    ensures RefsOf(Put(s, q, a, now, d), q) - {a} == RefsOf(s, q) - {a}
  {
  }

  lemma PutElsewhere(s0: State, s: State, a: App, q: Profile, now: Entry, d: Proc)
    requires Elsewhere(s0, s, a, q)
    ensures Elsewhere(s0, Put(s, q, a, now, d), a, q)
  {
    PutRefs(s, a, q, now, d);
  }

  /** A deploy of `a` into `q` with this plan that began in `s0` and has got to `pc`. */
  ghost predicate Driven(s0: State, es: seq<Event>, a: App, q: Profile, plan: Plan, pc: Pc) {
    && Run(INIT, es) && InDeploy(After(INIT, es), a) && Elsewhere(s0, After(INIT, es), a, q)
    && var d := After(INIT, es).procs[a];
       d.profile == q && d.entry == Sees(s0, q, a) && d.plan == plan && d.pc == pc
  }

  /** One more step of it. */
  lemma TakeDeploy(s0: State, es: seq<Event>, a: App, q: Profile, plan: Plan, pc: Pc, step: DeployStep, next: Pc)
    returns (es': seq<Event>)
    requires Driven(s0, es, a, q, plan, pc) && CanDeploy(After(INIT, es).procs[a], step)
    requires Goto(Sees(After(INIT, es), q, a), After(INIT, es).procs[a], step).pc == next
    ensures es <= es' && Driven(s0, es', a, q, plan, next)
  {
    var s, now := After(INIT, es), Sees(After(INIT, es), q, a);
    PutElsewhere(s0, s, a, q, Effect(now, s.procs[a], step), Goto(now, s.procs[a], step));
    es' := Take(INIT, es, Deploying(a, step));
  }

  /** Install the artifacts in `todo`. */
  lemma ToInstalled(s0: State, es0: seq<Event>, a: App, q: Profile, plan: Plan, todo: set<Artifact>)
    returns (es: seq<Event>)
    requires Driven(s0, es0, a, q, plan, Installing(todo)) && Full(plan.files)
    ensures es0 <= es && Driven(s0, es, a, q, plan, Installing({}))
    decreases todo
  {
    if todo == {} {
      es := es0;
    } else {
      var f :| f in todo;
      es := TakeDeploy(s0, es0, a, q, plan, Installing(todo), InstallOne(f), Installing(todo - {f}));
      es := ToInstalled(s0, es, a, q, plan, todo - {f});
    }
  }

  lemma BeginElsewhere(s: State, a: App, q: Profile, plan: Plan)
    ensures Elsewhere(s, StartDeploy(s, a, q, plan), a, q)
  {
  }

  lemma BeginDriven(es0: seq<Event>, a: App, q: Profile, plan: Plan) returns (es: seq<Event>)
    requires Run(INIT, es0) && a !in After(INIT, es0).procs && q !in After(INIT, es0).holder && Full(plan.files)
    ensures es0 <= es && Driven(After(INIT, es0), es, a, q, plan, Locked)
  {
    BeginElsewhere(After(INIT, es0), a, q, plan);
    es := Take(INIT, es0, Begin(a, q, plan));
  }

  /** Drive a deploy, from wherever its profile is free, to the point where its shared files are
      written. */
  lemma ToShared(es0: seq<Event>, a: App, q: Profile, plan: Plan) returns (es: seq<Event>)
    requires Run(INIT, es0) && a !in After(INIT, es0).procs && q !in After(INIT, es0).holder && Full(plan.files)
    ensures es0 <= es && Driven(After(INIT, es0), es, a, q, plan, SharedReady)
  {
    var s0 := After(INIT, es0);
    es := BeginDriven(es0, a, q, plan);
    es := TakeDeploy(s0, es, a, q, plan, Locked, SnapshotShared, Installing(ARTIFACTS));
    es := ToInstalled(s0, es, a, q, plan, ARTIFACTS);
    es := TakeDeploy(s0, es, a, q, plan, Installing({}), SharedDone, SharedReady);
  }

  /** And on to the point where its site is written. */
  lemma ToSite(es0: seq<Event>, a: App, q: Profile, plan: Plan) returns (es: seq<Event>)
    requires Run(INIT, es0) && a !in After(INIT, es0).procs && q !in After(INIT, es0).holder && Full(plan.files)
    ensures es0 <= es && Driven(After(INIT, es0), es, a, q, plan, SiteWritten)
  {
    var s0 := After(INIT, es0);
    es := ToShared(es0, a, q, plan);
    es := TakeDeploy(s0, es, a, q, plan, SharedReady, SnapshotSite, SiteSaved);
    es := TakeDeploy(s0, es, a, q, plan, SiteSaved, WriteSite, SiteWritten);
  }

  // ------------------------------------------------------------------ a badly timed crash

  /** Without the timing condition the safety theorem is false: a crash between writing the site and
      registering the reference leaves a site whose profile no reference protects. */
  lemma CrashLeavesUnprotectedSite(a: App, q: Profile, plan: Plan) returns (es: seq<Event>)
    requires Full(plan.files)
    ensures Run(INIT, es) && !Safe(After(INIT, es))
    ensures Names(SiteOf(After(INIT, es), a), q) && a !in After(INIT, es).procs
  {
    es := ToSite([], a, q, plan);
    RunIsolated(INIT, es);
    var s := After(INIT, es);
    es := Take(INIT, es, Abort(a));
    var s', d := After(INIT, es), s.procs[a];
    assert DeployProgress(s, a);
    assert RefOf(s, q, a) == Sees(s, q, a).reference;
    assert !Holding(s', q, a);
    assert Uses(s', a, q) && !Covered(s', a, q);
  }
}
