/** What becomes of an app whose deploy was cut short between its site and its reference: the dump of
    the running configuration protects its profile as long as its site is enabled, and only then. */
module RealIpCrashes {
  import opened Options
  import opened RealIpProtocol
  import opened RealIpSafety
  import opened RealIpIsolation

  /** Which app takes the step. */
  function Actor(e: Event): Option<App> {
    match e
    case Begin(a, _, _) => Some(a)
    case Deploying(a, _) => Some(a)
    case Release(a) => Some(a)
    case Finish(a) => Some(a)
    case BeginPlain(a) => Some(a)
    case WritePlain(a, _) => Some(a)
    case EnablePlain(a) => Some(a)
    case FinishPlain(a) => Some(a)
    case SweepLock(a, _) => Some(a)
    case Sweeping(a, _) => Some(a)
    case SweepEnd(a) => Some(a)
    case Abort(a) => Some(a)
    case _ => None
  }

  /** The app is at rest, and its enabled site names `q`. */
  ghost predicate Resting(s: State, a: App, q: Profile) {
    a !in s.procs && a in s.links && Names(SiteOf(s, a), q)
  }

  /** The profile is complete, and nobody is about to take a file away. */
  ghost predicate Whole(s: State, q: Profile) {
    && Full(FilesOf(s, q))
    && (forall b :: InSweep(s, b) && s.procs[b].stale == q ==> !(s.procs[b].stage.Last? || s.procs[b].stage.Emptying?))
    && (forall b ::
          InDeploy(s, b) && s.procs[b].profile == q && !(s.procs[b].pc.Locked? || s.procs[b].pc.RolledBack?) ==>
          Full(s.procs[b].savedFiles))
  }

  /** Steps of another app leave a resting app alone. */
  lemma StaysResting(s: State, s': State, a: App, b: App, q: Profile)
    requires Frame(s, s', b) && a != b && Resting(s, a, q)
    ensures Resting(s', a, q)
  {
  }

  lemma OwnDeployLeavesWhole(s: State, b: App, step: DeployStep, q: Profile)
    requires Isolated(s) && Can(s, Deploying(b, step)) && Whole(s, q) && s.procs[b].profile == q
    ensures
      var s' := Apply(s, Deploying(b, step));
      var d' := s'.procs[b];
      Full(FilesOf(s', q)) && (!(d'.pc.Locked? || d'.pc.RolledBack?) ==> Full(d'.savedFiles))
  {
    var d := s.procs[b];
    var now := Sees(s, q, b);
    assert DeployProgress(s, b);
    PutSees(s, q, b, Effect(now, d, step), Goto(now, d, step));
    if !d.pc.Locked? {
      StepFiles(now, d, step);
    }
  }

  lemma DeployLeavesWhole(s: State, b: App, step: DeployStep, q: Profile)
    requires Isolated(s) && Can(s, Deploying(b, step)) && Whole(s, q)
    ensures Whole(Apply(s, Deploying(b, step)), q)
  {
    if s.procs[b].profile == q {
      OwnDeployLeavesWhole(s, b, step, q);
    }
  }

  /** The sweep of a profile that an enabled site names never gets beyond removing a reference. */
  lemma SweepLeavesWhole(s: State, b: App, step: SweepStep, a: App, q: Profile)
    requires Isolated(s) && Can(s, Sweeping(b, step)) && Whole(s, q) && Resting(s, a, q)
    ensures Whole(Apply(s, Sweeping(b, step)), q)
  {
    assert Dumped(s, q);
  }

  lemma RefreshLeavesWhole(s: State, p: Profile, step: RefreshStep, q: Profile)
    requires Isolated(s) && Can(s, Refreshing(p, step)) && Whole(s, q)
    ensures Whole(Apply(s, Refreshing(p, step)), q)
  {
    assert RefreshOk(s, p);
    RefreshOwn(s, p, step);
  }

  lemma DeployRests(s: State, b: App, step: DeployStep, a: App, q: Profile)
    requires Isolated(s) && Can(s, Deploying(b, step)) && a != b && Resting(s, a, q)
    ensures Resting(Apply(s, Deploying(b, step)), a, q)
  {
    var d := s.procs[b];
    assert Holding(s, d.profile, b);
    PutFrame(s, d.profile, b, Effect(Sees(s, d.profile, b), d, step), Goto(Sees(s, d.profile, b), d, step));
    StaysResting(s, Apply(s, Deploying(b, step)), a, b, q);
  }

  lemma SimpleStepLeavesWhole(s: State, e: Event, q: Profile)
    requires Isolated(s) && Can(s, e) && !e.Deploying? && !e.Sweeping? && !e.Refreshing? && Whole(s, q)
    ensures Whole(Apply(s, e), q)
  {
  }

  lemma SimpleStepRests(s: State, e: Event, a: App, q: Profile)
    requires Can(s, e) && !e.Deploying? && Actor(e) != Some(a) && Resting(s, a, q)
    ensures Resting(Apply(s, e), a, q)
  {
  }

  /** Whatever anybody else does, crashes included, the profile of a resting app with an enabled site
      stays complete. */
  lemma StepLeavesWhole(s: State, e: Event, a: App, q: Profile)
    requires Isolated(s) && Can(s, e) && Actor(e) != Some(a) && Resting(s, a, q) && Whole(s, q)
    ensures Resting(Apply(s, e), a, q) && Whole(Apply(s, e), q)
  {
    match e
    case Deploying(b, step) =>
      DeployRests(s, b, step, a, q);
      DeployLeavesWhole(s, b, step, q);
    case Sweeping(b, step) =>
      SimpleStepRests(s, e, a, q);
      SweepLeavesWhole(s, b, step, a, q);
    case Refreshing(p, step) =>
      SimpleStepRests(s, e, a, q);
      RefreshLeavesWhole(s, p, step, q);
    case _ =>
      SimpleStepRests(s, e, a, q);
      SimpleStepLeavesWhole(s, e, q);
  }

  lemma {:induction false} RunLeavesWhole(s: State, es: seq<Event>, a: App, q: Profile)
    requires Isolated(s) && Run(s, es) && (forall e <- es :: Actor(e) != Some(a)) && Resting(s, a, q) && Whole(s, q)
    ensures Resting(After(s, es), a, q) && Whole(After(s, es), q)
    decreases es
  {
    if es != [] {
      StepLeavesWhole(s, es[0], a, q);
      StepIsolated(s, es[0]);
      RunLeavesWhole(Apply(s, es[0]), es[1..], a, q);
    }
  }

  /** An app that is cut short while exposed leaves a whole profile behind. */
  lemma CutLeavesWhole(s: State, a: App)
    requires Isolated(s) && InDeploy(s, a) && Exposed(s.procs[a])
    ensures Whole(Apply(s, Abort(a)), s.procs[a].profile) && Names(SiteOf(Apply(s, Abort(a)), a), s.procs[a].profile)
  {
    var q := s.procs[a].profile;
    assert DeployProgress(s, a);
    assert Holding(s, q, a);
    forall b | b != a ensures !Holding(s, q, b) {
    }
  }

  /** A badly timed crash of an app whose site was already enabled costs nothing until the app is
      deployed again: whatever everybody else does, the profile its site includes stays complete. */
  lemma EnabledSiteSurvivesCrash(es: seq<Event>, a: App, more: seq<Event>)
    requires Run(INIT, es) && InDeploy(After(INIT, es), a) && Exposed(After(INIT, es).procs[a])
    requires a in After(INIT, es).links
    requires Run(Apply(After(INIT, es), Abort(a)), more) && forall e <- more :: Actor(e) != Some(a)
    ensures
      var q := After(INIT, es).procs[a].profile;
      var s := After(Apply(After(INIT, es), Abort(a)), more);
      a in s.links && Names(SiteOf(s, a), q) && Full(FilesOf(s, q))
  {
    var s := After(INIT, es);
    RunIsolated(INIT, es);
    CutLeavesWhole(s, a);
    StepIsolated(s, Abort(a));
    RunLeavesWhole(Apply(s, Abort(a)), more, a, s.procs[a].profile);
  }

  // ------------------------------------------------------------------ a run in which the guard is missing

  /** Drive a deploy to its commit. */
  lemma ToCommit(es0: seq<Event>, a: App, q: Profile, plan: Plan) returns (es: seq<Event>)
    requires Run(INIT, es0) && a !in After(INIT, es0).procs && q !in After(INIT, es0).holder && Full(plan.files)
    ensures es0 <= es && Driven(After(INIT, es0), es, a, q, plan, Committed)
  {
    var s0 := After(INIT, es0);
    es := ToSite(es0, a, q, plan);
    es := TakeDeploy(s0, es, a, q, plan, SiteWritten, SnapshotRef, RefSaved);
    es := TakeDeploy(s0, es, a, q, plan, RefSaved, WriteRef, RefWritten);
    es := TakeDeploy(s0, es, a, q, plan, RefWritten, Enable, Enabled);
    es := TakeDeploy(s0, es, a, q, plan, Enabled, Commit, Committed);
  }

  /** A deploy that has ended well, its locks given back. */
  ghost predicate Ended(s: State, a: App, q: Profile) {
    && a in s.procs && s.procs[a] == Sweep(Some(q)) && q !in s.holder
    && Names(SiteOf(s, a), q) && a in RefsOf(s, q)
  }

  lemma FinishEnds(s: State, a: App)
    requires Isolated(s) && InDeploy(s, a) && s.procs[a].pc.Committed?
    ensures Ended(Apply(s, Finish(a)), a, s.procs[a].profile)
    ensures forall s0 :: Elsewhere(s0, s, a, s.procs[a].profile) ==>
      Elsewhere(s0, Apply(s, Finish(a)), a, s.procs[a].profile)
  {
    assert DeployProgress(s, a);
    assert RefOf(s, s.procs[a].profile, a) == Sees(s, s.procs[a].profile, a).reference;
  }

  /** Drive a deploy to its end. */
  lemma ToEnd(es0: seq<Event>, a: App, q: Profile, plan: Plan) returns (es: seq<Event>)
    requires Run(INIT, es0) && a !in After(INIT, es0).procs && q !in After(INIT, es0).holder && Full(plan.files)
    ensures Run(INIT, es) && Elsewhere(After(INIT, es0), After(INIT, es), a, q)
    ensures Ended(After(INIT, es), a, q)
  {
    es := ToCommit(es0, a, q, plan);
    RunIsolated(INIT, es);
    FinishEnds(After(INIT, es), a);
    es := Take(INIT, es, Finish(a));
  }

  /** `a` is at rest with a disabled site for `q`, where only `b` is registered, and nobody else has a
      site. */
  ghost predicate Abandoned(s: State, a: App, b: App, q: Profile) {
    && a !in s.procs && a !in s.links && Names(SiteOf(s, a), q)
    && RefsOf(s, q).Keys == {b} && b !in s.procs && (forall p :: p !in s.holder)
    && (forall c :: c != a && c != b ==> SiteOf(s, c).None?)
  }

  lemma OnlyOne(refs: map<App, Content>, b: App)
    requires b in refs && refs - {b} == map[]
    ensures refs.Keys == {b}
  {
    forall c | c in refs ensures c == b {
      assert c != b ==> c in refs - {b};
    }
  }

  /** `b` is registered with `q`, and nothing else is going on. */
  ghost predicate Settled(s: State, b: App, q: Profile) {
    && RefsOf(s, q).Keys == {b} && (forall c :: c !in s.procs) && (forall p :: p !in s.holder)
    && (forall c :: c != b ==> c !in s.links && SiteOf(s, c).None?)
  }

  lemma EndSettles(s: State, b: App, q: Profile)
    requires Elsewhere(INIT, s, b, q) && Ended(s, b, q)
    ensures Settled(Apply(s, SweepEnd(b)), b, q)
  {
    OnlyOne(RefsOf(s, q), b);
    forall c | c != b ensures SiteOf(s, c).None? && c !in s.links && c !in s.procs {
      assert SiteOf(INIT, c).None?;
    }
  }

  lemma ToSettled(b: App, q: Profile, plan: Plan) returns (es: seq<Event>)
    requires Full(plan.files)
    ensures Run(INIT, es) && Settled(After(INIT, es), b, q)
  {
    es := ToEnd([], b, q, plan);
    EndSettles(After(INIT, es), b, q);
    es := Take(INIT, es, SweepEnd(b));
  }

  lemma CutAbandons(s1: State, s: State, a: App, b: App, q: Profile)
    requires Isolated(s) && Elsewhere(s1, s, a, q) && a != b && Settled(s1, b, q)
    requires InDeploy(s, a) && s.procs[a].profile == q && s.procs[a].pc.SiteWritten? &&
      s.procs[a].entry == Sees(s1, q, a)
    ensures Abandoned(Apply(s, Abort(a)), a, b, q)
  {
    assert DeployProgress(s, a);
    var now := Sees(s, q, a);
    assert now.reference.None? && !now.enabled && Names(now.site, q);
    assert a !in RefsOf(s, q) && a !in RefsOf(s1, q);
    assert RefsOf(s, q) - {a} == RefsOf(s, q);
    assert RefsOf(s1, q) - {a} == RefsOf(s1, q);
    assert RefsOf(Apply(s, Abort(a)), q) == RefsOf(s1, q);
    forall c | c != a && c != b ensures SiteOf(Apply(s, Abort(a)), c).None? {
      assert SiteOf(s, c) == SiteOf(s1, c);
    }
  }

  /** One app is registered, another is cut short on its first deploy. */
  lemma ToAbandoned(a: App, b: App, q: Profile, plan: Plan) returns (es: seq<Event>)
    requires Full(plan.files) && a != b
    ensures Run(INIT, es) && Abandoned(After(INIT, es), a, b, q)
  {
    es := ToSettled(b, q, plan);
    var s1 := After(INIT, es);
    es := ToSite(es, a, q, plan);
    RunIsolated(INIT, es);
    CutAbandons(s1, After(INIT, es), a, b, q);
    es := Take(INIT, es, Abort(a));
  }

  /** The last registered app leaves, and its cleanup takes the files away. */
  lemma SweptAway(es0: seq<Event>, a: App, b: App, q: Profile, r: Profile) returns (es: seq<Event>)
    requires Run(INIT, es0) && Unguarded(After(INIT, es0), a, b, q) && Ended(After(INIT, es0), b, r) && a != b && q != r
    ensures Run(INIT, es) && a !in After(INIT, es).procs && a !in After(INIT, es).links
    ensures Names(SiteOf(After(INIT, es), a), q) && !Full(FilesOf(After(INIT, es), q))
  {
    es := Take(INIT, es0, SweepLock(b, q));
    assert forall c :: c in RefsOf(After(INIT, es), q) ==> c in RefsOf(After(INIT, es0), q).Keys;
    assert !OthersRegistered(After(INIT, es), q, b);
    assert !Dumped(After(INIT, es), q) by {
      assert SiteOf(After(INIT, es0), b) == SiteOf(After(INIT, es), b);
      assert forall c :: c in After(INIT, es).sites ==> SiteOf(After(INIT, es0), c).Some?;
    }
    es := Take(INIT, es, Sweeping(b, Check));
    assert After(INIT, es).procs[b].stage.Last?;
    es := Take(INIT, es, Sweeping(b, RemoveRef));
    assert After(INIT, es).procs[b].stage.Emptying?;
    es := Take(INIT, es, Sweeping(b, RemoveFile(ActiveConf)));
  }

  /** Another deploy of `b` leaves `a` as it was. */
  ghost predicate Unguarded(s: State, a: App, b: App, q: Profile) {
    && a !in s.procs && a !in s.links && Names(SiteOf(s, a), q)
    && RefsOf(s, q).Keys == {b} && q !in s.holder
    && (forall c :: c != a && c != b ==> SiteOf(s, c).None?)
  }

  lemma MovingOn(s: State, s': State, a: App, b: App, q: Profile, r: Profile)
    requires Abandoned(s, a, b, q) && Elsewhere(s, s', b, r) && a != b && q != r
    ensures Unguarded(s', a, b, q)
  {
  }

  /** An app whose site is not enabled has no such protection: there is a run in which `a` is cut
      short while exposed, and another app's cleanup then takes the profile of its site away. */
  lemma DisabledSiteLosesItsProfile(a: App, b: App, q: Profile, r: Profile, plan: Plan) returns (es: seq<Event>)
    requires Full(plan.files) && a != b && q != r
    ensures Run(INIT, es) && a !in After(INIT, es).procs && a !in After(INIT, es).links
    ensures Names(SiteOf(After(INIT, es), a), q) && !Full(FilesOf(After(INIT, es), q))
  {
    es := ToAbandoned(a, b, q, plan);
    var s := After(INIT, es);
    es := ToEnd(es, b, r, plan);
    MovingOn(s, After(INIT, es), a, b, q, r);
    es := SweptAway(es, a, b, q, r);
  }
}
