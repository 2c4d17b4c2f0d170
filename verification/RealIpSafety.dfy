/** What every interleaving of the real-IP profile protocol keeps.

    The proof is by rely and guarantee: a step of one app promises the others which parts of the
    host it leaves alone (`Guarantee`), and every app's own invariant (`AppOk`) survives whatever
    respects that promise. */
module RealIpSafety {
  import opened Options
  import opened RealIpProtocol

  // ------------------------------------------------------------------ the invariant

  /** A lock is held by exactly the process that is between taking and releasing it. */
  ghost predicate LocksOk(s: State) {
    forall p, a :: Holding(s, p, a) <==> (a in s.procs && Lock(s.procs[a]) == Some(p))
  }

  /** Before a deploy touches anything: a site naming its profile is registered and complete. */
  ghost predicate EntryOk(d: Proc)
    requires d.Deploy?
  {
    Names(d.entry.site, d.profile) ==> d.entry.reference.Some? && Full(d.entry.files)
  }

  /** If the shared files were not all there at the snapshot, nobody else who counts depends on the
      profile. */
  ghost predicate Alone(s: State, a: App, d: Proc, hurt: set<App>)
    requires d.Deploy?
  {
    !Full(d.savedFiles) ==> forall b :: b != a && b !in hurt ==> !Uses(s, b, d.profile)
  }

  ghost predicate SiteSnapshotOk(d: Proc)
    requires d.Deploy?
  {
    d.savedSite == d.entry.site && d.savedEnabled == d.entry.enabled
  }

  /** The reference is back as it was, or could not be restored and is still registered. */
  ghost predicate RefBack(now: Entry, d: Proc)
    requires d.Deploy?
  {
    if d.clean then now.reference == d.entry.reference else now.reference.Some?
  }

  /** Every file outside `todo` is again what the snapshot says, and no snapshotted file is missing. */
  ghost predicate RestoredBut(now: map<Artifact, Content>, saved: map<Artifact, Content>, todo: set<Artifact>) {
    && (forall f: Artifact :: f !in todo ==> (f in now <==> f in saved))
    && (forall f: Artifact :: f !in todo && f in now && f in saved ==> now[f] == saved[f])
    && (forall f: Artifact :: f in saved ==> f in now)
  }

  /** Every file outside `todo` has its planned content, and no snapshotted file is missing. */
  ghost predicate WrittenBut(now: map<Artifact, Content>, plan: map<Artifact, Content>, saved: map<Artifact, Content>,
                             todo: set<Artifact>)
  {
    && (forall f: Artifact :: f !in todo && f in plan ==> f in now && now[f] == plan[f])
    && (forall f: Artifact :: f in saved ==> f in now)
  }

  function NewSite(d: Proc): Option<Site>
    requires d.Deploy?
  {
    Some(Site(Some(d.profile), d.plan.body))
  }

  /** What the app sees of its profile, compared with what it saw on taking the lock. */
  ghost predicate Progress(now: Entry, d: Proc)
    requires d.Deploy?
  {
    var q, was := d.profile, d.entry;
    && Full(d.plan.files)
    && (!(d.pc.Locked? || d.pc.RolledBack?) ==> d.savedFiles == d.entry.files)
    && (KeepsSite(d.pc) || d.pc.UndoLink? ==> SiteSnapshotOk(d))
    && (!(d.pc.UndoSite? || d.pc.UndoLink? || d.pc.UndoShared? || d.pc.RolledBack?) ==> d.clean)
    && match d.pc
       case Locked => now == was
       case Installing(todo) =>
         WrittenBut(now.files, d.plan.files, d.savedFiles, todo) && now == was.(files := now.files)
       case SharedReady => now == was.(files := d.plan.files)
       case SiteSaved => now == was.(files := d.plan.files)
       case SiteWritten => now == was.(files := d.plan.files, site := NewSite(d))
       case RefSaved => now == was.(files := d.plan.files, site := NewSite(d)) && d.savedRef == was.reference
       case RefWritten =>
         && now == was.(files := d.plan.files, site := NewSite(d), reference := Some(d.plan.reference))
         && d.savedRef == was.reference
       case Enabled =>
         now == Entry(d.plan.files, Some(d.plan.reference), NewSite(d), true) && d.savedRef == was.reference
       case Committed => now == Entry(d.plan.files, Some(d.plan.reference), NewSite(d), true)
       case UndoRef =>
         && now.files == d.plan.files && now.site == NewSite(d) && now.reference == Some(d.plan.reference)
         && d.savedRef == was.reference && (was.enabled ==> now.enabled)
       case UndoSite(written) =>
         && now.files == d.plan.files && RefBack(now, d) && (was.enabled ==> now.enabled)
         && (if written then now.site == NewSite(d) else now.site == was.site && d.clean)
       case UndoLink =>
         now.files == d.plan.files && RefBack(now, d) && now.site == was.site && (was.enabled ==> now.enabled)
       case UndoShared(todo) =>
         && RestoredBut(now.files, d.savedFiles, todo) && RefBack(now, d)
         && now.site == was.site && now.enabled == was.enabled
       case RolledBack =>
         now.files == was.files && RefBack(now, d) && now.site == was.site && now.enabled == was.enabled
  }

  ghost predicate DeployOk(s: State, a: App, d: Proc, hurt: set<App>)
    requires d.Deploy?
  {
    && Progress(Sees(s, d.profile, a), d)
    && (!(d.pc.Locked? || d.pc.RolledBack?) ==> Alone(s, a, d, hurt))
    && (a !in hurt && !d.pc.Committed? ==> EntryOk(d))
  }

  /** A sweep only looks at profiles its app's site does not use; the last reference is really the
      last, and it has gone before the first file goes. */
  ghost predicate SweepOk(s: State, a: App, w: Proc)
    requires w.Sweep? || w.SweepHold?
  {
    && (forall p :: Names(SiteOf(s, a), p) ==> w.keep == Some(p))
    && (w.SweepHold? ==> w.keep != Some(w.stale))
    && (w.SweepHold? && (w.stage.Last? || w.stage.Emptying?) ==>
          forall b :: b != a ==> RefOf(s, w.stale, b).None?)
    && (w.SweepHold? && w.stage.Emptying? ==> RefOf(s, w.stale, a).None?)
  }

  ghost predicate ProcOk(s: State, a: App, proc: Proc, hurt: set<App>) {
    match proc
    case Deploy(_, _, _, _, _, _, _, _, _) => DeployOk(s, a, proc, hurt)
    case PlainDeploy => true
    case Sweep(_) => SweepOk(s, a, proc)
    case SweepHold(_, _, _) => SweepOk(s, a, proc)
  }

  ghost predicate AppOk(s: State, a: App, hurt: set<App>) {
    && (a !in hurt ==> forall p :: Uses(s, a, p) ==> Covered(s, a, p))
    && (a in s.procs ==> ProcOk(s, a, s.procs[a], hurt))
  }

  ghost predicate RefreshOk(s: State, p: Profile) {
    InRefresh(s, p) ==>
      var h := s.holder[p];
      && Full(h.latest)
      && (!h.stage.Reading? ==> Full(h.before) && Full(FilesOf(s, p)))
      && (h.stage.Writing? ==> WrittenBut(FilesOf(s, p), h.latest, h.before, h.stage.todo))
      && (h.stage.Restoring? ==> RestoredBut(FilesOf(s, p), h.before, h.stage.todo))
  }

  /** The invariant.  `hurt` are the apps a badly timed crash has left without protection; they are
      promised nothing, and nobody else is promised less because of them. */
  ghost predicate Inv(s: State, hurt: set<App>) {
    && LocksOk(s)
    && (forall a :: AppOk(s, a, hurt))
    && (forall p :: RefreshOk(s, p))
  }

  // ------------------------------------------------------------------ rely and guarantee

  /** What a step of app `a` never touches: the other apps' sites, links, references, processes and
      locks, and the shared files of profiles it has not locked. */
  ghost predicate Frame(s: State, s': State, a: App) {
    && (forall b :: b != a ==> SiteOf(s', b) == SiteOf(s, b) && (b in s'.links <==> b in s.links))
    && (forall b :: b != a ==> (b in s'.procs <==> b in s.procs))
    && (forall b :: b != a && b in s.procs ==> s'.procs[b] == s.procs[b])
    && (forall p, b :: b != a ==> RefOf(s', p, b) == RefOf(s, p, b))
    && (forall p :: !Holding(s, p, a) ==> FilesOf(s', p) == FilesOf(s, p))
    && (forall p, b :: b != a ==> (Holding(s', p, b) <==> Holding(s, p, b)))
    && (forall p :: InRefresh(s', p) || InRefresh(s, p) ==>
          p in s.holder && p in s'.holder && s'.holder[p] == s.holder[p])
  }

  /** What a step of app `a` promises about what it does touch: no file goes that somebody else
      depends on, and new dependencies and references only where it holds the lock. */
  ghost predicate Promise(s: State, s': State, a: App, hurt: set<App>) {
    && (forall p, b :: b != a && b !in hurt && Uses(s, b, p) && Full(FilesOf(s, p)) ==> Full(FilesOf(s', p)))
    && (forall p :: !Holding(s, p, a) && Uses(s', a, p) ==> Uses(s, a, p))
    && (forall p :: !Holding(s, p, a) && RefOf(s', p, a).Some? ==> RefOf(s, p, a).Some?)
  }

  ghost predicate Guarantee(s: State, s': State, a: App, hurt: set<App>) {
    Frame(s, s', a) && Promise(s, s', a, hurt)
  }

  lemma SameUses(s: State, s': State, a: App, b: App, p: Profile)
    requires Frame(s, s', a) && a != b
    ensures Uses(s', b, p) == Uses(s, b, p)
  {
  }

  /** Whatever keeps the guarantee keeps every other app's invariant. */
  lemma Rely(s: State, s': State, a: App, b: App, hurt: set<App>)
    requires LocksOk(s) && AppOk(s, b, hurt) && Guarantee(s, s', a, hurt) && a != b
    ensures AppOk(s', b, hurt)
  {
    forall p | b !in hurt && Uses(s', b, p) ensures Covered(s', b, p) {
      SameUses(s, s', a, b, p);
      assert Covered(s, b, p);
    }
    if b in s'.procs {
      var proc := s.procs[b];
      if proc.Deploy? {
        RelyDeploy(s, s', a, b, proc, hurt);
      } else if proc.Sweep? || proc.SweepHold? {
        RelySweep(s, s', a, b, proc, hurt);
      }
    }
  }

  lemma RelyDeploy(s: State, s': State, a: App, b: App, d: Proc, hurt: set<App>)
    requires LocksOk(s) && Guarantee(s, s', a, hurt) && a != b
    requires b in s.procs && s.procs[b] == d && d.Deploy? && DeployOk(s, b, d, hurt)
    ensures DeployOk(s', b, d, hurt)
  {
    assert Holding(s, d.profile, b);
    assert !Holding(s, d.profile, a);
    assert Sees(s', d.profile, b) == Sees(s, d.profile, b);
    if Alone(s, b, d, hurt) && !Full(d.savedFiles) {
      forall c | c != b && c !in hurt ensures !Uses(s', c, d.profile) {
        if c != a {
          SameUses(s, s', a, c, d.profile);
        }
      }
    }
  }

  lemma RelySweep(s: State, s': State, a: App, b: App, w: Proc, hurt: set<App>)
    requires LocksOk(s) && Guarantee(s, s', a, hurt) && a != b
    requires b in s.procs && s.procs[b] == w && (w.Sweep? || w.SweepHold?) && SweepOk(s, b, w)
    ensures SweepOk(s', b, w)
  {
    if w.SweepHold? {
      assert Holding(s, w.stale, b);
      assert !Holding(s, w.stale, a);
    }
  }

  /** An app step that keeps its guarantee, its own invariant and the locks keeps everything. */
  lemma AppStep(s: State, s': State, a: App, hurt: set<App>)
    requires Inv(s, hurt) && Guarantee(s, s', a, hurt) && LocksOk(s') && AppOk(s', a, hurt)
    ensures Inv(s', hurt)
  {
    forall b ensures AppOk(s', b, hurt) {
      if b != a {
        Rely(s, s', a, b, hurt);
      }
    }
    forall p ensures RefreshOk(s', p) {
      assert RefreshOk(s, p);
      if InRefresh(s', p) {
        assert !Holding(s, p, a);
      }
    }
  }

  // ------------------------------------------------------------------ one step of a deploy

  lemma EveryArtifact()
    ensures forall f: Artifact :: f in ARTIFACTS
  {
    forall f: Artifact ensures f in ARTIFACTS {
      match f
      case ActiveConf =>
      case TrustedCidrs =>
      case RefreshService =>
      case RefreshTimer =>
      case StateJson =>
      case ProfileJson =>
    }
  }

  /** A deploy with this view and these variables depends on `p`. */
  predicate Needs(now: Entry, d: Proc, p: Profile)
    requires d.Deploy?
  {
    Names(now.site, p) || (KeepsSite(d.pc) && Names(d.savedSite, p))
  }

  /** Every step of a deploy follows the plan of snapshots, writes and restores. */
  lemma StepProgress(now: Entry, d: Proc, step: DeployStep)
    requires d.Deploy? && CanDeploy(d, step) && Progress(now, d)
    ensures Progress(Effect(now, d, step), Goto(now, d, step))
  {
    EveryArtifact();
    if step.SharedRestored? {
      assert now.files == d.savedFiles;
    } else if step.SharedDone? {
      assert now.files == d.plan.files;
    }
  }

  /** A step never makes a deploy depend on another profile, and never takes away a file of a
      profile it depends on. */
  lemma StepNeeds(now: Entry, d: Proc, step: DeployStep, p: Profile)
    requires d.Deploy? && CanDeploy(d, step) && Progress(now, d)
    requires Needs(Effect(now, d, step), Goto(now, d, step), p)
    ensures p != d.profile ==> Needs(now, d, p)
    ensures p == d.profile && EntryOk(d) ==> Full(Effect(now, d, step).files)
  {
  }

  lemma StepFiles(now: Entry, d: Proc, step: DeployStep)
    requires d.Deploy? && CanDeploy(d, step) && Progress(now, d) && Full(now.files)
    requires !d.pc.Locked? && Full(d.savedFiles)
    ensures Full(Effect(now, d, step).files)
  {
  }

  lemma PutSees(s: State, q: Profile, a: App, now: Entry, d: Proc)
    requires d.Deploy?
    ensures Sees(Put(s, q, a, now, d), q, a) == now
    ensures forall p :: Uses(Put(s, q, a, now, d), a, p) <==> Needs(now, d, p)
    ensures forall p :: p != q ==> FilesOf(Put(s, q, a, now, d), p) == FilesOf(s, p)
    ensures forall p :: p != q ==> RefsOf(Put(s, q, a, now, d), p) == RefsOf(s, p)
  {
  }

  lemma PutFrame(s: State, q: Profile, a: App, now: Entry, d: Proc)
    requires Holding(s, q, a) && a in s.procs && d.Deploy?
    ensures Frame(s, Put(s, q, a, now, d), a)
  {
  }

  lemma PutGuarantee(s: State, q: Profile, a: App, now: Entry, d: Proc, hurt: set<App>)
    requires Holding(s, q, a) && a in s.procs && d.Deploy?
    requires forall p :: p != q && Needs(now, d, p) ==> Uses(s, a, p)
    requires (forall b :: b != a && b !in hurt ==> !Uses(s, b, q)) || (Full(FilesOf(s, q)) ==> Full(now.files))
    ensures Guarantee(s, Put(s, q, a, now, d), a, hurt)
  {
    PutSees(s, q, a, now, d);
    PutFrame(s, q, a, now, d);
  }

  lemma DeployStepCovers(s: State, a: App, step: DeployStep, p: Profile, hurt: set<App>)
    requires LocksOk(s) && AppOk(s, a, hurt) && Can(s, Deploying(a, step)) && a !in hurt
    requires Uses(Apply(s, Deploying(a, step)), a, p)
    ensures Covered(Apply(s, Deploying(a, step)), a, p)
  {
    var s' := Apply(s, Deploying(a, step));
    var d := s.procs[a];
    var q, now := d.profile, Sees(s, d.profile, a);
    assert Holding(s, q, a) && Holding(s', q, a);
    PutSees(s, q, a, Effect(now, d, step), Goto(now, d, step));
    StepNeeds(now, d, step, p);
    if p != q {
      assert Covered(s, a, p);
    }
  }

  lemma DeployStepCovered(s: State, a: App, step: DeployStep, hurt: set<App>)
    requires Inv(s, hurt) && Can(s, Deploying(a, step)) && a !in hurt
    ensures forall p :: Uses(Apply(s, Deploying(a, step)), a, p) ==> Covered(Apply(s, Deploying(a, step)), a, p)
  {
    assert AppOk(s, a, hurt);
    forall p | Uses(Apply(s, Deploying(a, step)), a, p) ensures Covered(Apply(s, Deploying(a, step)), a, p) {
      DeployStepCovers(s, a, step, p, hurt);
    }
  }

  lemma DeployStepOk(s: State, a: App, step: DeployStep, hurt: set<App>)
    requires Can(s, Deploying(a, step)) && DeployOk(s, a, s.procs[a], hurt)
    requires
      var s' := Apply(s, Deploying(a, step));
      !s'.procs[a].pc.RolledBack? ==> Alone(s', a, s'.procs[a], hurt)
    ensures
      var s' := Apply(s, Deploying(a, step));
      DeployOk(s', a, s'.procs[a], hurt)
  {
    var d := s.procs[a];
    var now := Sees(s, d.profile, a);
    StepProgress(now, d, step);
    PutSees(s, d.profile, a, Effect(now, d, step), Goto(now, d, step));
  }

  lemma DeployStepLocks(s: State, a: App, step: DeployStep)
    requires LocksOk(s) && Can(s, Deploying(a, step))
    ensures LocksOk(Apply(s, Deploying(a, step)))
  {
  }

  lemma DeployKeeps(s: State, a: App, step: DeployStep, hurt: set<App>)
    requires Inv(s, hurt) && Can(s, Deploying(a, step))
    ensures Inv(Apply(s, Deploying(a, step)), hurt)
  {
    var s' := Apply(s, Deploying(a, step));
    assert AppOk(s', a, hurt) by {
      assert AppOk(s, a, hurt);
      DeployStepAlone(s, a, step, hurt);
      DeployStepOk(s, a, step, hurt);
      if a !in hurt {
        DeployStepCovered(s, a, step, hurt);
      }
    }
    DeployStepGuarantee(s, a, step, hurt);
    DeployStepLocks(s, a, step);
    AppStep(s, s', a, hurt);
  }

  lemma DeployStepGuarantee(s: State, a: App, step: DeployStep, hurt: set<App>)
    requires Inv(s, hurt) && Can(s, Deploying(a, step))
    ensures Guarantee(s, Apply(s, Deploying(a, step)), a, hurt)
  {
    var d := s.procs[a];
    var q, now := d.profile, Sees(s, d.profile, a);
    var now', d' := Effect(now, d, step), Goto(now, d, step);
    assert AppOk(s, a, hurt);
    assert Holding(s, q, a);
    forall p | p != q && Needs(now', d', p) ensures Uses(s, a, p) {
      StepNeeds(now, d, step, p);
    }
    if Full(now.files) && !d.pc.Locked? && !d.pc.RolledBack? && Full(d.savedFiles) {
      StepFiles(now, d, step);
    }
    PutGuarantee(s, q, a, now', d', hurt);
  }

  lemma OthersUse(s: State, q: Profile, a: App, now: Entry, d: Proc, b: App, p: Profile)
    requires b != a
    ensures Uses(Put(s, q, a, now, d), b, p) == Uses(s, b, p)
  {
  }

  lemma AloneStays(s: State, a: App, now: Entry, d: Proc, d': Proc, hurt: set<App>)
    requires d.Deploy? && d'.Deploy? && d'.profile == d.profile && d'.savedFiles == d.savedFiles && Alone(s, a, d, hurt)
    ensures Alone(Put(s, d.profile, a, now, d'), a, d', hurt)
  {
    forall b | b != a ensures Uses(Put(s, d.profile, a, now, d'), b, d.profile) == Uses(s, b, d.profile) {
      OthersUse(s, d.profile, a, now, d', b, d.profile);
    }
  }

  lemma SnapshotAlone(s: State, a: App, now: Entry, d': Proc, hurt: set<App>)
    requires Inv(s, hurt) && d'.Deploy? && d'.savedFiles == FilesOf(s, d'.profile)
    ensures Alone(Put(s, d'.profile, a, now, d'), a, d', hurt)
  {
    if !Full(d'.savedFiles) {
      IncompleteIsUnused(s, d'.profile, hurt);
      forall b | b != a ensures Uses(Put(s, d'.profile, a, now, d'), b, d'.profile) == Uses(s, b, d'.profile) {
        OthersUse(s, d'.profile, a, now, d', b, d'.profile);
      }
    }
  }

  lemma DeployStepAlone(s: State, a: App, step: DeployStep, hurt: set<App>)
    requires Inv(s, hurt) && Can(s, Deploying(a, step))
    ensures
      var s' := Apply(s, Deploying(a, step));
      !s'.procs[a].pc.RolledBack? ==> Alone(s', a, s'.procs[a], hurt)
  {
    var d := s.procs[a];
    var now := Sees(s, d.profile, a);
    assert AppOk(s, a, hurt);
    if step.SnapshotShared? {
      SnapshotAlone(s, a, Effect(now, d, step), Goto(now, d, step), hurt);
    } else if !Goto(now, d, step).pc.RolledBack? {
      AloneStays(s, a, Effect(now, d, step), d, Goto(now, d, step), hurt);
    }
  }

  /** On a profile that is not complete nobody who counts depends. */
  lemma IncompleteIsUnused(s: State, q: Profile, hurt: set<App>)
    requires Inv(s, hurt) && !Full(FilesOf(s, q))
    ensures forall b :: b !in hurt ==> !Uses(s, b, q)
  {
    forall b | b !in hurt ensures !Uses(s, b, q) {
      assert AppOk(s, b, hurt);
      assert Uses(s, b, q) ==> Covered(s, b, q);
    }
  }

  lemma BeginGuarantee(s: State, a: App, q: Profile, plan: Plan, hurt: set<App>)
    requires a !in s.procs && q !in s.holder
    ensures Guarantee(s, StartDeploy(s, a, q, plan), a, hurt)
  {
  }

  /** The acting app's dependencies stay covered when they do not grow and nothing it relies on goes. */
  lemma OwnUses(s: State, s': State, a: App, hurt: set<App>)
    requires AppOk(s, a, hurt) && a !in hurt
    requires forall p :: Uses(s', a, p) ==> Uses(s, a, p)
    requires forall p :: Uses(s', a, p) && Full(FilesOf(s, p)) ==> Full(FilesOf(s', p))
    requires forall p :: RefOf(s, p, a).Some? ==> RefOf(s', p, a).Some?
    requires forall p :: Holding(s, p, a) ==> Holding(s', p, a)
    ensures forall p :: Uses(s', a, p) ==> Covered(s', a, p)
  {
    forall p | Uses(s', a, p) ensures Covered(s', a, p) {
      assert Covered(s, a, p);
    }
  }

  lemma BeginOk(s: State, a: App, q: Profile, plan: Plan, hurt: set<App>)
    requires Can(s, Begin(a, q, plan)) && LocksOk(s) && AppOk(s, a, hurt)
    ensures AppOk(StartDeploy(s, a, q, plan), a, hurt)
  {
    var s' := StartDeploy(s, a, q, plan);
    assert Sees(s', q, a) == Sees(s, q, a);
    if a !in hurt {
      assert Uses(s, a, q) ==> Covered(s, a, q);
      OwnUses(s, s', a, hurt);
    }
  }

  lemma BeginKeeps(s: State, a: App, q: Profile, plan: Plan, hurt: set<App>)
    requires Inv(s, hurt) && Can(s, Begin(a, q, plan))
    ensures Inv(Apply(s, Begin(a, q, plan)), hurt)
  {
    var s' := StartDeploy(s, a, q, plan);
    BeginGuarantee(s, a, q, plan, hurt);
    BeginOk(s, a, q, plan, hurt);
    AppStep(s, s', a, hurt);
  }

  // ------------------------------------------------------------------ leaving, and the other processes

  /** The points at which a deploy must not be cut short: the site already includes the profile,
      nothing is registered there yet, and nothing was registered when the deploy began. */
  predicate Exposed(d: Proc) {
    && d.Deploy? && d.entry.reference.None?
    && (d.pc.SiteWritten? || d.pc.RefSaved? || (d.pc == UndoSite(true) && d.clean))
  }

  lemma LeaveFrame(s: State, a: App, next: Option<Proc>)
    requires LocksOk(s) && a in s.procs
    ensures Frame(s, Leave(s, a, next), a)
  {
    assert Lock(s.procs[a]).Some? ==> Holding(s, Lock(s.procs[a]).value, a);
  }

  lemma LeaveGuarantee(s: State, a: App, next: Option<Proc>, hurt: set<App>)
    requires LocksOk(s) && a in s.procs
    requires next.Some? ==> !next.value.Deploy?
    ensures Guarantee(s, Leave(s, a, next), a, hurt)
  {
    LeaveFrame(s, a, next);
  }

  lemma LeaveLocks(s: State, a: App, next: Option<Proc>)
    requires LocksOk(s) && a in s.procs
    requires next.Some? ==> Lock(next.value).None?
    ensures LocksOk(Leave(s, a, next))
  {
  }

  /** What protects the site of an app that is not exposed is not the lock it gives back. */
  lemma LeaveCovered(s: State, a: App, next: Option<Proc>, hurt: set<App>)
    requires LocksOk(s) && AppOk(s, a, hurt) && a !in hurt && a in s.procs && !Exposed(s.procs[a])
    requires next.Some? ==> !next.value.Deploy?
    ensures forall p :: Uses(Leave(s, a, next), a, p) ==> Covered(Leave(s, a, next), a, p)
  {
    var s', proc := Leave(s, a, next), s.procs[a];
    forall p | Uses(s', a, p) ensures Covered(s', a, p) {
      assert Uses(s, a, p);
      assert Covered(s, a, p);
      if proc.Deploy? && proc.profile == p {
        assert RefOf(s, p, a) == Sees(s, p, a).reference;
      }
    }
  }

  lemma LeaveKeeps(s: State, a: App, next: Option<Proc>, hurt: set<App>)
    requires Inv(s, hurt) && a in s.procs && (Exposed(s.procs[a]) ==> a in hurt)
    requires next.Some? ==> next.value.Sweep? && SweepOk(s, a, next.value)
    ensures Inv(Leave(s, a, next), hurt)
  {
    var s' := Leave(s, a, next);
    assert AppOk(s, a, hurt);
    LeaveGuarantee(s, a, next, hurt);
    LeaveLocks(s, a, next);
    if a !in hurt {
      LeaveCovered(s, a, next, hurt);
    }
    AppStep(s, s', a, hurt);
  }

  lemma FinishKeeps(s: State, a: App, hurt: set<App>)
    requires Inv(s, hurt) && Can(s, Finish(a))
    ensures Inv(Apply(s, Finish(a)), hurt)
  {
    assert AppOk(s, a, hurt);
    LeaveKeeps(s, a, Some(Sweep(Some(s.procs[a].profile))), hurt);
  }

  /** Writing a site without a profile, or the link, or moving on, only gives up dependencies. */
  lemma PlainGuarantee(s: State, a: App, site: Option<Site>, linked: bool, proc: Proc, hurt: set<App>)
    requires !proc.Deploy? && (site.Some? ==> site.value.uses.None?)
    requires a in s.procs ==> !s.procs[a].Deploy?
    ensures Guarantee(s, PlainStep(s, a, site, linked, proc), a, hurt)
    ensures forall p :: Uses(PlainStep(s, a, site, linked, proc), a, p) ==> Uses(s, a, p)
  {
  }

  function PlainStep(s: State, a: App, site: Option<Site>, linked: bool, proc: Proc): State {
    s.(sites := if site.Some? then s.sites[a := site.value] else s.sites,
       links := if linked then s.links + {a} else s.links,
       procs := s.procs[a := proc])
  }

  lemma PlainStepKeeps(s: State, a: App, site: Option<Site>, linked: bool, proc: Proc, hurt: set<App>)
    requires Inv(s, hurt) && (a in s.procs ==> s.procs[a].PlainDeploy?)
    requires site.Some? ==> site.value.uses.None?
    requires proc.PlainDeploy? || (proc == Sweep(None) && a in s.sites && s.sites[a].uses.None?)
    ensures Inv(PlainStep(s, a, site, linked, proc), hurt)
  {
    var s' := PlainStep(s, a, site, linked, proc);
    assert AppOk(s, a, hurt);
    PlainGuarantee(s, a, site, linked, proc, hurt);
    if a !in hurt {
      OwnUses(s, s', a, hurt);
    }
    AppStep(s, s', a, hurt);
  }

  lemma PlainKeeps(s: State, e: Event, a: App, hurt: set<App>)
    requires Inv(s, hurt) && Can(s, e)
    requires e == BeginPlain(a) || (exists body :: e == WritePlain(a, body)) || e == EnablePlain(a) ||
      e == FinishPlain(a)
    ensures Inv(Apply(s, e), hurt)
  {
    match e
    case BeginPlain(_) =>
      PlainStepKeeps(s, a, None, false, PlainDeploy, hurt);
    case WritePlain(_, body) =>
      PlainStepKeeps(s, a, Some(Site(None, body)), false, PlainDeploy, hurt);
      assert s.procs[a := PlainDeploy] == s.procs;
    case EnablePlain(_) =>
      PlainStepKeeps(s, a, None, true, PlainDeploy, hurt);
      assert s.procs[a := PlainDeploy] == s.procs;
    case FinishPlain(_) =>
      PlainStepKeeps(s, a, None, false, Sweep(None), hurt);
  }

  lemma SweepLockGuarantee(s: State, a: App, p: Profile, w: Proc, hurt: set<App>)
    requires p !in s.holder && a in s.procs && s.procs[a].Sweep? && w.SweepHold?
    ensures Guarantee(s, s.(holder := s.holder[p := ByApp(a)], procs := s.procs[a := w]), a, hurt)
  {
  }

  lemma SweepLockLocks(s: State, a: App, p: Profile)
    requires LocksOk(s) && Can(s, SweepLock(a, p))
    ensures LocksOk(Apply(s, SweepLock(a, p)))
  {
  }

  lemma SweepLockKeeps(s: State, a: App, p: Profile, hurt: set<App>)
    requires Inv(s, hurt) && Can(s, SweepLock(a, p))
    ensures Inv(Apply(s, SweepLock(a, p)), hurt)
  {
    var s' := Apply(s, SweepLock(a, p));
    assert AppOk(s, a, hurt);
    SweepLockGuarantee(s, a, p, s'.procs[a], hurt);
    SweepLockLocks(s, a, p);
    if a !in hurt {
      OwnUses(s, s', a, hurt);
    }
    AppStep(s, s', a, hurt);
  }

  /** Whoever depends on a profile is registered there or holds its lock, so once a sweep has
      found no other reference, nobody who counts depends on the profile it empties. */
  lemma EmptyingIsUnused(s: State, a: App, hurt: set<App>)
    requires Inv(s, hurt) && InSweep(s, a) && (s.procs[a].stage.Last? || s.procs[a].stage.Emptying?)
    ensures forall b :: b !in hurt ==> !Uses(s, b, s.procs[a].stale)
  {
    var p := s.procs[a].stale;
    assert AppOk(s, a, hurt);
    assert Holding(s, p, a);
    forall b | b !in hurt ensures !Uses(s, b, p) {
      assert AppOk(s, b, hurt);
      assert Uses(s, b, p) ==> Covered(s, b, p);
    }
  }

  lemma SweepGuarantee(s: State, a: App, step: SweepStep, hurt: set<App>)
    requires InSweep(s, a) && CanSweep(s, a, step) && !step.Unlock? && Holding(s, s.procs[a].stale, a)
    requires step.RemoveFile? ==> forall b :: b !in hurt ==> !Uses(s, b, s.procs[a].stale)
    ensures Guarantee(s, ApplySweep(s, a, step), a, hurt)
  {
    SweepFrame(s, a, step);
  }

  lemma SweepFrame(s: State, a: App, step: SweepStep)
    requires InSweep(s, a) && CanSweep(s, a, step) && !step.Unlock? && Holding(s, s.procs[a].stale, a)
    ensures Frame(s, ApplySweep(s, a, step), a)
  {
  }

  lemma SweepStepOk(s: State, a: App, step: SweepStep, hurt: set<App>)
    requires InSweep(s, a) && CanSweep(s, a, step) && !step.Unlock? && AppOk(s, a, hurt)
    ensures AppOk(ApplySweep(s, a, step), a, hurt)
  {
    var s', w := ApplySweep(s, a, step), s.procs[a];
    forall p | a !in hurt && Uses(s', a, p) ensures Covered(s', a, p) {
      assert Covered(s, a, p);
      assert p != w.stale;
    }
    var w' := s'.procs[a];
    if w'.stage.Last? || w'.stage.Emptying? {
      forall b | b != a ensures RefOf(s', w.stale, b).None? {
        assert step.Check? ==> !OthersRegistered(s, w.stale, a);
        assert RefsOf(s', w.stale) == RefsOf(s, w.stale) - {a} || RefsOf(s', w.stale) == RefsOf(s, w.stale);
        assert !step.Check? ==> RefOf(s, w.stale, b).None?;
      }
      assert w'.stage.Emptying? && step.RemoveRef? ==> RefsOf(s', w.stale) == RefsOf(s, w.stale) - {a};
    }
  }

  lemma SweepLocks(s: State, a: App, step: SweepStep)
    requires InSweep(s, a) && CanSweep(s, a, step) && !step.Unlock? && LocksOk(s)
    ensures LocksOk(ApplySweep(s, a, step))
  {
  }

  lemma SweepKeeps(s: State, a: App, step: SweepStep, hurt: set<App>)
    requires Inv(s, hurt) && Can(s, Sweeping(a, step))
    ensures Inv(Apply(s, Sweeping(a, step)), hurt)
  {
    assert AppOk(s, a, hurt);
    if step.Unlock? {
      LeaveKeeps(s, a, Some(Sweep(s.procs[a].keep)), hurt);
    } else {
      assert Holding(s, s.procs[a].stale, a);
      if step.RemoveFile? {
        EmptyingIsUnused(s, a, hurt);
      }
      SweepGuarantee(s, a, step, hurt);
      SweepLocks(s, a, step);
      SweepStepOk(s, a, step, hurt);
      AppStep(s, ApplySweep(s, a, step), a, hurt);
    }
  }

  // ------------------------------------------------------------------ refreshes

  lemma RefreshOwn(s: State, p: Profile, step: RefreshStep)
    requires InRefresh(s, p) && CanRefresh(FilesOf(s, p), s.holder[p], step) && RefreshOk(s, p)
    ensures RefreshOk(ApplyRefresh(s, p, step), p)
    ensures Full(FilesOf(s, p)) ==> Full(FilesOf(ApplyRefresh(s, p, step), p))
  {
    EveryArtifact();
  }

  /** Moving a lock that no app holds, and writing files of that profile without losing any,
      disturbs no app. */
  lemma ForeignLock(s: State, s': State, p: Profile, hurt: set<App>)
    requires Inv(s, hurt) && s'.refs == s.refs && s'.sites == s.sites && s'.links == s.links && s'.procs == s.procs
    requires forall r :: r != p ==> FilesOf(s', r) == FilesOf(s, r)
    requires forall r :: r != p ==>
      (r in s'.holder <==> r in s.holder) && (r in s.holder ==> s'.holder[r] == s.holder[r])
    requires Full(FilesOf(s, p)) ==> Full(FilesOf(s', p))
    requires p in s.holder ==> s.holder[p].ByRefresh?
    requires p in s'.holder ==> s'.holder[p].ByRefresh?
    requires RefreshOk(s', p)
    ensures Inv(s', hurt)
  {
    forall r, a ensures Holding(s', r, a) == Holding(s, r, a) {
    }
    forall r ensures RefreshOk(s', r) {
      assert RefreshOk(s, r);
    }
    forall a ensures AppOk(s', a, hurt) {
      ForeignApp(s, s', p, a, hurt);
    }
  }

  lemma ForeignApp(s: State, s': State, p: Profile, a: App, hurt: set<App>)
    requires AppOk(s, a, hurt) && LocksOk(s)
    requires s'.refs == s.refs && s'.sites == s.sites && s'.links == s.links && s'.procs == s.procs
    requires forall r :: r != p ==> FilesOf(s', r) == FilesOf(s, r)
    requires forall r :: Holding(s', r, a) == Holding(s, r, a)
    requires Full(FilesOf(s, p)) ==> Full(FilesOf(s', p))
    requires forall b :: !Holding(s, p, b)
    ensures AppOk(s', a, hurt)
  {
    forall r | a !in hurt && Uses(s', a, r) ensures Covered(s', a, r) {
      assert Uses(s, a, r);
      assert Covered(s, a, r);
    }
    if a in s.procs && s.procs[a].Deploy? {
      var d := s.procs[a];
      assert Holding(s, d.profile, a);
      assert Sees(s', d.profile, a) == Sees(s, d.profile, a);
      assert forall b :: Uses(s', b, d.profile) == Uses(s, b, d.profile);
    } else if a in s.procs && s.procs[a].SweepHold? {
      assert forall b :: RefOf(s', s.procs[a].stale, b) == RefOf(s, s.procs[a].stale, b);
    }
  }

  lemma RefreshLockKeeps(s: State, p: Profile, latest: map<Artifact, Content>, hurt: set<App>)
    requires Inv(s, hurt) && Can(s, RefreshLock(p, latest))
    ensures Inv(Apply(s, RefreshLock(p, latest)), hurt)
  {
    ForeignLock(s, Apply(s, RefreshLock(p, latest)), p, hurt);
  }

  lemma RefreshKeeps(s: State, p: Profile, step: RefreshStep, hurt: set<App>)
    requires Inv(s, hurt) && Can(s, Refreshing(p, step))
    ensures Inv(Apply(s, Refreshing(p, step)), hurt)
  {
    assert RefreshOk(s, p);
    RefreshOwn(s, p, step);
    ForeignLock(s, ApplyRefresh(s, p, step), p, hurt);
  }

  // ------------------------------------------------------------------ crashes, and their repair

  lemma InvWeakens(s: State, hurt: set<App>, more: set<App>)
    requires Inv(s, hurt) && hurt <= more
    ensures Inv(s, more)
  {
    forall a ensures AppOk(s, a, more) {
      assert AppOk(s, a, hurt);
    }
  }

  /** The app depends on nothing that is not complete, registered and, for now, locked by it. */
  ghost predicate Sound(s: State, a: App) {
    && (forall p :: Uses(s, a, p) ==> Covered(s, a, p) && Holding(s, p, a))
    && (InDeploy(s, a) ==> s.procs[a].pc.Committed?)
  }

  lemma Heals(s: State, a: App, hurt: set<App>)
    requires Inv(s, hurt) && Sound(s, a)
    ensures Inv(s, hurt - {a})
  {
    forall b ensures AppOk(s, b, hurt - {a}) {
      assert AppOk(s, b, hurt);
      if b != a && InDeploy(s, b) {
        assert Holding(s, s.procs[b].profile, b);
        assert !Holding(s, s.procs[b].profile, a);
      }
    }
  }

  /** A commit makes the app sound, whatever happened to it before. */
  lemma CommittedIsSound(s: State, a: App, hurt: set<App>)
    requires Inv(s, hurt) && InDeploy(s, a) && s.procs[a].pc.Committed?
    ensures Sound(s, a)
  {
    assert AppOk(s, a, hurt);
    assert Holding(s, s.procs[a].profile, a);
    assert RefOf(s, s.procs[a].profile, a) == Sees(s, s.procs[a].profile, a).reference;
  }

  // ------------------------------------------------------------------ all interleavings

  /** Cutting a deploy short (a crash, or a failing site restore) at an exposed point. */
  predicate CutsExposed(s: State, e: Event) {
    e.Abort? && e.a in s.procs && Exposed(s.procs[e.a])
  }

  /** An app is hurt by being cut short while exposed, and healed by its next commit, or by a plain
      deploy that writes a site without a profile. */
  function NextHurt(s: State, e: Event, hurt: set<App>): set<App> {
    if CutsExposed(s, e) then hurt + {e.a}
    else if e.WritePlain? || (e.Deploying? && e.step.Commit?) then hurt - {e.a}
    else hurt
  }

  lemma CutKeeps(s: State, a: App, hurt: set<App>)
    requires Inv(s, hurt) && a in s.procs && (Exposed(s.procs[a]) ==> a in hurt)
    ensures Inv(Apply(s, Abort(a)), hurt)
  {
    LeaveKeeps(s, a, None, hurt);
  }

  lemma CommitHeals(s: State, a: App, hurt: set<App>)
    requires Inv(s, hurt) && Can(s, Deploying(a, Commit))
    ensures Inv(Apply(s, Deploying(a, Commit)), hurt - {a})
  {
    var s' := Apply(s, Deploying(a, Commit));
    DeployKeeps(s, a, Commit, hurt);
    CommittedIsSound(s', a, hurt);
    Heals(s', a, hurt);
  }

  lemma PlainHeals(s: State, a: App, body: Content, hurt: set<App>)
    requires Inv(s, hurt) && Can(s, WritePlain(a, body))
    ensures Inv(Apply(s, WritePlain(a, body)), hurt - {a})
  {
    PlainKeeps(s, WritePlain(a, body), a, hurt);
    Heals(Apply(s, WritePlain(a, body)), a, hurt);
  }

  /** Every step keeps the invariant, and hurts at most the app that is cut short. */
  lemma StepKeeps(s: State, e: Event, hurt: set<App>)
    requires Inv(s, hurt) && Can(s, e)
    ensures Inv(Apply(s, e), NextHurt(s, e, hurt))
  {
    match e
    case Begin(a, q, plan) => BeginKeeps(s, a, q, plan, hurt);
    case Deploying(a, step) =>
      if step.Commit? {
        CommitHeals(s, a, hurt);
      } else {
        DeployKeeps(s, a, step, hurt);
      }
    case Release(a) => LeaveKeeps(s, a, None, hurt);
    case Finish(a) => FinishKeeps(s, a, hurt);
    case BeginPlain(a) => PlainKeeps(s, e, a, hurt);
    case WritePlain(a, body) => PlainHeals(s, a, body, hurt);
    case EnablePlain(a) => PlainKeeps(s, e, a, hurt);
    case FinishPlain(a) => PlainKeeps(s, e, a, hurt);
    case SweepLock(a, p) => SweepLockKeeps(s, a, p, hurt);
    case Sweeping(a, step) => SweepKeeps(s, a, step, hurt);
    case SweepEnd(a) => LeaveKeeps(s, a, None, hurt);
    case Abort(a) =>
      InvWeakens(s, hurt, NextHurt(s, e, hurt));
      CutKeeps(s, a, NextHurt(s, e, hurt));
    case RefreshLock(p, latest) => RefreshLockKeeps(s, p, latest, hurt);
    case Refreshing(p, step) => RefreshKeeps(s, p, step, hurt);
  }

  /** A run: every step can be taken where it is taken. */
  predicate Run(s: State, es: seq<Event>)
    decreases es
  {
    es == [] || (Can(s, es[0]) && Run(Apply(s, es[0]), es[1..]))
  }

  function After(s: State, es: seq<Event>): State
    requires Run(s, es)
    decreases es
  {
    if es == [] then s else After(Apply(s, es[0]), es[1..])
  }

  /** The apps that a run from `s` leaves hurt. */
  function HurtAfter(s: State, es: seq<Event>, hurt: set<App>): set<App>
    requires Run(s, es)
    decreases es
  {
    if es == [] then hurt else HurtAfter(Apply(s, es[0]), es[1..], NextHurt(s, es[0], hurt))
  }

  lemma {:induction false} RunKeeps(s: State, es: seq<Event>, hurt: set<App>)
    requires Inv(s, hurt) && Run(s, es)
    ensures Inv(After(s, es), HurtAfter(s, es, hurt))
    decreases es
  {
    if es != [] {
      StepKeeps(s, es[0], hurt);
      RunKeeps(Apply(s, es[0]), es[1..], NextHurt(s, es[0], hurt));
    }
  }

  /** No dangling include, leaving the hurt apps aside. */
  ghost predicate SafeBut(s: State, hurt: set<App>) {
    forall a, p :: a !in hurt && Uses(s, a, p) ==> Covered(s, a, p)
  }

  lemma InvIsSafe(s: State, hurt: set<App>)
    requires Inv(s, hurt)
    ensures SafeBut(s, hurt)
  {
    forall a, p | a !in hurt && Uses(s, a, p) ensures Covered(s, a, p) {
      assert AppOk(s, a, hurt);
    }
  }

  /** In every interleaving from an empty host, crashes at any point included: no site and no site
      snapshot has a dangling include, except those of apps whose own deploy was cut short while
      exposed and that have not committed since. */
  lemma NoDanglingInclude(es: seq<Event>)
    requires Run(INIT, es)
    ensures SafeBut(After(INIT, es), HurtAfter(INIT, es, {}))
  {
    RunKeeps(INIT, es, {});
    InvIsSafe(After(INIT, es), HurtAfter(INIT, es, {}));
  }

  /** No deploy of the run is cut short while it is exposed. */
  predicate WellTimed(s: State, es: seq<Event>)
    requires Run(s, es)
    decreases es
  {
    es == [] || (!CutsExposed(s, es[0]) && WellTimed(Apply(s, es[0]), es[1..]))
  }

  lemma {:induction false} NobodyHurt(s: State, es: seq<Event>)
    requires Run(s, es) && WellTimed(s, es)
    ensures HurtAfter(s, es, {}) == {}
    decreases es
  {
    if es != [] {
      assert NextHurt(s, es[0], {}) == {};
      NobodyHurt(Apply(s, es[0]), es[1..]);
    }
  }

  /** Without badly timed crashes everybody is safe. */
  lemma WellTimedIsSafe(es: seq<Event>)
    requires Run(INIT, es) && WellTimed(INIT, es)
    ensures Safe(After(INIT, es))
  {
    NoDanglingInclude(es);
    NobodyHurt(INIT, es);
  }

  /** The exact condition: cutting an app short keeps everybody safe who was if and only if the app
      is not exposed at that point. */
  lemma AbortIsSafeIff(s: State, a: App, hurt: set<App>)
    requires Inv(s, hurt) && a in s.procs && a !in hurt
    ensures SafeBut(Apply(s, Abort(a)), hurt) <==> !Exposed(s.procs[a])
    ensures SafeBut(Apply(s, Abort(a)), hurt + {a})
  {
    var s', d := Apply(s, Abort(a)), s.procs[a];
    assert AppOk(s, a, hurt);
    InvWeakens(s, hurt, hurt + {a});
    CutKeeps(s, a, hurt + {a});
    InvIsSafe(s', hurt + {a});
    if Exposed(d) {
      var now := Sees(s, d.profile, a);
      assert Names(SiteOf(s', a), d.profile) && RefOf(s', d.profile, a).None?;
      assert !Holding(s', d.profile, a);
      assert Uses(s', a, d.profile) && !Covered(s', a, d.profile);
    } else {
      CutKeeps(s, a, hurt);
      InvIsSafe(s', hurt);
    }
  }
}
