/** The shared real-IP profile protocol as a step system.

    Any number of app deploys (at most one in flight for an app), profile refreshes and
    stale-reference sweeps interleave over any number of profiles.  Every host command is one
    atomic step that may fail; each deploy, refresh and sweep works on a profile only while it
    holds that profile's lock. */
module RealIpProtocol {
  import opened Options

  type App = string
  type Profile = string

  /** What a file holds, and its permission bits. */
  datatype Content = Content(text: string, mode: nat)

  /** The shared files of one profile. */
  datatype Artifact = ActiveConf | TrustedCidrs | RefreshService | RefreshTimer | StateJson | ProfileJson

  const ARTIFACTS: set<Artifact> :=
    {ActiveConf, TrustedCidrs, RefreshService, RefreshTimer, StateJson, ProfileJson}

  /** An app's Nginx site file: the profile it includes, if any, and its text. */
  datatype Site = Site(uses: Option<Profile>, body: Content)

  /** What one deploy has staged. */
  datatype Plan = Plan(files: map<Artifact, Content>, reference: Content, body: Content)

  /** What one app sees of one profile: the shared files, its reference, its site and its link. */
  datatype Entry = Entry(files: map<Artifact, Content>, reference: Option<Content>, site: Option<Site>, enabled: bool)

  /** Where a real-IP app deploy stands. */
  datatype Pc =
    | Locked
    | Installing(todo: set<Artifact>)
    | SharedReady
    | SiteSaved
    | SiteWritten
    | RefSaved
    | RefWritten
    | Enabled
    | Committed
    | UndoRef
    | UndoSite(written: bool)
    | UndoLink
    | UndoShared(todo: set<Artifact>)
    | RolledBack

  /** How far a sweep has got with one stale profile. */
  datatype Stage = Entered | Others | Last | Emptying

  /** The process of one app.  `entry` is a history value: what the app saw when it took the lock.
      `clean` turns false when the reference could not be restored. */
  datatype Proc =
    | Deploy(profile: Profile, pc: Pc, plan: Plan, savedFiles: map<Artifact, Content>,
             savedSite: Option<Site>, savedEnabled: bool, savedRef: Option<Content>, clean: bool, entry: Entry)
    | PlainDeploy
    | Sweep(keep: Option<Profile>)
    | SweepHold(keep: Option<Profile>, stale: Profile, stage: Stage)

  /** A refresh lives inside the lock it holds. */
  datatype RefreshStage = Reading | Writing(todo: set<Artifact>) | Restoring(todo: set<Artifact>)

  datatype Holder =
    | ByApp(app: App)
    | ByRefresh(stage: RefreshStage, latest: map<Artifact, Content>, before: map<Artifact, Content>)

  datatype State = State(
    files: map<Profile, map<Artifact, Content>>,
    refs: map<Profile, map<App, Content>>,
    sites: map<App, Site>,
    links: set<App>,
    holder: map<Profile, Holder>,
    procs: map<App, Proc>)

  function FilesOf(s: State, p: Profile): map<Artifact, Content> {
    if p in s.files then s.files[p] else map[]
  }

  function RefsOf(s: State, p: Profile): map<App, Content> {
    if p in s.refs then s.refs[p] else map[]
  }

  function RefOf(s: State, p: Profile, a: App): Option<Content> {
    if a in RefsOf(s, p) then Some(RefsOf(s, p)[a]) else None
  }

  function SiteOf(s: State, a: App): Option<Site> {
    if a in s.sites then Some(s.sites[a]) else None
  }

  function Sees(s: State, p: Profile, a: App): Entry {
    Entry(FilesOf(s, p), RefOf(s, p, a), SiteOf(s, a), a in s.links)
  }

  predicate Full(files: map<Artifact, Content>) {
    forall f: Artifact :: f in files
  }

  predicate Names(site: Option<Site>, p: Profile) {
    site.Some? && site.value.uses == Some(p)
  }

  /** The site snapshot may still be written back at these points. */
  predicate KeepsSite(pc: Pc) {
    pc.SiteSaved? || pc.SiteWritten? || pc.RefSaved? || pc.RefWritten? || pc.Enabled? || pc.UndoRef? || pc.UndoSite?
  }

  /** App `a` depends on profile `p`: its site on disk, or the snapshot it would restore, includes it. */
  predicate Uses(s: State, a: App, p: Profile) {
    Names(SiteOf(s, a), p) ||
    (a in s.procs && s.procs[a].Deploy? && KeepsSite(s.procs[a].pc) && Names(s.procs[a].savedSite, p))
  }

  predicate Holding(s: State, p: Profile, a: App) {
    p in s.holder && s.holder[p] == ByApp(a)
  }

  predicate Covered(s: State, a: App, p: Profile) {
    Full(FilesOf(s, p)) && (RefOf(s, p, a).Some? || Holding(s, p, a))
  }

  /** No dangling include: whatever an app depends on is complete, and protected from the
      last-reference cleanup by a registered reference or by the app's own lock. */
  ghost predicate Safe(s: State) {
    forall a, p :: Uses(s, a, p) ==> Covered(s, a, p)
  }

  const INIT := State(map[], map[], map[], {}, map[], map[])

  // ------------------------------------------------------------------ one deploy

  /** The steps of a deploy, forward and, after a failure before the commit, back. */
  datatype DeployStep =
    | SnapshotShared
    | InstallOne(f: Artifact)
    | SharedDone
    | SnapshotSite
    | WriteSite
    | SnapshotRef
    | WriteRef
    | Enable
    | Commit
    | Fail
    | RestoreRef(ok: bool)
    | RestoreSite
    | RestoreLink
    | RestoreOne(f: Artifact)
    | SharedRestored

  predicate CanDeploy(d: Proc, step: DeployStep)
    requires d.Deploy?
  {
    match step
    case SnapshotShared => d.pc.Locked?
    case InstallOne(f) => d.pc.Installing? && f in d.pc.todo && f in d.plan.files
    case SharedDone => d.pc == Installing({})
    case SnapshotSite => d.pc.SharedReady?
    case WriteSite => d.pc.SiteSaved?
    case SnapshotRef => d.pc.SiteWritten?
    case WriteRef => d.pc.RefSaved?
    case Enable => d.pc.RefWritten?
    case Commit => d.pc.Enabled?
    case Fail => AfterFailure(d.pc).Some?
    case RestoreRef(ok) => d.pc.UndoRef?
    case RestoreSite => d.pc.UndoSite?
    case RestoreLink => d.pc.UndoLink?
    case RestoreOne(f) => d.pc.UndoShared? && f in d.pc.todo
    case SharedRestored => d.pc == UndoShared({})
  }

  /** Where a failure before the commit sends a deploy: the reference first, then the site, then
      the shared files, each only as far as it has been touched. */
  function AfterFailure(pc: Pc): Option<Pc> {
    match pc
    case Locked => Some(RolledBack)
    case Installing(_) => Some(UndoShared(ARTIFACTS))
    case SharedReady => Some(UndoShared(ARTIFACTS))
    case SiteSaved => Some(UndoSite(false))
    case SiteWritten => Some(UndoSite(true))
    case RefSaved => Some(UndoSite(true))
    case RefWritten => Some(UndoRef)
    case Enabled => Some(UndoRef)
    case _ => None
  }

  /** What a step does to the part of the host the deploy works on. */
  function Effect(now: Entry, d: Proc, step: DeployStep): Entry
    requires d.Deploy? && CanDeploy(d, step)
  {
    match step
    case InstallOne(f) => now.(files := now.files[f := d.plan.files[f]])
    case WriteSite => now.(site := Some(Site(Some(d.profile), d.plan.body)))
    case WriteRef => now.(reference := Some(d.plan.reference))
    case Enable => now.(enabled := true)
    case RestoreRef(ok) => if ok then now.(reference := d.savedRef) else now
    case RestoreSite => now.(site := d.savedSite)
    case RestoreLink => now.(enabled := now.enabled && d.savedEnabled)
    case RestoreOne(f) =>
      now.(files := if f in d.savedFiles then now.files[f := d.savedFiles[f]] else now.files - {f})
    case _ => now
  }

  /** What a step does to the deploy's own variables. */
  function Goto(now: Entry, d: Proc, step: DeployStep): (d': Proc)
    requires d.Deploy? && CanDeploy(d, step)
    ensures d'.Deploy? && d'.profile == d.profile && d'.plan == d.plan && d'.entry == d.entry
  {
    match step
    case SnapshotShared => d.(pc := Installing(ARTIFACTS), savedFiles := now.files)
    case InstallOne(f) => d.(pc := Installing(d.pc.todo - {f}))
    case SharedDone => d.(pc := SharedReady)
    case SnapshotSite => d.(pc := SiteSaved, savedSite := now.site, savedEnabled := now.enabled)
    case WriteSite => d.(pc := SiteWritten)
    case SnapshotRef => d.(pc := RefSaved, savedRef := now.reference)
    case WriteRef => d.(pc := RefWritten)
    case Enable => d.(pc := Enabled)
    case Commit => d.(pc := Committed)
    case Fail => d.(pc := AfterFailure(d.pc).value)
    case RestoreRef(ok) => d.(pc := UndoSite(true), clean := ok)
    case RestoreSite => d.(pc := UndoLink)
    case RestoreLink => d.(pc := UndoShared(ARTIFACTS))
    case RestoreOne(f) => d.(pc := UndoShared(d.pc.todo - {f}))
    case SharedRestored => d.(pc := RolledBack)
  }

  // ------------------------------------------------------------------ the whole host

  datatype SweepStep = Check | RemoveRef | RemoveFile(f: Artifact) | Unlock

  datatype RefreshStep = Snapshot | Write(f: Artifact) | Undo | Restore(f: Artifact) | Done

  datatype Event =
    | Begin(a: App, q: Profile, plan: Plan)
    | Deploying(a: App, step: DeployStep)
    | Release(a: App)
    | Finish(a: App)
    | BeginPlain(a: App)
    | WritePlain(a: App, body: Content)
    | EnablePlain(a: App)
    | FinishPlain(a: App)
    | SweepLock(a: App, p: Profile)
    | Sweeping(a: App, sweep: SweepStep)
    | SweepEnd(a: App)
    | Abort(a: App)
    | RefreshLock(p: Profile, latest: map<Artifact, Content>)
    | Refreshing(p: Profile, refresh: RefreshStep)

  predicate InDeploy(s: State, a: App) {
    a in s.procs && s.procs[a].Deploy?
  }

  predicate InPlain(s: State, a: App) {
    a in s.procs && s.procs[a].PlainDeploy?
  }

  predicate InSweep(s: State, a: App) {
    a in s.procs && s.procs[a].SweepHold?
  }

  predicate InRefresh(s: State, p: Profile) {
    p in s.holder && s.holder[p].ByRefresh?
  }

  /** An enabled site on disk names `p`: the configuration dump of `nginx -T` then shows p's marker. */
  predicate Dumped(s: State, p: Profile) {
    exists a :: a in s.links && a in s.sites && s.sites[a].uses == Some(p)
  }

  predicate OthersRegistered(s: State, p: Profile, a: App) {
    exists b :: b in RefsOf(s, p) && b != a
  }

  predicate CanSweep(s: State, a: App, step: SweepStep)
    requires InSweep(s, a)
  {
    var w := s.procs[a];
    match step
    case Check =>
      && w.stage.Entered? && a in RefsOf(s, w.stale)
      && (OthersRegistered(s, w.stale, a) || !Dumped(s, w.stale))
    case RemoveRef => w.stage.Others? || w.stage.Last?
    case RemoveFile(_) => w.stage.Emptying?
    case Unlock => true
  }

  predicate CanRefresh(now: map<Artifact, Content>, h: Holder, step: RefreshStep)
    requires h.ByRefresh?
  {
    match step
    case Snapshot => h.stage.Reading? && Full(now)
    case Write(f) => h.stage.Writing? && f in h.stage.todo && f in h.latest
    case Undo => h.stage.Writing?
    case Restore(f) => h.stage.Restoring? && f in h.stage.todo && f in h.before
    case Done => true
  }

  /** When a step can be taken. */
  predicate Can(s: State, e: Event) {
    match e
    case Begin(a, q, plan) => a !in s.procs && q !in s.holder && Full(plan.files)
    case Deploying(a, step) => InDeploy(s, a) && CanDeploy(s.procs[a], step)
    case Release(a) => InDeploy(s, a) && (s.procs[a].pc.RolledBack? || s.procs[a].pc.Committed?)
    case Finish(a) => InDeploy(s, a) && s.procs[a].pc.Committed?
    case BeginPlain(a) => a !in s.procs
    case WritePlain(a, _) => InPlain(s, a)
    case EnablePlain(a) => InPlain(s, a)
    case FinishPlain(a) => InPlain(s, a) && a in s.sites && s.sites[a].uses == None
    case SweepLock(a, p) => a in s.procs && s.procs[a].Sweep? && s.procs[a].keep != Some(p) && p !in s.holder
    case Sweeping(a, step) => InSweep(s, a) && CanSweep(s, a, step)
    case SweepEnd(a) => a in s.procs && s.procs[a].Sweep?
    case Abort(a) => a in s.procs
    case RefreshLock(p, latest) => p !in s.holder && Full(latest)
    case Refreshing(p, step) => InRefresh(s, p) && CanRefresh(FilesOf(s, p), s.holder[p], step)
  }

  /** Write back what a deploy of `a` into `q` has made of its part of the host. */
  function Put(s: State, q: Profile, a: App, now: Entry, d: Proc): State {
    s.(files := s.files[q := now.files],
       refs := s.refs[q := if now.reference.Some? then RefsOf(s, q)[a := now.reference.value] else RefsOf(s, q) - {a}],
       sites := if now.site.Some? then s.sites[a := now.site.value] else s.sites - {a},
       links := if now.enabled then s.links + {a} else s.links - {a},
       procs := s.procs[a := d])
  }

  function Lock(proc: Proc): Option<Profile> {
    match proc
    case Deploy(q, _, _, _, _, _, _, _, _) => Some(q)
    case SweepHold(_, p, _) => Some(p)
    case _ => None
  }

  /** The process moves on to `next` and gives back whatever lock it held. */
  function Leave(s: State, a: App, next: Option<Proc>): State
    requires a in s.procs
  {
    var freed := match Lock(s.procs[a]) case Some(p) => s.holder - {p} case None => s.holder;
    s.(holder := freed, procs := if next.Some? then s.procs[a := next.value] else s.procs - {a})
  }

  function ApplySweep(s: State, a: App, step: SweepStep): State
    requires InSweep(s, a) && CanSweep(s, a, step)
  {
    var w := s.procs[a];
    match step
    case Check => s.(procs := s.procs[a := w.(stage := if OthersRegistered(s, w.stale, a) then Others else Last)])
    case RemoveRef =>
      s.(refs := s.refs[w.stale := RefsOf(s, w.stale) - {a}],
         procs := s.procs[a := w.(stage := if w.stage.Last? then Emptying else Entered)])
    case RemoveFile(f) => s.(files := s.files[w.stale := FilesOf(s, w.stale) - {f}])
    case Unlock => Leave(s, a, Some(Sweep(w.keep)))
  }

  function ApplyRefresh(s: State, p: Profile, step: RefreshStep): State
    requires InRefresh(s, p) && CanRefresh(FilesOf(s, p), s.holder[p], step)
  {
    var now, h := FilesOf(s, p), s.holder[p];
    match step
    case Snapshot => s.(holder := s.holder[p := h.(stage := Writing(ARTIFACTS), before := now)])
    case Write(f) =>
      s.(files := s.files[p := now[f := h.latest[f]]],
        holder := s.holder[p := h.(stage := Writing(h.stage.todo - {f}))])
    case Undo => s.(holder := s.holder[p := h.(stage := Restoring(ARTIFACTS))])
    case Restore(f) =>
      s.(files := s.files[p := now[f := h.before[f]]],
        holder := s.holder[p := h.(stage := Restoring(h.stage.todo - {f}))])
    case Done => s.(holder := s.holder - {p})
  }

  function StartDeploy(s: State, a: App, q: Profile, plan: Plan): State {
    s.(holder := s.holder[q := ByApp(a)],
       procs := s.procs[a := Deploy(q, Locked, plan, map[], None, false, None, true, Sees(s, q, a))])
  }

  /** The state after a step. */
  function Apply(s: State, e: Event): State
    requires Can(s, e)
  {
    match e
    case Begin(a, q, plan) => StartDeploy(s, a, q, plan)
    case Deploying(a, step) =>
      var d := s.procs[a];
      var now := Sees(s, d.profile, a);
      Put(s, d.profile, a, Effect(now, d, step), Goto(now, d, step))
    case Release(a) => Leave(s, a, None)
    case Finish(a) => Leave(s, a, Some(Sweep(Some(s.procs[a].profile))))
    case BeginPlain(a) => s.(procs := s.procs[a := PlainDeploy])
    case WritePlain(a, body) => s.(sites := s.sites[a := Site(None, body)])
    case EnablePlain(a) => s.(links := s.links + {a})
    case FinishPlain(a) => s.(procs := s.procs[a := Sweep(None)])
    case SweepLock(a, p) =>
      s.(holder := s.holder[p := ByApp(a)], procs := s.procs[a := SweepHold(s.procs[a].keep, p, Entered)])
    case Sweeping(a, step) => ApplySweep(s, a, step)
    case SweepEnd(a) => Leave(s, a, None)
    case Abort(a) => Leave(s, a, None)
    case RefreshLock(p, latest) => s.(holder := s.holder[p := ByRefresh(Reading, latest, map[])])
    case Refreshing(p, step) => ApplyRefresh(s, p, step)
  }
}
