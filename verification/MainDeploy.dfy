/** One run of the main deploy, as a function of what the host answers. */
module MainDeploy {
  import opened Options
  import opened Checkpoint

  /** How a piece of host work goes.  `Absent`: the command itself is not there yet.  `Killed`: the
      process dies before anything more is saved. */
  datatype Work = Done | Broken | Absent | Killed

  /** The work of one phase and whether its first and second save succeed. */
  datatype Turn = Turn(work: Work, saved: bool, savedAgain: bool)

  /** Everything a run gets from outside: the configuration and the answers of the host. */
  datatype Script = Script(
    config: Digest,
    loads: bool,
    digestComputed: bool,
    digestFailureSaved: bool,
    preflight: Work,
    preflightSaved: bool,
    turns: map<Mark, Turn>,
    paths: seq<string>,
    activations: seq<string>,
    restart: Work,
    onboardingPlan: Work,
    finalizeSaved: bool)
  {
    /** A process that gets no answer has died waiting. */
    function Answer(m: Mark): Turn {
      if m in turns then turns[m] else Turn(Killed, false, false)
    }
  }

  datatype Event = Ran(mark: Mark) | Restarted | KeyCreated

  datatype End =
    | Applied
    | NotLoaded
    | NoDigest
    | PreflightFailed
    | Failed(mark: Mark)
    | MissingPrerequisites(marks: seq<Mark>)
    | NotRecorded(mark: Mark)
    | NotFinalized
    | Died

  datatype Run = Run(memory: Record, disk: Record, restarted: bool, events: seq<Event>, end: Option<End>)

  function Phases(c: Challenge): seq<Mark> {
    match c
    case HTTP01 =>
      [PackageManagerReady, PackageArchitectureConfirmed, HostDependenciesInstalled, LegoInstalled,
       HeadscalePackageInstalled, RuntimeAssetsInstalled, TLSBootstrapReady, NginxActivated,
       LegoCommandReady, CertificateIssued, SystemdDaemonReloaded, ServicesEnabled, OnboardingReady,
       StaticVerifyPassed]
    case DNS01 =>
      [PackageManagerReady, PackageArchitectureConfirmed, HostDependenciesInstalled, LegoInstalled,
       HeadscalePackageInstalled, RuntimeAssetsInstalled,
       LegoCommandReady, CertificateIssued, NginxActivated, SystemdDaemonReloaded, ServicesEnabled, OnboardingReady,
       StaticVerifyPassed]
  }

  /** A phase is silently passed over while one of these is not recorded. */
  function Needs(c: Challenge, m: Mark): seq<Mark> {
    match m
    case NginxActivated => if c.HTTP01? then [TLSBootstrapReady] else [CertificateIssued]
    case CertificateIssued => [LegoCommandReady]
    case ServicesEnabled => [SystemdDaemonReloaded, CertificateIssued, NginxActivated]
    case OnboardingReady => [ServicesEnabled]
    case _ => []
  }

  const REQUIRED := [CertificateIssued, NginxActivated, SystemdDaemonReloaded, ServicesEnabled, OnboardingReady]

  function Missing(completed: seq<Mark>, names: seq<Mark>): seq<Mark> {
    if names == [] then []
    else (if names[0] in completed then [] else [names[0]]) + Missing(completed, names[1..])
  }

  function Deferral(m: Mark): Option<Mark> {
    match m
    case LegoCommandReady => Some(LegoCommandDeferred)
    case SystemdDaemonReloaded => Some(SystemdDaemonReloadDeferred)
    case _ => None
  }

  // ------------------------------------------------------------------ steps

  function Stop(run: Run, end: End): Run {
    run.(end := Some(end))
  }

  /** `writeDeployFailure`: the failure is saved with the record, if the save succeeds. */
  function Fail(run: Run, end: End, saved: bool): Run {
    var failed := run.memory.(failure := Some("failed"));
    Stop(run.(memory := failed, disk := if saved then failed else run.disk), end)
  }

  /** `recordDeployCheckpoint`. */
  function Recorded(run: Run, m: Mark, saved: bool): Run {
    var done := MarkDone(run.memory, m).(failure := None);
    var r := run.(memory := done, disk := if saved then done else run.disk);
    if saved then r else Stop(r, NotRecorded(m))
  }

  function Complete(run: Run, m: Mark, t: Turn): Run {
    Recorded(run.(events := run.events + [Ran(m)]), m, t.saved)
  }

  function Plain(run: Run, m: Mark, t: Turn): Run {
    match t.work
    case Killed => Stop(run, Died)
    case Done => Complete(run, m, t)
    case _ => Fail(run, Failed(m), t.saved)
  }

  function InstallAssets(run: Run, s: Script): Run {
    var t := s.Answer(RuntimeAssetsInstalled);
    if t.work.Killed? then Stop(run, Died)
    else
      var installed := run.(memory := run.memory.(
                              paths := AddNew(run.memory.paths, s.paths),
                              activations := AddNew(run.memory.activations, s.activations)));
      Plain(installed, RuntimeAssetsInstalled, t)
  }

  /** A phase whose command may not be there yet leaves a marker of its own and stops. */
  function Deferrable(run: Run, m: Mark, marker: Mark, t: Turn): Run {
    if t.work.Absent? then
      var marked := Recorded(run, marker, t.saved);
      if t.saved then Fail(marked, Failed(m), t.savedAgain) else marked
    else if t.work.Done? then
      Plain(run.(memory := Remove(run.memory, marker)), m, t)
    else
      Plain(run, m, t)
  }

  function EnableServices(run: Run, t: Turn): Run {
    if t.work.Done? then
      Complete(run.(restarted := true, events := run.events + [Restarted]), ServicesEnabled, t)
    else
      Plain(run, ServicesEnabled, t)
  }

  function Withdraw(run: Run): Run {
    run.(memory := Remove(run.memory, ServicesEnabled))
  }

  function Onboard(run: Run, s: Script): Run {
    var t := s.Answer(OnboardingReady);
    if !run.restarted && s.restart.Killed? then Stop(run, Died)
    else if !run.restarted && !s.restart.Done? then Fail(Withdraw(run), Failed(OnboardingReady), t.saved)
    else
      var up := if run.restarted then run else run.(events := run.events + [Restarted]);
      if s.onboardingPlan.Killed? then Stop(up, Died)
      else if !s.onboardingPlan.Done? then Fail(up, Failed(OnboardingReady), t.saved)
      else if t.work.Killed? then Stop(up, Died)
      else if !t.work.Done? then Fail(Withdraw(up), Failed(OnboardingReady), t.saved)
      else Complete(up.(events := up.events + [KeyCreated]), OnboardingReady, t)
  }

  function StaticVerify(run: Run, t: Turn): Run {
    var missing := Missing(run.memory.completed, REQUIRED);
    if missing != [] then Fail(run, MissingPrerequisites(missing), t.saved)
    else Plain(run, StaticVerifyPassed, t)
  }

  function Perform(run: Run, m: Mark, s: Script): Run {
    match m
    case RuntimeAssetsInstalled => InstallAssets(run, s)
    case LegoCommandReady => Deferrable(run, m, LegoCommandDeferred, s.Answer(m))
    case SystemdDaemonReloaded => Deferrable(run, m, SystemdDaemonReloadDeferred, s.Answer(m))
    case ServicesEnabled => EnableServices(run, s.Answer(m))
    case OnboardingReady => Onboard(run, s)
    case StaticVerifyPassed => StaticVerify(run, s.Answer(m))
    case _ => Plain(run, m, s.Answer(m))
  }

  predicate Due(c: Challenge, completed: seq<Mark>, m: Mark) {
    m !in completed && forall n <- Needs(c, m) :: n in completed
  }

  function Advance(run: Run, m: Mark, s: Script): Run {
    if run.end.Some? || !Due(s.config.challenge, run.memory.completed, m) then run
    else Perform(run, m, s)
  }

  /** The first `i` phases. */
  function After(run: Run, s: Script, i: nat): Run
    requires i <= |Phases(s.config.challenge)|
  {
    if i == 0 then run else Advance(After(run, s, i - 1), Phases(s.config.challenge)[i - 1], s)
  }

  function Finalize(run: Run, s: Script): Run {
    if run.end.Some? then run
    else
      var done := run.memory.(current := None, failure := None);
      if AtRest(run.memory) then Stop(run, Applied)
      else if s.finalizeSaved then Stop(run.(memory := done, disk := done), Applied)
      else Stop(run.(memory := done), NotFinalized)
  }

  function Start(disk: Record, s: Script): Run {
    var loaded := Run(disk, disk, false, [], None);
    if !s.loads then Stop(loaded, NotLoaded)
    else if !s.digestComputed then Fail(loaded, NoDigest, s.digestFailureSaved)
    else
      var begun := loaded.(memory := Begin(disk, s.config));
      match s.preflight
      case Killed => Stop(begun, Died)
      case Done => begun
      case _ => Fail(begun, PreflightFailed, s.preflightSaved)
  }

  function Deploy(disk: Record, s: Script): Run {
    Finalize(After(Start(disk, s), s, |Phases(s.config.challenge)|), s)
  }
}
