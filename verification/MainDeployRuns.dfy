/** What every sequence of runs of the main deploy keeps, whatever fails, crashes or is reconfigured. */
module MainDeployRuns {
  import opened Options
  import opened Checkpoint
  import opened MainDeploy

  predicate IsMarker(m: Mark) {
    m.LegoCommandDeferred? || m.SystemdDaemonReloadDeferred?
  }

  /** How many phases are recorded, leaving a deferral marker at the end aside. */
  function Progress(completed: seq<Mark>): nat {
    if completed != [] && IsMarker(completed[|completed| - 1]) then |completed| - 1 else |completed|
  }

  /** The first `k` phases in order, and after them at most the marker of the next one. */
  predicate InStep(c: Challenge, completed: seq<Mark>, k: nat) {
    var phases := Phases(c);
    && k <= |phases|
    && (completed == phases[..k]
        || (k < |phases| && Deferral(phases[k]).Some? && completed == phases[..k] + [Deferral(phases[k]).value]))
  }

  /** What holds of every record on disk. */
  predicate Shape(r: Record) {
    match r.digest
    case None => r.completed == [] && r.current.None?
    case Some(d) =>
      && InStep(d.challenge, r.completed, Progress(r.completed))
      && (AtRest(r) ==> r.completed == Phases(d.challenge))
  }

  // ------------------------------------------------------------------ the phase lists

  function Position(c: Challenge, m: Mark): nat {
    var late := if c.HTTP01? then 1 else 0;
    match m
    case PackageManagerReady => 0
    case PackageArchitectureConfirmed => 1
    case HostDependenciesInstalled => 2
    case LegoInstalled => 3
    case HeadscalePackageInstalled => 4
    case RuntimeAssetsInstalled => 5
    case TLSBootstrapReady => 6
    case NginxActivated => if c.HTTP01? then 7 else 8
    case LegoCommandReady => if c.HTTP01? then 8 else 6
    case CertificateIssued => if c.HTTP01? then 9 else 7
    case SystemdDaemonReloaded => 9 + late
    case ServicesEnabled => 10 + late
    case OnboardingReady => 11 + late
    case StaticVerifyPassed => 12 + late
    case _ => 14
  }

  lemma PhaseAt(c: Challenge, i: nat)
    requires i < |Phases(c)|
    ensures Position(c, Phases(c)[i]) == i && !IsMarker(Phases(c)[i])
  {
  }

  /** Every phase comes after the ones it needs. */
  lemma NeedsComeFirst(c: Challenge, i: nat)
    requires i < |Phases(c)|
    ensures forall n <- Needs(c, Phases(c)[i]) :: n in Phases(c)[..i]
  {
    forall n | n in Needs(c, Phases(c)[i]) ensures n in Phases(c)[..i] {
      assert Phases(c)[..i][Position(c, n)] == n;
    }
  }

  lemma Distinct(c: Challenge, i: nat, j: nat)
    requires i < j < |Phases(c)|
    ensures Phases(c)[i] != Phases(c)[j]
  {
    PhaseAt(c, i);
    PhaseAt(c, j);
  }

  lemma NotBefore(c: Challenge, i: nat, m: Mark)
    requires i <= |Phases(c)| && Position(c, m) >= i
    ensures m !in Phases(c)[..i]
  {
    if m in Phases(c)[..i] {
      var j :| 0 <= j < i && Phases(c)[j] == m;
      PhaseAt(c, j);
    }
  }

  lemma ProgressIs(c: Challenge, completed: seq<Mark>, k: nat)
    requires InStep(c, completed, k)
    ensures Progress(completed) == k
  {
    if completed == Phases(c)[..k] && k > 0 {
      PhaseAt(c, k - 1);
    }
  }

  /** Up to the recorded progress nothing is due; the next phase is. */
  lemma DueIsNext(c: Challenge, completed: seq<Mark>, k: nat, i: nat)
    requires InStep(c, completed, k) && i <= k && i < |Phases(c)|
    ensures Due(c, completed, Phases(c)[i]) <==> i == k
  {
    PhaseAt(c, i);
    if i < k {
      assert completed[i] == Phases(c)[i];
    } else {
      NotBefore(c, k, Phases(c)[k]);
      NeedsComeFirst(c, k);
    }
  }

  // ------------------------------------------------------------------ one phase

  /** What the phase at position `k` may leave on disk: what was there, or progress `k` or `k + 1`,
      or, when onboarding fails, one phase less. */
  predicate Leaves(d: Digest, disk: Record, disk': Record, k: nat) {
    disk' == disk
    || (&& disk'.digest == Some(d) && !AtRest(disk')
        && (InStep(d.challenge, disk'.completed, k) || InStep(d.challenge, disk'.completed, k + 1)
            || Withdrawn(d.challenge, disk'.completed, k)))
  }

  predicate Withdrawn(c: Challenge, completed: seq<Mark>, k: nat) {
    0 < k < |Phases(c)| && Phases(c)[k] == OnboardingReady && completed == Phases(c)[..k - 1]
  }

  /** What every phase at position `k` does to memory and disk. */
  predicate Kept(run: Run, r: Run, d: Digest, k: nat) {
    (r.end.None? ==> Reaches(r, d, k)) && Leaves(d, run.disk, r.disk, k) && !NothingToVerify(r)
  }

  lemma PlainKeeps(run: Run, t: Turn, d: Digest, k: nat)
    requires run.end.None? && run.memory.digest == Some(d) && k < |Phases(d.challenge)|
    requires run.memory.completed == Phases(d.challenge)[..k]
      || (!t.work.Done? && InStep(d.challenge, run.memory.completed, k))
    ensures Kept(run, Plain(run, Phases(d.challenge)[k], t), d, k)
  {
    var phases := Phases(d.challenge);
    NotBefore(d.challenge, k, phases[k]);
    assert phases[..k] + [phases[k]] == phases[..k + 1];
  }

  /** Recorded in memory and on disk. */
  predicate Reaches(r: Run, d: Digest, k: nat) {
    && k < |Phases(d.challenge)| && r.memory.digest == Some(d) && r.disk == r.memory
    && r.memory.completed == Phases(d.challenge)[..k + 1] && !AtRest(r.memory)
  }

  lemma DeferrableKeeps(run: Run, t: Turn, marker: Mark, d: Digest, k: nat)
    requires run.end.None? && run.memory.digest == Some(d) && k < |Phases(d.challenge)|
    requires InStep(d.challenge, run.memory.completed, k) && Deferral(Phases(d.challenge)[k]) == Some(marker)
    ensures Kept(run, Deferrable(run, Phases(d.challenge)[k], marker, t), d, k)
  {
    var phases := Phases(d.challenge);
    NotBefore(d.challenge, k, marker);
    if t.work.Done? {
      WithoutLast(phases[..k], marker);
      WithoutAbsent(phases[..k], marker);
      PlainKeeps(run.(memory := Remove(run.memory, marker)), t, d, k);
    } else if !t.work.Absent? {
      PlainKeeps(run, t, d, k);
    }
  }

  lemma WithdrawKeeps(run: Run, d: Digest, k: nat)
    requires k < |Phases(d.challenge)| && Phases(d.challenge)[k] == OnboardingReady
    requires run.memory.completed == Phases(d.challenge)[..k]
    ensures Withdrawn(d.challenge, Withdraw(run).memory.completed, k)
  {
    var phases := Phases(d.challenge);
    assert phases[k - 1] == ServicesEnabled;
    NotBefore(d.challenge, k - 1, ServicesEnabled);
    assert phases[..k - 1] + [ServicesEnabled] == phases[..k];
    WithoutLast(phases[..k - 1], ServicesEnabled);
  }

  lemma OnboardKeeps(run: Run, s: Script, k: nat)
    requires run.end.None? && run.memory.digest == Some(s.config) && k < |Phases(s.config.challenge)|
    requires run.memory.completed == Phases(s.config.challenge)[..k] && Phases(s.config.challenge)[k] == OnboardingReady
    ensures Kept(run, Onboard(run, s), s.config, k)
  {
    var phases := Phases(s.config.challenge);
    WithdrawKeeps(run, s.config, k);
    WithdrawKeeps(run.(events := run.events + [Restarted]), s.config, k);
    NotBefore(s.config.challenge, k, OnboardingReady);
    assert phases[..k] + [phases[k]] == phases[..k + 1];
  }

  lemma AssetsKeep(run: Run, s: Script, k: nat)
    requires run.end.None? && run.memory.digest == Some(s.config) && k < |Phases(s.config.challenge)|
    requires run.memory.completed == Phases(s.config.challenge)[..k]
    requires Phases(s.config.challenge)[k] == RuntimeAssetsInstalled
    ensures Kept(run, InstallAssets(run, s), s.config, k)
  {
    var t := s.Answer(RuntimeAssetsInstalled);
    if !t.work.Killed? {
      PlainKeeps(run.(memory := run.memory.(
                     paths := AddNew(run.memory.paths, s.paths),
                     activations := AddNew(run.memory.activations, s.activations))), t, s.config, k);
    }
  }

  lemma ServicesKeep(run: Run, t: Turn, d: Digest, k: nat)
    requires run.end.None? && run.memory.digest == Some(d) && k < |Phases(d.challenge)|
    requires run.memory.completed == Phases(d.challenge)[..k] && Phases(d.challenge)[k] == ServicesEnabled
    ensures Kept(run, EnableServices(run, t), d, k)
  {
    if t.work.Done? {
      PlainKeeps(run.(restarted := true, events := run.events + [Restarted]), t, d, k);
    } else {
      PlainKeeps(run, t, d, k);
    }
  }

  lemma PerformKeeps(run: Run, s: Script, k: nat)
    requires run.end.None? && run.memory.digest == Some(s.config) && k < |Phases(s.config.challenge)|
    requires InStep(s.config.challenge, run.memory.completed, k)
    ensures Kept(run, Perform(run, Phases(s.config.challenge)[k], s), s.config, k)
  {
    var d, m := s.config, Phases(s.config.challenge)[k];
    var t := s.Answer(m);
    match m
    case RuntimeAssetsInstalled => AssetsKeep(run, s, k);
    case LegoCommandReady => DeferrableKeeps(run, t, LegoCommandDeferred, d, k);
    case SystemdDaemonReloaded => DeferrableKeeps(run, t, SystemdDaemonReloadDeferred, d, k);
    case ServicesEnabled => ServicesKeep(run, t, d, k);
    case OnboardingReady => OnboardKeeps(run, s, k);
    case StaticVerifyPassed =>
      PlainKeeps(run, t, d, k);
      NothingMissing(d.challenge, k);
    case _ => PlainKeeps(run, t, d, k);
  }

  /** The run stopped because static verification found a phase unrecorded. */
  predicate NothingToVerify(r: Run) {
    r.end.Some? && r.end.value.MissingPrerequisites?
  }

  lemma {:induction false} MissingNone(completed: seq<Mark>, names: seq<Mark>)
    requires forall n <- names :: n in completed
    ensures Missing(completed, names) == []
  {
    if names != [] {
      MissingNone(completed, names[1..]);
    }
  }

  lemma NothingMissing(c: Challenge, k: nat)
    requires k < |Phases(c)| && Phases(c)[k] == StaticVerifyPassed
    ensures Missing(Phases(c)[..k], REQUIRED) == []
  {
    forall n <- REQUIRED ensures n in Phases(c)[..k] {
      assert Phases(c)[..k][Position(c, n)] == n;
    }
    MissingNone(Phases(c)[..k], REQUIRED);
  }

  // ------------------------------------------------------------------ one run

  function Max(a: nat, b: nat): nat {
    if a < b then b else a
  }

  /** After `i` phases of a run that began as `begun`, with progress `k`. */
  ghost predicate Underway(run: Run, begun: Run, d: Digest, k: nat, i: nat) {
    && (run.end.None? ==> InStep(d.challenge, run.memory.completed, Max(k, i)))
    && (if i <= k then run == begun else run.end.None? ==> Reaches(run, d, i - 1))
    && !NothingToVerify(run)
    && (run.disk == begun.disk || exists j :: k <= j < |Phases(d.challenge)| && OnDisk(d, run.disk, j))
  }

  /** Left by the phase at position `j`. */
  predicate OnDisk(d: Digest, disk: Record, j: nat) {
    && disk.digest == Some(d) && !AtRest(disk)
    && (InStep(d.challenge, disk.completed, j) || InStep(d.challenge, disk.completed, j + 1)
        || Withdrawn(d.challenge, disk.completed, j))
  }

  lemma UnderwayStep(run: Run, begun: Run, s: Script, k: nat, i: nat)
    requires i < |Phases(s.config.challenge)| && Underway(run, begun, s.config, k, i)
    requires begun.end.None? && begun.memory.digest == Some(s.config)
    ensures Underway(Advance(run, Phases(s.config.challenge)[i], s), begun, s.config, k, i + 1)
  {
    var d, m := s.config, Phases(s.config.challenge)[i];
    if run.end.None? {
      DueIsNext(d.challenge, run.memory.completed, Max(k, i), i);
      if i >= k {
        PerformKeeps(run, s, i);
        var r := Perform(run, m, s);
        assert r.disk != run.disk ==> OnDisk(d, r.disk, i);
      }
    }
  }

  lemma {:induction false} AfterKeeps(run: Run, s: Script, k: nat, i: nat)
    requires i <= |Phases(s.config.challenge)| && run.end.None? && run.memory.digest == Some(s.config)
    requires InStep(s.config.challenge, run.memory.completed, k)
    ensures Underway(After(run, s, i), run, s.config, k, i)
  {
    if i > 0 {
      AfterKeeps(run, s, k, i - 1);
      UnderwayStep(After(run, s, i - 1), run, s, k, i - 1);
    }
  }

  /** A run that gets to its phases. */
  predicate Starts(s: Script) {
    s.loads && s.digestComputed && s.preflight.Done?
  }

  lemma BeginInStep(disk: Record, d: Digest)
    requires Shape(disk)
    ensures InStep(d.challenge, Begin(disk, d).completed, Progress(Begin(disk, d).completed))
    ensures Progress(Begin(disk, d).completed) == |Phases(d.challenge)| ==> Begin(disk, d) == disk && !AtRest(disk)
  {
  }

  lemma PhasesKeep(disk: Record, s: Script)
    requires Shape(disk) && Starts(s)
    ensures Underway(After(Start(disk, s), s, |Phases(s.config.challenge)|), Start(disk, s), s.config,
                     Progress(Begin(disk, s.config).completed), |Phases(s.config.challenge)|)
  {
    BeginInStep(disk, s.config);
    AfterKeeps(Start(disk, s), s, Progress(Begin(disk, s.config).completed), |Phases(s.config.challenge)|);
  }

  lemma {:induction false} StoppedStays(run: Run, s: Script, i: nat)
    requires i <= |Phases(s.config.challenge)| && run.end.Some?
    ensures After(run, s, i) == run
  {
    if i > 0 {
      StoppedStays(run, s, i - 1);
    }
  }

  lemma OnDiskShape(d: Digest, disk: Record, j: nat)
    requires OnDisk(d, disk, j) && j < |Phases(d.challenge)|
    ensures Shape(disk)
  {
    var c := d.challenge;
    if InStep(c, disk.completed, j) {
      ProgressIs(c, disk.completed, j);
    } else if InStep(c, disk.completed, j + 1) {
      ProgressIs(c, disk.completed, j + 1);
    } else {
      assert InStep(c, disk.completed, j - 1);
      ProgressIs(c, disk.completed, j - 1);
    }
  }

  lemma UnderwayShape(run: Run, begun: Run, d: Digest, k: nat, i: nat)
    requires Underway(run, begun, d, k, i) && Shape(begun.disk)
    ensures Shape(run.disk)
  {
    if run.disk != begun.disk {
      var j: nat :| j < |Phases(d.challenge)| && OnDisk(d, run.disk, j);
      OnDiskShape(d, run.disk, j);
    }
  }

  /** A run that gets through all phases has recorded them all, and is not at rest yet. */
  lemma Through(disk: Record, s: Script)
    requires Shape(disk) && Starts(s)
    ensures var r := After(Start(disk, s), s, |Phases(s.config.challenge)|);
      r.end.None? ==>
        && r.memory.completed == Phases(s.config.challenge) && r.memory.digest == Some(s.config)
        && r.disk == r.memory && !AtRest(r.memory)
  {
    PhasesKeep(disk, s);
    BeginInStep(disk, s.config);
    PhaseAt(s.config.challenge, |Phases(s.config.challenge)| - 1);
  }

  /** Whatever happens in a run, the record it leaves on disk has the shape again; and no run ever
      stops because static verification misses a phase. */
  lemma RunKeepsShape(disk: Record, s: Script)
    requires Shape(disk)
    ensures Shape(Deploy(disk, s).disk)
    ensures !NothingToVerify(Deploy(disk, s))
  {
    var n := |Phases(s.config.challenge)|;
    BeginInStep(disk, s.config);
    if Starts(s) {
      PhasesKeep(disk, s);
      Through(disk, s);
      UnderwayShape(After(Start(disk, s), s, n), Start(disk, s), s.config,
                    Progress(Begin(disk, s.config).completed), n);
      PhaseAt(s.config.challenge, n - 1);
    } else {
      StoppedStays(Start(disk, s), s, n);
    }
  }

  /** The record after a sequence of runs. */
  function Runs(disk: Record, scripts: seq<Script>): Record {
    if scripts == [] then disk else Deploy(Runs(disk, scripts[..|scripts| - 1]), scripts[|scripts| - 1]).disk
  }

  lemma {:induction false} RunsKeepShape(scripts: seq<Script>)
    ensures Shape(Runs(EMPTY, scripts))
  {
    if scripts != [] {
      RunsKeepShape(scripts[..|scripts| - 1]);
      RunKeepsShape(Runs(EMPTY, scripts[..|scripts| - 1]), scripts[|scripts| - 1]);
    }
  }

  /** After any runs, crashes, failures and changes of configuration, the recorded phases are exactly
      the first few of the list for the recorded challenge, in order and without repetition; a
      deferral marker never stands beside the phase it defers; and a record at rest with anything
      recorded is a finished one. */
  lemma RecordedPhasesAreAPrefix(scripts: seq<Script>, d: Digest)
    requires Runs(EMPTY, scripts).digest == Some(d)
    ensures var r := Runs(EMPTY, scripts);
      && Progress(r.completed) <= |Phases(d.challenge)|
      && Without(Without(r.completed, LegoCommandDeferred), SystemdDaemonReloadDeferred)
         == Phases(d.challenge)[..Progress(r.completed)]
      && (forall i, j :: 0 <= i < j < |r.completed| ==> r.completed[i] != r.completed[j])
      && (forall m <- r.completed :: Deferral(m).Some? ==> Deferral(m).value !in r.completed)
      && (AtRest(r) ==> r.completed == Phases(d.challenge))
  {
    RunsKeepShape(scripts);
    ShapeMeans(Runs(EMPTY, scripts), d);
  }

  lemma StemHasNoMarkers(c: Challenge, k: nat)
    requires k <= |Phases(c)|
    ensures LegoCommandDeferred !in Phases(c)[..k] && SystemdDaemonReloadDeferred !in Phases(c)[..k]
  {
  }

  lemma StripMarker(stem: seq<Mark>, completed: seq<Mark>)
    requires LegoCommandDeferred !in stem && SystemdDaemonReloadDeferred !in stem
    requires completed == stem || completed == stem + [LegoCommandDeferred]
      || completed == stem + [SystemdDaemonReloadDeferred]
    ensures Without(Without(completed, LegoCommandDeferred), SystemdDaemonReloadDeferred) == stem
  {
    WithoutAbsent(stem, LegoCommandDeferred);
    WithoutAbsent(stem, SystemdDaemonReloadDeferred);
    if completed == stem + [LegoCommandDeferred] {
      WithoutLast(stem, LegoCommandDeferred);
    } else if completed == stem + [SystemdDaemonReloadDeferred] {
      WithoutAbsent(completed, LegoCommandDeferred);
      WithoutLast(stem, SystemdDaemonReloadDeferred);
    }
  }

  lemma Stripped(c: Challenge, completed: seq<Mark>, k: nat)
    requires InStep(c, completed, k)
    ensures Without(Without(completed, LegoCommandDeferred), SystemdDaemonReloadDeferred) == Phases(c)[..k]
  {
    StemHasNoMarkers(c, k);
    StripMarker(Phases(c)[..k], completed);
  }

  lemma NoneTwice(c: Challenge, completed: seq<Mark>, k: nat, i: nat, j: nat)
    requires InStep(c, completed, k) && i < j < |completed|
    ensures completed[i] != completed[j]
  {
    PhaseAt(c, i);
    if j < k {
      PhaseAt(c, j);
    }
  }

  lemma NoMarkerBeside(c: Challenge, completed: seq<Mark>, k: nat, m: Mark)
    requires InStep(c, completed, k) && m in completed && Deferral(m).Some?
    ensures Deferral(m).value !in completed
  {
    NotBefore(c, k, Deferral(m).value);
    if completed != Phases(c)[..k] {
      PhaseAt(c, k);
      NotBefore(c, k, Phases(c)[k]);
    }
  }

  lemma ShapeMeans(r: Record, d: Digest)
    requires Shape(r) && r.digest == Some(d)
    ensures Progress(r.completed) <= |Phases(d.challenge)|
    ensures Without(Without(r.completed, LegoCommandDeferred), SystemdDaemonReloadDeferred)
         == Phases(d.challenge)[..Progress(r.completed)]
    ensures forall i, j :: 0 <= i < j < |r.completed| ==> r.completed[i] != r.completed[j]
    ensures forall m <- r.completed :: Deferral(m).Some? ==> Deferral(m).value !in r.completed
  {
    var k := Progress(r.completed);
    Stripped(d.challenge, r.completed, k);
    forall i, j | 0 <= i < j < |r.completed| ensures r.completed[i] != r.completed[j] {
      NoneTwice(d.challenge, r.completed, k, i, j);
    }
    forall m | m in r.completed && Deferral(m).Some? ensures Deferral(m).value !in r.completed {
      NoMarkerBeside(d.challenge, r.completed, k, m);
    }
  }
}
