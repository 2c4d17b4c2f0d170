/** What a run of the main deploy leaves in its record besides the phases: its failure, and what it has
    changed on the host. */
module MainDeployRecords {
  import opened Options
  import opened Checkpoint
  import opened MainDeploy
  import opened MainDeployRuns
  import opened MainDeployResume

  // ------------------------------------------------------------------ failures

  /** The run stopped for a reason it writes down. */
  predicate Fails(end: Option<End>) {
    && end.Some?
    && (end.value.Failed? || end.value.MissingPrerequisites? || end.value.PreflightFailed? || end.value.NoDigest?)
  }

  /** It is in the record in memory. */
  predicate FailureTold(run: Run) {
    Fails(run.end) ==> run.memory.failure.Some?
  }

  /** A failing phase that could save has saved. */
  predicate Saved(run: Run, s: Script) {
    run.end.Some? && run.end.value.Failed? ==>
      var t := s.Answer(run.end.value.mark);
      t.saved && t.savedAgain ==> run.disk == run.memory
  }

  predicate SameChanges(run: Run, after: Run) {
    && after.memory.paths == run.memory.paths && after.memory.activations == run.memory.activations
    && (Ran(RuntimeAssetsInstalled) in after.events ==> Ran(RuntimeAssetsInstalled) in run.events)
  }

  /** What every phase keeps to. */
  predicate Kept(run: Run, after: Run, s: Script) {
    && FailureTold(after) && Saved(after, s)
    && after.end != Some(NoDigest) && after.end != Some(PreflightFailed)
    && SameChanges(run, after)
  }

  lemma FailKept(run: Run, m: Mark, saved: bool, s: Script)
    requires s.Answer(m).saved && s.Answer(m).savedAgain ==> saved
    ensures Kept(run, Fail(run, Failed(m), saved), s)
  {
  }

  lemma CompleteKept(run: Run, m: Mark, t: Turn, s: Script)
    requires run.end.None? && m != RuntimeAssetsInstalled
    ensures Kept(run, Complete(run, m, t), s)
  {
    assert Ran(RuntimeAssetsInstalled) != Ran(m);
  }

  lemma PlainKept(run: Run, m: Mark, s: Script)
    requires run.end.None? && m != RuntimeAssetsInstalled
    ensures Kept(run, Plain(run, m, s.Answer(m)), s)
  {
    var t := s.Answer(m);
    match t.work
    case Killed =>
    case Done => CompleteKept(run, m, t, s);
    case _ => FailKept(run, m, t.saved, s);
  }

  lemma DeferrableKept(run: Run, m: Mark, marker: Mark, s: Script)
    requires run.end.None? && m != RuntimeAssetsInstalled
    ensures Kept(run, Deferrable(run, m, marker, s.Answer(m)), s)
  {
    if s.Answer(m).work.Done? {
      PlainKept(run.(memory := Remove(run.memory, marker)), m, s);
    } else {
      PlainKept(run, m, s);
    }
  }

  lemma ServicesKept(run: Run, s: Script)
    requires run.end.None?
    ensures Kept(run, EnableServices(run, s.Answer(ServicesEnabled)), s)
  {
    PlainKept(run, ServicesEnabled, s);
  }

  lemma WithdrawKept(run: Run, saved: bool, s: Script)
    requires s.Answer(OnboardingReady).saved && s.Answer(OnboardingReady).savedAgain ==> saved
    ensures Kept(run, Fail(Withdraw(run), Failed(OnboardingReady), saved), s)
  {
    FailKept(Withdraw(run), OnboardingReady, saved, s);
  }

  lemma OnboardKept(run: Run, s: Script)
    requires run.end.None?
    ensures Kept(run, Onboard(run, s), s)
  {
    var t := s.Answer(OnboardingReady);
    var up := if run.restarted then run else run.(events := run.events + [Restarted]);
    if !run.restarted && !s.restart.Done? {
      WithdrawKept(run, t.saved, s);
    } else if !s.onboardingPlan.Done? {
      FailKept(up, OnboardingReady, t.saved, s);
    } else if !t.work.Done? {
      WithdrawKept(up, t.saved, s);
    } else {
      CompleteKept(up.(events := up.events + [KeyCreated]), OnboardingReady, t, s);
    }
  }

  lemma VerifyKept(run: Run, s: Script)
    requires run.end.None?
    ensures Kept(run, StaticVerify(run, s.Answer(StaticVerifyPassed)), s)
  {
    PlainKept(run, StaticVerifyPassed, s);
  }

  lemma PhaseKept(run: Run, s: Script, m: Mark)
    requires run.end.None? && m != RuntimeAssetsInstalled
    ensures Kept(run, Perform(run, m, s), s)
  {
    match m
    case LegoCommandReady => DeferrableKept(run, m, LegoCommandDeferred, s);
    case SystemdDaemonReloaded => DeferrableKept(run, m, SystemdDaemonReloadDeferred, s);
    case ServicesEnabled => ServicesKept(run, s);
    case OnboardingReady => OnboardKept(run, s);
    case StaticVerifyPassed => VerifyKept(run, s);
    case _ => PlainKept(run, m, s);
  }

  lemma AssetsKept(run: Run, s: Script)
    requires run.end.None?
    ensures var after := InstallAssets(run, s);
      FailureTold(after) && Saved(after, s) && after.end != Some(NoDigest) && after.end != Some(PreflightFailed)
  {
  }

  lemma PhaseTells(run: Run, s: Script, m: Mark)
    requires run.end.None?
    ensures var after := Perform(run, m, s);
      FailureTold(after) && Saved(after, s) && after.end != Some(NoDigest) && after.end != Some(PreflightFailed)
  {
    if m == RuntimeAssetsInstalled {
      AssetsKept(run, s);
    } else {
      PhaseKept(run, s, m);
    }
  }

  /** The reasons that only the beginning of a run has. */
  predicate EndsAtOnce(end: Option<End>) {
    end == Some(NoDigest) || end == Some(PreflightFailed)
  }

  lemma {:induction false} PhasesTell(run: Run, s: Script, i: nat)
    requires i <= |Phases(s.config.challenge)| && FailureTold(run) && Saved(run, s)
    ensures FailureTold(After(run, s, i)) && Saved(After(run, s, i), s)
    ensures run.end.None? ==> !EndsAtOnce(After(run, s, i).end)
  {
    if i > 0 {
      PhasesTell(run, s, i - 1);
      if After(run, s, i - 1).end.None? {
        PhaseTells(After(run, s, i - 1), s, Phases(s.config.challenge)[i - 1]);
      }
    }
  }

  /** A run that stops for such a reason has it in its record; and it is on disk if it could be saved. */
  lemma FailureIsRecorded(disk: Record, s: Script)
    requires Fails(Deploy(disk, s).end)
    ensures Deploy(disk, s).memory.failure.Some?
    ensures Deploy(disk, s).end == Some(NoDigest) && s.digestFailureSaved ==> Deploy(disk, s).disk.failure.Some?
    ensures Deploy(disk, s).end == Some(PreflightFailed) && s.preflightSaved ==> Deploy(disk, s).disk.failure.Some?
    ensures forall m :: Deploy(disk, s).end == Some(Failed(m)) && s.Answer(m).saved && s.Answer(m).savedAgain ==>
      Deploy(disk, s).disk == Deploy(disk, s).memory
  {
    PhasesTell(Start(disk, s), s, |Phases(s.config.challenge)|);
    if !Starts(s) {
      StoppedStays(Start(disk, s), s, |Phases(s.config.challenge)|);
    }
  }

  // ------------------------------------------------------------------ changes on the host

  /** The run has got to the runtime files, and has installed them or failed to. */
  predicate AssetsTouched(run: Run) {
    Ran(RuntimeAssetsInstalled) in run.events || run.end == Some(Failed(RuntimeAssetsInstalled))
  }

  /** Then it has all their paths and activations in its record. */
  ghost predicate ChangesTold(run: Run, s: Script) {
    AssetsTouched(run) ==>
      && (forall p <- s.paths :: p != "" ==> p in run.memory.paths)
      && (forall a <- s.activations :: a != "" ==> a in run.memory.activations)
  }

  lemma PhaseTellsChanges(run: Run, s: Script, m: Mark)
    requires run.end.None? && ChangesTold(run, s)
    ensures ChangesTold(Perform(run, m, s), s)
  {
    if m == RuntimeAssetsInstalled {
      AddNewMeans(run.memory.paths, s.paths);
      AddNewMeans(run.memory.activations, s.activations);
    } else {
      PhaseKept(run, s, m);
      PhaseEnds(run, s, m);
    }
  }

  lemma {:induction false} PhasesTellChanges(run: Run, s: Script, i: nat)
    requires i <= |Phases(s.config.challenge)| && run.events == [] && !AssetsTouched(run)
    ensures ChangesTold(After(run, s, i), s)
  {
    if i > 0 {
      PhasesTellChanges(run, s, i - 1);
      if After(run, s, i - 1).end.None? {
        PhaseTellsChanges(After(run, s, i - 1), s, Phases(s.config.challenge)[i - 1]);
      }
    }
  }

  /** What a run has changed on the host is in its record, whether the installation succeeded or stopped
      half way, and on disk if the run succeeds. */
  lemma ChangesAreRecorded(disk: Record, s: Script)
    requires AssetsTouched(Deploy(disk, s))
    ensures forall p <- s.paths :: p != "" ==> p in Deploy(disk, s).memory.paths
    ensures forall a <- s.activations :: a != "" ==> a in Deploy(disk, s).memory.activations
    ensures Shape(disk) && Deploy(disk, s).end == Some(Applied) ==> Deploy(disk, s).disk == Deploy(disk, s).memory
  {
    var n := |Phases(s.config.challenge)|;
    PhasesTellChanges(Start(disk, s), s, n);
    if Shape(disk) && Starts(s) {
      Through(disk, s);
      NeverAppliedEarly(Start(disk, s), s, n);
    } else if !Starts(s) {
      StoppedStays(Start(disk, s), s, n);
    }
  }
}
