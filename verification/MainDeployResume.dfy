/** Resuming the main deploy: what a run executes, what it may lose, and when it starts over. */
module MainDeployResume {
  import opened Options
  import opened Checkpoint
  import opened MainDeploy
  import opened MainDeployRuns

  /** The phases a run executed, in order. */
  function RanMarks(events: seq<Event>): seq<Mark> {
    if events == [] then []
    else RanMarks(events[..|events| - 1])
         + (if events[|events| - 1].Ran? then [events[|events| - 1].mark] else [])
  }

  lemma RanMarksAppend(events: seq<Event>, e: Event)
    ensures RanMarks(events + [e]) == RanMarks(events) + if e.Ran? then [e.mark] else []
  {
  }

  /** Nothing goes wrong. */
  predicate AllWell(s: Script) {
    && Starts(s) && s.restart.Done? && s.onboardingPlan.Done? && s.finalizeSaved
    && forall m <- Phases(s.config.challenge) :: s.Answer(m).work.Done? && s.Answer(m).saved
  }

  /** What a phase that goes well adds to the events. */
  function Added(run: Run, m: Mark): seq<Event> {
    match m
    case ServicesEnabled => [Restarted, Ran(m)]
    case OnboardingReady => (if run.restarted then [] else [Restarted]) + [KeyCreated, Ran(m)]
    case _ => [Ran(m)]
  }

  lemma {:induction false} SilentEvents(events: seq<Event>, more: seq<Event>)
    requires forall e <- more :: !e.Ran?
    ensures RanMarks(events + more) == RanMarks(events)
  {
    if more == [] {
      assert events + more == events;
    } else {
      var front, last := more[..|more| - 1], more[|more| - 1];
      SilentEvents(events, front);
      assert events + more == events + front + [last];
      RanMarksAppend(events + front, last);
    }
  }

  lemma RanLast(events: seq<Event>, silent: seq<Event>, m: Mark)
    requires forall e <- silent :: !e.Ran?
    ensures RanMarks(events + (silent + [Ran(m)])) == RanMarks(events) + [m]
  {
    SilentEvents(events, silent);
    RanMarksAppend(events + silent, Ran(m));
    assert events + (silent + [Ran(m)]) == events + silent + [Ran(m)];
  }

  lemma AddedRan(run: Run, m: Mark)
    ensures RanMarks(run.events + Added(run, m)) == RanMarks(run.events) + [m]
  {
    match m
    case ServicesEnabled =>
      RanLast(run.events, [Restarted], m);
      assert [Restarted] + [Ran(m)] == [Restarted, Ran(m)];
    case OnboardingReady =>
      var silent := (if run.restarted then [] else [Restarted]) + [KeyCreated];
      RanLast(run.events, silent, m);
      assert silent + [Ran(m)] == Added(run, m);
    case _ =>
      RanLast(run.events, [], m);
      assert [] + [Ran(m)] == [Ran(m)];
  }

  lemma GoodPlain(run: Run, m: Mark, t: Turn)
    requires run.end.None? && t.work.Done? && t.saved
    ensures Plain(run, m, t).end.None? && Plain(run, m, t).events == run.events + [Ran(m)]
  {
  }

  lemma GoodAssets(run: Run, s: Script)
    requires run.end.None? && s.Answer(RuntimeAssetsInstalled).work.Done? && s.Answer(RuntimeAssetsInstalled).saved
    ensures InstallAssets(run, s).end.None?
    ensures InstallAssets(run, s).events == run.events + [Ran(RuntimeAssetsInstalled)]
  {
  }

  lemma GoodOnboard(run: Run, s: Script)
    requires run.end.None? && s.restart.Done? && s.onboardingPlan.Done?
    requires s.Answer(OnboardingReady).work.Done? && s.Answer(OnboardingReady).saved
    ensures Onboard(run, s).end.None? && Onboard(run, s).events == run.events + Added(run, OnboardingReady)
  {
  }

  lemma GoodPhase(run: Run, s: Script, k: nat)
    requires AllWell(s) && run.end.None? && run.memory.digest == Some(s.config) && k < |Phases(s.config.challenge)|
    requires InStep(s.config.challenge, run.memory.completed, k)
    ensures var m := Phases(s.config.challenge)[k];
      Perform(run, m, s).end.None? && Perform(run, m, s).events == run.events + Added(run, m)
  {
    var m := Phases(s.config.challenge)[k];
    assert m in Phases(s.config.challenge);
    PhaseAt(s.config.challenge, k);
    var t := s.Answer(m);
    match m
    case RuntimeAssetsInstalled => GoodAssets(run, s);
    case LegoCommandReady => GoodPlain(run.(memory := Remove(run.memory, LegoCommandDeferred)), m, t);
    case SystemdDaemonReloaded => GoodPlain(run.(memory := Remove(run.memory, SystemdDaemonReloadDeferred)), m, t);
    case ServicesEnabled => GoodPlain(run.(restarted := true, events := run.events + [Restarted]), m, t);
    case OnboardingReady => GoodOnboard(run, s);
    case StaticVerifyPassed =>
      NothingMissing(s.config.challenge, k);
      GoodPlain(run, m, t);
    case _ => GoodPlain(run, m, t);
  }

  lemma GoodRan(run: Run, s: Script, k: nat)
    requires AllWell(s) && run.end.None? && run.memory.digest == Some(s.config) && k < |Phases(s.config.challenge)|
    requires InStep(s.config.challenge, run.memory.completed, k)
    ensures var m := Phases(s.config.challenge)[k];
      Perform(run, m, s).end.None? && RanMarks(Perform(run, m, s).events) == RanMarks(run.events) + [m]
  {
    GoodPhase(run, s, k);
    AddedRan(run, Phases(s.config.challenge)[k]);
  }

  lemma AdvanceIsPerform(run: Run, s: Script, k: nat)
    requires run.end.None? && k < |Phases(s.config.challenge)| && InStep(s.config.challenge, run.memory.completed, k)
    ensures Advance(run, Phases(s.config.challenge)[k], s) == Perform(run, Phases(s.config.challenge)[k], s)
  {
    DueIsNext(s.config.challenge, run.memory.completed, k, k);
  }

  lemma GoodAdvance(run: Run, s: Script, k: nat)
    requires AllWell(s) && run.end.None? && run.memory.digest == Some(s.config) && k < |Phases(s.config.challenge)|
    requires InStep(s.config.challenge, run.memory.completed, k)
    ensures var r := Advance(run, Phases(s.config.challenge)[k], s);
      r.end.None? && RanMarks(r.events) == RanMarks(run.events) + [Phases(s.config.challenge)[k]]
  {
    GoodRan(run, s, k);
    AdvanceIsPerform(run, s, k);
  }

  lemma StillInStep(run: Run, s: Script, k: nat, i: nat)
    requires i <= |Phases(s.config.challenge)| && run.end.None? && run.memory.digest == Some(s.config)
    requires InStep(s.config.challenge, run.memory.completed, k)
    requires After(run, s, i).end.None?
    ensures After(run, s, i).memory.digest == Some(s.config)
    ensures InStep(s.config.challenge, After(run, s, i).memory.completed, Max(k, i))
    ensures i <= k ==> After(run, s, i) == run
  {
    AfterKeeps(run, s, k, i);
  }

  lemma SliceGrows(s: seq<Mark>, k: nat, i: nat)
    requires k < i <= |s|
    ensures s[k..i] == s[k..i - 1] + [s[i - 1]]
  {
  }

  lemma OneGoodPhaseMore(run: Run, s: Script, k: nat, i: nat)
    requires AllWell(s) && k < i <= |Phases(s.config.challenge)| && run.end.None?
    requires run.memory.digest == Some(s.config)
    requires InStep(s.config.challenge, run.memory.completed, k) && run.events == []
    requires After(run, s, i - 1).end.None?
    requires RanMarks(After(run, s, i - 1).events) == Phases(s.config.challenge)[k..i - 1]
    ensures After(run, s, i).end.None?
    ensures RanMarks(After(run, s, i).events) == Phases(s.config.challenge)[k..i]
  {
    StillInStep(run, s, k, i - 1);
    GoodAdvance(After(run, s, i - 1), s, i - 1);
    SliceGrows(Phases(s.config.challenge), k, i);
  }

  lemma {:induction false} GoodPhases(run: Run, s: Script, k: nat, i: nat)
    requires AllWell(s) && i <= |Phases(s.config.challenge)| && run.end.None? && run.memory.digest == Some(s.config)
    requires InStep(s.config.challenge, run.memory.completed, k) && run.events == []
    ensures After(run, s, i).end.None?
    ensures RanMarks(After(run, s, i).events) == Phases(s.config.challenge)[k..Max(k, i)]
  {
    if i > k {
      GoodPhases(run, s, k, i - 1);
      OneGoodPhaseMore(run, s, k, i);
    } else if i > 0 {
      GoodPhases(run, s, k, i - 1);
      AfterKeeps(run, s, k, i);
    }
  }

  /** From every record a sequence of runs can leave, a run in which nothing goes wrong executes
      exactly the phases not yet recorded, in order, and leaves a finished record at rest. */
  lemma GoodRunFinishes(disk: Record, s: Script)
    requires Shape(disk) && AllWell(s)
    ensures var r := Deploy(disk, s);
      && r.end == Some(Applied)
      && RanMarks(r.events) == Phases(s.config.challenge)[Progress(Begin(disk, s.config).completed)..]
      && r.disk.completed == Phases(s.config.challenge) && r.disk.digest == Some(s.config) && AtRest(r.disk)
  {
    var n := |Phases(s.config.challenge)|;
    BeginInStep(disk, s.config);
    GoodPhases(Start(disk, s), s, Progress(Begin(disk, s.config).completed), n);
    Through(disk, s);
  }

  // ------------------------------------------------------------------ what a run may lose

  /** A run for the same configuration never goes back, except that failing onboarding withdraws
      `services-enabled` when it is the last phase recorded. */
  lemma OnlyServicesAreWithdrawn(disk: Record, s: Script)
    requires Shape(disk) && disk.digest == Some(s.config) && !AtRest(disk)
    ensures NotBack(s.config.challenge, Progress(disk.completed), Progress(Deploy(disk, s).disk.completed))
  {
    var c, n := s.config.challenge, |Phases(s.config.challenge)|;
    if Starts(s) {
      PhasesKeep(disk, s);
      UnderwayNotBack(After(Start(disk, s), s, n), Start(disk, s), s.config, Progress(disk.completed), n);
      Through(disk, s);
      PhaseAt(c, n - 1);
    } else {
      StoppedStays(Start(disk, s), s, n);
    }
  }

  predicate NotBack(c: Challenge, k: nat, k': nat) {
    k' >= k || (k' == k - 1 && k' < |Phases(c)| && Phases(c)[k'] == ServicesEnabled)
  }

  lemma UnderwayNotBack(run: Run, begun: Run, d: Digest, k: nat, i: nat)
    requires Underway(run, begun, d, k, i) && Progress(begun.disk.completed) == k
    ensures NotBack(d.challenge, k, Progress(run.disk.completed))
  {
    if run.disk != begun.disk {
      var j: nat :| k <= j < |Phases(d.challenge)| && OnDisk(d, run.disk, j);
      ProgressOnDisk(d, run.disk, j);
    }
  }

  lemma ProgressOnDisk(d: Digest, disk: Record, j: nat)
    requires j < |Phases(d.challenge)| && OnDisk(d, disk, j)
    ensures Progress(disk.completed) >= j
      || (Progress(disk.completed) == j - 1 && Phases(d.challenge)[j - 1] == ServicesEnabled)
  {
    var c := d.challenge;
    if InStep(c, disk.completed, j) {
      ProgressIs(c, disk.completed, j);
    } else if InStep(c, disk.completed, j + 1) {
      ProgressIs(c, disk.completed, j + 1);
    } else {
      assert InStep(c, disk.completed, j - 1);
      ProgressIs(c, disk.completed, j - 1);
      assert Phases(c)[j - 1] == ServicesEnabled;
    }
  }

  // ------------------------------------------------------------------ starting over

  /** No progress of an unfinished run is lost to the next run for the same configuration. */
  lemma UnfinishedProgressIsKept(scripts: seq<Script>, d: Digest)
    requires Runs(EMPTY, scripts).digest == Some(d)
    requires Runs(EMPTY, scripts).completed != Phases(d.challenge)
    ensures Begin(Runs(EMPTY, scripts), d) == Runs(EMPTY, scripts)
  {
    RunsKeepShape(scripts);
  }

  /** A run that reports success retires its record: any later run starts from nothing. */
  lemma AppliedIsRetired(disk: Record, s: Script, d: Digest)
    requires Shape(disk) && Deploy(disk, s).end == Some(Applied)
    ensures Deploy(disk, s).disk.completed == Phases(s.config.challenge)
    ensures Begin(Deploy(disk, s).disk, d) == EMPTY.(digest := Some(d))
  {
    var n := |Phases(s.config.challenge)|;
    if Starts(s) {
      NeverAppliedEarly(Start(disk, s), s, n);
      Through(disk, s);
    } else {
      StoppedStays(Start(disk, s), s, n);
    }
  }

  /** How the phase `m` may end a run. */
  predicate EndsAt(end: Option<End>, m: Mark) {
    || end.None? || end == Some(Died) || end == Some(Failed(m)) || end.value.NotRecorded?
    || end.value.MissingPrerequisites?
  }

  lemma PlainEnds(run: Run, m: Mark, t: Turn)
    requires run.end.None?
    ensures EndsAt(Plain(run, m, t).end, m)
  {
  }

  lemma DeferrableEnds(run: Run, m: Mark, marker: Mark, t: Turn)
    requires run.end.None?
    ensures EndsAt(Deferrable(run, m, marker, t).end, m)
  {
    match t.work
    case Done => PlainEnds(run.(memory := Remove(run.memory, marker)), m, t);
    case Absent =>
    case _ => PlainEnds(run, m, t);
  }

  lemma OnboardEnds(run: Run, s: Script)
    requires run.end.None?
    ensures EndsAt(Onboard(run, s).end, OnboardingReady)
  {
  }

  lemma PhaseEnds(run: Run, s: Script, m: Mark)
    requires run.end.None?
    ensures EndsAt(Perform(run, m, s).end, m)
  {
    var t := s.Answer(m);
    match m
    case LegoCommandReady => DeferrableEnds(run, m, LegoCommandDeferred, t);
    case SystemdDaemonReloaded => DeferrableEnds(run, m, SystemdDaemonReloadDeferred, t);
    case OnboardingReady => OnboardEnds(run, s);
    case _ => PlainEnds(run, m, t);
  }

  lemma {:induction false} NeverAppliedEarly(run: Run, s: Script, i: nat)
    requires i <= |Phases(s.config.challenge)| && run.end.None?
    ensures After(run, s, i).end != Some(Applied)
  {
    if i > 0 {
      NeverAppliedEarly(run, s, i - 1);
      if After(run, s, i - 1).end.None? {
        PhaseEnds(After(run, s, i - 1), s, Phases(s.config.challenge)[i - 1]);
      }
    }
  }

  /** A finished record is deployed afresh by the next good run exactly when it is at rest; otherwise
      that run executes nothing. */
  lemma FinishedIsRedoneIff(disk: Record, s: Script)
    requires Shape(disk) && AllWell(s)
    requires disk.digest == Some(s.config) && disk.completed == Phases(s.config.challenge)
    ensures RanMarks(Deploy(disk, s).events) == if AtRest(disk) then Phases(s.config.challenge) else []
  {
    PhaseAt(s.config.challenge, |Phases(s.config.challenge)| - 1);
    GoodRunFinishes(disk, s);
  }

  /** All phases are recorded. */
  predicate Finished(r: Record) {
    r.digest.Some? && r.completed == Phases(r.digest.value.challenge)
  }

  /** Finished but not at rest: the next good run for its configuration executes nothing. */
  predicate Stuck(r: Record) {
    Finished(r) && !AtRest(r)
  }

  lemma UnfinishedIn(d: Digest, r: Record, k: nat)
    requires r.digest == Some(d) && InStep(d.challenge, r.completed, k) && k < |Phases(d.challenge)|
    ensures !Finished(r)
  {
    ProgressIs(d.challenge, r.completed, k);
    ProgressIs(d.challenge, Phases(d.challenge), |Phases(d.challenge)|);
  }

  /** A phase that ends its run leaves the record alone or unfinished. */
  lemma StoppingIsUnfinished(run: Run, s: Script, k: nat)
    requires run.end.None? && run.memory.digest == Some(s.config) && k < |Phases(s.config.challenge)|
    requires InStep(s.config.challenge, run.memory.completed, k)
    ensures var r := Perform(run, Phases(s.config.challenge)[k], s);
      r.end.Some? ==> r.disk == run.disk || !Finished(r.disk)
  {
    var d, m := s.config, Phases(s.config.challenge)[k];
    var r := Perform(run, m, s);
    PerformKeeps(run, s, k);
    PhaseAt(d.challenge, k);
    if r.disk != run.disk {
      if InStep(d.challenge, r.disk.completed, k) {
        UnfinishedIn(d, r.disk, k);
      } else if InStep(d.challenge, r.disk.completed, k + 1) && k + 1 < |Phases(d.challenge)| {
        UnfinishedIn(d, r.disk, k + 1);
      } else if Withdrawn(d.challenge, r.disk.completed, k) {
        assert InStep(d.challenge, r.disk.completed, k - 1);
        UnfinishedIn(d, r.disk, k - 1);
      } else {
        assert m == StaticVerifyPassed;
        NothingMissing(d.challenge, k);
      }
    }
  }

  lemma {:induction false} StoppedIsUnfinished(run: Run, s: Script, k: nat, i: nat)
    requires i <= |Phases(s.config.challenge)| && run.end.None? && run.memory.digest == Some(s.config)
    requires InStep(s.config.challenge, run.memory.completed, k)
    ensures After(run, s, i).end.Some? ==> After(run, s, i).disk == run.disk || !Finished(After(run, s, i).disk)
  {
    if i > 0 {
      StoppedIsUnfinished(run, s, k, i - 1);
      AfterKeeps(run, s, k, i - 1);
      var before := After(run, s, i - 1);
      if before.end.None? {
        DueIsNext(s.config.challenge, before.memory.completed, Max(k, i - 1), i - 1);
        if i - 1 >= k {
          StoppingIsUnfinished(before, s, i - 1);
          if i - 1 > k {
            UnfinishedIn(s.config, before.disk, i - 1);
          }
        }
      }
    }
  }

  /** A run that gets to its phases: it leaves a stuck record exactly if it cannot save the last one,
      or has saved nothing over a stuck record. */
  lemma StuckAfterPhases(disk: Record, s: Script)
    requires Shape(disk) && Starts(s)
    ensures var r := Deploy(disk, s);
      && (Stuck(r.disk) <==> r.end == Some(NotFinalized) || (r.end != Some(Applied) && r.disk == disk && Stuck(disk)))
      && r.end != Some(NoDigest)
  {
    var n := |Phases(s.config.challenge)|;
    BeginInStep(disk, s.config);
    Through(disk, s);
    NeverAppliedEarly(Start(disk, s), s, n);
    NeverEndsOutside(Start(disk, s), s, n);
    StoppedIsUnfinished(Start(disk, s), s, Progress(Begin(disk, s.config).completed), n);
  }

  /** The ends a phase cannot bring about. */
  predicate EndsOutside(end: Option<End>) {
    end == Some(NotFinalized) || end == Some(NoDigest)
  }

  lemma {:induction false} NeverEndsOutside(run: Run, s: Script, i: nat)
    requires i <= |Phases(s.config.challenge)| && run.end.None?
    ensures !EndsOutside(After(run, s, i).end)
  {
    if i > 0 {
      NeverEndsOutside(run, s, i - 1);
      if After(run, s, i - 1).end.None? {
        PhaseEnds(After(run, s, i - 1), s, Phases(s.config.challenge)[i - 1]);
      }
    }
  }

  /** A stuck record for the run's own configuration has nothing left to do. */
  lemma StuckGoesThrough(disk: Record, s: Script)
    requires Shape(disk) && Starts(s) && Stuck(disk) && disk.digest == Some(s.config)
    ensures Deploy(disk, s).end == Some(if s.finalizeSaved then Applied else NotFinalized)
  {
    var n := |Phases(s.config.challenge)|;
    ProgressIs(s.config.challenge, disk.completed, n);
    AfterKeeps(Start(disk, s), s, n, n);
  }

  /** The run hides a finish: it cannot save its final record, or records on a finished record that it
      could not compute a digest. */
  predicate Hides(disk: Record, s: Script) {
    var r := Deploy(disk, s);
    r.end == Some(NotFinalized) || (r.end == Some(NoDigest) && s.digestFailureSaved && Finished(disk))
  }

  /** The run neither reports success nor begins the record of another configuration. */
  predicate Spares(disk: Record, s: Script) {
    Deploy(disk, s).end != Some(Applied) && Deploy(disk, s).disk.digest == disk.digest
  }

  lemma StuckAfterIff(disk: Record, s: Script)
    requires Shape(disk)
    ensures Stuck(Deploy(disk, s).disk) <==> Hides(disk, s) || (Stuck(disk) && Spares(disk, s))
  {
    if Starts(s) {
      StuckAfterPhases(disk, s);
      RunKeepsShape(disk, s);
      if Stuck(disk) && disk.digest == Some(s.config) {
        StuckGoesThrough(disk, s);
      } else {
        SavedIsOwn(disk, s);
      }
    } else {
      StoppedStays(Start(disk, s), s, |Phases(s.config.challenge)|);
    }
  }

  /** Whatever a run's phases save is a record of its own configuration. */
  lemma SavedIsOwn(disk: Record, s: Script)
    requires Shape(disk) && Starts(s)
    ensures var r := Deploy(disk, s);
      r.disk == disk || r.disk.digest == Some(s.config)
  {
    PhasesKeep(disk, s);
    Through(disk, s);
  }

  /** Run `i` of the history hides a finish, and no later one uncovers it. */
  predicate HiddenSince(scripts: seq<Script>, i: nat)
    requires i < |scripts|
  {
    && Hides(Runs(EMPTY, scripts[..i]), scripts[i])
    && forall j :: i < j < |scripts| ==> SparesAt(scripts, j)
  }

  predicate SparesAt(scripts: seq<Script>, i: nat)
    requires i < |scripts|
  {
    Spares(Runs(EMPTY, scripts[..i]), scripts[i])
  }

  lemma HiddenOneMore(scripts: seq<Script>, i: nat)
    requires i < |scripts| - 1
    ensures var front := scripts[..|scripts| - 1];
      HiddenSince(scripts, i) <==> HiddenSince(front, i) && SparesAt(scripts, |scripts| - 1)
  {
    var front := scripts[..|scripts| - 1];
    assert scripts[..i] == front[..i];
    forall j: nat | j < |front| ensures SparesAt(scripts, j) == SparesAt(front, j) {
      assert scripts[..j] == front[..j];
    }
  }

  predicate Hidden(scripts: seq<Script>) {
    exists i :: 0 <= i < |scripts| && HiddenSince(scripts, i)
  }

  lemma HiddenStep(scripts: seq<Script>)
    requires scripts != []
    ensures var n := |scripts| - 1;
      Hidden(scripts) <==> HiddenSince(scripts, n) || (Hidden(scripts[..n]) && SparesAt(scripts, n))
  {
    var n := |scripts| - 1;
    var front := scripts[..n];
    if Hidden(scripts) && !HiddenSince(scripts, n) {
      var i :| 0 <= i < |scripts| && HiddenSince(scripts, i);
      HiddenOneMore(scripts, i);
    }
    if Hidden(front) && SparesAt(scripts, n) {
      var i :| 0 <= i < |front| && HiddenSince(front, i);
      HiddenOneMore(scripts, i);
    }
  }

  /** After any history, a finished record is stuck exactly if some run has hidden it, and no later
      run has reported success or begun the record of another configuration. */
  lemma {:induction false} StuckIff(scripts: seq<Script>)
    ensures Stuck(Runs(EMPTY, scripts)) <==> Hidden(scripts)
  {
    if scripts != [] {
      var front := scripts[..|scripts| - 1];
      StuckIff(front);
      RunsKeepShape(front);
      StuckAfterIff(Runs(EMPTY, front), scripts[|scripts| - 1]);
      HiddenStep(scripts);
    }
  }

  /** Where the digest can be computed, only a failing last save hides a finish. */
  lemma OnlyUnsavedHides(disk: Record, s: Script)
    requires s.digestComputed
    ensures Hides(disk, s) <==> Deploy(disk, s).end == Some(NotFinalized)
  {
    var n := |Phases(s.config.challenge)|;
    if Starts(s) {
      NeverEndsOutside(Start(disk, s), s, n);
    } else {
      StoppedStays(Start(disk, s), s, n);
    }
  }

  /** It does happen: a run in which all goes well except that its last save fails, and the next one
      executes nothing; it only retires the record. */
  lemma FailedFinalSaveHidesTheFinish(good: Script)
    requires AllWell(good)
    ensures var unsaved := good.(finalizeSaved := false);
      var r := Deploy(Runs(EMPTY, [unsaved]), good);
      RanMarks(r.events) == [] && r.end == Some(Applied) && AtRest(r.disk)
  {
    var unsaved := good.(finalizeSaved := false);
    var disk := Runs(EMPTY, [unsaved]);
    assert [unsaved][..|[unsaved]| - 1] == [] && Runs(EMPTY, []) == EMPTY;
    assert disk == Deploy(EMPTY, unsaved).disk;
    UnsavedIsStuck(good);
    FinishedIsRedoneIff(disk, good);
    GoodRunFinishes(disk, good);
  }

  lemma UnsavedIsStuck(good: Script)
    requires AllWell(good)
    ensures var disk := Deploy(EMPTY, good.(finalizeSaved := false)).disk;
      Shape(disk) && disk.digest == Some(good.config) && Stuck(disk)
  {
    var n := |Phases(good.config.challenge)|;
    RunKeepsShape(EMPTY, good.(finalizeSaved := false));
    SameUntilTheEnd(good, n);
    Through(EMPTY, good);
    GoodPhases(Start(EMPTY, good), good, 0, n);
  }

  lemma PerformIgnoresTheEnd(run: Run, m: Mark, s: Script)
    ensures Perform(run, m, s.(finalizeSaved := false)) == Perform(run, m, s)
  {
    assert s.(finalizeSaved := false).Answer(m) == s.Answer(m);
  }

  /** The last save has no say in what comes before it. */
  lemma {:induction false} SameUntilTheEnd(s: Script, i: nat)
    requires i <= |Phases(s.config.challenge)|
    ensures var other := s.(finalizeSaved := false);
      After(Start(EMPTY, other), other, i) == After(Start(EMPTY, s), s, i)
  {
    if i > 0 {
      SameUntilTheEnd(s, i - 1);
      PerformIgnoresTheEnd(After(Start(EMPTY, s), s, i - 1), Phases(s.config.challenge)[i - 1], s);
    }
  }

  /** Every phase among `completed` was kept from before or executed now. */
  predicate Earned(completed: seq<Mark>, kept: seq<Mark>, events: seq<Event>) {
    forall m <- completed :: IsMarker(m) || m in kept || Ran(m) in events
  }

  lemma {:induction false} WithoutIsSubset(s: seq<Mark>, m: Mark)
    ensures forall x <- Without(s, m) :: x in s
  {
    if s != [] {
      WithoutIsSubset(s[..|s| - 1], m);
    }
  }

  predicate Accounted(run: Run, disk: Record, kept: seq<Mark>) {
    && Earned(run.memory.completed, kept, run.events)
    && (run.disk == disk || Earned(run.disk.completed, kept, run.events))
  }

  lemma EventAccounted(run: Run, e: Event, disk: Record, kept: seq<Mark>)
    requires Accounted(run, disk, kept)
    ensures Accounted(run.(events := run.events + [e]), disk, kept)
  {
  }

  lemma CompleteAccounted(run: Run, m: Mark, t: Turn, disk: Record, kept: seq<Mark>)
    requires Accounted(run, disk, kept)
    ensures Accounted(Complete(run, m, t), disk, kept)
  {
  }

  lemma FailAccounted(run: Run, end: End, saved: bool, disk: Record, kept: seq<Mark>)
    requires Accounted(run, disk, kept)
    ensures Accounted(Fail(run, end, saved), disk, kept)
  {
  }

  lemma PlainAccounted(run: Run, m: Mark, t: Turn, disk: Record, kept: seq<Mark>)
    requires Accounted(run, disk, kept)
    ensures Accounted(Plain(run, m, t), disk, kept)
  {
    CompleteAccounted(run, m, t, disk, kept);
    FailAccounted(run, Failed(m), t.saved, disk, kept);
  }

  lemma DeferAccounted(run: Run, m: Mark, marker: Mark, t: Turn, disk: Record, kept: seq<Mark>)
    requires Accounted(run, disk, kept) && IsMarker(marker) && t.work.Absent?
    ensures Accounted(Deferrable(run, m, marker, t), disk, kept)
  {
  }

  lemma DeferrableAccounted(run: Run, m: Mark, marker: Mark, t: Turn, disk: Record, kept: seq<Mark>)
    requires Accounted(run, disk, kept) && IsMarker(marker)
    ensures Accounted(Deferrable(run, m, marker, t), disk, kept)
  {
    if t.work.Absent? {
      DeferAccounted(run, m, marker, t, disk, kept);
    } else if t.work.Done? {
      WithoutIsSubset(run.memory.completed, marker);
      PlainAccounted(run.(memory := Remove(run.memory, marker)), m, t, disk, kept);
    } else {
      PlainAccounted(run, m, t, disk, kept);
    }
  }

  lemma WithdrawAccounted(run: Run, saved: bool, disk: Record, kept: seq<Mark>)
    requires Accounted(run, disk, kept)
    ensures Accounted(Fail(Withdraw(run), Failed(OnboardingReady), saved), disk, kept)
  {
    WithoutIsSubset(run.memory.completed, ServicesEnabled);
    FailAccounted(Withdraw(run), Failed(OnboardingReady), saved, disk, kept);
  }

  lemma KeyAccounted(run: Run, t: Turn, disk: Record, kept: seq<Mark>)
    requires Accounted(run, disk, kept)
    ensures Accounted(Complete(run.(events := run.events + [KeyCreated]), OnboardingReady, t), disk, kept)
  {
  }

  lemma OnboardAccounted(run: Run, s: Script, disk: Record, kept: seq<Mark>)
    requires Accounted(run, disk, kept)
    ensures Accounted(Onboard(run, s), disk, kept)
  {
    var t := s.Answer(OnboardingReady);
    if !run.restarted && !s.restart.Done? {
      WithdrawAccounted(run, t.saved, disk, kept);
    } else {
      var up := if run.restarted then run else run.(events := run.events + [Restarted]);
      EventAccounted(run, Restarted, disk, kept);
      if !s.onboardingPlan.Done? {
        FailAccounted(up, Failed(OnboardingReady), t.saved, disk, kept);
      } else if !t.work.Done? {
        WithdrawAccounted(up, t.saved, disk, kept);
      } else {
        KeyAccounted(up, t, disk, kept);
      }
    }
  }

  lemma PhaseAccounted(run: Run, s: Script, m: Mark, disk: Record, kept: seq<Mark>)
    requires Accounted(run, disk, kept)
    ensures Accounted(Perform(run, m, s), disk, kept)
  {
    var t := s.Answer(m);
    PlainAccounted(run, m, t, disk, kept);
    match m
    case RuntimeAssetsInstalled =>
      PlainAccounted(run.(memory := run.memory.(
                       paths := AddNew(run.memory.paths, s.paths),
                       activations := AddNew(run.memory.activations, s.activations))), m, t, disk, kept);
    case LegoCommandReady => DeferrableAccounted(run, m, LegoCommandDeferred, t, disk, kept);
    case SystemdDaemonReloaded => DeferrableAccounted(run, m, SystemdDaemonReloadDeferred, t, disk, kept);
    case ServicesEnabled =>
      PlainAccounted(run.(restarted := true, events := run.events + [Restarted]), m, t, disk, kept);
    case OnboardingReady => OnboardAccounted(run, s, disk, kept);
    case _ =>
  }

  lemma {:induction false} PhasesAccounted(run: Run, s: Script, disk: Record, i: nat)
    requires i <= |Phases(s.config.challenge)| && run.disk == disk
    ensures Accounted(After(run, s, i), disk, run.memory.completed)
  {
    if i > 0 {
      PhasesAccounted(run, s, disk, i - 1);
      PhaseAccounted(After(run, s, i - 1), s, Phases(s.config.challenge)[i - 1], disk, run.memory.completed);
    }
  }

  /** A run that gets as far as its digest never leaves a record crediting a phase that it neither
      kept when it began nor executed. */
  lemma NothingIsUnearned(disk: Record, s: Script)
    requires s.digestComputed
    ensures var r := Deploy(disk, s);
      r.disk == disk || Earned(r.disk.completed, Begin(disk, s.config).completed, r.events)
  {
    var n := |Phases(s.config.challenge)|;
    if Starts(s) {
      PhasesAccounted(Start(disk, s), s, disk, n);
    } else {
      StoppedStays(Start(disk, s), s, n);
    }
  }

  // ------------------------------------------------------------------ onboarding

  ghost predicate KeysFollowRestarts(events: seq<Event>) {
    forall i :: 0 <= i < |events| && events[i].KeyCreated? ==> Restarted in events[..i]
  }

  lemma KeysAppend(events: seq<Event>, e: Event)
    requires KeysFollowRestarts(events) && (e.KeyCreated? ==> Restarted in events)
    ensures KeysFollowRestarts(events + [e])
  {
    forall i | 0 <= i < |events| + 1 && (events + [e])[i].KeyCreated? ensures Restarted in (events + [e])[..i] {
      assert (events + [e])[..i] == events[..i];
    }
  }

  lemma OnboardKeys(run: Run, s: Script)
    requires KeysFollowRestarts(run.events) && (run.restarted ==> Restarted in run.events)
    ensures KeysFollowRestarts(Onboard(run, s).events)
  {
    var up := if run.restarted then run.events else run.events + [Restarted];
    KeysAppend(run.events, Restarted);
    KeysAppend(up, KeyCreated);
    KeysAppend(up + [KeyCreated], Ran(OnboardingReady));
  }

  lemma PhaseKeys(run: Run, s: Script, m: Mark)
    requires KeysFollowRestarts(run.events) && (run.restarted ==> Restarted in run.events)
    ensures KeysFollowRestarts(Perform(run, m, s).events)
  {
    if m == OnboardingReady {
      OnboardKeys(run, s);
    } else {
      EventsGrow(run, s, m);
      KeysAppend(run.events, Ran(m));
      KeysAppend(run.events, Restarted);
      KeysAppend(run.events + [Restarted], Ran(m));
    }
  }

  lemma PhaseRestarts(run: Run, s: Script, m: Mark)
    requires run.restarted ==> Restarted in run.events
    ensures Perform(run, m, s).restarted ==> Restarted in Perform(run, m, s).events
  {
  }

  lemma {:induction false} PhasesKeys(run: Run, s: Script, i: nat)
    requires i <= |Phases(s.config.challenge)| && run.events == [] && !run.restarted
    ensures KeysFollowRestarts(After(run, s, i).events)
    ensures After(run, s, i).restarted ==> Restarted in After(run, s, i).events
  {
    if i > 0 {
      PhasesKeys(run, s, i - 1);
      PhaseKeys(After(run, s, i - 1), s, Phases(s.config.challenge)[i - 1]);
      PhaseRestarts(After(run, s, i - 1), s, Phases(s.config.challenge)[i - 1]);
    }
  }

  /** A preauth key is only ever created after a successful restart in the same run, whatever the
      record on disk says. */
  lemma KeyOnlyAfterRestart(disk: Record, s: Script)
    ensures KeysFollowRestarts(Deploy(disk, s).events)
  {
    PhasesKeys(Start(disk, s), s, |Phases(s.config.challenge)|);
  }

  lemma {:induction false} WithoutRemoves(s: seq<Mark>, m: Mark)
    ensures m !in Without(s, m)
  {
    if s != [] {
      WithoutRemoves(s[..|s| - 1], m);
    }
  }

  predicate OnboardingFailed(r: Run) {
    r.end == Some(Failed(OnboardingReady))
  }

  lemma EventsGrow(run: Run, s: Script, m: Mark)
    requires m != OnboardingReady
    ensures var e := Perform(run, m, s).events;
      e == run.events || e == run.events + [Ran(m)] || e == run.events + [Restarted] + [Ran(m)]
  {
  }

  /** Every key comes after the services have been enabled. */
  ghost predicate KeysServed(events: seq<Event>) {
    forall i :: 0 <= i < |events| && events[i].KeyCreated? ==> Ran(ServicesEnabled) in events[..i]
  }

  lemma ServedAppend(events: seq<Event>, e: Event)
    requires KeysServed(events) && (e.KeyCreated? ==> Ran(ServicesEnabled) in events)
    ensures KeysServed(events + [e])
  {
    forall i | 0 <= i < |events| + 1 && (events + [e])[i].KeyCreated?
      ensures Ran(ServicesEnabled) in (events + [e])[..i]
    {
      assert (events + [e])[..i] == events[..i];
    }
  }

  lemma OnboardServed(run: Run, s: Script)
    requires KeysServed(run.events) && Ran(ServicesEnabled) in run.events
    ensures KeysServed(Onboard(run, s).events)
  {
    var up := if run.restarted then run.events else run.events + [Restarted];
    ServedAppend(run.events, Restarted);
    ServedAppend(up, KeyCreated);
    ServedAppend(up + [KeyCreated], Ran(OnboardingReady));
  }

  lemma PhaseServesKeys(run: Run, s: Script, m: Mark, disk: Record, kept: seq<Mark>)
    requires KeysServed(run.events) && ServicesEnabled !in kept && Accounted(run, disk, kept)
    ensures KeysServed(Advance(run, m, s).events)
  {
    if run.end.None? && Due(s.config.challenge, run.memory.completed, m) {
      if m == OnboardingReady {
        assert ServicesEnabled in Needs(s.config.challenge, m);
        OnboardServed(run, s);
      } else {
        EventsGrow(run, s, m);
        ServedAppend(run.events, Ran(m));
        ServedAppend(run.events, Restarted);
        ServedAppend(run.events + [Restarted], Ran(m));
      }
    }
  }

  lemma {:induction false} PhasesServeKeys(run: Run, s: Script, i: nat)
    requires i <= |Phases(s.config.challenge)| && run.events == [] && ServicesEnabled !in run.memory.completed
    ensures KeysServed(After(run, s, i).events)
  {
    if i > 0 {
      PhasesServeKeys(run, s, i - 1);
      PhasesAccounted(run, s, run.disk, i - 1);
      PhaseServesKeys(After(run, s, i - 1), s, Phases(s.config.challenge)[i - 1], run.disk, run.memory.completed);
    }
  }

  /** So the next run enables the services again, and with them restarts Headscale, before it creates
      a key. */
  lemma WithdrawnServicesRunAgain(disk: Record, s: Script)
    requires ServicesEnabled !in disk.completed
    ensures KeysServed(Deploy(disk, s).events)
  {
    PhasesServeKeys(Start(disk, s), s, |Phases(s.config.challenge)|);
  }
}
