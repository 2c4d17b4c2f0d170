/** What a run of the main deploy may rely on, whatever record it starts from: no phase is executed
    before those it needs are recorded, a failure is recorded exactly while it stands, and a command
    that is not there yet leaves its marker. */
module MainDeployGuards {
  import opened Options
  import opened Checkpoint
  import opened MainDeploy
  import opened MainDeployRuns
  import opened MainDeployResume
  import opened MainDeployRestarts
  import opened MainDeployRecords

  // ------------------------------------------------------------------ prerequisites

  /** What has to be recorded when a phase has been executed. */
  predicate Grounds(c: Challenge, completed: seq<Mark>, m: Mark) {
    match m
    case CertificateIssued => LegoCommandReady in completed
    case NginxActivated => (if c.HTTP01? then TLSBootstrapReady else CertificateIssued) in completed
    case ServicesEnabled =>
      SystemdDaemonReloaded in completed && CertificateIssued in completed && NginxActivated in completed
    case OnboardingReady => ServicesEnabled in completed
    case StaticVerifyPassed =>
      && CertificateIssued in completed && NginxActivated in completed && SystemdDaemonReloaded in completed
      && ServicesEnabled in completed && OnboardingReady in completed
    case _ => true
  }

  ghost predicate Grounded(run: Run, c: Challenge) {
    forall m :: Ran(m) in run.events ==> Grounds(c, run.memory.completed, m)
  }

  lemma {:induction false} NothingMissing(completed: seq<Mark>, names: seq<Mark>)
    ensures Missing(completed, names) == [] <==> forall n <- names :: n in completed
    ensures forall n <- Missing(completed, names) :: n in names && n !in completed
  {
    if names != [] {
      NothingMissing(completed, names[1..]);
      assert names == [names[0]] + names[1..];
    }
  }

  lemma {:induction false} WithoutKeeps(s: seq<Mark>, m: Mark, x: Mark)
    requires x in s && x != m
    ensures x in Without(s, m)
  {
    if s[|s| - 1] != x {
      assert x in s[..|s| - 1];
      WithoutKeeps(s[..|s| - 1], m, x);
    }
  }

  /** No mark is lost but markers. */
  ghost predicate MarksStay(run: Run, after: Run) {
    forall x :: x in run.memory.completed && !IsMarker(x) ==> x in after.memory.completed
  }

  /** The phase may have been executed, and no other has. */
  ghost predicate Adds(run: Run, after: Run, m: Mark) {
    forall x :: Ran(x) in after.events ==> Ran(x) in run.events || x == m
  }

  lemma MarkIn(r: Record, m: Mark, x: Mark)
    ensures x in MarkDone(r, m).completed <==> x in r.completed || x == m
  {
  }

  /** What an executed phase adds. */
  lemma CompleteIs(run: Run, m: Mark, t: Turn)
    ensures var r := Complete(run, m, t);
      && r.events == run.events + [Ran(m)] && r.memory.failure.None? && (!Fails(run.end) ==> !Fails(r.end))
      && forall x :: x in r.memory.completed <==> x in run.memory.completed || x == m
  {
    forall x: Mark ensures x in MarkDone(run.memory, m).completed <==> x in run.memory.completed || x == m {
      MarkIn(run.memory, m, x);
    }
  }

  lemma CompleteStays(run: Run, m: Mark, t: Turn)
    ensures MarksStay(run, Complete(run, m, t)) && Adds(run, Complete(run, m, t), m)
  {
    CompleteIs(run, m, t);
  }

  lemma PlainStays(run: Run, m: Mark, t: Turn)
    ensures MarksStay(run, Plain(run, m, t)) && Adds(run, Plain(run, m, t), m)
  {
    if t.work.Done? {
      CompleteStays(run, m, t);
    }
  }

  lemma DeferrableStays(run: Run, m: Mark, marker: Mark, t: Turn)
    requires IsMarker(marker)
    ensures MarksStay(run, Deferrable(run, m, marker, t)) && Adds(run, Deferrable(run, m, marker, t), m)
  {
    var arrived := run.(memory := Remove(run.memory, marker));
    forall x | x in run.memory.completed && !IsMarker(x) ensures x in arrived.memory.completed {
      WithoutKeeps(run.memory.completed, marker, x);
    }
    if t.work.Done? {
      PlainStays(arrived, m, t);
    } else {
      PlainStays(run, m, t);
    }
  }

  lemma ServicesStay(run: Run, t: Turn)
    ensures MarksStay(run, EnableServices(run, t)) && Adds(run, EnableServices(run, t), ServicesEnabled)
  {
    if t.work.Done? {
      CompleteStays(run.(restarted := true, events := run.events + [Restarted]), ServicesEnabled, t);
    } else {
      PlainStays(run, ServicesEnabled, t);
    }
  }

  lemma EarlyStays(run: Run, s: Script, m: Mark)
    requires m != OnboardingReady
    ensures MarksStay(run, Perform(run, m, s)) && Adds(run, Perform(run, m, s), m)
  {
    var t := s.Answer(m);
    match m
    case LegoCommandReady => DeferrableStays(run, m, LegoCommandDeferred, t);
    case SystemdDaemonReloaded => DeferrableStays(run, m, SystemdDaemonReloadDeferred, t);
    case ServicesEnabled => ServicesStay(run, t);
    case _ => PlainStays(run, m, t);
  }

  /** A new phase stands on what was due, and the verification on what it has found recorded. */
  lemma EarlyGrounded(run: Run, s: Script, m: Mark)
    requires Grounded(run, s.config.challenge) && Due(s.config.challenge, run.memory.completed, m)
    requires m != OnboardingReady
    ensures Grounded(Perform(run, m, s), s.config.challenge)
  {
    var c, after := s.config.challenge, Perform(run, m, s);
    EarlyStays(run, s, m);
    forall x | Ran(x) in after.events ensures Grounds(c, after.memory.completed, x) {
      if Ran(x) in run.events {
        assert Grounds(c, run.memory.completed, x);
      } else {
        DueGrounds(run, s, m);
      }
    }
  }

  lemma DueGrounds(run: Run, s: Script, m: Mark)
    requires Due(s.config.challenge, run.memory.completed, m) && m != OnboardingReady
    requires Ran(m) in Perform(run, m, s).events && Ran(m) !in run.events
    ensures Grounds(s.config.challenge, Perform(run, m, s).memory.completed, m)
  {
    EarlyStays(run, s, m);
    if m == StaticVerifyPassed {
      NothingMissing(run.memory.completed, REQUIRED);
      assert forall n <- REQUIRED :: n in run.memory.completed;
    } else {
      NeedsGround(s.config.challenge, run.memory.completed, m);
    }
  }

  lemma NeedsGround(c: Challenge, completed: seq<Mark>, m: Mark)
    requires m != StaticVerifyPassed && forall n <- Needs(c, m) :: n in completed
    ensures Grounds(c, completed, m)
  {
    var needs := Needs(c, m);
    assert needs != [] ==> needs[0] in completed;
    assert |needs| == 3 ==> needs[1] in completed && needs[2] in completed;
  }

  lemma OnboardGrounded(run: Run, s: Script)
    requires Grounded(run, s.config.challenge) && Due(s.config.challenge, run.memory.completed, OnboardingReady)
    requires Ran(OnboardingReady) !in run.events && Ran(StaticVerifyPassed) !in run.events
    ensures Grounded(Onboard(run, s), s.config.challenge) && Adds(run, Onboard(run, s), OnboardingReady)
  {
    var c, after := s.config.challenge, Onboard(run, s);
    assert ServicesEnabled in Needs(c, OnboardingReady);
    assert Adds(run, after, OnboardingReady);
    forall x | x in run.memory.completed && x != ServicesEnabled ensures x in after.memory.completed {
      WithoutKeeps(run.memory.completed, ServicesEnabled, x);
    }
    forall x | Ran(x) in after.events ensures Grounds(c, after.memory.completed, x) {
      assert Ran(x) in run.events ==> Grounds(c, run.memory.completed, x);
    }
  }

  lemma PhaseGrounded(run: Run, s: Script, m: Mark)
    requires Grounded(run, s.config.challenge) && Due(s.config.challenge, run.memory.completed, m)
    requires m == OnboardingReady ==> Ran(OnboardingReady) !in run.events && Ran(StaticVerifyPassed) !in run.events
    ensures Grounded(Perform(run, m, s), s.config.challenge) && Adds(run, Perform(run, m, s), m)
  {
    if m == OnboardingReady {
      OnboardGrounded(run, s);
    } else {
      EarlyGrounded(run, s, m);
      EarlyStays(run, s, m);
    }
  }

  lemma {:induction false} PhasesGrounded(run: Run, s: Script, i: nat)
    requires i <= |Phases(s.config.challenge)| && run.events == []
    ensures Grounded(After(run, s, i), s.config.challenge)
    ensures i + 2 <= |Phases(s.config.challenge)| ==>
      Ran(OnboardingReady) !in After(run, s, i).events && Ran(StaticVerifyPassed) !in After(run, s, i).events
  {
    if i > 0 {
      PhasesGrounded(run, s, i - 1);
      Places(s.config.challenge, i - 1);
      LastPhase(s.config.challenge, i - 1);
      var before, m := After(run, s, i - 1), Phases(s.config.challenge)[i - 1];
      if before.end.None? && Due(s.config.challenge, before.memory.completed, m) {
        PhaseGrounded(before, s, m);
      }
    }
  }

  lemma LastPhase(c: Challenge, i: nat)
    requires i < |Phases(c)|
    ensures Phases(c)[i] == StaticVerifyPassed <==> i == |Phases(c)| - 1
  {
  }

  /** No phase is executed before those it needs are recorded, whatever record the run starts from; and
      then they stay recorded. */
  lemma NothingRunsEarly(disk: Record, s: Script, m: Mark)
    requires Ran(m) in Deploy(disk, s).events
    ensures Grounds(s.config.challenge, Deploy(disk, s).memory.completed, m)
  {
    PhasesGrounded(Start(disk, s), s, |Phases(s.config.challenge)|);
  }

  // ------------------------------------------------------------------ failures

  /** Once a phase has been executed, the record has a failure exactly if the run has failed since. */
  ghost predicate Tidy(run: Run) {
    (exists m :: Ran(m) in run.events) ==> (run.memory.failure.Some? <==> Fails(run.end))
  }

  lemma FailTidy(run: Run, m: Mark, saved: bool)
    ensures Tidy(Fail(run, Failed(m), saved))
  {
  }

  lemma PlainTidy(run: Run, m: Mark, t: Turn)
    requires Tidy(run) && run.end.None?
    ensures Tidy(Plain(run, m, t))
  {
    match t.work
    case Done => CompleteIs(run, m, t);
    case Killed => assert Stop(run, Died).events == run.events;
    case _ => FailTidy(run, m, t.saved);
  }

  lemma DeferrableTidy(run: Run, m: Mark, marker: Mark, t: Turn)
    requires Tidy(run) && run.end.None?
    ensures Tidy(Deferrable(run, m, marker, t))
  {
    var arrived := run.(memory := Remove(run.memory, marker));
    assert Tidy(arrived);
    if t.work.Done? {
      PlainTidy(arrived, m, t);
    } else {
      PlainTidy(run, m, t);
    }
  }

  lemma OnboardTidy(run: Run, s: Script)
    requires Tidy(run) && run.end.None?
    ensures Tidy(Onboard(run, s))
  {
    assert Restarted != Ran(OnboardingReady);
    assert forall m :: Ran(m) in run.events + [Restarted] <==> Ran(m) in run.events;
  }

  lemma PhaseTidy(run: Run, s: Script, m: Mark)
    requires Tidy(run) && run.end.None?
    ensures Tidy(Perform(run, m, s))
  {
    match m
    case LegoCommandReady => DeferrableTidy(run, m, LegoCommandDeferred, s.Answer(m));
    case SystemdDaemonReloaded => DeferrableTidy(run, m, SystemdDaemonReloadDeferred, s.Answer(m));
    case OnboardingReady => OnboardTidy(run, s);
    case _ => PlainTidy(run, m, s.Answer(m));
  }

  lemma {:induction false} PhasesTidy(run: Run, s: Script, i: nat)
    requires i <= |Phases(s.config.challenge)| && run.events == []
    ensures Tidy(After(run, s, i))
  {
    if i > 0 {
      PhasesTidy(run, s, i - 1);
      if After(run, s, i - 1).end.None? {
        PhaseTidy(After(run, s, i - 1), s, Phases(s.config.challenge)[i - 1]);
      }
    }
  }

  /** A phase that succeeds clears the failure of an earlier run: after a run that has executed a phase
      the record has a failure exactly if this run has failed. */
  lemma FailureStandsIff(disk: Record, s: Script, m: Mark)
    requires Ran(m) in Deploy(disk, s).events
    ensures Deploy(disk, s).memory.failure.Some? <==> Fails(Deploy(disk, s).end)
  {
    PhasesTidy(Start(disk, s), s, |Phases(s.config.challenge)|);
  }

  // ------------------------------------------------------------------ markers

  /** A phase whose command was missing has left its marker, and one that was executed has none. */
  predicate MarkedRight(run: Run, s: Script, m: Mark, marker: Mark) {
    && (run.end == Some(Failed(m)) && s.Answer(m).work.Absent? ==> marker in run.memory.completed)
    && (Ran(m) in run.events ==> marker !in run.memory.completed)
  }

  lemma DeferrableMarks(run: Run, s: Script, m: Mark, marker: Mark)
    requires Ran(m) !in run.events && run.end.None? && Deferral(m) == Some(marker)
    ensures MarkedRight(Deferrable(run, m, marker, s.Answer(m)), s, m, marker)
  {
    WithoutRemoves(run.memory.completed, marker);
  }

  /** Other phases add neither the mark nor the marker. */
  lemma OthersLeaveMarker(run: Run, s: Script, m: Mark, marker: Mark, other: Mark)
    requires MarkedRight(run, s, m, marker) && run.end.None? && other != m && Deferral(m) == Some(marker)
    requires !IsMarker(other)
    ensures MarkedRight(Perform(run, other, s), s, m, marker)
    ensures Ran(m) in Perform(run, other, s).events <==> Ran(m) in run.events
  {
    PhaseEnds(run, s, other);
    if marker !in run.memory.completed {
      NoNewMark(run, s, other, marker);
    }
    if other == OnboardingReady {
      OnboardEvents(run, s);
    } else {
      EventsGrow(run, s, other);
    }
  }

  lemma PlainAddsOwn(run: Run, m: Mark, t: Turn, x: Mark)
    requires x !in run.memory.completed && x != m
    ensures x !in Plain(run, m, t).memory.completed
  {
    if t.work.Done? {
      CompleteIs(run, m, t);
    }
  }

  lemma AbsentAddsMarker(run: Run, m: Mark, marker: Mark, t: Turn, x: Mark)
    requires t.work.Absent?
    ensures x in Deferrable(run, m, marker, t).memory.completed <==> x in run.memory.completed || x == marker
  {
    assert Deferrable(run, m, marker, t).memory.completed == MarkDone(run.memory, marker).completed;
    MarkIn(run.memory, marker, x);
  }

  lemma DeferrableAddsOwn(run: Run, m: Mark, marker: Mark, t: Turn, x: Mark)
    requires x !in run.memory.completed && x != m && x != marker
    ensures x !in Deferrable(run, m, marker, t).memory.completed
  {
    match t.work
    case Done =>
      WithoutAddsNothing(run.memory.completed, marker, x);
      PlainAddsOwn(run.(memory := Remove(run.memory, marker)), m, t, x);
    case Absent => AbsentAddsMarker(run, m, marker, t, x);
    case _ => PlainAddsOwn(run, m, t, x);
  }

  lemma OnboardAddsOwn(run: Run, s: Script, x: Mark)
    requires x !in run.memory.completed && x != OnboardingReady
    ensures x !in Onboard(run, s).memory.completed
  {
    WithoutAddsNothing(run.memory.completed, ServicesEnabled, x);
  }

  lemma NoNewMark(run: Run, s: Script, m: Mark, x: Mark)
    requires x !in run.memory.completed && x != m && Deferral(m) != Some(x)
    ensures x !in Perform(run, m, s).memory.completed
  {
    match m
    case LegoCommandReady => DeferrableAddsOwn(run, m, LegoCommandDeferred, s.Answer(m), x);
    case SystemdDaemonReloaded => DeferrableAddsOwn(run, m, SystemdDaemonReloadDeferred, s.Answer(m), x);
    case OnboardingReady => OnboardAddsOwn(run, s, x);
    case _ => PlainAddsOwn(run, m, s.Answer(m), x);
  }

  lemma {:induction false} WithoutAddsNothing(s: seq<Mark>, m: Mark, x: Mark)
    requires x !in s
    ensures x !in Without(s, m)
  {
    if s != [] {
      WithoutAddsNothing(s[..|s| - 1], m, x);
    }
  }

  lemma PhasesAreNoMarkers(c: Challenge, i: nat, j: nat)
    requires i < |Phases(c)| && j < |Phases(c)|
    ensures !IsMarker(Phases(c)[i]) && (Phases(c)[i] == Phases(c)[j] ==> i == j)
  {
  }

  lemma {:induction false} PhasesMark(run: Run, s: Script, k: nat, marker: Mark, i: nat)
    requires i <= |Phases(s.config.challenge)| && k < |Phases(s.config.challenge)| && run.events == []
    requires Deferral(Phases(s.config.challenge)[k]) == Some(marker) && !Fails(run.end)
    ensures var m := Phases(s.config.challenge)[k];
      && (i <= k ==> Ran(m) !in After(run, s, i).events)
      && MarkedRight(After(run, s, i), s, m, marker)
  {
    if i > 0 {
      PhasesMark(run, s, k, marker, i - 1);
      PhasesAreNoMarkers(s.config.challenge, i - 1, k);
      var before, other := After(run, s, i - 1), Phases(s.config.challenge)[i - 1];
      if before.end.None? {
        if i - 1 == k {
          DeferrableMarks(before, s, other, marker);
        } else {
          OthersLeaveMarker(before, s, Phases(s.config.challenge)[k], marker, other);
        }
      }
    }
  }

  lemma DeferralPlace(c: Challenge, m: Mark) returns (k: nat)
    requires Deferral(m).Some?
    ensures k < |Phases(c)| && Phases(c)[k] == m
  {
    k := if m == LegoCommandReady then (if c.HTTP01? then 8 else 6) else |Phases(c)| - 4;
  }

  /** A run that stops because a command is not there yet has the marker for it in its record; and once
      the phase is executed the marker is gone. */
  lemma DeferralIsMarked(disk: Record, s: Script, m: Mark, marker: Mark)
    requires Deferral(m) == Some(marker)
    ensures MarkedRight(Deploy(disk, s), s, m, marker)
  {
    var begun, c := Start(disk, s), s.config.challenge;
    if begun.end.Some? {
      StoppedStays(begun, s, |Phases(c)|);
    } else {
      var k := DeferralPlace(c, m);
      PhasesMark(begun, s, k, marker, |Phases(c)|);
    }
  }

  // ------------------------------------------------------------------ the current mark

  /** The current mark is one of those recorded. */
  predicate Pointed(r: Record) {
    r.current.Some? ==> r.current.value in r.completed
  }

  predicate BothPointed(run: Run) {
    Pointed(run.memory) && Pointed(run.disk)
  }

  lemma RemovePoints(r: Record, m: Mark)
    requires Pointed(r)
    ensures Pointed(Remove(r, m))
  {
    if r.current.Some? && r.current.value != m {
      WithoutKeeps(r.completed, m, r.current.value);
    }
  }

  lemma RecordedPoints(run: Run, m: Mark, saved: bool)
    requires Pointed(run.disk)
    ensures BothPointed(Recorded(run, m, saved))
  {
    MarkIn(run.memory, m, m);
  }

  lemma PlainPoints(run: Run, m: Mark, t: Turn)
    requires BothPointed(run)
    ensures BothPointed(Plain(run, m, t))
  {
    if t.work.Done? {
      RecordedPoints(run.(events := run.events + [Ran(m)]), m, t.saved);
    }
  }

  lemma FailPoints(run: Run, end: End, saved: bool)
    requires BothPointed(run)
    ensures BothPointed(Fail(run, end, saved))
  {
  }

  lemma AbsentPoints(run: Run, m: Mark, marker: Mark, t: Turn)
    requires BothPointed(run) && t.work.Absent?
    ensures BothPointed(Deferrable(run, m, marker, t))
  {
    var marked := Recorded(run, marker, t.saved);
    RecordedPoints(run, marker, t.saved);
    FailPoints(marked, Failed(m), t.savedAgain);
  }

  lemma DeferrablePoints(run: Run, m: Mark, marker: Mark, t: Turn)
    requires BothPointed(run)
    ensures BothPointed(Deferrable(run, m, marker, t))
  {
    match t.work
    case Absent => AbsentPoints(run, m, marker, t);
    case Done =>
      RemovePoints(run.memory, marker);
      PlainPoints(run.(memory := Remove(run.memory, marker)), m, t);
    case _ => PlainPoints(run, m, t);
  }

  lemma ServicesPoint(run: Run, t: Turn)
    requires BothPointed(run)
    ensures BothPointed(EnableServices(run, t))
  {
    PlainPoints(run.(restarted := true, events := run.events + [Restarted]), ServicesEnabled, t);
    PlainPoints(run, ServicesEnabled, t);
  }

  lemma OnboardPoints(run: Run, s: Script)
    requires BothPointed(run)
    ensures BothPointed(Onboard(run, s))
  {
    var t := s.Answer(OnboardingReady);
    var up := if run.restarted then run else run.(events := run.events + [Restarted]);
    RemovePoints(run.memory, ServicesEnabled);
    RecordedPoints(up.(events := up.events + [KeyCreated] + [Ran(OnboardingReady)]), OnboardingReady, t.saved);
  }

  lemma PhasePoints(run: Run, s: Script, m: Mark)
    requires BothPointed(run)
    ensures BothPointed(Perform(run, m, s))
  {
    var t := s.Answer(m);
    match m
    case LegoCommandReady => DeferrablePoints(run, m, LegoCommandDeferred, t);
    case SystemdDaemonReloaded => DeferrablePoints(run, m, SystemdDaemonReloadDeferred, t);
    case ServicesEnabled => ServicesPoint(run, t);
    case OnboardingReady => OnboardPoints(run, s);
    case RuntimeAssetsInstalled =>
      PlainPoints(run.(memory := run.memory.(
                         paths := AddNew(run.memory.paths, s.paths),
                         activations := AddNew(run.memory.activations, s.activations))), m, t);
    case _ => PlainPoints(run, m, t);
  }

  lemma {:induction false} PhasesPoint(run: Run, s: Script, i: nat)
    requires i <= |Phases(s.config.challenge)| && BothPointed(run)
    ensures BothPointed(After(run, s, i))
  {
    if i > 0 {
      PhasesPoint(run, s, i - 1);
      PhasePoints(After(run, s, i - 1), s, Phases(s.config.challenge)[i - 1]);
    }
  }

  lemma RunPoints(disk: Record, s: Script)
    requires Pointed(disk)
    ensures Pointed(Deploy(disk, s).disk)
  {
    PhasesPoint(Start(disk, s), s, |Phases(s.config.challenge)|);
  }

  /** Over all sequences of runs, the current mark on disk is one of those recorded there. */
  lemma {:induction false} CurrentIsRecorded(scripts: seq<Script>)
    ensures Pointed(Runs(EMPTY, scripts))
  {
    if scripts != [] {
      CurrentIsRecorded(scripts[..|scripts| - 1]);
      RunPoints(Runs(EMPTY, scripts[..|scripts| - 1]), scripts[|scripts| - 1]);
    }
  }
}
