/** How often a run of the main deploy restarts Headscale, and what the restart of a resumed onboarding
    can change. */
module MainDeployRestarts {
  import opened Options
  import opened Checkpoint
  import opened MainDeploy
  import opened MainDeployRuns
  import opened MainDeployResume

  /** No two restarts. */
  ghost predicate RestartedOnce(events: seq<Event>) {
    forall i, j :: 0 <= i < j < |events| ==> !(events[i].Restarted? && events[j].Restarted?)
  }

  /** The flag of a run says whether it has restarted Headscale, which it does when it enables the
      services. */
  ghost predicate Told(run: Run) {
    && (run.restarted <==> Restarted in run.events)
    && (run.restarted <==> Ran(ServicesEnabled) in run.events)
    && RestartedOnce(run.events)
  }

  /** Where the services and the onboarding are on the list. */
  lemma Places(c: Challenge, i: nat)
    requires i < |Phases(c)|
    ensures Phases(c)[i] == ServicesEnabled <==> i == |Phases(c)| - 3
    ensures Phases(c)[i] == OnboardingReady <==> i == |Phases(c)| - 2
  {
  }

  lemma OnceMore(events: seq<Event>, e: Event)
    requires RestartedOnce(events) && (e.Restarted? ==> Restarted !in events)
    ensures RestartedOnce(events + [e])
  {
  }

  lemma OtherPhase(run: Run, s: Script, m: Mark)
    requires m != ServicesEnabled && m != OnboardingReady
    ensures Perform(run, m, s).restarted == run.restarted
    ensures Perform(run, m, s).events == run.events || Perform(run, m, s).events == run.events + [Ran(m)]
  {
  }

  lemma OtherTold(run: Run, s: Script, m: Mark)
    requires m != ServicesEnabled && m != OnboardingReady && RestartedOnce(run.events)
    ensures RestartedOnce(Perform(run, m, s).events)
    ensures Told(run) ==> Told(Perform(run, m, s))
    ensures Restarted in Perform(run, m, s).events <==> Restarted in run.events
    ensures Ran(ServicesEnabled) in Perform(run, m, s).events <==> Ran(ServicesEnabled) in run.events
    ensures Perform(run, m, s).restarted == run.restarted
  {
    OtherPhase(run, s, m);
    OnceMore(run.events, Ran(m));
  }

  lemma ServicesTold(run: Run, t: Turn)
    requires Told(run) && !run.restarted
    ensures Told(EnableServices(run, t))
  {
    OnceMore(run.events, Restarted);
    OnceMore(run.events + [Restarted], Ran(ServicesEnabled));
    var events := run.events + [Restarted] + [Ran(ServicesEnabled)];
    assert events[|run.events|] == Restarted && events[|run.events| + 1] == Ran(ServicesEnabled);
  }

  /** The events before the onboarding creates its key. */
  function UpTo(run: Run): seq<Event> {
    if run.restarted then run.events else run.events + [Restarted]
  }

  lemma UpToTold(run: Run)
    requires Told(run)
    ensures RestartedOnce(UpTo(run)) && Restarted in UpTo(run)
    ensures Ran(ServicesEnabled) in UpTo(run) <==> run.restarted
  {
    if !run.restarted {
      OnceMore(run.events, Restarted);
      assert UpTo(run)[|run.events|] == Restarted;
    }
  }

  /** What the onboarding adds. */
  lemma OnboardEvents(run: Run, s: Script)
    ensures var events := Onboard(run, s).events;
      || events == UpTo(run) || events == UpTo(run) + [KeyCreated] + [Ran(OnboardingReady)]
      || (events == run.events && !run.restarted && !s.restart.Done?)
    ensures OnboardingFailed(Onboard(run, s)) && run.end.None? ==>
      Onboard(run, s).events == if run.restarted || s.restart.Done? then UpTo(run) else run.events
  {
  }

  lemma OnboardTold(run: Run, s: Script)
    requires Told(run) && run.end.None?
    ensures RestartedOnce(Onboard(run, s).events)
    ensures Ran(ServicesEnabled) in Onboard(run, s).events <==> run.restarted
    ensures OnboardingFailed(Onboard(run, s)) ==>
      (Restarted in Onboard(run, s).events <==> run.restarted || s.restart.Done?)
  {
    UpToTold(run);
    OnboardEvents(run, s);
    OnceMore(UpTo(run), KeyCreated);
    OnceMore(UpTo(run) + [KeyCreated], Ran(OnboardingReady));
  }

  /** Up to the onboarding the flag is right, and no earlier phase restarts anything. */
  lemma {:induction false} PhasesTold(run: Run, s: Script, i: nat)
    requires i + 2 <= |Phases(s.config.challenge)| && run.events == [] && !run.restarted
    ensures Told(After(run, s, i)) && (i + 3 <= |Phases(s.config.challenge)| ==> !After(run, s, i).restarted)
  {
    if i > 0 {
      PhasesTold(run, s, i - 1);
      Places(s.config.challenge, i - 1);
      var before, m := After(run, s, i - 1), Phases(s.config.challenge)[i - 1];
      if m == ServicesEnabled {
        ServicesTold(before, s.Answer(m));
      } else {
        OtherTold(before, s, m);
      }
    }
  }

  lemma {:induction false} NotBeforeOnboarding(run: Run, s: Script, i: nat)
    requires i + 2 <= |Phases(s.config.challenge)| && !OnboardingFailed(run)
    ensures !OnboardingFailed(After(run, s, i))
  {
    if i > 0 {
      NotBeforeOnboarding(run, s, i - 1);
      Places(s.config.challenge, i - 1);
      if After(run, s, i - 1).end.None? {
        PhaseEnds(After(run, s, i - 1), s, Phases(s.config.challenge)[i - 1]);
      }
    }
  }

  /** The run up to the onboarding, through it, and to the end. */
  lemma AllPhases(run: Run, s: Script)
    ensures var n := |Phases(s.config.challenge)|;
      After(run, s, n) ==
        Advance(Advance(After(run, s, n - 2), OnboardingReady, s), StaticVerifyPassed, s)
  {
    var c := s.config.challenge;
    var n := |Phases(c)|;
    Places(c, n - 2);
    assert Phases(c)[n - 1] == StaticVerifyPassed;
    assert After(run, s, n - 1) == Advance(After(run, s, n - 2), OnboardingReady, s);
  }

  /** The onboarding and the last phase. */
  function LastTwo(before: Run, s: Script): Run {
    Advance(Advance(before, OnboardingReady, s), StaticVerifyPassed, s)
  }

  lemma OnboardingAdvances(before: Run, s: Script)
    requires Told(before) && !OnboardingFailed(before)
    ensures var on := Advance(before, OnboardingReady, s);
      && RestartedOnce(on.events) && (Ran(ServicesEnabled) in on.events <==> before.restarted)
      && (OnboardingFailed(on) ==> (Restarted in on.events <==> before.restarted || s.restart.Done?))
  {
    if before.end.None? {
      OnboardTold(before, s);
    }
  }

  lemma LastTold(before: Run, s: Script)
    requires Told(before) && !OnboardingFailed(before)
    ensures var end := LastTwo(before, s);
      && RestartedOnce(end.events) && (Ran(ServicesEnabled) in end.events <==> before.restarted)
      && (OnboardingFailed(end) ==> (Restarted in end.events <==> before.restarted || s.restart.Done?))
      && (OnboardingFailed(end) ==> end == Advance(before, OnboardingReady, s))
  {
    OnboardingAdvances(before, s);
    var on := Advance(before, OnboardingReady, s);
    if on.end.None? {
      OtherTold(on, s, StaticVerifyPassed);
      PhaseEnds(on, s, StaticVerifyPassed);
    }
  }

  /** What a run has told when all phases are through. */
  lemma RunTold(run: Run, s: Script)
    requires run.events == [] && !run.restarted && !OnboardingFailed(run)
    ensures var n := |Phases(s.config.challenge)|;
      var before, end := After(run, s, n - 2), After(run, s, n);
      && RestartedOnce(end.events) && end == LastTwo(before, s) && !OnboardingFailed(before)
      && (Ran(ServicesEnabled) in end.events <==> before.restarted)
      && (OnboardingFailed(end) ==> (Restarted in end.events <==> before.restarted || s.restart.Done?))
      && (OnboardingFailed(end) ==> end == Advance(before, OnboardingReady, s))
  {
    var n := |Phases(s.config.challenge)|;
    PhasesTold(run, s, n - 2);
    NotBeforeOnboarding(run, s, n - 2);
    AllPhases(run, s);
    LastTold(After(run, s, n - 2), s);
  }

  /** No run restarts Headscale twice. */
  lemma NoSecondRestart(disk: Record, s: Script)
    ensures RestartedOnce(Deploy(disk, s).events)
  {
    RunTold(Start(disk, s), s);
  }

  // ------------------------------------------------------------------ the restart of a resumed onboarding

  lemma SamePhase(run: Run, s: Script, w: Work, m: Mark)
    requires m != OnboardingReady
    ensures Advance(run, m, s.(restart := w)) == Advance(run, m, s)
  {
    assert s.(restart := w).Answer(m) == s.Answer(m);
  }

  lemma {:induction false} SamePhases(run: Run, s: Script, w: Work, i: nat)
    requires i + 2 <= |Phases(s.config.challenge)|
    ensures After(run, s.(restart := w), i) == After(run, s, i)
  {
    if i > 0 {
      SamePhases(run, s, w, i - 1);
      Places(s.config.challenge, i - 1);
      SamePhase(After(run, s, i - 1), s, w, Phases(s.config.challenge)[i - 1]);
    }
  }

  lemma SameOnboarding(run: Run, s: Script, w: Work)
    requires run.restarted
    ensures Advance(run, OnboardingReady, s.(restart := w)) == Advance(run, OnboardingReady, s)
  {
    assert s.(restart := w).Answer(OnboardingReady) == s.Answer(OnboardingReady);
  }

  /** Once a run has enabled the services, it does not matter how another restart would have gone. */
  lemma RestartIsNotAsked(disk: Record, s: Script, w: Work)
    requires Ran(ServicesEnabled) in Deploy(disk, s).events
    ensures Deploy(disk, s.(restart := w)) == Deploy(disk, s)
  {
    var begun, s' := Start(disk, s), s.(restart := w);
    var n := |Phases(s.config.challenge)|;
    assert Start(disk, s') == begun;
    RunTold(begun, s);
    SamePhases(begun, s, w, n - 2);
    AllPhases(begun, s');
    SameOnboarding(After(begun, s, n - 2), s, w);
    SamePhase(Advance(After(begun, s, n - 2), OnboardingReady, s), s, w, StaticVerifyPassed);
  }

  // ------------------------------------------------------------------ failed onboarding

  /** Onboarding failed and said so on disk: `services-enabled` is withdrawn unless Headscale has been
      restarted and it was the plan that failed. */
  predicate WithdrawnOnDisk(r: Run, s: Script) {
    ServicesEnabled in r.disk.completed <==> Restarted in r.events && !s.onboardingPlan.Done?
  }

  lemma OnboardWithdraws(run: Run, s: Script)
    requires run.end.None? && ServicesEnabled in run.memory.completed && s.Answer(OnboardingReady).saved
    requires OnboardingFailed(Onboard(run, s))
    ensures ServicesEnabled in Onboard(run, s).disk.completed <==>
      (run.restarted || s.restart.Done?) && !s.onboardingPlan.Done?
  {
    WithoutRemoves(run.memory.completed, ServicesEnabled);
  }

  /** A failed restart or a failed key creation withdraws `services-enabled` from the record. */
  lemma FailedOnboardingWithdraws(disk: Record, s: Script)
    requires OnboardingFailed(Deploy(disk, s)) && s.Answer(OnboardingReady).saved
    ensures WithdrawnOnDisk(Deploy(disk, s), s)
  {
    RunTold(Start(disk, s), s);
    OnboardWithdraws(After(Start(disk, s), s, |Phases(s.config.challenge)| - 2), s);
  }
}
