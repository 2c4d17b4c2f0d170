/** What a cleanup does, and that it gets it done: exactly what a sweep has removed at each moment, and
    from every state that lets it begin a run that ends with the old profiles given up. */
module RealIpSweeps {
  import opened Options
  import opened RealIpProtocol
  import opened RealIpSafety
  import opened RealIpIsolation
  import opened RealIpCrashes

  // ------------------------------------------------------------------ what a sweep removes

  /** The files that the sweep of `a` takes away in these steps. */
  function FilesRemoved(es: seq<Event>, a: App): set<Artifact> {
    set f | f in ARTIFACTS && Sweeping(a, RemoveFile(f)) in es
  }

  predicate RemovesRef(es: seq<Event>, a: App) {
    Sweeping(a, RemoveRef) in es
  }

  /** The sweep goes on: it neither unlocks the profile nor is cut short. */
  predicate GoesOn(es: seq<Event>, a: App) {
    Sweeping(a, Unlock) !in es && Abort(a) !in es
  }

  /** A sweep of `p` by `a` that found `refs` and `files` when it took the lock, and has removed its
      reference, if `gone`, and the files in `removed` since. */
  ghost predicate Swept(s: State, a: App, p: Profile, refs: map<App, Content>, files: map<Artifact, Content>,
                        gone: bool, removed: set<Artifact>) {
    && InSweep(s, a) && s.procs[a].stale == p && Holding(s, p, a)
    && RefsOf(s, p) == (if gone then refs - {a} else refs)
    && FilesOf(s, p) == files - removed
    && (gone ==> a in refs)
    && (s.procs[a].stage.Emptying? <==> gone && refs.Keys == {a})
    && (s.procs[a].stage.Last? ==> !gone && refs.Keys == {a})
    && (s.procs[a].stage.Others? ==> !gone && a in refs && refs.Keys != {a})
    && (removed != {} ==> s.procs[a].stage.Emptying?)
  }

  lemma OnlyReference(s: State, a: App, p: Profile)
    requires a in RefsOf(s, p)
    ensures OthersRegistered(s, p, a) <==> RefsOf(s, p).Keys != {a}
  {
    if !OthersRegistered(s, p, a) {
      assert forall b :: b in RefsOf(s, p).Keys ==> b == a;
    } else {
      var b :| b in RefsOf(s, p) && b != a;
      assert b in RefsOf(s, p).Keys;
    }
  }

  /** A step of its own. */
  lemma SweepsOn(s: State, a: App, p: Profile, refs: map<App, Content>, files: map<Artifact, Content>,
                 gone: bool, removed: set<Artifact>, step: SweepStep)
    requires Swept(s, a, p, refs, files, gone, removed) && Can(s, Sweeping(a, step)) && !step.Unlock?
    ensures Swept(Apply(s, Sweeping(a, step)), a, p, refs, files, gone || step.RemoveRef?,
                  if step.RemoveFile? then removed + {step.f} else removed)
  {
    match step
    case Check => OnlyReference(s, a, p);
    case RemoveRef =>
    case RemoveFile(f) => assert files - removed - {f} == files - (removed + {f});
  }

  /** What belongs to the sweep is as it was. */
  ghost predicate Waits(s: State, s': State, a: App, p: Profile) {
    && InSweep(s, a) && InSweep(s', a) && s'.procs[a] == s.procs[a] && Holding(s', p, a)
    && RefsOf(s', p) == RefsOf(s, p) && FilesOf(s', p) == FilesOf(s, p)
  }

  lemma DeployWaits(s: State, b: App, step: DeployStep, a: App, p: Profile)
    requires Isolated(s) && Can(s, Deploying(b, step)) && a != b && InSweep(s, a) && Holding(s, p, a)
    ensures Waits(s, Apply(s, Deploying(b, step)), a, p)
  {
    assert Holding(s, s.procs[b].profile, b);
  }

  lemma SweepWaits(s: State, b: App, step: SweepStep, a: App, p: Profile)
    requires Isolated(s) && Can(s, Sweeping(b, step)) && a != b && InSweep(s, a) && Holding(s, p, a)
    ensures Waits(s, Apply(s, Sweeping(b, step)), a, p)
  {
    assert Holding(s, s.procs[b].stale, b);
  }

  lemma LeaveWaits(s: State, b: App, next: Option<Proc>, a: App, p: Profile)
    requires Isolated(s) && b in s.procs && a != b && InSweep(s, a) && Holding(s, p, a)
    ensures Waits(s, Leave(s, b, next), a, p)
  {
    assert Lock(s.procs[b]).Some? ==> Holding(s, Lock(s.procs[b]).value, b);
  }

  lemma RefreshWaits(s: State, q: Profile, step: RefreshStep, a: App, p: Profile)
    requires Can(s, Refreshing(q, step)) && InSweep(s, a) && Holding(s, p, a)
    ensures Waits(s, Apply(s, Refreshing(q, step)), a, p)
  {
  }

  /** A step of anybody else. */
  lemma OthersWait(s: State, e: Event, a: App, p: Profile)
    requires Isolated(s) && Can(s, e) && Actor(e) != Some(a) && InSweep(s, a) && Holding(s, p, a)
    ensures Waits(s, Apply(s, e), a, p)
  {
    match e
    case Deploying(b, step) => DeployWaits(s, b, step, a, p);
    case Sweeping(b, step) => SweepWaits(s, b, step, a, p);
    case Release(b) => LeaveWaits(s, b, None, a, p);
    case Finish(b) => LeaveWaits(s, b, Some(Sweep(Some(s.procs[b].profile))), a, p);
    case SweepEnd(b) => LeaveWaits(s, b, None, a, p);
    case Abort(b) => LeaveWaits(s, b, None, a, p);
    case Refreshing(q, step) => RefreshWaits(s, q, step, a, p);
    case _ =>
  }

  lemma OwnStepSweeps(s: State, e: Event, a: App)
    requires Can(s, e) && Actor(e) == Some(a) && InSweep(s, a) && e != Sweeping(a, Unlock) && e != Abort(a)
    ensures e.Sweeping? && e.a == a && !e.sweep.Unlock?
  {
  }

  lemma SweptStep(s: State, e: Event, a: App, p: Profile, refs: map<App, Content>, files: map<Artifact, Content>,
                  gone: bool, removed: set<Artifact>)
    requires Isolated(s) && Can(s, e) && GoesOn([e], a) && Swept(s, a, p, refs, files, gone, removed)
    ensures Swept(Apply(s, e), a, p, refs, files, gone || RemovesRef([e], a), removed + FilesRemoved([e], a))
  {
    if Actor(e) == Some(a) {
      assert e in [e];
      OwnStepSweeps(s, e, a);
      SweepsOn(s, a, p, refs, files, gone, removed, e.sweep);
      assert removed + FilesRemoved([e], a) == if e.sweep.RemoveFile? then removed + {e.sweep.f} else removed by {
        EveryArtifact();
      }
    } else {
      OthersWait(s, e, a, p);
      assert removed + FilesRemoved([e], a) == removed;
    }
  }

  lemma {:induction false} SweptRun(s: State, es: seq<Event>, a: App, p: Profile, refs: map<App, Content>,
                                    files: map<Artifact, Content>, gone: bool, removed: set<Artifact>)
    requires Isolated(s) && Run(s, es) && GoesOn(es, a) && Swept(s, a, p, refs, files, gone, removed)
    ensures Swept(After(s, es), a, p, refs, files, gone || RemovesRef(es, a), removed + FilesRemoved(es, a))
    decreases es
  {
    if es == [] {
      assert removed + FilesRemoved(es, a) == removed;
    } else {
      var e, rest := es[0], es[1..];
      assert es == [e] + rest;
      SweptStep(s, e, a, p, refs, files, gone, removed);
      StepIsolated(s, e);
      var gone', removed' := gone || RemovesRef([e], a), removed + FilesRemoved([e], a);
      SweptRun(Apply(s, e), rest, a, p, refs, files, gone', removed');
      assert removed' + FilesRemoved(rest, a) == removed + FilesRemoved(es, a);
    }
  }

  lemma SweptMeans(was: State, now: State, a: App, p: Profile, gone: bool, removed: set<Artifact>)
    requires Swept(now, a, p, RefsOf(was, p), FilesOf(was, p), gone, removed)
    ensures gone ==> RefOf(now, p, a).None?
    ensures !gone ==> RefOf(now, p, a) == RefOf(was, p, a) && FilesOf(now, p) == FilesOf(was, p)
    ensures forall b :: b != a ==> RefOf(now, p, b) == RefOf(was, p, b)
    ensures OthersRegistered(was, p, a) ==> FilesOf(now, p) == FilesOf(was, p)
    ensures now.procs[a].stage.Emptying? ==> RefsOf(now, p) == map[]
  {
    if now.procs[a].stage.Emptying? {
      assert forall b :: b in RefsOf(now, p) ==> b in RefsOf(was, p).Keys;
    } else {
      assert removed == {};
    }
    if b :| b in RefsOf(was, p) && b != a {
      assert b in RefsOf(was, p).Keys;
    }
  }

  /** A cleanup removes what it has been told to and nothing else.  From the lock on, whatever
      everybody else does: once the app's reference has been removed it is gone, and until then it is
      as it was; the references of the other apps are as they were; and the shared files are, but for
      those removed.  None is removed while another app is registered, or before the reference. */
  lemma SweepIsExact(es: seq<Event>, a: App, p: Profile, more: seq<Event>)
    requires Run(INIT, es) && Can(After(INIT, es), SweepLock(a, p))
    requires Run(Apply(After(INIT, es), SweepLock(a, p)), more) && GoesOn(more, a)
    ensures
      var was, now := After(INIT, es), After(Apply(After(INIT, es), SweepLock(a, p)), more);
      && InSweep(now, a) && now.procs[a].stale == p
      && (RemovesRef(more, a) ==> RefOf(now, p, a).None?)
      && (!RemovesRef(more, a) ==> RefOf(now, p, a) == RefOf(was, p, a) && FilesOf(now, p) == FilesOf(was, p))
      && (forall b :: b != a ==> RefOf(now, p, b) == RefOf(was, p, b))
      && FilesOf(now, p) == FilesOf(was, p) - FilesRemoved(more, a)
      && (OthersRegistered(was, p, a) ==> FilesOf(now, p) == FilesOf(was, p))
      && (now.procs[a].stage.Emptying? ==> RefsOf(now, p) == map[])
  {
    RunIsolated(INIT, es);
    var was := After(INIT, es);
    var s0 := Apply(was, SweepLock(a, p));
    StepIsolated(was, SweepLock(a, p));
    assert FilesOf(was, p) - {} == FilesOf(was, p);
    SweptRun(s0, more, a, p, RefsOf(was, p), FilesOf(was, p), false, {});
    assert {} + FilesRemoved(more, a) == FilesRemoved(more, a);
    SweptMeans(was, After(s0, more), a, p, RemovesRef(more, a), FilesRemoved(more, a));
  }

  /** In every interleaving, files are taken away only from a profile where nobody is registered. */
  lemma EmptyingHasNoReferences(es: seq<Event>, a: App)
    requires Run(INIT, es)
    ensures
      var s := After(INIT, es);
      InSweep(s, a) && s.procs[a].stage.Emptying? ==> RefsOf(s, s.procs[a].stale) == map[]
  {
    RunKeeps(INIT, es, {});
    var s := After(INIT, es);
    assert AppOk(s, a, HurtAfter(INIT, es, {}));
    if InSweep(s, a) && s.procs[a].stage.Emptying? {
      var p := s.procs[a].stale;
      forall b ensures b !in RefsOf(s, p) {
        assert RefOf(s, p, b).None?;
      }
    }
  }

  // ------------------------------------------------------------------ a cleanup gets done

  /** The cleanup of `a` may take its reference out of `p`: nobody works there, and another app is
      registered or no enabled site includes the profile. */
  ghost predicate Removable(s: State, a: App, p: Profile) {
    && p !in s.holder && a in RefsOf(s, p)
    && (OthersRegistered(s, p, a) || !Dumped(s, p))
  }

  /** The sweep of `p` in `s` has removed its last reference, and all files but those in `left`. */
  ghost predicate Emptied(s: State, now: State, a: App, p: Profile, left: set<Artifact>) {
    && a in s.procs && s.procs[a].Sweep?
    && now.sites == s.sites && now.links == s.links && now.holder == s.holder[p := ByApp(a)]
    && now.procs == s.procs[a := SweepHold(s.procs[a].keep, p, Emptying)]
    && RefsOf(now, p) == RefsOf(s, p) - {a}
    && (forall r :: r != p ==> FilesOf(now, r) == FilesOf(s, r) && RefsOf(now, r) == RefsOf(s, r))
    && FilesOf(now, p).Keys <= left
  }

  /** What one sweep changes: the reference of `a` is gone from `p`, and the files of `p` with the last one. */
  ghost predicate Cleaned(s: State, now: State, a: App, p: Profile) {
    && now.sites == s.sites && now.links == s.links && now.holder == s.holder && now.procs == s.procs
    && RefsOf(now, p) == RefsOf(s, p) - {a}
    && FilesOf(now, p) == (if OthersRegistered(s, p, a) then FilesOf(s, p) else map[])
    && (forall r :: r != p ==> FilesOf(now, r) == FilesOf(s, r) && RefsOf(now, r) == RefsOf(s, r))
  }

  lemma SameGuards(s: State, s': State, a: App, p: Profile)
    requires RefsOf(s', p) == RefsOf(s, p) && s'.sites == s.sites && s'.links == s.links
    ensures OthersRegistered(s', p, a) <==> OthersRegistered(s, p, a)
    ensures Dumped(s', p) <==> Dumped(s, p)
  {
    if b :| b in RefsOf(s, p) && b != a {
      assert b in RefsOf(s', p);
    }
  }

  /** The reference of `a` has gone from `p`, and the sweep has got to `stage`. */
  ghost predicate RefRemoved(s: State, now: State, a: App, p: Profile, stage: Stage) {
    && a in s.procs && s.procs[a].Sweep?
    && now == s.(
         holder := s.holder[p := ByApp(a)], refs := s.refs[p := RefsOf(s, p) - {a}],
         procs := s.procs[a := SweepHold(s.procs[a].keep, p, stage)])
  }

  lemma ToChecked(es0: seq<Event>, a: App, p: Profile) returns (es: seq<Event>)
    requires Run(INIT, es0) && a in After(INIT, es0).procs && After(INIT, es0).procs[a].Sweep?
    requires After(INIT, es0).procs[a].keep != Some(p) && Removable(After(INIT, es0), a, p)
    ensures Run(INIT, es) && es0 <= es
    ensures
      var s := After(INIT, es0);
      var stage := if OthersRegistered(s, p, a) then Others else Last;
      After(INIT, es) == s.(
        holder := s.holder[p := ByApp(a)], procs := s.procs[a := SweepHold(s.procs[a].keep, p, stage)])
  {
    var s := After(INIT, es0);
    es := Take(INIT, es0, SweepLock(a, p));
    SameGuards(s, After(INIT, es), a, p);
    es := Take(INIT, es, Sweeping(a, Check));
  }

  lemma ToRefRemoved(es0: seq<Event>, a: App, p: Profile) returns (es: seq<Event>)
    requires Run(INIT, es0) && a in After(INIT, es0).procs && After(INIT, es0).procs[a].Sweep?
    requires After(INIT, es0).procs[a].keep != Some(p) && Removable(After(INIT, es0), a, p)
    ensures Run(INIT, es) && es0 <= es
    ensures RefRemoved(After(INIT, es0), After(INIT, es), a, p,
                       if OthersRegistered(After(INIT, es0), p, a) then Entered else Emptying)
  {
    es := ToChecked(es0, a, p);
    es := Take(INIT, es, Sweeping(a, RemoveRef));
  }

  lemma EmptiesOne(s: State, now: State, a: App, p: Profile, left: set<Artifact>, f: Artifact)
    requires Emptied(s, now, a, p, left)
    ensures Can(now, Sweeping(a, RemoveFile(f)))
    ensures Emptied(s, Apply(now, Sweeping(a, RemoveFile(f))), a, p, left - {f})
  {
  }

  lemma ToEmpty(s: State, es0: seq<Event>, a: App, p: Profile) returns (es: seq<Event>)
    requires Run(INIT, es0) && RefRemoved(s, After(INIT, es0), a, p, Emptying)
    ensures Run(INIT, es) && es0 <= es && Emptied(s, After(INIT, es), a, p, {})
  {
    es := es0;
    EveryArtifact();
    var left := ARTIFACTS;
    while left != {}
      invariant Run(INIT, es) && es0 <= es && Emptied(s, After(INIT, es), a, p, left)
    {
      var f :| f in left;
      EmptiesOne(s, After(INIT, es), a, p, left, f);
      es := Take(INIT, es, Sweeping(a, RemoveFile(f)));
      left := left - {f};
    }
  }

  lemma UnlockCleans(s: State, now: State, a: App, p: Profile)
    requires Removable(s, a, p)
    requires if OthersRegistered(s, p, a) then RefRemoved(s, now, a, p, Entered) else Emptied(s, now, a, p, {})
    ensures Can(now, Sweeping(a, Unlock)) && Cleaned(s, Apply(now, Sweeping(a, Unlock)), a, p)
  {
    assert s.holder[p := ByApp(a)] - {p} == s.holder;
    assert s.procs[a := s.procs[a]] == s.procs;
  }

  /** A cleanup that may take the reference of `a` out of `p` can do so. */
  lemma CleanUp(es0: seq<Event>, a: App, p: Profile) returns (es: seq<Event>)
    requires Run(INIT, es0) && a in After(INIT, es0).procs && After(INIT, es0).procs[a].Sweep?
    requires After(INIT, es0).procs[a].keep != Some(p) && Removable(After(INIT, es0), a, p)
    ensures Run(INIT, es) && es0 <= es && Cleaned(After(INIT, es0), After(INIT, es), a, p)
  {
    var s := After(INIT, es0);
    es := ToRefRemoved(es0, a, p);
    if !OthersRegistered(s, p, a) {
      es := ToEmpty(s, es, a, p);
    }
    UnlockCleans(s, After(INIT, es), a, p);
    es := Take(INIT, es, Sweeping(a, Unlock));
  }

  /** What the whole cleanup changes: `a` is gone from the stale profiles, and with it the files of
      those where it was the last. */
  ghost predicate AllCleaned(s: State, now: State, a: App, stale: set<Profile>) {
    && now.sites == s.sites && now.links == s.links && now.holder == s.holder && now.procs == s.procs
    && (forall p :: RefsOf(now, p) == if p in stale then RefsOf(s, p) - {a} else RefsOf(s, p))
    && (forall p :: FilesOf(now, p) == if p in stale && !OthersRegistered(s, p, a) then map[] else FilesOf(s, p))
  }

  lemma OneMoreCleaned(s: State, s1: State, now: State, a: App, p: Profile, stale: set<Profile>)
    requires Cleaned(s, s1, a, p) && AllCleaned(s1, now, a, stale) && p !in stale
    ensures AllCleaned(s, now, a, stale + {p})
  {
    forall r | r != p ensures OthersRegistered(s1, r, a) == OthersRegistered(s, r, a) {
    }
  }

  lemma StaysRemovable(s: State, s1: State, a: App, p: Profile, r: Profile)
    requires Cleaned(s, s1, a, p) && r != p && Removable(s, a, r)
    ensures Removable(s1, a, r)
  {
    SameGuards(s, s1, a, r);
  }

  lemma CleanUpAll(es0: seq<Event>, a: App, stale: set<Profile>) returns (es: seq<Event>)
    requires Run(INIT, es0) && a in After(INIT, es0).procs && After(INIT, es0).procs[a].Sweep?
    requires forall p <- stale :: After(INIT, es0).procs[a].keep != Some(p) && Removable(After(INIT, es0), a, p)
    ensures Run(INIT, es) && es0 <= es && AllCleaned(After(INIT, es0), After(INIT, es), a, stale)
    decreases stale
  {
    if stale == {} {
      es := es0;
    } else {
      var p :| p in stale;
      var s, rest := After(INIT, es0), stale - {p};
      var es1 := CleanUp(es0, a, p);
      forall r | r in rest ensures Removable(After(INIT, es1), a, r) {
        StaysRemovable(s, After(INIT, es1), a, p, r);
      }
      es := CleanUpAll(es1, a, rest);
      OneMoreCleaned(s, After(INIT, es1), After(INIT, es), a, p, rest);
      assert rest + {p} == stale;
    }
  }

  /** The profiles other than `keep` in which `a` is registered. */
  function StaleOf(s: State, a: App, keep: Option<Profile>): set<Profile> {
    set p | p in s.refs && a in s.refs[p] && keep != Some(p)
  }

  /** All of them may be given up. */
  ghost predicate AllRemovable(s: State, a: App, keep: Option<Profile>) {
    forall p :: keep != Some(p) && a in RefsOf(s, p) ==> Removable(s, a, p)
  }

  /** `a` is at rest and registered in `keep` only, if it was there before.  A profile where it was the
      last is empty, and nobody else notices anything. */
  ghost predicate GivenUp(s: State, now: State, a: App, keep: Option<Profile>) {
    && a !in now.procs && now.sites == s.sites && now.links == s.links
    && (forall p :: a in RefsOf(now, p) <==> keep == Some(p) && a in RefsOf(s, p))
    && (forall p, b :: b != a ==> RefOf(now, p, b) == RefOf(s, p, b))
    && (forall p :: FilesOf(now, p) ==
          if p in StaleOf(s, a, keep) && !OthersRegistered(s, p, a) then map[] else FilesOf(s, p))
  }

  lemma EndGivesUp(s: State, now: State, a: App, keep: Option<Profile>)
    requires AllCleaned(s, now, a, StaleOf(s, a, keep)) && a in s.procs && s.procs[a].Sweep?
    ensures Can(now, SweepEnd(a)) && GivenUp(s, Apply(now, SweepEnd(a)), a, keep)
    ensures Apply(now, SweepEnd(a)).holder == s.holder
  {
    var end := Apply(now, SweepEnd(a));
    assert end == now.(procs := now.procs - {a});
    forall p ensures RefsOf(end, p) == RefsOf(now, p) && FilesOf(end, p) == FilesOf(now, p) {
    }
    forall p ensures a in RefsOf(end, p) <==> keep == Some(p) && a in RefsOf(s, p) {
      assert p in StaleOf(s, a, keep) <==> a in RefsOf(s, p) && keep != Some(p);
    }
  }

  /** A cleanup from wherever it begins, to its end. */
  lemma CleanUpEnds(es0: seq<Event>, a: App) returns (es: seq<Event>)
    requires Run(INIT, es0) && a in After(INIT, es0).procs && After(INIT, es0).procs[a].Sweep?
    requires AllRemovable(After(INIT, es0), a, After(INIT, es0).procs[a].keep)
    ensures Run(INIT, es) && es0 <= es && GivenUp(After(INIT, es0), After(INIT, es), a, After(INIT, es0).procs[a].keep)
    ensures After(INIT, es).holder == After(INIT, es0).holder
  {
    var s := After(INIT, es0);
    es := CleanUpAll(es0, a, StaleOf(s, a, s.procs[a].keep));
    EndGivesUp(s, After(INIT, es), a, s.procs[a].keep);
    es := Take(INIT, es, SweepEnd(a));
  }

  lemma SameGivenUp(s: State, s1: State, now: State, a: App, keep: Option<Profile>)
    requires s1.refs == s.refs && s1.files == s.files && s1.sites == s.sites && s1.links == s.links
    requires GivenUp(s1, now, a, keep)
    ensures GivenUp(s, now, a, keep)
  {
    forall p ensures RefsOf(s1, p) == RefsOf(s, p) && FilesOf(s1, p) == FilesOf(s, p) {
    }
    forall p ensures OthersRegistered(s1, p, a) == OthersRegistered(s, p, a) {
      SameGuards(s, s1, a, p);
    }
  }

  /** A deploy that has committed gives its lock back and moves on to the cleanup. */
  lemma ToCleanup(es0: seq<Event>, a: App) returns (es: seq<Event>)
    requires Run(INIT, es0) && InDeploy(After(INIT, es0), a) && After(INIT, es0).procs[a].pc.Committed?
    requires AllRemovable(After(INIT, es0), a, Some(After(INIT, es0).procs[a].profile))
    ensures Run(INIT, es) && es0 <= es
    ensures
      var s, s1, q := After(INIT, es0), After(INIT, es), After(INIT, es0).procs[a].profile;
      && s1 == s.(holder := s.holder - {q}, procs := s.procs[a := Sweep(Some(q))])
      && AllRemovable(s1, a, Some(q))
  {
    var s, q := After(INIT, es0), After(INIT, es0).procs[a].profile;
    es := Take(INIT, es0, Finish(a));
    var s1 := After(INIT, es);
    forall p | Some(q) != Some(p) && a in RefsOf(s1, p) ensures Removable(s1, a, p) {
      SameGuards(s, s1, a, p);
      assert a in RefsOf(s, p);
    }
  }

  /** After the commit the old profiles can be given up: from every state in which a deploy of `a` has
      committed, whatever happened before, there is a run that leaves `a` registered in its new
      profile only.  It needs that nobody works on the old profiles, and that each has another
      registered app or is included by no enabled site. */
  lemma CommittedCleansUp(es0: seq<Event>, a: App) returns (es: seq<Event>)
    requires Run(INIT, es0) && InDeploy(After(INIT, es0), a) && After(INIT, es0).procs[a].pc.Committed?
    requires AllRemovable(After(INIT, es0), a, Some(After(INIT, es0).procs[a].profile))
    ensures Run(INIT, es) && es0 <= es
    ensures
      var s, now, q := After(INIT, es0), After(INIT, es), After(INIT, es0).procs[a].profile;
      && GivenUp(s, now, a, Some(q)) && a in RefsOf(s, q) && now.holder == s.holder - {q}
  {
    var s, q := After(INIT, es0), After(INIT, es0).procs[a].profile;
    RunIsolated(INIT, es0);
    assert DeployProgress(s, a);
    assert RefOf(s, q, a) == Sees(s, q, a).reference;
    es := ToCleanup(es0, a);
    var s1 := After(INIT, es);
    es := CleanUpEnds(es, a);
    SameGivenUp(s, s1, After(INIT, es), a, Some(q));
  }
}
