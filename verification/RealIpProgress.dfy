/** That deploys and refreshes get done: from every state that lets them begin there is a run that ends
    with the work finished, and wherever they stand before that one that undoes it. */
module RealIpProgress {
  import opened Options
  import opened RealIpProtocol
  import opened RealIpSafety
  import opened RealIpIsolation
  import opened RealIpCrashes
  import opened RealIpSweeps

  // ------------------------------------------------------------------ a deploy

  /** A complete profile or a new one: from every state in which `a` is at rest and nobody works on `q`,
      a deploy can commit.  Its files, reference, site and link are then the planned ones, and nothing
      that belongs to anybody else has changed. */
  lemma DeployGetsDone(es0: seq<Event>, a: App, q: Profile, plan: Plan) returns (es: seq<Event>)
    requires Run(INIT, es0) && a !in After(INIT, es0).procs && q !in After(INIT, es0).holder && Full(plan.files)
    ensures Run(INIT, es) && es0 <= es && Elsewhere(After(INIT, es0), After(INIT, es), a, q)
    ensures InDeploy(After(INIT, es), a) && After(INIT, es).procs[a].pc.Committed?
    ensures After(INIT, es).procs[a].profile == q
    ensures Sees(After(INIT, es), q, a) ==
      Entry(plan.files, Some(plan.reference), Some(Site(Some(q), plan.body)), true)
  {
    es := ToCommit(es0, a, q, plan);
    RunIsolated(INIT, es);
    assert DeployProgress(After(INIT, es), a);
  }

  /** A deploy of `a` that stood at `d` in `s0` has got to `pc`, on its way back. */
  ghost predicate Undoing(s0: State, es: seq<Event>, a: App, d: Proc, pc: Pc) {
    && d.Deploy? && Run(INIT, es) && InDeploy(After(INIT, es), a) && Elsewhere(s0, After(INIT, es), a, d.profile)
    && var now := After(INIT, es).procs[a];
       now.profile == d.profile && now.entry == d.entry && now.clean == d.clean && now.pc == pc
  }

  lemma UndoStep(s0: State, es: seq<Event>, a: App, d: Proc, pc: Pc, step: DeployStep, next: Pc)
    returns (es': seq<Event>)
    requires Undoing(s0, es, a, d, pc) && CanDeploy(After(INIT, es).procs[a], step)
    requires step.RestoreRef? ==> step.ok && d.clean
    requires Goto(Sees(After(INIT, es), d.profile, a), After(INIT, es).procs[a], step).pc == next
    ensures es <= es' && Undoing(s0, es', a, d, next)
  {
    var s, now := After(INIT, es), Sees(After(INIT, es), d.profile, a);
    PutElsewhere(s0, s, a, d.profile, Effect(now, s.procs[a], step), Goto(now, s.procs[a], step));
    es' := Take(INIT, es, Deploying(a, step));
  }

  /** Restore the shared files in `todo`, which ends the rollback. */
  lemma ToSharedBack(s0: State, es0: seq<Event>, a: App, d: Proc, todo: set<Artifact>) returns (es: seq<Event>)
    requires Undoing(s0, es0, a, d, UndoShared(todo))
    ensures es0 <= es && Undoing(s0, es, a, d, RolledBack)
    decreases todo
  {
    if todo == {} {
      es := UndoStep(s0, es0, a, d, UndoShared({}), SharedRestored, RolledBack);
    } else {
      var f :| f in todo;
      es := UndoStep(s0, es0, a, d, UndoShared(todo), RestoreOne(f), UndoShared(todo - {f}));
      es := ToSharedBack(s0, es, a, d, todo - {f});
    }
  }

  /** Restore the site and the link, and then the shared files. */
  lemma ToSiteBack(s0: State, es0: seq<Event>, a: App, d: Proc, written: bool) returns (es: seq<Event>)
    requires Undoing(s0, es0, a, d, UndoSite(written))
    ensures es0 <= es && Undoing(s0, es, a, d, RolledBack)
  {
    es := UndoStep(s0, es0, a, d, UndoSite(written), RestoreSite, UndoLink);
    es := UndoStep(s0, es, a, d, UndoLink, RestoreLink, UndoShared(ARTIFACTS));
    es := ToSharedBack(s0, es, a, d, ARTIFACTS);
  }

  /** From wherever a rollback stands to its end. */
  lemma ToRolledBack(s0: State, es0: seq<Event>, a: App, d: Proc, pc: Pc) returns (es: seq<Event>)
    requires Undoing(s0, es0, a, d, pc) && (pc.UndoRef? ==> d.clean)
    requires pc.UndoRef? || pc.UndoSite? || pc.UndoLink? || pc.UndoShared? || pc.RolledBack?
    ensures es0 <= es && Undoing(s0, es, a, d, RolledBack)
  {
    match pc
    case UndoRef =>
      es := UndoStep(s0, es0, a, d, UndoRef, RestoreRef(true), UndoSite(true));
      es := ToSiteBack(s0, es, a, d, true);
    case UndoSite(written) => es := ToSiteBack(s0, es0, a, d, written);
    case UndoLink =>
      es := UndoStep(s0, es0, a, d, UndoLink, RestoreLink, UndoShared(ARTIFACTS));
      es := ToSharedBack(s0, es, a, d, ARTIFACTS);
    case UndoShared(todo) => es := ToSharedBack(s0, es0, a, d, todo);
    case RolledBack => es := es0;
  }

  /** Wherever a deploy stands before its commit, and whatever has happened so far: if it fails there,
      it can be undone.  Then everything it works on is as it was when it took the lock, but for a
      reference that could not be restored already, and nothing else has changed. */
  lemma DeployGetsUndone(es0: seq<Event>, a: App) returns (es: seq<Event>)
    requires Run(INIT, es0) && InDeploy(After(INIT, es0), a) && !After(INIT, es0).procs[a].pc.Committed?
    ensures Run(INIT, es) && es0 <= es
    ensures Elsewhere(After(INIT, es0), After(INIT, es), a, After(INIT, es0).procs[a].profile)
    ensures InDeploy(After(INIT, es), a) && After(INIT, es).procs[a].pc.RolledBack?
    ensures
      var d := After(INIT, es0).procs[a];
      d.clean ==> Sees(After(INIT, es), d.profile, a) == d.entry
  {
    var s0, d := After(INIT, es0), After(INIT, es0).procs[a];
    RunIsolated(INIT, es0);
    assert DeployProgress(s0, a);
    es := es0;
    if AfterFailure(d.pc).Some? {
      es := UndoStep(s0, es, a, d, d.pc, Fail, AfterFailure(d.pc).value);
    }
    es := ToRolledBack(s0, es, a, d, After(INIT, es).procs[a].pc);
    RollbackIsExact(es, a);
  }

  // ------------------------------------------------------------------ a deploy without a profile

  /** From every state in which `a` is at rest, a deploy without a profile can write its site and its
      link, and give all old profiles up. */
  lemma PlainDeployGetsDone(es0: seq<Event>, a: App, body: Content) returns (es: seq<Event>)
    requires Run(INIT, es0) && a !in After(INIT, es0).procs
    requires
      var s := After(INIT, es0);
      AllRemovable(s.(sites := s.sites[a := Site(None, body)], links := s.links + {a}), a, None)
    ensures Run(INIT, es) && es0 <= es
    ensures
      var s, now := After(INIT, es0), After(INIT, es);
      && GivenUp(s.(sites := s.sites[a := Site(None, body)], links := s.links + {a}), now, a, None)
      && now.holder == s.holder
  {
    var s := After(INIT, es0);
    var s1 := s.(sites := s.sites[a := Site(None, body)], links := s.links + {a});
    es := Take(INIT, es0, BeginPlain(a));
    es := Take(INIT, es, WritePlain(a, body));
    es := Take(INIT, es, EnablePlain(a));
    es := Take(INIT, es, FinishPlain(a));
    var s2 := After(INIT, es);
    forall p | a in RefsOf(s2, p) ensures Removable(s2, a, p) {
      SameGuards(s1, s2, a, p);
      assert a in RefsOf(s1, p);
    }
    es := CleanUpEnds(es, a);
    SameGivenUp(s1, s2, After(INIT, es), a, None);
  }

  // ------------------------------------------------------------------ a refresh

  /** The refresh of `p` has got to `h`, and nothing but its files has changed since `s`. */
  ghost predicate RefreshAt(s: State, now: State, p: Profile, h: Holder) {
    h.ByRefresh? && now == s.(holder := s.holder[p := h], files := s.files[p := FilesOf(now, p)])
  }

  lemma RefreshStands(s: State, p: Profile)
    requires Isolated(s) && InRefresh(s, p) && !s.holder[p].stage.Reading?
    ensures RefreshAt(s, s, p, s.holder[p])
  {
    assert RefreshOk(s, p);
    assert ActiveConf in FilesOf(s, p);
  }

  lemma RefreshMoves(s: State, now: State, p: Profile, h: Holder, step: RefreshStep)
    requires RefreshAt(s, now, p, h) && Can(now, Refreshing(p, step)) && !step.Done?
    ensures RefreshAt(s, Apply(now, Refreshing(p, step)), p, Apply(now, Refreshing(p, step)).holder[p])
  {
  }

  lemma RefreshLeaves(s: State, now: State, p: Profile, h: Holder)
    requires RefreshAt(s, now, p, h)
    ensures Can(now, Refreshing(p, Done))
    ensures Apply(now, Refreshing(p, Done)) == s.(holder := s.holder - {p}, files := s.files[p := FilesOf(now, p)])
  {
    assert s.holder[p := h] - {p} == s.holder - {p};
  }

  /** A refresh that is writing can write all the rest. */
  lemma ToWritten(es0: seq<Event>, p: Profile) returns (es: seq<Event>)
    requires Run(INIT, es0) && InRefresh(After(INIT, es0), p) && After(INIT, es0).holder[p].stage.Writing?
    ensures Run(INIT, es) && es0 <= es
    ensures RefreshAt(After(INIT, es0), After(INIT, es), p, After(INIT, es0).holder[p].(stage := Writing({})))
  {
    var s, h := After(INIT, es0), After(INIT, es0).holder[p];
    RunIsolated(INIT, es0);
    assert RefreshOk(s, p);
    RefreshStands(s, p);
    es := es0;
    var left := h.stage.todo;
    while left != {}
      invariant Run(INIT, es) && es0 <= es && RefreshAt(s, After(INIT, es), p, h.(stage := Writing(left)))
    {
      var f :| f in left;
      RefreshMoves(s, After(INIT, es), p, h.(stage := Writing(left)), Write(f));
      es := Take(INIT, es, Refreshing(p, Write(f)));
      left := left - {f};
    }
  }

  /** A refresh that is restoring can restore all the rest. */
  lemma ToRestored(es0: seq<Event>, p: Profile) returns (es: seq<Event>)
    requires Run(INIT, es0) && InRefresh(After(INIT, es0), p) && After(INIT, es0).holder[p].stage.Restoring?
    ensures Run(INIT, es) && es0 <= es
    ensures RefreshAt(After(INIT, es0), After(INIT, es), p, After(INIT, es0).holder[p].(stage := Restoring({})))
  {
    var s, h := After(INIT, es0), After(INIT, es0).holder[p];
    RunIsolated(INIT, es0);
    assert RefreshOk(s, p);
    RefreshStands(s, p);
    es := es0;
    var left := h.stage.todo;
    while left != {}
      invariant Run(INIT, es) && es0 <= es && RefreshAt(s, After(INIT, es), p, h.(stage := Restoring(left)))
    {
      var f :| f in left;
      RefreshMoves(s, After(INIT, es), p, h.(stage := Restoring(left)), Restore(f));
      es := Take(INIT, es, Refreshing(p, Restore(f)));
      left := left - {f};
    }
  }

  /** From every state in which a refresh is writing, there is a run that leaves exactly the new
      contents; nothing else changes, and the profile is free. */
  lemma RefreshGetsDone(es0: seq<Event>, p: Profile) returns (es: seq<Event>)
    requires Run(INIT, es0) && InRefresh(After(INIT, es0), p) && After(INIT, es0).holder[p].stage.Writing?
    ensures Run(INIT, es) && es0 <= es
    ensures
      var s := After(INIT, es0);
      After(INIT, es) == s.(holder := s.holder - {p}, files := s.files[p := s.holder[p].latest])
  {
    var s := After(INIT, es0);
    es := ToWritten(es0, p);
    RefreshIsExact(es, p);
    RefreshLeaves(s, After(INIT, es), p, s.holder[p].(stage := Writing({})));
    es := Take(INIT, es, Refreshing(p, Done));
  }

  /** And one that puts back what was there when it took its snapshot. */
  lemma RefreshGetsUndone(es0: seq<Event>, p: Profile) returns (es: seq<Event>)
    requires Run(INIT, es0) && InRefresh(After(INIT, es0), p) && After(INIT, es0).holder[p].stage.Writing?
    ensures Run(INIT, es) && es0 <= es
    ensures
      var s := After(INIT, es0);
      After(INIT, es) == s.(holder := s.holder - {p}, files := s.files[p := s.holder[p].before])
  {
    var s := After(INIT, es0);
    es := Take(INIT, es0, Refreshing(p, Undo));
    var s1 := After(INIT, es);
    es := ToRestored(es, p);
    RefreshIsExact(es, p);
    RefreshLeaves(s1, After(INIT, es), p, s1.holder[p].(stage := Restoring({})));
    es := Take(INIT, es, Refreshing(p, Done));
    assert s1.holder - {p} == s.holder - {p};
  }

  lemma SnapshotTaken(s: State, p: Profile, latest: map<Artifact, Content>)
    requires p !in s.holder && Full(FilesOf(s, p)) && Full(latest)
    ensures Can(s, RefreshLock(p, latest)) && Can(Apply(s, RefreshLock(p, latest)), Refreshing(p, Snapshot))
    ensures Apply(Apply(s, RefreshLock(p, latest)), Refreshing(p, Snapshot)) ==
      s.(holder := s.holder[p := ByRefresh(Writing(ARTIFACTS), latest, FilesOf(s, p))])
  {
  }

  /** A complete profile that nobody works on can be refreshed. */
  lemma RefreshStarts(es0: seq<Event>, p: Profile, latest: map<Artifact, Content>) returns (es: seq<Event>)
    requires Run(INIT, es0) && p !in After(INIT, es0).holder && Full(FilesOf(After(INIT, es0), p)) && Full(latest)
    ensures Run(INIT, es) && es0 <= es
    ensures
      var s := After(INIT, es0);
      After(INIT, es) == s.(holder := s.holder[p := ByRefresh(Writing(ARTIFACTS), latest, FilesOf(s, p))])
  {
    SnapshotTaken(After(INIT, es0), p, latest);
    es := Take(INIT, es0, RefreshLock(p, latest));
    es := Take(INIT, es, Refreshing(p, Snapshot));
  }
}
