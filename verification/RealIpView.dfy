/** What the step system sees of a file tree, and which of its steps a change of a file or link is. */
module RealIpView {
  import opened Options
  import opened HostTree
  import P = RealIpProtocol
  import S = RealIpSafety

  // ------------------------------------------------------------------ the view of a tree

  /** The profile a site file includes, as Nginx reads it. */
  type Includes = P.Content -> Option<P.Profile>

  /** Where the files of a profile and of an app are. */
  datatype Lens = Lens(
    artifact: P.Artifact -> Path,
    reference: Path,
    available: Path,
    enabled: Path,
    includes: Includes)
  {
    /** Different things are in different places. */
    ghost predicate Clear() {
      && reference != available && reference != enabled && available != enabled
      && (forall f :: artifact(f) != reference && artifact(f) != available && artifact(f) != enabled)
      && (forall f, g :: f != g ==> artifact(f) != artifact(g))
    }
  }

  function Read(t: Tree, p: Path): Option<P.Content> {
    if p in t && t[p].File? then Some(P.Content(t[p].content, t[p].mode)) else None
  }

  function Artifacts(t: Tree, lens: Lens): map<P.Artifact, P.Content> {
    map f | f in P.ARTIFACTS && Read(t, lens.artifact(f)).Some? :: Read(t, lens.artifact(f)).value
  }

  function AsSite(content: Option<P.Content>, includes: Includes): Option<P.Site> {
    if content.Some? then Some(P.Site(includes(content.value), content.value)) else None
  }

  /** What the app sees of its profile in the tree. */
  function View(t: Tree, lens: Lens): P.Entry {
    P.Entry(
      Artifacts(t, lens),
      Read(t, lens.reference),
      AsSite(Read(t, lens.available), lens.includes),
      lens.enabled in t && t[lens.enabled].Symlink?)
  }

  /** Directories are not seen. */
  lemma FilesAreSeen(t: Tree, lens: Lens)
    ensures View(Files(t), lens) == View(t, lens)
  {
    assert forall p :: Read(Files(t), p) == Read(t, p);
    assert Artifacts(Files(t), lens) == Artifacts(t, lens);
  }

  // ------------------------------------------------------------------ changes and steps

  function AsFile(content: Option<P.Content>): Option<Node> {
    if content.Some? then Some(File(content.value.text, content.value.mode)) else None
  }

  function Body(site: Option<P.Site>): Option<P.Content> {
    if site.Some? then Some(site.value.body) else None
  }

  function Saved(d: P.Proc, f: P.Artifact): Option<P.Content>
    requires d.Deploy?
  {
    if f in d.savedFiles then Some(d.savedFiles[f]) else None
  }

  /** The change is the one this step makes. */
  predicate Makes(lens: Lens, d: P.Proc, step: P.DeployStep, c: Change)
    requires d.Deploy? && P.CanDeploy(d, step)
  {
    match step
    case InstallOne(f) => c == Change(lens.artifact(f), AsFile(Some(d.plan.files[f])))
    case WriteSite => c == Change(lens.available, AsFile(Some(d.plan.body)))
    case WriteRef => c == Change(lens.reference, AsFile(Some(d.plan.reference)))
    case Enable => c == Change(lens.enabled, Some(Symlink(lens.available)))
    case RestoreRef(ok) => ok && c == Change(lens.reference, AsFile(d.savedRef))
    case RestoreSite => c == Change(lens.available, AsFile(Body(d.savedSite)))
    case RestoreLink => !d.savedEnabled && c == Change(lens.enabled, None)
    case RestoreOne(f) => c == Change(lens.artifact(f), AsFile(Saved(d, f)))
    case _ => false
  }

  lemma ArtifactIsRead(t: Tree, lens: Lens, f: P.Artifact)
    ensures f in Artifacts(t, lens) <==> Read(t, lens.artifact(f)).Some?
    ensures f in Artifacts(t, lens) ==> Some(Artifacts(t, lens)[f]) == Read(t, lens.artifact(f))
  {
    S.EveryArtifact();
  }

  lemma SameContents(m: map<P.Artifact, P.Content>, m': map<P.Artifact, P.Content>)
    requires forall g: P.Artifact :: (g in m <==> g in m') && (g in m ==> m[g] == m'[g])
    ensures m == m'
  {
  }

  function WithArtifact(m: map<P.Artifact, P.Content>, f: P.Artifact, content: Option<P.Content>)
    : map<P.Artifact, P.Content>
  {
    if content.Some? then m[f := content.value] else m - {f}
  }

  lemma OtherArtifact(t: Tree, lens: Lens, f: P.Artifact, g: P.Artifact, node: Option<Node>)
    requires lens.Clear() && f != g
    ensures Read(Changed(t, Change(lens.artifact(f), node)), lens.artifact(g)) == Read(t, lens.artifact(g))
  {
  }

  lemma ArtifactSeenAt(t: Tree, lens: Lens, f: P.Artifact, content: Option<P.Content>, g: P.Artifact)
    requires lens.Clear()
    ensures var now := Artifacts(Changed(t, Change(lens.artifact(f), AsFile(content))), lens);
      var want := WithArtifact(Artifacts(t, lens), f, content);
      (g in now <==> g in want) && (g in now ==> now[g] == want[g])
  {
    ArtifactIsRead(t, lens, g);
    ArtifactIsRead(Changed(t, Change(lens.artifact(f), AsFile(content))), lens, g);
    if g != f {
      OtherArtifact(t, lens, f, g, AsFile(content));
    }
  }

  /** A change of one artifact is seen as a change of that artifact. */
  lemma ArtifactSeen(t: Tree, lens: Lens, f: P.Artifact, content: Option<P.Content>)
    requires lens.Clear()
    ensures Artifacts(Changed(t, Change(lens.artifact(f), AsFile(content))), lens)
         == WithArtifact(Artifacts(t, lens), f, content)
  {
    var now := Artifacts(Changed(t, Change(lens.artifact(f), AsFile(content))), lens);
    var want := WithArtifact(Artifacts(t, lens), f, content);
    forall g: P.Artifact ensures (g in now <==> g in want) && (g in now ==> now[g] == want[g]) {
      ArtifactSeenAt(t, lens, f, content, g);
    }
    SameContents(now, want);
  }

  /** A change of another path is not. */
  lemma ArtifactsUnseen(t: Tree, lens: Lens, c: Change)
    requires forall f :: lens.artifact(f) != c.path
    ensures Artifacts(Changed(t, c), lens) == Artifacts(t, lens)
  {
    forall f: P.Artifact ensures Read(Changed(t, c), lens.artifact(f)) == Read(t, lens.artifact(f)) {
    }
  }

  lemma SharedChangeIsStep(t: Tree, lens: Lens, d: P.Proc, step: P.DeployStep, f: P.Artifact,
                           content: Option<P.Content>)
    requires lens.Clear() && d.Deploy? && P.CanDeploy(d, step)
    requires
      || (step == P.InstallOne(f) && content == Some(d.plan.files[f]))
      || (step == P.RestoreOne(f) && content == Saved(d, f))
    ensures View(Changed(t, Change(lens.artifact(f), AsFile(content))), lens) == P.Effect(View(t, lens), d, step)
  {
    ArtifactSeen(t, lens, f, content);
  }

  lemma ReferenceSeen(t: Tree, lens: Lens, content: Option<P.Content>)
    requires lens.Clear()
    ensures View(Changed(t, Change(lens.reference, AsFile(content))), lens) == View(t, lens).(reference := content)
  {
    ArtifactsUnseen(t, lens, Change(lens.reference, AsFile(content)));
  }

  lemma SiteSeen(t: Tree, lens: Lens, content: Option<P.Content>)
    requires lens.Clear()
    ensures View(Changed(t, Change(lens.available, AsFile(content))), lens) ==
      View(t, lens).(site := AsSite(content, lens.includes))
  {
    ArtifactsUnseen(t, lens, Change(lens.available, AsFile(content)));
  }

  lemma LinkSeen(t: Tree, lens: Lens, target: Option<Path>)
    requires lens.Clear()
    ensures View(Changed(t, Change(lens.enabled, if target.Some? then Some(Symlink(target.value)) else None)), lens) ==
      View(t, lens).(enabled := target.Some?)
  {
    ArtifactsUnseen(t, lens, Change(lens.enabled, if target.Some? then Some(Symlink(target.value)) else None));
  }

  lemma OwnChangeIsStep(t: Tree, lens: Lens, d: P.Proc, step: P.DeployStep, c: Change)
    requires lens.Clear() && d.Deploy? && P.CanDeploy(d, step) && Makes(lens, d, step, c)
    requires !step.InstallOne? && !step.RestoreOne?
    requires lens.includes(d.plan.body) == Some(d.profile)
    requires step.RestoreSite? ==> d.savedSite == AsSite(Body(d.savedSite), lens.includes)
    ensures View(Changed(t, c), lens) == P.Effect(View(t, lens), d, step)
  {
    if step.WriteRef? || step.RestoreRef? {
      ReferenceSeen(t, lens, if step.WriteRef? then Some(d.plan.reference) else d.savedRef);
    } else if step.WriteSite? || step.RestoreSite? {
      SiteSeen(t, lens, if step.WriteSite? then Some(d.plan.body) else Body(d.savedSite));
    } else {
      LinkSeen(t, lens, if step.Enable? then Some(lens.available) else None);
    }
  }

  /** The change a step makes is seen as that step. */
  lemma ChangeIsStep(t: Tree, lens: Lens, d: P.Proc, step: P.DeployStep, c: Change)
    requires lens.Clear() && d.Deploy? && P.CanDeploy(d, step) && Makes(lens, d, step, c)
    requires lens.includes(d.plan.body) == Some(d.profile)
    requires step.RestoreSite? ==> d.savedSite == AsSite(Body(d.savedSite), lens.includes)
    ensures View(Changed(t, c), lens) == P.Effect(View(t, lens), d, step)
  {
    if step.InstallOne? {
      SharedChangeIsStep(t, lens, d, step, step.f, Some(d.plan.files[step.f]));
    } else if step.RestoreOne? {
      SharedChangeIsStep(t, lens, d, step, step.f, Saved(d, step.f));
    } else {
      OwnChangeIsStep(t, lens, d, step, c);
    }
  }
}
