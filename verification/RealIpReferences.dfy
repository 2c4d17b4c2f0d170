/** The references of a profile, the domains they add up to, and which staged file is a reference. */
module RealIpReferences {
  import opened Options
  import opened HostTree
  import opened FileInstaller
  import opened Occurrences
  import opened RealIpLayout
  import opened Text

  datatype Reference = Reference(app: string, profile: string, domains: seq<string>)

  function Without(references: seq<Reference>, app: string): seq<Reference> {
    if references == [] then []
    else
      Without(references[..|references| - 1], app)
      + (if references[|references| - 1].app == app then [] else [references[|references| - 1]])
  }

  function Replaced(references: seq<Reference>, reference: Reference): seq<Reference> {
    Without(references, reference.app) + [reference]
  }

  method ReplaceForApp(references: seq<Reference>, reference: Reference) returns (r: seq<Reference>)
    ensures r == Replaced(references, reference)
  {
    r := [];
    for i := 0 to |references|
      invariant r == Without(references[..i], reference.app)
    {
      assert references[..i + 1][..i] == references[..i];
      if references[i].app == reference.app {
        continue;
      }
      r := r + [references[i]];
    }
    assert references[..|references|] == references;
    r := r + [reference];
  }

  /** Every app keeps at most one reference. */
  ghost predicate OnePerApp(references: seq<Reference>) {
    forall i, j :: 0 <= i < j < |references| ==> references[i].app != references[j].app
  }

  lemma {:induction false} WithoutMeans(references: seq<Reference>, app: string, x: Reference)
    ensures x in Without(references, app) <==> x in references && x.app != app
  {
    if references != [] {
      var front, last := references[..|references| - 1], references[|references| - 1];
      WithoutMeans(front, app, x);
      assert references == front + [last];
    }
  }

  lemma {:induction false} WithoutKeepsOnePerApp(references: seq<Reference>, app: string)
    requires OnePerApp(references)
    ensures OnePerApp(Without(references, app))
  {
    if references != [] {
      var front, last := references[..|references| - 1], references[|references| - 1];
      WithoutKeepsOnePerApp(front, app);
      var kept := Without(front, app);
      forall i | 0 <= i < |kept| ensures kept[i].app != last.app {
        WithoutMeans(front, app, kept[i]);
      }
    }
  }

  lemma {:induction false} WithoutInOrder(a: seq<Reference>, b: seq<Reference>, app: string)
    ensures Without(a + b, app) == Without(a, app) + Without(b, app)
    decreases |b|
  {
    if b == [] {
      assert a + b == a;
    } else {
      var front := b[..|b| - 1];
      WithoutInOrder(a, front, app);
      assert (a + b)[..|a + b| - 1] == a + front;
    }
  }

  /** The references of the other apps keep their order, and the new one comes last. */
  lemma ReplaceInOrder(a: seq<Reference>, b: seq<Reference>, reference: Reference)
    ensures Replaced(a + b, reference) == Without(a, reference.app) + Replaced(b, reference)
    ensures (forall r <- a :: r.app != reference.app) ==> a <= Replaced(a + b, reference)
    ensures Replaced(a, reference)[|Replaced(a, reference)| - 1] == reference
  {
    WithoutInOrder(a, b, reference.app);
    if forall r <- a :: r.app != reference.app {
      NothingToDrop(a, reference.app);
    }
  }

  /** Registering an app leaves exactly its new reference and those of the other apps. */
  lemma ReplaceMeans(references: seq<Reference>, reference: Reference, x: Reference)
    ensures x in Replaced(references, reference) <==>
      if x.app == reference.app then x == reference else x in references
  {
    WithoutMeans(references, reference.app, x);
  }

  lemma ReplaceKeepsOnePerApp(references: seq<Reference>, reference: Reference)
    requires OnePerApp(references)
    ensures OnePerApp(Replaced(references, reference))
  {
    WithoutKeepsOnePerApp(references, reference.app);
    var kept := Without(references, reference.app);
    forall i | 0 <= i < |kept| ensures kept[i].app != reference.app {
      WithoutMeans(references, reference.app, kept[i]);
    }
  }

  /** The last registration wins; registering again changes nothing. */
  lemma ReplaceTwice(references: seq<Reference>, earlier: Reference, reference: Reference)
    requires earlier.app == reference.app
    ensures Replaced(Replaced(references, earlier), reference) == Replaced(references, reference)
  {
    var kept := Without(references, reference.app);
    assert (kept + [earlier])[..|kept|] == kept;
    forall r | r in kept ensures r.app != reference.app {
      WithoutMeans(references, reference.app, r);
    }
    NothingToDrop(kept, reference.app);
  }

  lemma {:induction false} NothingToDrop(references: seq<Reference>, app: string)
    requires forall r <- references :: r.app != app
    ensures Without(references, app) == references
  {
    if references != [] {
      NothingToDrop(references[..|references| - 1], app);
      assert references == references[..|references| - 1] + [references[|references| - 1]];
    }
  }

  /** Some reference names the domain, blanks at its ends aside. */
  ghost predicate Named(references: seq<Reference>, domain: string) {
    domain != "" && exists r <- references :: NamedIn(r.domains, domain)
  }

  ghost predicate NamedIn(domains: seq<string>, domain: string) {
    exists d <- domains :: Trim(d, GoSpace) == domain
  }

  /** The domains that references name, as they come. */
  function NamesOf(references: seq<Reference>): seq<string> {
    if references == [] then []
    else NamesOf(references[..|references| - 1]) + Trimmed(references[|references| - 1].domains)
  }

  function Trimmed(domains: seq<string>): seq<string> {
    if domains == [] then []
    else
      var front, last := Trimmed(domains[..|domains| - 1]), Trim(domains[|domains| - 1], GoSpace);
      if last == "" then front else front + [last]
  }

  lemma {:induction false} TrimmedAre(domains: seq<string>, d: string)
    ensures d in Trimmed(domains) <==> d != "" && NamedIn(domains, d)
  {
    if domains != [] {
      var front, last := domains[..|domains| - 1], domains[|domains| - 1];
      TrimmedAre(front, d);
      assert domains == front + [last];
    }
  }

  lemma {:induction false} NamesAre(references: seq<Reference>, d: string)
    ensures d in NamesOf(references) <==> Named(references, d)
  {
    if references != [] {
      var front, last := references[..|references| - 1], references[|references| - 1];
      NamesAre(front, d);
      TrimmedAre(last.domains, d);
      assert references == front + [last];
    }
  }

  /** The profile's domains are exactly those its references name, each once, in the order in which they
      are first named. */
  method DomainsOf(references: seq<Reference>) returns (domains: seq<string>)
    ensures forall d :: d in domains <==> Named(references, d)
    ensures forall i, j :: 0 <= i < j < |domains| ==> domains[i] != domains[j]
    ensures InOrderOf(domains, NamesOf(references))
  {
    var seen := {};
    domains := [];
    NoFirsts<string>();
    for i := 0 to |references|
      invariant forall d :: d in seen <==> d in domains
      invariant Firsts(domains, NamesOf(references[..i]))
    {
      var more := references[i].domains;
      assert references[..i + 1][..i] == references[..i];
      ghost var before := NamesOf(references[..i]);
      assert before + Trimmed(more[..0]) == before;
      for n := 0 to |more|
        invariant forall d :: d in seen <==> d in domains
        invariant Firsts(domains, before + Trimmed(more[..n]))
      {
        assert more[..n + 1][..n] == more[..n];
        var domain := Trim(more[n], GoSpace);
        assert before + (Trimmed(more[..n]) + [domain]) == before + Trimmed(more[..n]) + [domain];
        OneMoreOccurs(domains, before + Trimmed(more[..n]), domain);
        if domain == "" || domain in seen {
          continue;
        }
        seen := seen + {domain};
        domains := domains + [domain];
      }
      assert more[..|more|] == more;
    }
    assert references[..|references|] == references;
    FirstsMean(domains, NamesOf(references));
    forall d ensures d in NamesOf(references) <==> Named(references, d) {
      NamesAre(references, d);
    }
  }

  // ------------------------------------------------------------------ shared files and the reference

  function PathsButOne(staged: seq<Staged>, path: Path): seq<Staged> {
    if staged == [] then []
    else (if staged[0].path == path then [] else [staged[0]]) + PathsButOne(staged[1..], path)
  }

  function PathsOnly(staged: seq<Staged>, path: Path): seq<Staged> {
    if staged == [] then []
    else (if staged[0].path == path then [staged[0]] else []) + PathsOnly(staged[1..], path)
  }

  lemma {:induction false} RestInOrder(a: seq<Staged>, b: seq<Staged>, path: Path)
    ensures PathsButOne(a + b, path) == PathsButOne(a, path) + PathsButOne(b, path)
    decreases |a|
  {
    if a == [] {
      assert a + b == b;
    } else {
      assert (a + b)[0] == a[0] && (a + b)[1..] == a[1..] + b;
      RestInOrder(a[1..], b, path);
    }
  }

  datatype Split = Divided(shared: seq<Staged>, reference: Staged) | WrongCount

  /** Divide the staged files into the shared ones, in their order, and the one reference. */
  method SplitStaged(staged: seq<Staged>, path: Path) returns (r: Split)
    ensures r.Divided? <==> |PathsOnly(staged, path)| == 1
    ensures r.Divided? ==> r.shared == PathsButOne(staged, path) && [r.reference] == PathsOnly(staged, path)
  {
    var shared: seq<Staged> := [];
    var reference: seq<Staged> := [];
    for i := 0 to |staged|
      invariant shared + PathsButOne(staged[i..], path) == PathsButOne(staged, path)
      invariant reference + PathsOnly(staged[i..], path) == PathsOnly(staged, path)
    {
      assert staged[i..][1..] == staged[i + 1..];
      if staged[i].path == path {
        reference := reference + [staged[i]];
        continue;
      }
      shared := shared + [staged[i]];
    }
    if |reference| != 1 {
      return WrongCount;
    }
    return Divided(shared, reference[0]);
  }

  lemma {:induction false} PathsOnlyMeans(staged: seq<Staged>, path: Path)
    requires FileInstaller.Distinct(staged)
    ensures forall f <- PathsOnly(staged, path) :: f in staged && f.path == path
    ensures |PathsOnly(staged, path)| == if path in Paths(staged) then 1 else 0
    decreases |staged|
  {
    if staged != [] {
      PathsOnlyMeans(staged[1..], path);
      assert staged == [staged[0]] + staged[1..];
      assert Paths(staged) == {staged[0].path} + Paths(staged[1..]);
      assert staged[0].path !in Paths(staged[1..]);
    }
  }

  lemma {:induction false} PathsButOneMeans(staged: seq<Staged>, path: Path, f: Staged)
    ensures f in PathsButOne(staged, path) <==> f in staged && f.path != path
    decreases |staged|
  {
    if staged != [] {
      PathsButOneMeans(staged[1..], path, f);
      assert staged == [staged[0]] + staged[1..];
    }
  }

  lemma {:induction false} StillDistinct(staged: seq<Staged>, path: Path)
    requires FileInstaller.Distinct(staged)
    ensures FileInstaller.Distinct(PathsButOne(staged, path))
    decreases |staged|
  {
    if staged != [] {
      StillDistinct(staged[1..], path);
      var rest := PathsButOne(staged[1..], path);
      forall j | 0 <= j < |rest| ensures rest[j].path != staged[0].path {
        PathsButOneMeans(staged[1..], path, rest[j]);
        var k :| 0 <= k < |staged[1..]| && staged[1..][k] == rest[j];
        assert staged[k + 1] == rest[j];
      }
    }
  }

  lemma PathsOfRest(staged: seq<Staged>, path: Path)
    ensures Paths(PathsButOne(staged, path)) == Paths(staged) - {path}
  {
    var rest := PathsButOne(staged, path);
    forall p ensures p in Paths(rest) <==> p in Paths(staged) && p != path {
      if p in Paths(rest) {
        var f :| f in rest && f.path == p;
        PathsButOneMeans(staged, path, f);
      }
      if p in Paths(staged) && p != path {
        var f :| f in staged && f.path == p;
        PathsButOneMeans(staged, path, f);
      }
    }
  }

  // ------------------------------------------------------------------ the catalog

  datatype Asset = Asset(source: string, path: Path, mode: nat)

  const READABLE: nat := 420
  const PRIVATE: nat := 384

  /** What is staged for a profile, before it is sorted by source; the reference only for an app. */
  function RuntimeCatalog(profile: string, app: string): seq<Asset> {
    [Asset("templates/realip/nginx-realip.conf.tmpl", NginxDir(profile) + ["active.conf"], READABLE),
     Asset("templates/realip/trusted-cidrs.conf.tmpl", NginxDir(profile) + ["trusted-cidrs.conf"], READABLE),
     Asset("templates/realip/refresh.service.tmpl",
           ["etc", "systemd", "system", "lanpanel-realip-" + profile + "-refresh.service"], READABLE),
     Asset("templates/realip/refresh.timer.tmpl",
           ["etc", "systemd", "system", "lanpanel-realip-" + profile + "-refresh.timer"], READABLE),
     Asset("generated/realip/state.json", StateDir(profile) + ["state.json"], PRIVATE),
     Asset("generated/realip/profile.json", StateDir(profile) + ["profile.json"], PRIVATE)]
    + (if app == "" then [] else [Asset("generated/realip/reference.json", ReferencePath(profile, app), PRIVATE)])
  }

  /** One file per asset, at its path and with its mode. */
  ghost predicate Stages(catalog: seq<Asset>, staged: seq<Staged>) {
    && |staged| == |catalog|
    && forall i :: 0 <= i < |catalog| ==> staged[i].path == catalog[i].path && staged[i].mode == catalog[i].mode
  }

  function StagedFor(profile: string, app: string): set<Path> {
    SharedPaths(profile) + (if app == "" then {} else {ReferencePath(profile, app)})
  }

  lemma CatalogPath(profile: string, app: string, k: nat)
    requires k < |RuntimeCatalog(profile, app)|
    ensures RuntimeCatalog(profile, app)[k].path in StagedFor(profile, app)
  {
    var nginx, state := NginxDir(profile), StateDir(profile);
    assert nginx + ["active.conf"] == ["etc", "nginx", "lanpanel", "realip", profile, "active.conf"];
    assert nginx + ["trusted-cidrs.conf"] == ["etc", "nginx", "lanpanel", "realip", profile, "trusted-cidrs.conf"];
    assert state + ["state.json"] == ["var", "lib", "lanpanel", "realip", profile, "state.json"];
    assert state + ["profile.json"] == ["var", "lib", "lanpanel", "realip", profile, "profile.json"];
    assert k == 0 || k == 1 || k == 2 || k == 3 || k == 4 || k == 5 || k == 6;
  }

  lemma ReferenceStaged(profile: string, app: string)
    ensures ReferencePath(profile, app) in StagedFor(profile, app) <==> app != ""
    ensures StagedFor(profile, app) - {ReferencePath(profile, app)} == SharedPaths(profile)
  {
    OwnPaths(profile, app);
  }

  lemma CatalogHas(profile: string, app: string, p: Path) returns (k: nat)
    requires p in StagedFor(profile, app)
    ensures k < |RuntimeCatalog(profile, app)| && RuntimeCatalog(profile, app)[k].path == p
  {
    var c := RuntimeCatalog(profile, app);
    k := if p == c[0].path then 0
         else if p == c[1].path then 1
         else if p == c[2].path then 2
         else if p == c[3].path then 3
         else if p == c[4].path then 4
         else if p == c[5].path then 5
         else 6;
  }

  lemma CatalogDistinct(profile: string, app: string, i: nat, j: nat)
    requires i < j < |RuntimeCatalog(profile, app)|
    ensures RuntimeCatalog(profile, app)[i].path != RuntimeCatalog(profile, app)[j].path
  {
    var c := RuntimeCatalog(profile, app);
    assert c[0].path[5] == "active.conf" && c[1].path[5] == "trusted-cidrs.conf";
    assert |c[2].path[3]| != |c[3].path[3]|;
    assert c[4].path[5] == "state.json" && c[5].path[5] == "profile.json";
    assert |"active.conf"| == 11 && |"trusted-cidrs.conf"| == 18 && |"state.json"| == 10 && |"profile.json"| == 12;
    assert c[0].path[0] == "etc" && c[4].path[0] == "var" && "etc"[0] == 'e' && "var"[0] == 'v';
  }

  lemma {:induction false} TwiceCounts(s: seq<Asset>, i: nat, j: nat)
    requires i < j < |s| && s[i] == s[j]
    ensures multiset(s)[s[i]] >= 2
  {
    assert s == s[..j] + s[j..];
    assert s[i] in s[..j] && s[j] in s[j..];
  }

  lemma {:induction false} OnceCounts(s: seq<Asset>, x: Asset)
    requires forall i, j :: 0 <= i < j < |s| ==> s[i] != s[j]
    ensures multiset(s)[x] <= 1
  {
    if s != [] {
      OnceCounts(s[1..], x);
      assert s == [s[0]] + s[1..];
      assert s[0] !in s[1..];
    }
  }

  /** However the catalog is sorted, no path is staged twice. */
  lemma SortedIsDistinct(catalog: seq<Asset>, profile: string, app: string, i: nat, j: nat)
    requires multiset(catalog) == multiset(RuntimeCatalog(profile, app)) && i < j < |catalog|
    ensures catalog[i].path != catalog[j].path
  {
    var c := RuntimeCatalog(profile, app);
    assert catalog[i] in multiset(catalog) && catalog[j] in multiset(catalog);
    if catalog[i].path == catalog[j].path {
      var k: nat :| k < |c| && c[k] == catalog[i];
      var l: nat :| l < |c| && c[l] == catalog[j];
      if k != l {
        CatalogDistinct(profile, app, if k < l then k else l, if k < l then l else k);
      }
      TwiceCounts(catalog, i, j);
      forall m: nat, n: nat | m < n < |c| ensures c[m] != c[n] {
        CatalogDistinct(profile, app, m, n);
      }
      OnceCounts(c, catalog[i]);
    }
  }

  lemma StagedPaths(catalog: seq<Asset>, staged: seq<Staged>, profile: string, app: string)
    requires multiset(catalog) == multiset(RuntimeCatalog(profile, app)) && Stages(catalog, staged)
    ensures Paths(staged) == StagedFor(profile, app)
  {
    var c := RuntimeCatalog(profile, app);
    forall p | p in Paths(staged) ensures p in StagedFor(profile, app) {
      var i :| 0 <= i < |staged| && staged[i].path == p;
      assert catalog[i] in multiset(c);
      var k :| 0 <= k < |c| && c[k] == catalog[i];
      CatalogPath(profile, app, k);
    }
    forall p | p in StagedFor(profile, app) ensures p in Paths(staged) {
      var k := CatalogHas(profile, app, p);
      assert c[k] in multiset(catalog);
      var i :| 0 <= i < |catalog| && catalog[i] == c[k];
      assert staged[i] in staged;
    }
  }

  lemma StagedDistinct(catalog: seq<Asset>, staged: seq<Staged>, profile: string, app: string)
    requires multiset(catalog) == multiset(RuntimeCatalog(profile, app)) && Stages(catalog, staged)
    ensures FileInstaller.Distinct(staged)
  {
    forall i, j | 0 <= i < j < |staged| ensures staged[i].path != staged[j].path {
      SortedIsDistinct(catalog, profile, app, i, j);
    }
  }

  /** Dividing what the catalog stages works exactly for an app, and then gives a deploy exactly what
      it needs. */
  lemma CatalogDivides(catalog: seq<Asset>, staged: seq<Staged>, profile: string, app: string)
    requires multiset(catalog) == multiset(RuntimeCatalog(profile, app)) && Stages(catalog, staged)
    ensures var shared := PathsButOne(staged, ReferencePath(profile, app));
      var only := PathsOnly(staged, ReferencePath(profile, app));
      && (|only| == 1 <==> app != "")
      && (forall f <- only :: f.path == ReferencePath(profile, app))
      && FileInstaller.Distinct(shared) && Paths(shared) == SharedPaths(profile)
  {
    var reference := ReferencePath(profile, app);
    StagedPaths(catalog, staged, profile, app);
    StagedDistinct(catalog, staged, profile, app);
    StillDistinct(staged, reference);
    PathsOnlyMeans(staged, reference);
    PathsOfRest(staged, reference);
    ReferenceStaged(profile, app);
  }
}
