/** Where the files of a real-IP profile and of an app's Nginx site live. */
module RealIpLayout {
  import opened HostTree

  function NginxDir(profile: string): Path {
    ["etc", "nginx", "lanpanel", "realip", profile]
  }

  function StateDir(profile: string): Path {
    ["var", "lib", "lanpanel", "realip", profile]
  }

  function ReferenceDir(profile: string): Path {
    ["var", "lib", "lanpanel", "realip", profile, "references"]
  }

  function ReferencePath(profile: string, app: string): Path {
    ["var", "lib", "lanpanel", "realip", profile, "references", app + ".json"]
  }

  function SiteAvailable(app: string): Path {
    ["etc", "nginx", "sites-available", app + ".conf"]
  }

  function SiteEnabled(app: string): Path {
    ["etc", "nginx", "sites-enabled", app + ".conf"]
  }

  function RefreshTimer(profile: string): string {
    "lanpanel-realip-" + profile + "-refresh.timer"
  }

  function SharedPaths(profile: string): set<Path> {
    {["etc", "nginx", "lanpanel", "realip", profile, "active.conf"],
     ["etc", "nginx", "lanpanel", "realip", profile, "trusted-cidrs.conf"],
     ["etc", "systemd", "system", "lanpanel-realip-" + profile + "-refresh.service"],
     ["etc", "systemd", "system", RefreshTimer(profile)],
     ["var", "lib", "lanpanel", "realip", profile, "state.json"],
     ["var", "lib", "lanpanel", "realip", profile, "profile.json"]}
  }

  /** Everything a real-IP app deploy promises to put back. */
  function Managed(profile: string, app: string): set<Path> {
    SharedPaths(profile) + {ReferencePath(profile, app), SiteAvailable(app), SiteEnabled(app)}
  }

  /** The directories a deploy may create and must remove again, in the order of removal. */
  function DirectorySpecs(profile: string): seq<Path> {
    [ReferenceDir(profile),
     StateDir(profile),
     ["var", "lib", "lanpanel", "realip"],
     ["var", "lib", "lanpanel"],
     NginxDir(profile),
     ["etc", "nginx", "lanpanel", "realip"],
     ["etc", "nginx", "lanpanel"]]
  }

  /** The directories the operating system, systemd and Nginx bring along. */
  const BASE: set<Path> :=
    {[], ["etc"], ["etc", "nginx"], ["etc", "nginx", "sites-available"], ["etc", "nginx", "sites-enabled"],
     ["etc", "systemd"], ["etc", "systemd", "system"], ["var"], ["var", "lib"]}

  lemma Above4(d: Path, f: Path)
    requires |f| == 4 && Above(d, f)
    ensures d == [] || d == [f[0]] || d == [f[0], f[1]] || d == [f[0], f[1], f[2]]
  {
  }

  lemma Above6(d: Path, f: Path)
    requires |f| == 6 && Above(d, f)
    ensures d == [] || d == [f[0]] || d == [f[0], f[1]] || d == [f[0], f[1], f[2]] ||
            d == [f[0], f[1], f[2], f[3]] || d == [f[0], f[1], f[2], f[3], f[4]]
  {
  }

  lemma Above7(d: Path, f: Path)
    requires |f| == 7 && Above(d, f)
    ensures d == [] || d == [f[0]] || d == [f[0], f[1]] || d == [f[0], f[1], f[2]] ||
            d == [f[0], f[1], f[2], f[3]] || d == [f[0], f[1], f[2], f[3], f[4]] ||
            d == [f[0], f[1], f[2], f[3], f[4], f[5]]
  {
  }

  /** Every directory above a managed file is there from the start or on the removal list. */
  lemma SpecsCover(profile: string, app: string, d: Path, f: Path)
    requires f in Managed(profile, app) && Above(d, f)
    ensures d in BASE || d in DirectorySpecs(profile)
  {
    var specs := DirectorySpecs(profile);
    assert specs[0] in specs && specs[1] in specs && specs[2] in specs && specs[3] in specs;
    assert specs[4] in specs && specs[5] in specs && specs[6] in specs;
    if |f| == 4 {
      Above4(d, f);
    } else if |f| == 6 {
      Above6(d, f);
    } else {
      Above7(d, f);
    }
  }

  /** No managed file lies above another. */
  lemma NoNesting(profile: string, app: string, f: Path, g: Path)
    requires f in Managed(profile, app) && g in Managed(profile, app)
    ensures !Above(f, g)
  {
    // The names at depth two, and below a shared directory those at depth five, already differ.
    assert f[2] != g[2] || |f| == |g| || f[5] != g[5];
  }

  /** The removal list never has a directory before one directly inside it. */
  lemma ChildFirst(profile: string, i: nat, j: nat)
    requires i < j < |DirectorySpecs(profile)|
    ensures Parent(DirectorySpecs(profile)[j]) != DirectorySpecs(profile)[i]
  {
    var d := DirectorySpecs(profile);
    assert |d[0]| == 6 && |d[1]| == 5 && |d[2]| == 4 && |d[3]| == 3 && |d[4]| == 5 && |d[5]| == 4 && |d[6]| == 3;
    if |Parent(d[j])| == |d[i]| {
      assert Parent(d[j])[0] == "etc" && d[i][0] == "var";
      assert "etc"[0] == 'e' && "var"[0] == 'v';
    }
  }

  // ------------------------------------------------------------------ what the rollback relies on

  /** The paths one deploy works on, and the timer it starts. */
  datatype Layout = Layout(
    shared: set<Path>,
    reference: Path,
    available: Path,
    enabled: Path,
    specs: seq<Path>,
    base: set<Path>,
    timer: string)
  {
    function Paths(): set<Path> {
      shared + {reference, available, enabled}
    }

    /** The three paths of the app itself are distinct and not shared; no path lies above another;
        every directory above a path is on the removal list or comes with the system; and the
        removal list has children before their parents. */
    ghost predicate Sound() {
      && reference !in shared && available !in shared && enabled !in shared
      && available != enabled && available != reference && enabled != reference
      && (forall f, g :: f in Paths() && g in Paths() ==> !Above(f, g))
      && (forall d, f :: f in Paths() && Above(d, f) ==> d in base || d in specs)
      && (forall i :: 0 <= i < |specs| ==> specs[i] != [])
      && (forall i, j :: 0 <= i < j < |specs| ==> Parent(specs[j]) != specs[i])
    }

    ghost predicate HasBase(t: Tree) {
      forall d :: d in base ==> IsDir(t, d)
    }
  }

  function LayoutOf(profile: string, app: string): Layout {
    Layout(SharedPaths(profile), ReferencePath(profile, app), SiteAvailable(app), SiteEnabled(app),
           DirectorySpecs(profile), BASE, RefreshTimer(profile))
  }

  lemma OwnPaths(profile: string, app: string)
    ensures SiteAvailable(app) !in SharedPaths(profile) && SiteEnabled(app) !in SharedPaths(profile)
    ensures ReferencePath(profile, app) !in SharedPaths(profile)
    ensures SiteAvailable(app) != SiteEnabled(app)
    ensures SiteAvailable(app) != ReferencePath(profile, app) && SiteEnabled(app) != ReferencePath(profile, app)
  {
  }

  /** The real paths, for every profile and app, have the properties the rollback needs. */
  lemma LayoutIsSound(profile: string, app: string)
    ensures LayoutOf(profile, app).Sound()
  {
    var layout := LayoutOf(profile, app);
    OwnPaths(profile, app);
    assert layout.Paths() == Managed(profile, app);
    forall f, g | f in layout.Paths() && g in layout.Paths() ensures !Above(f, g) {
      NoNesting(profile, app, f, g);
    }
    forall d, f | f in layout.Paths() && Above(d, f) ensures d in layout.base || d in layout.specs {
      SpecsCover(profile, app, d, f);
    }
    forall i, j | 0 <= i < j < |layout.specs| ensures Parent(layout.specs[j]) != layout.specs[i] {
      ChildFirst(profile, i, j);
    }
  }
}
