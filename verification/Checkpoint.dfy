/** The persisted record of a resumable deploy, and the methods that update it in place. */
module Checkpoint {
  import opened Options

  datatype Challenge = HTTP01 | DNS01

  datatype Mark =
    | PackageManagerReady
    | PackageArchitectureConfirmed
    | HostDependenciesInstalled
    | LegoInstalled
    | HeadscalePackageInstalled
    | RuntimeAssetsInstalled
    | TLSBootstrapReady
    | NginxActivated
    | LegoCommandReady
    | CertificateIssued
    | SystemdDaemonReloaded
    | ServicesEnabled
    | OnboardingReady
    | StaticVerifyPassed
    | LegoCommandDeferred
    | SystemdDaemonReloadDeferred

  /** The digest covers the whole configuration; digests of different configurations differ. */
  datatype Digest = Digest(challenge: Challenge, rest: string)

  datatype Record = Record(
    digest: Option<Digest>,
    current: Option<Mark>,
    completed: seq<Mark>,
    paths: seq<string>,
    activations: seq<string>,
    failure: Option<string>)

  const EMPTY := Record(None, None, [], [], [], None)

  /** No run is under way and none has stopped early. */
  predicate AtRest(r: Record) {
    r.current.None? && r.failure.None?
  }

  /** Start a deploy: progress survives exactly when it belongs to the same configuration and to a
      run that has not been finalised. */
  function Begin(r: Record, d: Digest): Record {
    if r.digest == Some(d) && !AtRest(r) then r else EMPTY.(digest := Some(d))
  }

  function MarkDone(r: Record, m: Mark): Record {
    r.(current := Some(m), completed := if m in r.completed then r.completed else r.completed + [m])
  }

  function Without(s: seq<Mark>, m: Mark): seq<Mark> {
    if s == [] then []
    else if s[|s| - 1] == m then Without(s[..|s| - 1], m)
    else Without(s[..|s| - 1], m) + [s[|s| - 1]]
  }

  function Remove(r: Record, m: Mark): Record {
    r.(completed := Without(r.completed, m), current := if r.current == Some(m) then None else r.current)
  }

  function AddNew(s: seq<string>, more: seq<string>): seq<string> {
    if more == [] then s
    else
      var before := AddNew(s, more[..|more| - 1]);
      var x := more[|more| - 1];
      if x == "" || x in before then before else before + [x]
  }

  lemma {:induction false} WithoutAbsent(s: seq<Mark>, m: Mark)
    requires m !in s
    ensures Without(s, m) == s
  {
    if s != [] {
      WithoutAbsent(s[..|s| - 1], m);
      assert s == s[..|s| - 1] + [s[|s| - 1]];
    }
  }

  /** Withdrawing the last mark leaves the ones before it. */
  lemma WithoutLast(s: seq<Mark>, m: Mark)
    requires m !in s
    ensures Without(s + [m], m) == s
  {
    assert (s + [m])[..|s|] == s;
    WithoutAbsent(s, m);
  }

  /** Nothing is lost and only new, non-empty entries are added, each once. */
  lemma {:induction false} AddNewMeans(s: seq<string>, more: seq<string>)
    ensures s <= AddNew(s, more)
    ensures forall x :: x in AddNew(s, more) <==> x in s || (x in more && x != "")
    ensures (forall i, j :: 0 <= i < j < |s| ==> s[i] != s[j]) ==>
      forall i, j :: 0 <= i < j < |AddNew(s, more)| ==> AddNew(s, more)[i] != AddNew(s, more)[j]
  {
    if more != [] {
      AddNewMeans(s, more[..|more| - 1]);
      assert more == more[..|more| - 1] + [more[|more| - 1]];
    }
  }

  /** Adding in pieces is adding at once: entries come in the order in which they are first given. */
  lemma {:induction false} AddNewInPieces(s: seq<string>, a: seq<string>, b: seq<string>)
    ensures AddNew(s, a + b) == AddNew(AddNew(s, a), b)
    decreases |b|
  {
    if b == [] {
      assert a + b == a;
    } else {
      assert (a + b)[..|a + b| - 1] == a + b[..|b| - 1];
      AddNewInPieces(s, a, b[..|b| - 1]);
    }
  }

  class Checkpoint {
    var digest: Option<Digest>
    var current: Option<Mark>
    var completed: seq<Mark>
    var paths: seq<string>
    var activations: seq<string>
    var failure: Option<string>

    constructor (r: Record)
      ensures View() == r
    {
      digest, current, completed := r.digest, r.current, r.completed;
      paths, activations, failure := r.paths, r.activations, r.failure;
    }

    function View(): Record
      reads this
    {
      Record(digest, current, completed, paths, activations, failure)
    }

    /** Reports whether anything but the digest was changed. */
    method BeginDeploy(d: Digest) returns (changed: bool)
      modifies this
      ensures View() == Begin(old(View()), d)
      ensures changed <==> View() != old(View()).(digest := Some(d))
    {
      changed := false;
      if digest != Some(d) {
        digest := Some(d);
        changed := ResetDeployState();
      } else if current.None? && failure.None? {
        if |completed| > 0 {
          completed := [];
          changed := true;
        }
        if |paths| > 0 {
          paths := [];
          changed := true;
        }
        if |activations| > 0 {
          activations := [];
          changed := true;
        }
      }
    }

    method ResetDeployState() returns (changed: bool)
      modifies this
      ensures View() == EMPTY.(digest := old(digest))
      ensures changed <==> View() != old(View())
    {
      changed := false;
      if current.Some? {
        current := None;
        changed := true;
      }
      if |completed| > 0 {
        completed := [];
        changed := true;
      }
      if |paths| > 0 {
        paths := [];
        changed := true;
      }
      if |activations| > 0 {
        activations := [];
        changed := true;
      }
      if failure.Some? {
        failure := None;
        changed := true;
      }
    }

    method FinalizeSuccessfulDeploy() returns (changed: bool)
      modifies this
      ensures View() == old(View()).(current := None, failure := None)
      ensures changed <==> !AtRest(old(View()))
    {
      changed := false;
      if current.Some? {
        current := None;
        changed := true;
      }
      if failure.Some? {
        failure := None;
        changed := true;
      }
    }

    method MarkCompleted(m: Mark) returns (added: bool)
      modifies this
      ensures View() == MarkDone(old(View()), m)
      ensures added <==> m !in old(completed)
    {
      current := Some(m);
      if m in completed {
        return false;
      }
      completed := completed + [m];
      return true;
    }

    method RecordFailure(f: Option<string>)
      modifies this
      ensures View() == old(View()).(failure := f)
    {
      failure := f;
    }

    method RecordModifiedPaths(more: seq<string>)
      modifies this
      ensures View() == old(View()).(paths := AddNew(old(paths), more))
    {
      ghost var before := paths;
      for i := 0 to |more|
        invariant View() == old(View()).(paths := AddNew(before, more[..i]))
      {
        assert more[..i + 1][..i] == more[..i];
        if more[i] == "" || more[i] in paths {
          continue;
        }
        paths := paths + [more[i]];
      }
      assert more[..|more|] == more;
    }

    method RecordActivations(more: seq<string>)
      modifies this
      ensures View() == old(View()).(activations := AddNew(old(activations), more))
    {
      ghost var before := activations;
      for i := 0 to |more|
        invariant View() == old(View()).(activations := AddNew(before, more[..i]))
      {
        assert more[..i + 1][..i] == more[..i];
        if more[i] == "" || more[i] in activations {
          continue;
        }
        activations := activations + [more[i]];
      }
      assert more[..|more|] == more;
    }

    /** Filter one mark out of the completed list. */
    method RemoveCompleted(m: Mark)
      modifies this
      ensures View() == Remove(old(View()), m)
    {
      ghost var before := completed;
      var filtered := [];
      for i := 0 to |completed|
        invariant View() == old(View())
        invariant filtered == Without(before[..i], m)
      {
        assert before[..i + 1][..i] == before[..i];
        if completed[i] == m {
          continue;
        }
        filtered := filtered + [completed[i]];
      }
      assert before[..|before|] == before;
      completed := filtered;
      if current == Some(m) {
        current := None;
      }
    }
  }

  /** The checkpoint file.  It is written to a temporary name and renamed, so a failing save leaves
      the old file. */
  class Store {
    var saved: Record

    constructor (r: Record)
      ensures saved == r
    {
      saved := r;
    }

    method Save(r: Record, works: bool) returns (ok: bool)
      modifies this
      ensures ok == works
      ensures saved == if ok then r else old(saved)
    {
      if works {
        saved := r;
      }
      return works;
    }
  }
}
