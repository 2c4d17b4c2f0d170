/** The host file tree and the commands the deploy tool runs on it.

    Every command may fail for reasons outside the model.  A failing write leaves the file as it
    was, because files are written to a temporary name and renamed. */
module HostTree {
  import opened Options

  type Path = seq<string>

  datatype Node =
    | File(content: string, mode: nat)
    | Dir
    | Symlink(target: Path)
    | Special

  type Tree = map<Path, Node>

  function Parent(p: Path): Path
    requires p != []
  {
    p[..|p| - 1]
  }

  predicate IsDir(t: Tree, p: Path) {
    p in t && t[p].Dir?
  }

  ghost predicate WellFormed(t: Tree) {
    && IsDir(t, [])
    && (forall p {:trigger Parent(p)} :: p in t && p != [] ==> IsDir(t, Parent(p)))
  }

  /** `p` is a directory above `q`. */
  predicate Above(p: Path, q: Path) {
    p < q
  }

  /** `t'` is `t` with some directories added at `p` or above it. */
  ghost predicate AddsDirs(t: Tree, t': Tree, p: Path) {
    && (forall q :: q in t ==> q in t' && t'[q] == t[q])
    && (forall q :: q in t' && q !in t ==> t'[q].Dir? && (q == p || Above(q, p)))
  }

  /** Nothing but directories at `p` and above it. */
  ghost predicate DirsOnly(t: Tree, p: Path) {
    forall q :: q in t && q <= p ==> t[q].Dir?
  }

  lemma {:induction false} PrefixesExist(t: Tree, p: Path, q: Path)
    requires WellFormed(t) && p in t && Above(q, p)
    ensures IsDir(t, q)
    decreases |p|
  {
    assert IsDir(t, Parent(p));
    if Parent(p) != q {
      PrefixesExist(t, Parent(p), q);
    }
  }

  /** A new directory on the way to `p`, inside one that is there. */
  lemma AddDirKeeps(start: Tree, t: Tree, p: Path, next: Path)
    requires WellFormed(t) && AddsDirs(start, t, p) && next !in t && next != [] && IsDir(t, Parent(next)) && next <= p
    ensures WellFormed(t[next := Dir]) && AddsDirs(start, t[next := Dir], p)
  {
  }

  // ------------------------------------------------------------------ files and links

  /** A file or link put at `path`, or whatever was there removed. */
  datatype Change = Change(path: Path, node: Option<Node>)

  function Changed(t: Tree, c: Change): Tree {
    if c.node.Some? then t[c.path := c.node.value] else t - {c.path}
  }

  /** The tree after a change that may not have been carried out, and the log with it. */
  function Applied(t: Tree, c: Change, done: bool): Tree {
    if done then Changed(t, c) else t
  }

  function Logged(log: seq<Change>, c: Change, done: bool): seq<Change> {
    if done then log + [c] else log
  }

  /** The tree without its directories. */
  function Files(t: Tree): Tree {
    map p | p in t && !t[p].Dir? :: t[p]
  }

  function Replay(t: Tree, changes: seq<Change>): Tree {
    if changes == [] then t
    else Changed(Replay(t, changes[..|changes| - 1]), changes[|changes| - 1])
  }

  lemma ReplayOneMore(t: Tree, changes: seq<Change>, c: Change)
    ensures Replay(t, changes + [c]) == Changed(Replay(t, changes), c)
  {
    assert (changes + [c])[..|changes|] == changes;
  }

  /** New directories change no file or link. */
  lemma NoFilesAdded(t: Tree, t': Tree, p: Path)
    requires AddsDirs(t, t', p)
    ensures Files(t') == Files(t)
  {
  }

  datatype Stat = Failed | Missing | Found(node: Node)

  datatype Rmdir = Removed | CommandFailed | NotEmpty

  class Host {
    var tree: Tree

    /** The tree Nginx read when it last loaded its configuration. */
    var loaded: Tree

    /** The tree systemd read its units from last. */
    var units: Tree

    /** The timers that are enabled and started. */
    var timers: set<string>

    /** The tree that `nginx -t` accepted last. */
    ghost var accepted: Option<Tree>

    /** How often Nginx was asked to reload a configuration `nginx -t` has not accepted. */
    ghost var blindReloads: nat

    /** How often a command has failed although what it was asked for was possible. */
    ghost var troubles: nat

    /** The changes of files and links that were carried out, in their order. */
    ghost var log: seq<Change>

    /** On a steady host no such command fails. */
    const steady: bool

    constructor (tree: Tree, loaded: Tree, units: Tree, timers: set<string>, steady: bool)
      ensures this.tree == tree && this.loaded == loaded && this.steady == steady
      ensures this.units == units && this.timers == timers
      ensures troubles == 0 && blindReloads == 0 && log == []
    {
      this.tree, this.loaded, this.units, this.timers := tree, loaded, units, timers;
      this.steady := steady;
      accepted, troubles, blindReloads, log := None, 0, 0, [];
    }

    /** Troubles are only ever added, and on a steady host there are none. */
    twostate predicate Endured()
      reads this`troubles
    {
      troubles >= old(troubles) && (steady ==> troubles == old(troubles))
    }

    /** Whether the next command works; if not, that is a trouble. */
    method Works() returns (ok: bool)
      modifies this`troubles
      ensures troubles == old(troubles) + if ok then 0 else 1
      ensures steady ==> ok
    {
      ok := *;
      ok := ok || steady;
      if !ok {
        troubles := troubles + 1;
      }
    }

    /** A command that changes nothing the model sees. */
    method Command() returns (ok: bool)
      modifies this`troubles
      ensures troubles == old(troubles) + if ok then 0 else 1
      ensures steady ==> ok
    {
      ok := Works();
    }

    /** `systemctl daemon-reload`: on failure systemd may or may not have read the units. */
    method DaemonReload() returns (ok: bool)
      modifies this`units, this`troubles
      ensures units == tree || (!ok && units == old(units))
      ensures troubles == old(troubles) + if ok then 0 else 1
      ensures steady ==> ok
    {
      ok := Works();
      var read: bool := *;
      if ok || read {
        units := tree;
      }
    }

    /** `systemctl enable` and `systemctl start` of a timer. */
    method StartTimer(timer: string) returns (ok: bool)
      modifies this`timers, this`troubles
      ensures timers == if ok then old(timers) + {timer} else old(timers)
      ensures troubles == old(troubles) + if ok then 0 else 1
      ensures steady ==> ok
    {
      ok := Works();
      if ok {
        ok := Works();
      }
      if ok {
        timers := timers + {timer};
      }
    }

    method Lstat(p: Path) returns (r: Stat)
      modifies this`troubles
      ensures r.Missing? ==> p !in tree
      ensures r.Found? ==> p in tree && r.node == tree[p]
      ensures troubles == old(troubles) + if r.Failed? then 1 else 0
      ensures steady ==> !r.Failed?
    {
      var works := Works();
      if !works {
        return Failed;
      }
      r := if p in tree then Found(tree[p]) else Missing;
    }

    method ReadFile(p: Path) returns (r: Option<string>)
      modifies this`troubles
      ensures r.Some? ==> p in tree && tree[p].File? && tree[p].content == r.value
      ensures Endured()
      ensures r.Some? ==> troubles == old(troubles)
      ensures r.None? && p in tree && tree[p].File? ==> troubles > old(troubles)
    {
      var works := Works();
      if works && p in tree && tree[p].File? {
        return Some(tree[p].content);
      }
      return None;
    }

    /** `mkdir -p`: on failure part of the chain may have been created. */
    method MkdirAll(p: Path) returns (ok: bool)
      requires WellFormed(tree)
      modifies this`tree, this`troubles
      ensures WellFormed(tree) && AddsDirs(old(tree), tree, p)
      ensures ok ==> IsDir(tree, p)
      ensures Endured()
      ensures ok ==> troubles == old(troubles)
      ensures !ok && DirsOnly(old(tree), p) ==> troubles > old(troubles)
    {
      var i := 0;
      while i < |p|
        invariant 0 <= i <= |p| && troubles == old(troubles)
        invariant WellFormed(tree) && AddsDirs(old(tree), tree, p)
        invariant IsDir(tree, p[..i])
      {
        var next := p[..i + 1];
        assert Parent(next) == p[..i];
        if next !in tree {
          ok := Works();
          if !ok {
            return;
          }
          AddDirKeeps(old(tree), tree, p, next);
          tree := tree[next := Dir];
        } else if !tree[next].Dir? {
          assert next in old(tree) && next <= p;
          return false;
        }
        i := i + 1;
      }
      assert p[..i] == p;
      ok := true;
    }

    /** A regular file can be put at `p`. */
    predicate CanWrite(p: Path)
      reads this`tree
    {
      p != [] && IsDir(tree, Parent(p)) && (p in tree ==> tree[p].File?)
    }

    /** Write to a temporary file and rename; refuses anything but a regular file in the way. */
    method WriteFile(p: Path, content: string, mode: nat) returns (ok: bool)
      requires WellFormed(tree)
      modifies this`tree, this`log, this`troubles
      ensures WellFormed(tree)
      ensures !ok ==> tree == old(tree)
      ensures ok ==> old(CanWrite(p)) && tree == old(tree)[p := File(content, mode)]
      ensures log == Logged(old(log), Change(p, Some(File(content, mode))), ok)
      ensures Endured()
      ensures ok ==> troubles == old(troubles)
      ensures !ok && old(CanWrite(p)) ==> troubles > old(troubles)
    {
      if !CanWrite(p) {
        return false;
      }
      ok := Works();
      if ok {
        tree := tree[p := File(content, mode)];
        log := log + [Change(p, Some(File(content, mode)))];
      }
    }

    predicate CanLink(target: Path, p: Path)
      reads this`tree
    {
      p != [] && IsDir(tree, Parent(p)) && (p in tree ==> tree[p] == Symlink(target))
    }

    /** `ln -sfn` over a name that is free or already the same symbolic link. */
    method LinkSite(target: Path, p: Path) returns (ok: bool)
      requires WellFormed(tree)
      modifies this`tree, this`log, this`troubles
      ensures WellFormed(tree)
      ensures !ok ==> tree == old(tree)
      ensures ok ==> old(CanLink(target, p)) && tree == old(tree)[p := Symlink(target)]
      ensures log == Logged(old(log), Change(p, Some(Symlink(target))), ok)
      ensures Endured()
      ensures ok ==> troubles == old(troubles)
      ensures !ok && old(CanLink(target, p)) ==> troubles > old(troubles)
    {
      if !CanLink(target, p) {
        return false;
      }
      ok := Works();
      if ok {
        tree := tree[p := Symlink(target)];
        log := log + [Change(p, Some(Symlink(target)))];
      }
    }

    /** `rm -f`. */
    method Remove(p: Path) returns (ok: bool)
      requires WellFormed(tree)
      modifies this`tree, this`log, this`troubles
      ensures WellFormed(tree)
      ensures !ok ==> tree == old(tree)
      ensures ok ==> (p in old(tree) ==> !old(tree)[p].Dir?) && tree == old(tree) - {p}
      ensures log == Logged(old(log), Change(p, None), ok)
      ensures Endured()
      ensures ok ==> troubles == old(troubles)
      ensures !ok && (p in old(tree) ==> !old(tree)[p].Dir?) ==> troubles > old(troubles)
    {
      if p in tree && tree[p].Dir? {
        return false;
      }
      ok := Works();
      if ok {
        tree := tree - {p};
        log := log + [Change(p, None)];
      }
    }

    /** `rmdir`. */
    method RemoveEmptyDir(p: Path) returns (r: Rmdir)
      requires WellFormed(tree) && p != []
      modifies this`tree, this`troubles
      ensures WellFormed(tree)
      ensures r.Removed? ==> IsDir(old(tree), p) && tree == old(tree) - {p}
      ensures !r.Removed? ==> tree == old(tree)
      ensures r.NotEmpty? ==> exists c :: c in tree && c != [] && Parent(c) == p
      ensures Endured()
      ensures !r.CommandFailed? ==> troubles == old(troubles)
      ensures r.CommandFailed? && IsDir(tree, p) ==> troubles > old(troubles)
    {
      if !IsDir(tree, p) {
        return CommandFailed;
      }
      if exists c :: c in tree && c != [] && Parent(c) == p {
        return NotEmpty;
      }
      var works := Works();
      if !works {
        return CommandFailed;
      }
      tree := tree - {p};
      return Removed;
    }

    /** `nginx -t`. */
    method TestNginx() returns (ok: bool)
      modifies this`accepted, this`troubles
      ensures accepted == if ok then Some(tree) else old(accepted)
      ensures troubles == old(troubles) + if ok then 0 else 1
      ensures steady ==> ok
    {
      ok := Works();
      if ok {
        accepted := Some(tree);
      }
    }

    /** Reload Nginx: on failure it may or may not have read the new configuration. */
    method ReloadNginx() returns (ok: bool)
      modifies this`loaded, this`troubles, this`blindReloads
      ensures ok ==> loaded == tree
      ensures !ok ==> loaded == old(loaded) || loaded == tree
      ensures troubles == old(troubles) + if ok then 0 else 1
      ensures steady ==> ok
      ensures blindReloads == old(blindReloads) + if accepted == Some(tree) then 0 else 1
    {
      if accepted != Some(tree) {
        blindReloads := blindReloads + 1;
      }
      ok := Works();
      var read: bool := *;
      if ok || read {
        loaded := tree;
      }
    }
  }
}
