/** Why a list of trusted networks is refused: the first entry in error decides, and what the error says
    of it is true. */
module CidrRefusals {
  import opened Options
  import opened Prefixes
  import opened Cidr
  import opened CidrProperties

  /** All entries before `i` are accepted, and this one is refused for `problem`. */
  ghost predicate FirstRefused(policy: Policy, entries: seq<Entry>, i: nat, problem: Problem) {
    && i < |entries| && Accept(policy, entries[i]) == Err(problem)
    && forall j :: 0 <= j < i ==> Accept(policy, entries[j]).Ok?
  }

  lemma RefusedLast(policy: Policy, front: seq<Entry>, last: Entry, i: nat, problem: Problem)
    ensures FirstRefused(policy, front + [last], i, problem) <==>
      FirstRefused(policy, front, i, problem)
      || (i == |front| && Accept(policy, last) == Err(problem) && forall e <- front :: Accept(policy, e).Ok?)
  {
    var all := front + [last];
    forall j | 0 <= j < |front| ensures all[j] == front[j] {
    }
    if FirstRefused(policy, all, i, problem) && i < |front| {
      assert Accept(policy, front[i]) == Err(problem);
      forall j | 0 <= j < i ensures Accept(policy, front[j]).Ok? {
        assert Accept(policy, all[j]).Ok?;
      }
    }
    if i == |front| && forall j :: 0 <= j < i ==> Accept(policy, (front + [last])[j]).Ok? {
      forall e <- front ensures Accept(policy, e).Ok? {
        var j :| 0 <= j < |front| && front[j] == e;
        assert (front + [last])[j] == e;
      }
    }
  }

  lemma {:induction false} RefusedAll(policy: Policy, entries: seq<Entry>, problem: Problem)
    ensures AcceptAll(policy, entries) == Err(problem) <==> exists i :: FirstRefused(policy, entries, i, problem)
  {
    if entries != [] {
      var front, last := entries[..|entries| - 1], entries[|entries| - 1];
      assert entries == front + [last];
      RefusedAll(policy, front, problem);
      AcceptAllMeans(policy, front);
      forall i: nat ensures FirstRefused(policy, entries, i, problem) <==>
        FirstRefused(policy, front, i, problem)
        || (i == |front| && Accept(policy, last) == Err(problem) && forall e <- front :: Accept(policy, e).Ok?)
      {
        RefusedLast(policy, front, last, i, problem);
      }
      if AcceptAll(policy, front).Ok? && Accept(policy, last) == Err(problem) {
        assert FirstRefused(policy, entries, |front|, problem);
      }
    }
  }

  /** A list is refused for its first entry in error, or for being empty. */
  lemma RefusedForIff(policy: Policy, entries: seq<Entry>, problem: Problem)
    ensures Canonical(policy, entries) == Err(problem) <==>
      (entries == [] && problem == EmptyList) || exists i :: FirstRefused(policy, entries, i, problem)
  {
    RefusedAll(policy, entries, problem);
    AcceptAllMeans(policy, entries);
    assert AcceptAll(policy, entries).Ok? && entries != [] ==> AcceptAll(policy, entries).value != [] by {
      if AcceptAll(policy, entries).Ok? && entries != [] {
        assert entries[|entries| - 1] in entries;
      }
    }
    if AcceptAll(policy, entries).Ok? {
      forall i, p ensures !FirstRefused(policy, entries, i, p) {
      }
    }
  }

  ghost predicate Shares(e: Entry, d: Network) {
    exists x: Addr :: Names(e, x) && Contains(d, x)
  }

  /** The error is true of the entry: it names an address of the kind it speaks of. */
  ghost predicate True(policy: Policy, e: Entry, problem: Problem) {
    match problem
    case EmptyEntry => e.Blank?
    case Malformed => !e.Blank? && !Readable(e)
    case Invalid => e.Net? && exists x: Addr :: Names(e, x) && Mapped(x)
    case TrustsAll => e.Net? && forall x: Addr :: x.family == e.net.addr.family ==> Names(e, x)
    case NotPublic => exists x: Addr :: Names(e, x) && InAny(policy.notPublic, x)
    case NotGlobalUnicast => exists x: Addr :: Names(e, x) && x.family.V6? && !Contains(policy.global, x)
    case Disallowed(d) =>
      exists i :: 0 <= i < |policy.disallowed| && policy.disallowed[i] == d && Shares(e, d)
                  && forall j :: 0 <= j < i ==> !Shares(e, policy.disallowed[j])
    case _ => false
  }

  lemma {:induction false} FirstOverlapIs(list: seq<Network>, p: Network) returns (i: nat)
    requires FirstOverlap(list, p).Some?
    ensures i < |list| && list[i] == FirstOverlap(list, p).value && Overlap(p, list[i])
    ensures forall j :: 0 <= j < i ==> !Overlap(p, list[j])
  {
    if Overlap(p, list[0]) {
      i := 0;
    } else {
      var k := FirstOverlapIs(list[1..], p);
      i := k + 1;
      forall j | 0 <= j < i ensures !Overlap(p, list[j]) {
        assert j > 0 ==> list[j] == list[1..][j - 1];
      }
    }
  }

  lemma AllOfFamily(p: Prefix, x: Addr)
    requires Valid(p) && p.bits == 0 && x.family == p.addr.family
    ensures Contains(p, x)
  {
    SizeIsShl(p.addr.family);
    SmallShr(x.value, Width(p.addr.family));
    SmallShr(p.addr.value, Width(p.addr.family));
  }

  /** What the check says about a masked network that is not mapped. */
  lemma CheckIsTrue(policy: Policy, e: Entry, p: Network)
    requires policy.global.addr.family.V6? && !Mapped(p.addr) && Masked(p) == p && Check(policy, p).Some?
    requires forall x: Addr :: Names(e, x) <==> Contains(p, x)
    requires p.bits == 0 ==> e.Net? && e.net.addr.family == p.addr.family
    ensures True(policy, e, Check(policy, p).value)
  {
    ContainsBase(p);
    assert Names(e, p.addr);
    var problem := Check(policy, p).value;
    match problem
    case TrustsAll =>
      forall x: Addr | x.family == p.addr.family ensures Names(e, x) {
        AllOfFamily(p, x);
      }
    case NotGlobalUnicast =>
      WithinMeansSubset(p, policy.global);
    case Disallowed(d) =>
      var i := FirstOverlapIs(policy.disallowed, p);
      SharesIfOverlaps(e, p, policy.disallowed[i]);
      forall j | 0 <= j < i ensures !Shares(e, policy.disallowed[j]) {
        SharesIfOverlaps(e, p, policy.disallowed[j]);
      }
    case _ =>
  }

  lemma SharesIfOverlaps(e: Entry, p: Network, d: Network)
    requires forall x: Addr :: Names(e, x) <==> Contains(p, x)
    ensures Shares(e, d) <==> Overlap(p, d)
  {
    OverlapMeansShared(p, d);
    if Overlap(p, d) {
      var x: Addr :| Contains(p, x) && Contains(d, x);
      assert Names(e, x);
    }
  }

  /** An entry is never refused for a reason that is not there. */
  lemma RefusalIsTrue(policy: Policy, e: Entry)
    requires policy.global.addr.family.V6? && Accept(policy, e).Err?
    ensures True(policy, e, Accept(policy, e).error)
  {
    match e
    case Net(p) =>
      if Valid(p) {
        MaskedTwice(p);
        forall x: Addr ensures Names(e, x) <==> Contains(Masked(p), x) {
          MaskedSame(p, x);
        }
        if Mapped(Masked(p).addr) {
          MappedIsLong(Masked(p));
          ContainsBase(Masked(p));
          assert Names(e, Masked(p).addr);
        } else {
          CheckIsTrue(policy, e, Masked(p));
        }
      }
    case Host(a) =>
      var p := Prefix(Unmap(a), Width(Unmap(a).family));
      forall x: Addr ensures Names(e, x) <==> Contains(p, x) {
        HostAlone(Unmap(a), x);
      }
      ContainsBase(p);
      CheckIsTrue(policy, e, p);
    case _ =>
  }

  /** A bare address is refused as not public exactly if it is one of those classes, and a network
      exactly if its first address is. */
  lemma NotPublicIsSaid(policy: Policy, a: Addr, p: Prefix)
    ensures Accept(policy, Host(a)) == Err(NotPublic) <==> InAny(policy.notPublic, Unmap(a))
    ensures Valid(p) && p.bits > 0 && !Mapped(Masked(p).addr) ==>
      (Accept(policy, Net(p)) == Err(NotPublic) <==> InAny(policy.notPublic, Masked(p).addr))
  {
    HostAlone(Unmap(a), Unmap(a));
    if Valid(p) {
      MaskedTwice(p);
    }
  }
}
