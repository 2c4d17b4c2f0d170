/** What the canonical form of a list of trusted networks means. */
module CidrProperties {
  import opened Options
  import opened Prefixes
  import opened Cidr

  // ------------------------------------------------------------------ which entries are accepted

  /** The addresses an entry names.  A bare IPv4-mapped address names the IPv4 address. */
  ghost predicate Names(e: Entry, x: Addr) {
    match e
    case Net(p) => Valid(p) && Contains(p, x)
    case Host(a) => x == Unmap(a)
    case _ => false
  }

  ghost predicate Readable(e: Entry) {
    e.Host? || (e.Net? && Valid(e.net))
  }

  /** Outside all disallowed ranges and, for IPv6, inside the global unicast range. */
  ghost predicate Allowed(policy: Policy, x: Addr) {
    (x.family.V6? ==> Contains(policy.global, x)) && !InAny(policy.disallowed, x)
  }

  /** All addresses named are allowed, and not every address is named. */
  ghost predicate Trustworthy(policy: Policy, e: Entry) {
    && (e.Net? ==> e.net.bits > 0)
    && (forall x: Addr :: Names(e, x) ==> Allowed(policy, x))
  }

  /** The address classes that are never public are disallowed anyway, and so are mapped addresses. */
  ghost predicate Coherent(policy: Policy) {
    && policy.global.addr.family.V6?
    && (forall a: Addr :: InAny(policy.notPublic, a) ==> !Allowed(policy, a))
    && (forall a: Addr :: Mapped(a) ==> !Contains(policy.global, a))
  }

  lemma {:induction false} FirstOverlapFinds(list: seq<Network>, p: Network)
    ensures FirstOverlap(list, p).None? <==> forall d <- list :: !Overlap(p, d)
  {
    if list != [] {
      FirstOverlapFinds(list[1..], p);
      assert forall d <- list :: d == list[0] || d in list[1..];
      assert forall d <- list[1..] :: d in list;
      assert list[0] in list;
    }
  }

  lemma HostAlone(a: Addr, x: Addr)
    ensures Valid(Prefix(a, Width(a.family))) && (Contains(Prefix(a, Width(a.family)), x) <==> x == a)
  {
  }

  lemma ShortNumbers()
    ensures Shl(1, 48) == 0x1_0000_0000_0000 && Shl(1, 125) == GLOBAL_UNICAST.addr.value
  {
    SizeIsShl(V4);
    ShlAdd(1, 32, 16);
    SizeIsShl(V6);
    ShlAdd(1, 125, 3);
    var x := Shl(1, 125);
    assert Shl(x, 3) == 8 * x;
    var y := Shl(1, 32);
    ShlScales(y, 16);
    Square(1, 2);
    Square(2, 4);
    Square(4, 0x10);
    Square(8, 0x100);
  }

  lemma MappedIsSmall(a: Addr, k: nat)
    requires Mapped(a) && k >= 48
    ensures Shr(a.value, k) == 0
  {
    ShortNumbers();
    SmallShr(a.value, 48);
    ShrAdd(a.value, 48, k - 48);
    ShrZero(k - 48);
  }

  lemma {:induction false} ShrZero(k: nat)
    ensures Shr(0, k) == 0 && Shl(0, k) == 0
  {
    if k > 0 {
      ShrZero(k - 1);
    }
  }

  /** A mapped address is outside the global unicast range. */
  lemma MappedIsNotGlobal(a: Addr)
    requires Mapped(a)
    ensures !Contains(GLOBAL_UNICAST, a)
  {
    MappedIsSmall(a, 125);
    ShortNumbers();
    ShrShl(1, 125, 125);
  }

  /** Masking leaves an address mapped only if the prefix is too long for IPv4. */
  lemma MappedIsLong(p: Prefix)
    requires Valid(p) && Masked(p) == p && Mapped(p.addr)
    ensures p.bits > 32
  {
    if p.bits <= 32 {
      MappedIsSmall(p.addr, Free(p));
      ShrZero(Free(p));
    }
  }

  /** The addresses the tool calls not public are all in disallowed ranges. */
  lemma NotPublicIsDisallowed(a: Addr)
    ensures InAny(EDGEONE.notPublic, a) ==> !Allowed(EDGEONE, a)
  {
    if InAny(EDGEONE.notPublic, a) {
      var p :| p in NOT_PUBLIC && Contains(p, a);
      if p == NOT_PUBLIC[0] {
        var zero := DISALLOWED[0];
        ContainsBase(p);
        NestedIfShared(p, zero, p.addr);
        assert Contains(zero, a) && zero in DISALLOWED;
      } else {
        assert p in DISALLOWED;
      }
    }
  }

  lemma EdgeOneIsCoherent()
    ensures Coherent(EDGEONE)
  {
    forall a: Addr | InAny(EDGEONE.notPublic, a) ensures !Allowed(EDGEONE, a) {
      NotPublicIsDisallowed(a);
    }
    forall a: Addr | Mapped(a) ensures !Contains(EDGEONE.global, a) {
      MappedIsNotGlobal(a);
    }
  }

  lemma NoOverlapMeans(list: seq<Network>, p: Network)
    ensures FirstOverlap(list, p).None? <==> forall x: Addr :: Contains(p, x) ==> !InAny(list, x)
  {
    FirstOverlapFinds(list, p);
    forall d | d in list ensures Overlap(p, d) <==> exists x: Addr :: Contains(p, x) && Contains(d, x) {
      OverlapMeansShared(p, d);
    }
  }

  /** What the check decides about a masked network that is not mapped. */
  lemma CheckMeans(policy: Policy, p: Prefix)
    requires Coherent(policy) && Valid(p) && !Mapped(p.addr) && Masked(p) == p
    ensures Check(policy, p).None? <==> Trustworthy(policy, Net(p))
  {
    ContainsBase(p);
    NoOverlapMeans(policy.disallowed, p);
    WithinMeansSubset(p, policy.global);
    assert forall x: Addr :: Names(Net(p), x) <==> Contains(p, x);
  }

  /** An entry is accepted exactly when it can be read, names allowed addresses only, and is not a /0. */
  lemma AcceptedExactly(policy: Policy, e: Entry)
    requires Coherent(policy)
    ensures Accept(policy, e).Ok? <==> Readable(e) && Trustworthy(policy, e)
  {
    match e
    case Net(p) =>
      if Valid(p) {
        MaskedTwice(p);
        forall x: Addr ensures Names(Net(Masked(p)), x) <==> Names(e, x) {
          MaskedSame(p, x);
        }
        if Mapped(Masked(p).addr) {
          MappedIsLong(Masked(p));
          ContainsBase(Masked(p));
          assert Names(e, Masked(p).addr);
        } else {
          CheckMeans(policy, Masked(p));
        }
      }
    case Host(a) =>
      var u := Unmap(a);
      var p := Prefix(u, Width(u.family));
      forall x: Addr ensures Names(Net(p), x) <==> Names(e, x) {
        HostAlone(u, x);
      }
      CheckMeans(policy, p);
    case _ =>
  }

  lemma EdgeOneAcceptsExactly(e: Entry)
    ensures Accept(EDGEONE, e).Ok? <==> Readable(e) && Trustworthy(EDGEONE, e)
  {
    EdgeOneIsCoherent();
    AcceptedExactly(EDGEONE, e);
  }

  // ------------------------------------------------------------------ the canonical list

  lemma {:induction false} AcceptAllMeans(policy: Policy, entries: seq<Entry>)
    ensures AcceptAll(policy, entries).Ok? <==> forall e <- entries :: Accept(policy, e).Ok?
    ensures AcceptAll(policy, entries).Ok? ==>
      && |AcceptAll(policy, entries).value| == |entries|
      && forall i :: 0 <= i < |entries| ==> Accept(policy, entries[i]) == Ok(AcceptAll(policy, entries).value[i])
  {
    if entries != [] {
      var front := entries[..|entries| - 1];
      AcceptAllMeans(policy, front);
      assert entries == front + [entries[|entries| - 1]];
    }
  }

  ghost predicate Taken(policy: Policy, entries: seq<Entry>, p: Prefix) {
    exists e <- entries :: Accept(policy, e) == Ok(p)
  }

  lemma {:induction false} TakenIffIn(policy: Policy, entries: seq<Entry>, p: Prefix)
    requires AcceptAll(policy, entries).Ok?
    ensures Taken(policy, entries, p) <==> p in AcceptAll(policy, entries).value
  {
    AcceptAllMeans(policy, entries);
    var ps := AcceptAll(policy, entries).value;
    if Taken(policy, entries, p) {
      var i :| 0 <= i < |entries| && Accept(policy, entries[i]) == Ok(p);
      assert ps[i] == p;
    }
    if p in ps {
      var i :| 0 <= i < |ps| && ps[i] == p;
      assert entries[i] in entries;
    }
  }

  /** The list is accepted exactly when it has entries and all are; the result is then strictly
      ascending and has exactly the networks of the entries. */
  lemma {:induction false} CanonicalIsNormalForm(policy: Policy, entries: seq<Entry>)
    ensures Canonical(policy, entries).Ok? <==> entries != [] && forall e <- entries :: Accept(policy, e).Ok?
    ensures Canonical(policy, entries).Ok? ==>
      && Ordered(Canonical(policy, entries).value)
      && forall p :: p in Canonical(policy, entries).value <==> Taken(policy, entries, p)
  {
    AcceptAllMeans(policy, entries);
    if AcceptAll(policy, entries).Ok? {
      SortedIsOrdered(AcceptAll(policy, entries).value);
      forall p ensures p in AcceptAll(policy, entries).value <==> Taken(policy, entries, p) {
        TakenIffIn(policy, entries, p);
      }
    }
  }

  /** Lists with the same networks have the same canonical form, whatever their order, repetitions
      and spelling. */
  lemma {:induction false} DependsOnNetworksOnly(policy: Policy, a: seq<Entry>, b: seq<Entry>)
    requires Canonical(policy, a).Ok? && Canonical(policy, b).Ok?
    ensures Canonical(policy, a) == Canonical(policy, b) <==> forall p :: Taken(policy, a, p) <==> Taken(policy, b, p)
  {
    CanonicalIsNormalForm(policy, a);
    CanonicalIsNormalForm(policy, b);
    if forall p :: Taken(policy, a, p) <==> Taken(policy, b, p) {
      OrderedIsUnique(Canonical(policy, a).value, Canonical(policy, b).value);
    } else {
      var p :| Taken(policy, a, p) != Taken(policy, b, p);
      assert p in Canonical(policy, a).value <==> p !in Canonical(policy, b).value;
    }
  }

  /** The entries a canonical list is written as. */
  function Printed(ps: seq<Prefix>): (entries: seq<Entry>)
    ensures |entries| == |ps| && forall i :: 0 <= i < |ps| ==> entries[i] == Net(ps[i])
  {
    if ps == [] then [] else Printed(ps[..|ps| - 1]) + [Net(ps[|ps| - 1])]
  }

  /** What an accepted network is, and that it is accepted again as it stands. */
  lemma AcceptedNetwork(policy: Policy, e: Entry, p: Prefix)
    requires Accept(policy, e) == Ok(p)
    ensures Valid(p) && Masked(p) == p && !Mapped(p.addr)
    ensures forall x: Addr :: Contains(p, x) <==> Names(e, x)
    ensures Accept(policy, Net(p)) == Ok(p)
  {
    match e
    case Net(n) =>
      MaskedTwice(n);
      forall x: Addr ensures Contains(p, x) <==> Names(e, x) {
        MaskedSame(n, x);
      }
      if Mapped(p.addr) {
        MappedIsLong(p);
      }
    case Host(a) =>
      forall x: Addr ensures Contains(p, x) <==> Names(e, x) {
        HostAlone(Unmap(a), x);
      }
  }

  lemma {:induction false} PrintedTakes(policy: Policy, ps: seq<Prefix>, entries: seq<Entry>)
    requires forall p <- ps :: Taken(policy, entries, p)
    ensures forall e <- Printed(ps) :: Accept(policy, e).Ok?
    ensures forall p :: Taken(policy, Printed(ps), p) <==> p in ps
  {
    forall i | 0 <= i < |ps| ensures Accept(policy, Printed(ps)[i]) == Ok(ps[i]) {
      assert Taken(policy, entries, ps[i]);
      var e :| e in entries && Accept(policy, e) == Ok(ps[i]);
      AcceptedNetwork(policy, e, ps[i]);
    }
    forall p ensures Taken(policy, Printed(ps), p) <==> p in ps {
      if p in ps {
        var i :| 0 <= i < |ps| && ps[i] == p;
        assert Printed(ps)[i] in Printed(ps);
      }
    }
  }

  /** A canonical list is its own canonical form. */
  lemma {:induction false} CanonicalIsIdempotent(policy: Policy, entries: seq<Entry>)
    requires Canonical(policy, entries).Ok?
    ensures Canonical(policy, Printed(Canonical(policy, entries).value)) == Canonical(policy, entries)
  {
    var r := Canonical(policy, entries).value;
    CanonicalIsNormalForm(policy, entries);
    PrintedTakes(policy, r, entries);
    assert Taken(policy, entries, Accept(policy, entries[0]).value) by {
      assert entries[0] in entries;
    }
    CanonicalIsNormalForm(policy, Printed(r));
    DependsOnNetworksOnly(policy, Printed(r), entries);
  }

  lemma TakenAppend(policy: Policy, a: seq<Entry>, b: seq<Entry>, p: Prefix)
    ensures Taken(policy, a + b, p) <==> Taken(policy, a, p) || Taken(policy, b, p)
  {
  }

  /** Merging the canonical forms is merging the lists: the law behind "trusted is current plus next". */
  lemma {:induction false} MergeLaw(policy: Policy, a: seq<Entry>, b: seq<Entry>)
    requires Canonical(policy, a).Ok? && Canonical(policy, b).Ok?
    ensures Canonical(policy, Printed(Canonical(policy, a).value) + Printed(Canonical(policy, b).value)) ==
      Canonical(policy, a + b)
    ensures Canonical(policy, a + b).Ok?
  {
    var pa, pb := Printed(Canonical(policy, a).value), Printed(Canonical(policy, b).value);
    CanonicalIsIdempotent(policy, a);
    CanonicalIsIdempotent(policy, b);
    CanonicalIsNormalForm(policy, a);
    CanonicalIsNormalForm(policy, b);
    CanonicalIsNormalForm(policy, pa);
    CanonicalIsNormalForm(policy, pb);
    CanonicalIsNormalForm(policy, pa + pb);
    CanonicalIsNormalForm(policy, a + b);
    forall p ensures Taken(policy, pa + pb, p) <==> Taken(policy, a + b, p) {
      TakenAppend(policy, pa, pb, p);
      TakenAppend(policy, a, b, p);
    }
    DependsOnNetworksOnly(policy, pa + pb, a + b);
  }

  /** The canonical list trusts exactly the addresses its entries name. */
  lemma {:induction false} CanonicalDenotes(policy: Policy, entries: seq<Entry>, x: Addr)
    requires Canonical(policy, entries).Ok?
    ensures forall p <- Canonical(policy, entries).value :: Valid(p)
    ensures InAny(Canonical(policy, entries).value, x) <==> exists e <- entries :: Names(e, x)
  {
    var r := Canonical(policy, entries).value;
    CanonicalIsNormalForm(policy, entries);
    forall p | p in r ensures Valid(p) && (Contains(p, x) ==> exists e <- entries :: Names(e, x)) {
      assert Taken(policy, entries, p);
      var e :| e in entries && Accept(policy, e) == Ok(p);
      AcceptedNetwork(policy, e, p);
    }
    forall e | e in entries && Names(e, x) ensures InAny(r, x) {
      var p := Accept(policy, e).value;
      assert Taken(policy, entries, p);
      AcceptedNetwork(policy, e, p);
    }
  }

  /** Everything on a canonical list is safe to trust: no /0, no mapped prefix, and only allowed
      addresses. */
  lemma {:induction false} CanonicalIsSafe(policy: Policy, entries: seq<Entry>, p: Prefix)
    requires Coherent(policy) && Canonical(policy, entries).Ok? && p in Canonical(policy, entries).value
    ensures Valid(p) && Masked(p) == p && p.bits > 0 && !Mapped(p.addr)
    ensures forall x: Addr :: Contains(p, x) ==> Allowed(policy, x)
  {
    CanonicalIsNormalForm(policy, entries);
    assert Taken(policy, entries, p);
    var e :| e in entries && Accept(policy, e) == Ok(p);
    AcceptedNetwork(policy, e, p);
    AcceptedExactly(policy, Net(p));
    assert forall x: Addr :: Names(Net(p), x) <==> Contains(p, x);
  }

  /** The tool's own policy: what its canonical lists trust is inside 2000::/3 if it is IPv6, and never
      in one of the disallowed ranges. */
  lemma {:induction false} EdgeOneIsSafe(entries: seq<Entry>, p: Prefix, x: Addr)
    requires Canonical(EDGEONE, entries).Ok? && p in Canonical(EDGEONE, entries).value
    ensures Valid(p) && p.bits > 0
    ensures Contains(p, x) ==> (x.family.V6? ==> Contains(GLOBAL_UNICAST, x)) && !InAny(DISALLOWED, x)
  {
    EdgeOneIsCoherent();
    CanonicalIsSafe(EDGEONE, entries, p);
  }

  // ------------------------------------------------------------------ the deployed state

  datatype Lists = Lists(current: seq<Prefix>, next: seq<Prefix>, trusted: seq<Prefix>)

  ghost predicate AllTaken(policy: Policy, entries: seq<Entry>) {
    forall e <- entries :: Accept(policy, e).Ok?
  }

  /** Check the lists of a deployed state: accepted exactly when all can be read and are trustworthy
      and the trusted networks are those of the other two lists. */
  method ValidateDeployedState(policy: Policy, current: seq<Entry>, next: seq<Entry>, trusted: seq<Entry>)
    returns (r: Result<Lists>)
    ensures r.Ok? <==>
      && current != [] && trusted != []
      && AllTaken(policy, current) && AllTaken(policy, next) && AllTaken(policy, trusted)
      && forall p :: Taken(policy, trusted, p) <==> Taken(policy, current, p) || Taken(policy, next, p)
    ensures r.Ok? ==>
      && Canonical(policy, current) == Ok(r.value.current) && Canonical(policy, trusted) == Ok(r.value.trusted)
      && (if next == [] then r.value.next == [] else Canonical(policy, next) == Ok(r.value.next))
  {
    CanonicalIsNormalForm(policy, current);
    CanonicalIsNormalForm(policy, next);
    CanonicalIsNormalForm(policy, trusted);
    var currentList := CanonicalCIDRs(policy, current);
    if currentList.Err? {
      return Err(currentList.error);
    }
    var nextList: Result<seq<Prefix>> := Ok([]);
    if |next| > 0 {
      nextList := CanonicalCIDRs(policy, next);
      if nextList.Err? {
        return Err(nextList.error);
      }
    }
    var trustedList := CanonicalCIDRs(policy, trusted);
    if trustedList.Err? {
      return Err(trustedList.error);
    }
    var both := Printed(currentList.value) + Printed(nextList.value);
    BothIsUnion(policy, current, next, currentList.value, nextList.value);
    var expected := CanonicalCIDRs(policy, both);
    DependsOnNetworksOnly(policy, trusted, current + next);
    forall p ensures Taken(policy, current + next, p) <==> Taken(policy, current, p) || Taken(policy, next, p) {
      TakenAppend(policy, current, next, p);
    }
    if expected.Err? || trustedList.value != expected.value {
      return Err(TrustedMismatch);
    }
    return Ok(Lists(currentList.value, nextList.value, trustedList.value));
  }

  lemma {:induction false} BothIsUnion(policy: Policy, current: seq<Entry>, next: seq<Entry>, c: seq<Prefix>,
                                       n: seq<Prefix>)
    requires Canonical(policy, current) == Ok(c) && if next == [] then n == [] else Canonical(policy, next) == Ok(n)
    ensures Canonical(policy, Printed(c) + Printed(n)) == Canonical(policy, current + next)
    ensures Canonical(policy, current + next).Ok?
  {
    if next == [] {
      CanonicalIsIdempotent(policy, current);
      assert Printed(c) + Printed(n) == Printed(c);
      assert current + next == current;
    } else {
      MergeLaw(policy, current, next);
    }
  }
}
