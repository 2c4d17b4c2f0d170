/** The canonical form of a list of trusted networks. */
module Cidr {
  import opened Options
  import opened Prefixes

  datatype Problem =
    | EmptyEntry
    | Malformed
    | Invalid
    | TrustsAll
    | NotPublic
    | NotGlobalUnicast
    | Disallowed(blocked: Network)
    | EmptyList
    | TrustedMismatch

  datatype Result<+T> = Ok(value: T) | Err(error: Problem)

  /** A trimmed list entry as `net/netip` reads it.  A zone on a bare address is dropped. */
  datatype Entry = Blank | Unreadable | Net(net: Prefix) | Host(addr: Addr)

  function V4Net(value: nat, bits: nat): Network
    requires value < Size(V4) && bits <= 32
  {
    Prefix(Raw(V4, value), bits)
  }

  function V6Net(value: nat, bits: nat): Network
    requires value < Size(V6) && bits <= 128
  {
    Prefix(Raw(V6, value), bits)
  }

  const DISALLOWED_V4: seq<Network> :=
    [V4Net(0x0000_0000, 8),
     V4Net(0x0a00_0000, 8),
     V4Net(0x6440_0000, 10),
     V4Net(0x7f00_0000, 8),
     V4Net(0xa9fe_0000, 16),
     V4Net(0xac10_0000, 12),
     V4Net(0xc000_0000, 24),
     V4Net(0xc000_0200, 24),
     V4Net(0xc01f_c400, 24),
     V4Net(0xc034_c100, 24),
     V4Net(0xc058_6300, 24),
     V4Net(0xc0a8_0000, 16),
     V4Net(0xc0af_3000, 24),
     V4Net(0xc612_0000, 15),
     V4Net(0xc633_6400, 24),
     V4Net(0xcb00_7100, 24),
     V4Net(0xe000_0000, 4),
     V4Net(0xf000_0000, 4)]

  const DISALLOWED_V6: seq<Network> :=
    [V6Net(0x00000000_00000000_00000000_00000000, 128),
     V6Net(0x00000000_00000000_00000000_00000001, 128),
     V6Net(0x0064ff9b_00000000_00000000_00000000, 96),
     V6Net(0x0064ff9b_00010000_00000000_00000000, 48),
     V6Net(0x01000000_00000000_00000000_00000000, 64),
     V6Net(0x01000000_00000001_00000000_00000000, 64),
     V6Net(0x20010000_00000000_00000000_00000000, 23),
     V6Net(0x20010002_00000000_00000000_00000000, 48),
     V6Net(0x20010db8_00000000_00000000_00000000, 32),
     V6Net(0x20020000_00000000_00000000_00000000, 16),
     V6Net(0x2620004f_80000000_00000000_00000000, 48),
     V6Net(0x3fff0000_00000000_00000000_00000000, 20),
     V6Net(0x5f000000_00000000_00000000_00000000, 16),
     V6Net(0xfc000000_00000000_00000000_00000000, 7),
     V6Net(0xfe800000_00000000_00000000_00000000, 10),
     V6Net(0xff000000_00000000_00000000_00000000, 8)]

  const DISALLOWED: seq<Network> := DISALLOWED_V4 + DISALLOWED_V6

  const GLOBAL_UNICAST := V6Net(0x20000000_00000000_00000000_00000000, 3)

  /** Unspecified, loopback, link-local, multicast and private addresses. */
  const NOT_PUBLIC: seq<Network> :=
    [V4Net(0, 32), V4Net(0x7f00_0000, 8), V4Net(0xa9fe_0000, 16), V4Net(0xe000_0000, 4),
     V4Net(0x0a00_0000, 8), V4Net(0xac10_0000, 12), V4Net(0xc0a8_0000, 16),
     V6Net(0, 128), V6Net(1, 128), V6Net(0xfe800000_00000000_00000000_00000000, 10),
     V6Net(0xff000000_00000000_00000000_00000000, 8), V6Net(0xfc000000_00000000_00000000_00000000, 7)]

  /** What a list is judged by. */
  datatype Policy = Policy(notPublic: seq<Network>, global: Network, disallowed: seq<Network>)

  /** The policy of the tool. */
  const EDGEONE := Policy(NOT_PUBLIC, GLOBAL_UNICAST, DISALLOWED)

  /** An IPv4-mapped IPv6 address (section 2.5.5.2 of RFC 4291). */
  predicate Mapped(a: Addr) {
    a.family.V6? && a.value / 0x1_0000_0000 == 0xffff
  }

  function Unmap(a: Addr): Addr {
    if Mapped(a) then Raw(V4, a.value % 0x1_0000_0000) else a
  }

  predicate InAny(list: seq<Network>, x: Addr) {
    exists d <- list :: Contains(d, x)
  }

  function FirstOverlap(list: seq<Network>, p: Network): Option<Network> {
    if list == [] then None
    else if Overlap(p, list[0]) then Some(list[0])
    else FirstOverlap(list[1..], p)
  }

  /** The checks on one network, in the order of the tool. */
  function Check(policy: Policy, p: Prefix): Option<Problem> {
    var addr := Unmap(p.addr);
    var net := Prefix(addr, p.bits);
    if !Valid(net) then Some(Invalid)
    else
      var q := Masked(net);
      if q.bits == 0 then Some(TrustsAll)
      else if InAny(policy.notPublic, addr) then Some(NotPublic)
      else if addr.family.V6? && !Within(q, policy.global) then Some(NotGlobalUnicast)
      else
        var blocked := FirstOverlap(policy.disallowed, q);
        if blocked.Some? then Some(Disallowed(blocked.value)) else None
  }

  function Parse(e: Entry): Result<Prefix> {
    match e
    case Blank => Err(EmptyEntry)
    case Unreadable => Err(Malformed)
    case Net(p) => if Valid(p) then Ok(Masked(p)) else Err(Malformed)
    case Host(a) => var u := Unmap(a); Ok(Prefix(u, Width(u.family)))
  }

  function Accept(policy: Policy, e: Entry): Result<Prefix> {
    match Parse(e)
    case Err(problem) => Err(problem)
    case Ok(p) => var bad := Check(policy, p); if bad.Some? then Err(bad.value) else Ok(p)
  }

  function AcceptAll(policy: Policy, entries: seq<Entry>): Result<seq<Prefix>> {
    if entries == [] then Ok([])
    else
      match AcceptAll(policy, entries[..|entries| - 1])
      case Err(problem) => Err(problem)
      case Ok(ps) =>
        match Accept(policy, entries[|entries| - 1])
        case Err(problem) => Err(problem)
        case Ok(p) => Ok(ps + [p])
  }

  // ------------------------------------------------------------------ order

  predicate Less(p: Prefix, q: Prefix) {
    if p.addr.family != q.addr.family then p.addr.family.V4?
    else p.addr.value < q.addr.value || (p.addr.value == q.addr.value && p.bits < q.bits)
  }

  ghost predicate Ordered(s: seq<Prefix>) {
    forall i, j :: 0 <= i < j < |s| ==> Less(s[i], s[j])
  }

  function Insert(p: Prefix, s: seq<Prefix>): seq<Prefix> {
    if s == [] then [p]
    else if p == s[0] then s
    else if Less(p, s[0]) then [p] + s
    else [s[0]] + Insert(p, s[1..])
  }

  /** Ascending and without repetition. */
  function Sorted(s: seq<Prefix>): seq<Prefix> {
    if s == [] then [] else Insert(s[|s| - 1], Sorted(s[..|s| - 1]))
  }

  function Canonical(policy: Policy, entries: seq<Entry>): Result<seq<Prefix>> {
    match AcceptAll(policy, entries)
    case Err(problem) => Err(problem)
    case Ok(ps) => if ps == [] then Err(EmptyList) else Ok(Sorted(ps))
  }

  lemma {:induction false} InsertIsOrdered(p: Prefix, s: seq<Prefix>)
    requires Ordered(s)
    ensures Ordered(Insert(p, s))
    ensures forall q :: q in Insert(p, s) <==> q == p || q in s
  {
    if s != [] && p != s[0] && !Less(p, s[0]) {
      InsertIsOrdered(p, s[1..]);
      var t := Insert(p, s[1..]);
      forall q | q in t ensures Less(s[0], q) {
        if q != p {
          var i :| 0 <= i < |s[1..]| && s[1..][i] == q;
          assert q == s[i + 1];
        }
      }
    }
  }

  lemma {:induction false} SortedIsOrdered(s: seq<Prefix>)
    ensures Ordered(Sorted(s))
    ensures forall q :: q in Sorted(s) <==> q in s
  {
    if s != [] {
      SortedIsOrdered(s[..|s| - 1]);
      InsertIsOrdered(s[|s| - 1], Sorted(s[..|s| - 1]));
      assert s == s[..|s| - 1] + [s[|s| - 1]];
    }
  }

  /** There is only one ascending list of given elements. */
  lemma {:induction false} OrderedIsUnique(s: seq<Prefix>, t: seq<Prefix>)
    requires Ordered(s) && Ordered(t) && forall q :: q in s <==> q in t
    ensures s == t
  {
    assert s == [] || s[0] in t;
    assert t == [] || t[0] in s;
    if s != [] {
      FirstIsLeast(s, t[0]);
      FirstIsLeast(t, s[0]);
      forall q ensures q in s[1..] <==> q in t[1..] {
        RestWithoutFirst(s, q);
        RestWithoutFirst(t, q);
      }
      OrderedIsUnique(s[1..], t[1..]);
    }
  }

  lemma FirstIsLeast(s: seq<Prefix>, q: Prefix)
    requires Ordered(s) && q in s
    ensures s != [] && !Less(q, s[0])
  {
  }

  lemma RestWithoutFirst(s: seq<Prefix>, q: Prefix)
    requires s != [] && Ordered(s)
    ensures q in s[1..] <==> q in s && q != s[0]
  {
    if q in s && q != s[0] {
      var i :| 0 <= i < |s| && s[i] == q;
      assert s[1..][i - 1] == q;
    }
  }

  // ------------------------------------------------------------------ the tool's loops

  method CheckNetwork(policy: Policy, p: Prefix) returns (r: Option<Problem>)
    ensures r == Check(policy, p)
  {
    var addr := Unmap(p.addr);
    var net := Prefix(addr, p.bits);
    if !Valid(net) {
      return Some(Invalid);
    }
    net := Masked(net);
    if net.bits == 0 {
      return Some(TrustsAll);
    }
    if InAny(policy.notPublic, addr) {
      return Some(NotPublic);
    }
    if addr.family.V6? && !Within(net, policy.global) {
      return Some(NotGlobalUnicast);
    }
    for i := 0 to |policy.disallowed|
      invariant FirstOverlap(policy.disallowed, net) == FirstOverlap(policy.disallowed[i..], net)
    {
      assert policy.disallowed[i] in policy.disallowed;
      assert policy.disallowed[i..][1..] == policy.disallowed[i + 1..];
      if Overlap(net, policy.disallowed[i]) {
        return Some(Disallowed(policy.disallowed[i]));
      }
    }
    return None;
  }

  /** Sort a list without repetitions by insertion. */
  method SortNetworks(s: seq<Prefix>) returns (r: seq<Prefix>)
    requires forall i, j :: 0 <= i < j < |s| ==> s[i] != s[j]
    ensures Ordered(r) && |r| == |s| && forall q :: q in r <==> q in s
  {
    r := [];
    for i := 0 to |s|
      invariant Ordered(r) && |r| == i && forall q :: q in r <==> q in s[..i]
    {
      var k := 0;
      while k < |r| && Less(r[k], s[i])
        invariant 0 <= k <= |r| && forall j :: 0 <= j < k ==> Less(r[j], s[i])
      {
        k := k + 1;
      }
      assert k < |r| ==> r[k] in s[..i] && r[k] != s[i];
      assert forall j :: k <= j < |r| ==> Less(s[i], r[j]);
      assert s[..i + 1] == s[..i] + [s[i]];
      r := r[..k] + [s[i]] + r[k..];
    }
    assert s[..|s|] == s;
  }

  method CanonicalCIDRs(policy: Policy, entries: seq<Entry>) returns (r: Result<seq<Prefix>>)
    ensures r == Canonical(policy, entries)
  {
    var seen := {};
    var canonical: seq<Prefix> := [];
    ghost var all: seq<Prefix> := [];
    for i := 0 to |entries|
      invariant AcceptAll(policy, entries[..i]) == Ok(all)
      invariant forall q :: q in canonical <==> q in all
      invariant forall q :: q in seen <==> q in canonical
      invariant forall k, j :: 0 <= k < j < |canonical| ==> canonical[k] != canonical[j]
    {
      assert entries[..i + 1][..i] == entries[..i];
      var parsed := Parse(entries[i]);
      if parsed.Err? {
        StopsAt(policy, entries, i);
        return Err(parsed.error);
      }
      var problem := CheckNetwork(policy, parsed.value);
      if problem.Some? {
        StopsAt(policy, entries, i);
        return Err(problem.value);
      }
      all := all + [parsed.value];
      if parsed.value in seen {
        continue;
      }
      seen := seen + {parsed.value};
      canonical := canonical + [parsed.value];
    }
    assert entries[..|entries|] == entries;
    assert all == [] || all[0] in canonical;
    if |canonical| == 0 {
      return Err(EmptyList);
    }
    assert canonical[0] in all;
    var sorted := SortNetworks(canonical);
    SortedIsOrdered(all);
    OrderedIsUnique(sorted, Sorted(all));
    return Ok(sorted);
  }

  /** The first entry in error decides. */
  lemma {:induction false} StopsAt(policy: Policy, entries: seq<Entry>, i: nat)
    requires i < |entries| && AcceptAll(policy, entries[..i]).Ok? && Accept(policy, entries[i]).Err?
    ensures AcceptAll(policy, entries) == Err(Accept(policy, entries[i]).error)
    decreases |entries|
  {
    var front := entries[..|entries| - 1];
    if i < |front| {
      assert front[..i] == entries[..i];
      StopsAt(policy, front, i);
    }
  }
}
