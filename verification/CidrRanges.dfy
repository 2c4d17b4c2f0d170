/** The ranges of addresses that are never trusted, from their first to their last address. */
module CidrRanges {
  import opened Options
  import opened Prefixes
  import opened Cidr
  import opened CidrProperties

  datatype Range = Range(first: nat, last: nat)

  function Ip(a: nat, b: nat, c: nat, d: nat): nat {
    ((a * 0x100 + b) * 0x100 + c) * 0x100 + d
  }

  /** The special-purpose IPv4 ranges, as the registry of RFC 6890 has them, and multicast. */
  const SPECIAL_V4: seq<Range> :=
    [Range(Ip(0, 0, 0, 0), Ip(0, 255, 255, 255)),
     Range(Ip(10, 0, 0, 0), Ip(10, 255, 255, 255)),
     Range(Ip(100, 64, 0, 0), Ip(100, 127, 255, 255)),
     Range(Ip(127, 0, 0, 0), Ip(127, 255, 255, 255)),
     Range(Ip(169, 254, 0, 0), Ip(169, 254, 255, 255)),
     Range(Ip(172, 16, 0, 0), Ip(172, 31, 255, 255)),
     Range(Ip(192, 0, 0, 0), Ip(192, 0, 0, 255)),
     Range(Ip(192, 0, 2, 0), Ip(192, 0, 2, 255)),
     Range(Ip(192, 31, 196, 0), Ip(192, 31, 196, 255)),
     Range(Ip(192, 52, 193, 0), Ip(192, 52, 193, 255)),
     Range(Ip(192, 88, 99, 0), Ip(192, 88, 99, 255)),
     Range(Ip(192, 168, 0, 0), Ip(192, 168, 255, 255)),
     Range(Ip(192, 175, 48, 0), Ip(192, 175, 48, 255)),
     Range(Ip(198, 18, 0, 0), Ip(198, 19, 255, 255)),
     Range(Ip(198, 51, 100, 0), Ip(198, 51, 100, 255)),
     Range(Ip(203, 0, 113, 0), Ip(203, 0, 113, 255)),
     Range(Ip(224, 0, 0, 0), Ip(239, 255, 255, 255)),
     Range(Ip(240, 0, 0, 0), Ip(255, 255, 255, 255))]

  /** The special-purpose IPv6 ranges. */
  const SPECIAL_V6: seq<Range> :=
    [Range(0x00000000_00000000_00000000_00000000,
           0x00000000_00000000_00000000_00000000),
     Range(0x00000000_00000000_00000000_00000001,
           0x00000000_00000000_00000000_00000001),
     Range(0x0064ff9b_00000000_00000000_00000000,
           0x0064ff9b_00000000_00000000_ffffffff),
     Range(0x0064ff9b_00010000_00000000_00000000,
           0x0064ff9b_0001ffff_ffffffff_ffffffff),
     Range(0x01000000_00000000_00000000_00000000,
           0x01000000_00000000_ffffffff_ffffffff),
     Range(0x01000000_00000001_00000000_00000000,
           0x01000000_00000001_ffffffff_ffffffff),
     Range(0x20010000_00000000_00000000_00000000,
           0x200101ff_ffffffff_ffffffff_ffffffff),
     Range(0x20010002_00000000_00000000_00000000,
           0x20010002_0000ffff_ffffffff_ffffffff),
     Range(0x20010db8_00000000_00000000_00000000,
           0x20010db8_ffffffff_ffffffff_ffffffff),
     Range(0x20020000_00000000_00000000_00000000,
           0x2002ffff_ffffffff_ffffffff_ffffffff),
     Range(0x2620004f_80000000_00000000_00000000,
           0x2620004f_8000ffff_ffffffff_ffffffff),
     Range(0x3fff0000_00000000_00000000_00000000,
           0x3fff0fff_ffffffff_ffffffff_ffffffff),
     Range(0x5f000000_00000000_00000000_00000000,
           0x5f00ffff_ffffffff_ffffffff_ffffffff),
     Range(0xfc000000_00000000_00000000_00000000,
           0xfdffffff_ffffffff_ffffffff_ffffffff),
     Range(0xfe800000_00000000_00000000_00000000,
           0xfebfffff_ffffffff_ffffffff_ffffffff),
     Range(0xff000000_00000000_00000000_00000000,
           0xffffffff_ffffffff_ffffffff_ffffffff)]

  predicate Inside(ranges: seq<Range>, v: nat) {
    exists r <- ranges :: r.first <= v <= r.last
  }

  /** A public address: no special-purpose range has it, and if it is IPv6 it begins with 001. */
  predicate Public(x: Addr) {
    match x.family
    case V4 => !Inside(SPECIAL_V4, x.value)
    case V6 =>
      && 0x20000000_00000000_00000000_00000000 <= x.value
      && x.value <= 0x3fffffff_ffffffff_ffffffff_ffffffff
      && !Inside(SPECIAL_V6, x.value)
  }

  // ------------------------------------------------------------------ networks as ranges

  lemma Monotone(a: int, b: int, m: nat)
    requires a <= b
    ensures a * m <= b * m
  {
    assert (b - a) * m >= 0;
  }

  lemma LessFactor(a: int, b: int, m: nat)
    requires a * m < b * m
    ensures a < b
  {
    if b <= a {
      Monotone(b, a, m);
    }
  }

  lemma DividesExactly(x: nat, q: nat, m: nat)
    requires m > 0 && q * m <= x < q * m + m
    ensures x / m == q
  {
    var d := x / m;
    assert d * m <= x < d * m + m;
    assert d * m + m == (d + 1) * m && q * m + m == (q + 1) * m;
    LessFactor(d, q + 1, m);
    LessFactor(q, d + 1, m);
  }

  lemma HalfThenDivide(x: nat, m: nat)
    requires m > 0
    ensures (x / 2) / m == x / (2 * m)
  {
    var q := x / (2 * m);
    assert q * (2 * m) == 2 * (q * m) && q * (2 * m) <= x < q * (2 * m) + 2 * m;
    DividesExactly(x / 2, q, m);
  }

  lemma {:induction false} ShrDivides(x: nat, k: nat)
    ensures Shl(1, k) > 0 && Shr(x, k) == x / Shl(1, k)
    decreases k
  {
    if k > 0 {
      ShrDivides(x / 2, k - 1);
      HalfThenDivide(x, Shl(1, k - 1));
    }
  }

  /** The network covers exactly this range. */
  predicate Spans(p: Network, r: Range) {
    var size := Shl(1, Free(p));
    size > 0 && r.first == p.addr.value && r.last == r.first + size - 1 && r.first % size == 0
  }

  lemma SpanContains(p: Network, r: Range, x: Addr)
    requires Spans(p, r) && x.family == p.addr.family
    ensures Contains(p, x) <==> r.first <= x.value <= r.last
  {
    var size := Shl(1, Free(p));
    ShrDivides(x.value, Free(p));
    ShrDivides(p.addr.value, Free(p));
    QuotientIs(x.value, r.first, size);
  }

  lemma QuotientIs(x: nat, first: nat, size: nat)
    requires size > 0 && first % size == 0
    ensures x / size == first / size <==> first <= x < first + size
  {
    var q := first / size;
    assert first == q * size;
    assert x / size * size <= x < x / size * size + size;
    if first <= x < first + size {
      DividesExactly(x, q, size);
    }
  }

  /** The networks are those of a family and cover these ranges, one by one. */
  ghost predicate AllSpan(list: seq<Network>, ranges: seq<Range>, f: Family) {
    && |list| == |ranges|
    && forall i {:trigger SpanAt(list, ranges, i, f)} :: 0 <= i < |list| ==> SpanAt(list, ranges, i, f)
  }

  ghost predicate SpanAt(list: seq<Network>, ranges: seq<Range>, i: nat, f: Family)
    requires i < |list| && i < |ranges|
  {
    list[i].addr.family == f && Spans(list[i], ranges[i])
  }

  lemma AnyIsInside(list: seq<Network>, ranges: seq<Range>, x: Addr)
    requires AllSpan(list, ranges, x.family)
    ensures InAny(list, x) <==> Inside(ranges, x.value)
  {
    forall i | 0 <= i < |list|
      ensures Contains(list[i], x) <==> ranges[i].first <= x.value <= ranges[i].last
    {
      assert SpanAt(list, ranges, i, x.family);
      SpanContains(list[i], ranges[i], x);
    }
    if Inside(ranges, x.value) {
      var i :| 0 <= i < |ranges| && ranges[i].first <= x.value <= ranges[i].last;
      assert list[i] in list;
    }
    if InAny(list, x) {
      var i :| 0 <= i < |list| && Contains(list[i], x);
      assert ranges[i] in ranges;
    }
  }

  lemma OtherFamily(list: seq<Network>, ranges: seq<Range>, f: Family, x: Addr)
    requires AllSpan(list, ranges, f) && x.family != f
    ensures !InAny(list, x)
  {
    forall d | d in list ensures !Contains(d, x) {
      var i :| 0 <= i < |list| && list[i] == d;
      assert SpanAt(list, ranges, i, f);
    }
  }

  // ------------------------------------------------------------------ the tool's ranges

  lemma PowersV4()
    ensures Shl(1, 8) == 0x100
    ensures Shl(1, 16) == 0x10000
    ensures Shl(1, 17) == 0x20000
    ensures Shl(1, 20) == 0x100000
    ensures Shl(1, 22) == 0x400000
    ensures Shl(1, 24) == 0x1000000
    ensures Shl(1, 28) == 0x10000000
  {
  }

  lemma PowerProduct(a: nat, b: nat)
    ensures Shl(1, a + b) == Shl(1, a) * Shl(1, b)
  {
    ShlAdd(1, a, b);
    ShlScales(Shl(1, a), b);
  }

  lemma LowPowers()
    ensures Shl(1, 0) == 0x1
    ensures Shl(1, 9) == 0x200
    ensures Shl(1, 12) == 0x1000
    ensures Shl(1, 16) == 0x10000
    ensures Shl(1, 22) == 0x400000
    ensures Shl(1, 24) == 0x1000000
    ensures Shl(1, 25) == 0x2000000
    ensures Shl(1, 29) == 0x20000000
    ensures Shl(1, 32) == 0x100000000
  {
  }

  lemma MiddlePowers()
    ensures Shl(1, 64) == 0x10000000000000000
    ensures Shl(1, 80) == 0x100000000000000000000
    ensures Shl(1, 96) == 0x1000000000000000000000000
  {
    LowPowers();
    PowerProduct(32, 32);
    PowerProduct(64, 16);
    PowerProduct(64, 32);
  }

  lemma HighPowers()
    ensures Shl(1, 105) == 0x200000000000000000000000000
    ensures Shl(1, 108) == 0x1000000000000000000000000000
    ensures Shl(1, 112) == 0x10000000000000000000000000000
    ensures Shl(1, 118) == 0x400000000000000000000000000000
    ensures Shl(1, 120) == 0x1000000000000000000000000000000
    ensures Shl(1, 121) == 0x2000000000000000000000000000000
    ensures Shl(1, 125) == 0x20000000000000000000000000000000
  {
    LowPowers();
    MiddlePowers();
    PowerProduct(96, 9);
    PowerProduct(96, 12);
    PowerProduct(96, 16);
    PowerProduct(96, 22);
    PowerProduct(96, 24);
    PowerProduct(96, 25);
    PowerProduct(96, 29);
  }

  lemma PowersV6()
    ensures Shl(1, 0) == 0x1
    ensures Shl(1, 32) == 0x100000000
    ensures Shl(1, 64) == 0x10000000000000000
    ensures Shl(1, 80) == 0x100000000000000000000
    ensures Shl(1, 96) == 0x1000000000000000000000000
    ensures Shl(1, 105) == 0x200000000000000000000000000
    ensures Shl(1, 108) == 0x1000000000000000000000000000
    ensures Shl(1, 112) == 0x10000000000000000000000000000
    ensures Shl(1, 118) == 0x400000000000000000000000000000
    ensures Shl(1, 120) == 0x1000000000000000000000000000000
    ensures Shl(1, 121) == 0x2000000000000000000000000000000
    ensures Shl(1, 125) == 0x20000000000000000000000000000000
  {
    LowPowers();
    MiddlePowers();
    HighPowers();
  }

  lemma SpansV4From0(i: nat)
    requires 0 <= i < 6
    ensures SpanAt(DISALLOWED_V4, SPECIAL_V4, i, V4)
  {
    PowersV4();
    match i
    case 0 =>
    case 1 =>
    case 2 =>
    case 3 =>
    case 4 =>
    case _ =>
  }

  lemma SpansV4From6(i: nat)
    requires 6 <= i < 12
    ensures SpanAt(DISALLOWED_V4, SPECIAL_V4, i, V4)
  {
    PowersV4();
    match i
    case 6 =>
    case 7 =>
    case 8 =>
    case 9 =>
    case 10 =>
    case _ =>
  }

  lemma SpansV4From12(i: nat)
    requires 12 <= i < 18
    ensures SpanAt(DISALLOWED_V4, SPECIAL_V4, i, V4)
  {
    PowersV4();
    match i
    case 12 =>
    case 13 =>
    case 14 =>
    case 15 =>
    case 16 =>
    case _ =>
  }

  lemma SpansV4()
    ensures AllSpan(DISALLOWED_V4, SPECIAL_V4, V4)
  {
    forall i | 0 <= i < 18 ensures SpanAt(DISALLOWED_V4, SPECIAL_V4, i, V4) {
      if i < 6 {
        SpansV4From0(i);
      } else if i < 12 {
        SpansV4From6(i);
      } else {
        SpansV4From12(i);
      }
    }
  }

  lemma SpansV6From0(i: nat)
    requires 0 <= i < 2
    ensures SpanAt(DISALLOWED_V6, SPECIAL_V6, i, V6)
  {
    PowersV6();
    match i
    case 0 =>
    case _ =>
  }

  lemma SpansV6From2(i: nat)
    requires 2 <= i < 4
    ensures SpanAt(DISALLOWED_V6, SPECIAL_V6, i, V6)
  {
    PowersV6();
    match i
    case 2 =>
    case _ =>
  }

  lemma SpansV6From4(i: nat)
    requires 4 <= i < 6
    ensures SpanAt(DISALLOWED_V6, SPECIAL_V6, i, V6)
  {
    PowersV6();
    match i
    case 4 =>
    case _ =>
  }

  lemma SpansV6From6(i: nat)
    requires 6 <= i < 8
    ensures SpanAt(DISALLOWED_V6, SPECIAL_V6, i, V6)
  {
    PowersV6();
    match i
    case 6 =>
    case _ =>
  }

  lemma SpansV6From8(i: nat)
    requires 8 <= i < 10
    ensures SpanAt(DISALLOWED_V6, SPECIAL_V6, i, V6)
  {
    PowersV6();
    match i
    case 8 =>
    case _ =>
  }

  lemma SpansV6From10(i: nat)
    requires 10 <= i < 12
    ensures SpanAt(DISALLOWED_V6, SPECIAL_V6, i, V6)
  {
    PowersV6();
    match i
    case 10 =>
    case _ =>
  }

  lemma SpansV6From12(i: nat)
    requires 12 <= i < 14
    ensures SpanAt(DISALLOWED_V6, SPECIAL_V6, i, V6)
  {
    PowersV6();
    match i
    case 12 =>
    case _ =>
  }

  lemma SpansV6From14(i: nat)
    requires 14 <= i < 16
    ensures SpanAt(DISALLOWED_V6, SPECIAL_V6, i, V6)
  {
    PowersV6();
    match i
    case 14 =>
    case _ =>
  }

  lemma SpansV6()
    ensures AllSpan(DISALLOWED_V6, SPECIAL_V6, V6)
  {
    forall i | 0 <= i < 16 ensures SpanAt(DISALLOWED_V6, SPECIAL_V6, i, V6) {
      if i < 2 {
        SpansV6From0(i);
      } else if i < 4 {
        SpansV6From2(i);
      } else if i < 6 {
        SpansV6From4(i);
      } else if i < 8 {
        SpansV6From6(i);
      } else if i < 10 {
        SpansV6From8(i);
      } else if i < 12 {
        SpansV6From10(i);
      } else if i < 14 {
        SpansV6From12(i);
      } else {
        SpansV6From14(i);
      }
    }
  }

  lemma DisallowedIsSpecial(x: Addr)
    ensures InAny(DISALLOWED, x) <==> Inside(if x.family.V4? then SPECIAL_V4 else SPECIAL_V6, x.value)
  {
    SpansV4();
    SpansV6();
    if x.family.V4? {
      AnyIsInside(DISALLOWED_V4, SPECIAL_V4, x);
      OtherFamily(DISALLOWED_V6, SPECIAL_V6, V6, x);
    } else {
      AnyIsInside(DISALLOWED_V6, SPECIAL_V6, x);
      OtherFamily(DISALLOWED_V4, SPECIAL_V4, V4, x);
    }
    assert forall d :: d in DISALLOWED <==> d in DISALLOWED_V4 || d in DISALLOWED_V6;
  }

  /** An address is allowed exactly if it is public. */
  lemma AllowedIsPublic(x: Addr)
    ensures Allowed(EDGEONE, x) <==> Public(x)
  {
    DisallowedIsSpecial(x);
    if x.family.V6? {
      PowersV6();
      SpanContains(GLOBAL_UNICAST, Range(0x20000000_00000000_00000000_00000000,
                   0x3fffffff_ffffffff_ffffffff_ffffffff), x);
    }
  }

  /** A bare address is trusted exactly if it is public; IPv4-mapped addresses count as IPv4. */
  lemma HostIsTrustedIff(a: Addr)
    ensures Accept(EDGEONE, Host(a)).Ok? <==> Public(Unmap(a))
  {
    EdgeOneAcceptsExactly(Host(a));
    AllowedIsPublic(Unmap(a));
    assert Names(Host(a), Unmap(a));
  }

  /** A network is trusted exactly if it is not everything and all its addresses are public. */
  lemma NetworkIsTrustedIff(p: Network)
    ensures Accept(EDGEONE, Net(p)).Ok? <==> p.bits > 0 && forall x: Addr :: Contains(p, x) ==> Public(x)
  {
    EdgeOneAcceptsExactly(Net(p));
    forall x: Addr ensures Allowed(EDGEONE, x) <==> Public(x) {
      AllowedIsPublic(x);
    }
    assert forall x: Addr :: Names(Net(p), x) <==> Contains(p, x);
  }
}
