/** Addresses and dyadic prefixes: the arithmetic of section 3.1 of RFC 4632. */
module Prefixes {

  datatype Family = V4 | V6

  function Width(f: Family): nat {
    if f.V4? then 32 else 128
  }

  datatype Raw = Raw(family: Family, value: nat)

  function Size(f: Family): nat {
    if f.V4? then 0x1_0000_0000 else 0x1_00000000_00000000_00000000_00000000
  }

  type Addr = a: Raw | a.value < Size(a.family) witness Raw(V4, 0)

  datatype Prefix = Prefix(addr: Addr, bits: nat)

  predicate Valid(p: Prefix) {
    p.bits <= Width(p.addr.family)
  }

  type Network = p: Prefix | Valid(p) witness Prefix(Raw(V4, 0), 0)

  /** The number of bits a prefix leaves free. */
  function Free(p: Prefix): nat
    requires Valid(p)
  {
    Width(p.addr.family) - p.bits
  }

  /** Drop the last `k` bits. */
  function Shr(x: nat, k: nat): nat
    decreases k
  {
    if k == 0 then x else Shr(x / 2, k - 1)
  }

  /** Append `k` bits, all zero or all one. */
  function Shl(x: nat, k: nat): nat {
    if k == 0 then x else 2 * Shl(x, k - 1)
  }

  function Fill(x: nat, k: nat): nat {
    if k == 0 then x else 2 * Fill(x, k - 1) + 1
  }

  function Masked(p: Prefix): (q: Prefix)
    requires Valid(p)
    ensures Valid(q) && q.bits == p.bits && q.addr.family == p.addr.family
  {
    ShlShr(p.addr.value, Free(p));
    Prefix(Raw(p.addr.family, Shl(Shr(p.addr.value, Free(p)), Free(p))), p.bits)
  }

  /** `netip.Prefix.Contains`: the same family and the same first bits. */
  predicate Contains(p: Prefix, x: Addr)
    requires Valid(p)
  {
    x.family == p.addr.family && Shr(x.value, Free(p)) == Shr(p.addr.value, Free(p))
  }

  predicate Overlap(l: Prefix, r: Prefix)
    requires Valid(l) && Valid(r)
  {
    l.addr.family == r.addr.family && (Contains(l, r.addr) || Contains(r, l.addr))
  }

  predicate Within(child: Prefix, parent: Prefix)
    requires Valid(child) && Valid(parent)
  {
    child.addr.family == parent.addr.family && child.bits >= parent.bits && Contains(parent, child.addr)
  }

  // ------------------------------------------------------------------ shifts

  lemma {:induction false} ShlShr(x: nat, k: nat)
    ensures Shl(Shr(x, k), k) <= x
    decreases k
  {
    if k > 0 {
      ShlShr(x / 2, k - 1);
    }
  }

  lemma {:induction false} ShrAdd(x: nat, a: nat, b: nat)
    ensures Shr(x, a + b) == Shr(Shr(x, a), b)
    decreases a
  {
    if a > 0 {
      ShrAdd(x / 2, a - 1, b);
    }
  }

  /** Bits that were appended are dropped again, all of them or the last ones. */
  lemma {:induction false} ShrShl(x: nat, k: nat, j: nat)
    requires j <= k
    ensures Shr(Shl(x, k), j) == Shl(x, k - j)
    decreases j
  {
    if j > 0 {
      assert Shl(x, k) / 2 == Shl(x, k - 1);
      ShrShl(x, k - 1, j - 1);
    }
  }

  lemma {:induction false} ShrFill(x: nat, k: nat, j: nat)
    requires j <= k
    ensures Shr(Fill(x, k), j) == Fill(x, k - j)
    decreases j
  {
    if j > 0 {
      assert Fill(x, k) / 2 == Fill(x, k - 1);
      ShrFill(x, k - 1, j - 1);
    }
  }

  lemma {:induction false} FillIsMore(x: nat, k: nat)
    ensures k > 0 ==> Fill(x, k) > Shl(x, k)
    ensures Fill(x, k) >= Shl(x, k)
  {
    if k > 0 {
      FillIsMore(x, k - 1);
    }
  }

  lemma {:induction false} FillFits(x: nat, k: nat, n: nat)
    requires k <= n && x < Shl(1, n)
    ensures Fill(Shr(x, k), k) < Shl(1, n)
    decreases k
  {
    if k > 0 {
      FillFits(x / 2, k - 1, n - 1);
    }
  }

  /** Nothing is left of a number with fewer bits. */
  lemma {:induction false} SmallShr(x: nat, k: nat)
    requires x < Shl(1, k)
    ensures Shr(x, k) == 0
    decreases k
  {
    if k > 0 {
      SmallShr(x / 2, k - 1);
    }
  }

  lemma {:induction false} ShlAdd(x: nat, a: nat, b: nat)
    ensures Shl(Shl(x, a), b) == Shl(x, a + b)
    decreases b
  {
    if b > 0 {
      ShlAdd(x, a, b - 1);
    }
  }

  /** Doubling a product is doubling its second factor. */
  lemma DoubleProduct(x: nat, y: nat)
    ensures 2 * (x * y) == x * (2 * y)
  {
  }

  lemma {:induction false} ShlScales(x: nat, k: nat)
    ensures Shl(x, k) == x * Shl(1, k)
  {
    if k == 0 {
      assert Shl(1, 0) == 1;
    } else {
      ShlScales(x, k - 1);
      DoubleProduct(x, Shl(1, k - 1));
    }
  }

  lemma Square(k: nat, p: nat)
    requires Shl(1, k) == p
    ensures Shl(1, k + k) == p * p
  {
    ShlAdd(1, k, k);
    ShlScales(p, k);
  }

  lemma SizeIsShl(f: Family)
    ensures Size(f) == Shl(1, Width(f))
  {
    assert Shl(1, 1) == 2;
    Square(1, 2);
    Square(2, 4);
    Square(4, 0x10);
    Square(8, 0x100);
    Square(16, 0x10000);
    Square(32, 0x1_0000_0000);
    Square(64, 0x1_00000000_00000000);
  }

  // ------------------------------------------------------------------ meaning

  lemma ContainsBase(p: Prefix)
    requires Valid(p)
    ensures Contains(p, p.addr)
  {
  }

  /** Masking does not change which addresses a prefix stands for. */
  lemma MaskedSame(p: Prefix, x: Addr)
    requires Valid(p)
    ensures Contains(Masked(p), x) <==> Contains(p, x)
  {
    ShrShl(Shr(p.addr.value, Free(p)), Free(p), Free(p));
  }

  lemma MaskedTwice(p: Prefix)
    requires Valid(p)
    ensures Masked(Masked(p)) == Masked(p)
  {
    ShrShl(Shr(p.addr.value, Free(p)), Free(p), Free(p));
  }

  /** The shorter of two prefixes that share an address contains all of the longer one. */
  lemma NestedIfShared(fine: Prefix, coarse: Prefix, x: Addr)
    requires Valid(fine) && Valid(coarse) && coarse.bits <= fine.bits
    requires Contains(fine, x) && Contains(coarse, x)
    ensures forall y: Addr :: Contains(fine, y) ==> Contains(coarse, y)
  {
    forall y: Addr | Contains(fine, y) ensures Contains(coarse, y) {
      ShrAdd(x.value, Free(fine), Free(coarse) - Free(fine));
      ShrAdd(y.value, Free(fine), Free(coarse) - Free(fine));
    }
  }

  /** `prefixesOverlap` says exactly that some address is in both. */
  lemma OverlapMeansShared(l: Prefix, r: Prefix)
    requires Valid(l) && Valid(r)
    ensures Overlap(l, r) <==> exists x: Addr :: Contains(l, x) && Contains(r, x)
  {
    ContainsBase(l);
    ContainsBase(r);
    if x: Addr :| Contains(l, x) && Contains(r, x) {
      if l.bits <= r.bits {
        NestedIfShared(r, l, x);
      } else {
        NestedIfShared(l, r, x);
      }
    }
  }

  /** The last address of a prefix. */
  function Last(p: Prefix): (a: Addr)
    requires Valid(p)
    ensures Contains(p, a)
  {
    SizeIsShl(p.addr.family);
    FillFits(p.addr.value, Free(p), Width(p.addr.family));
    ShrFill(Shr(p.addr.value, Free(p)), Free(p), Free(p));
    Raw(p.addr.family, Fill(Shr(p.addr.value, Free(p)), Free(p)))
  }

  /** A prefix with more free bits has addresses outside one with fewer: its first or its last. */
  lemma WiderIsNotSubset(child: Prefix, parent: Prefix)
    requires Valid(child) && Valid(parent) && child.addr.family == parent.addr.family && child.bits < parent.bits
    ensures exists x: Addr :: Contains(child, x) && !Contains(parent, x)
  {
    var first, last := Masked(child).addr, Last(child);
    var q := Shr(child.addr.value, Free(child));
    MaskedSame(child, first);
    ContainsBase(Masked(child));
    ShrShl(q, Free(child), Free(parent));
    ShrFill(q, Free(child), Free(parent));
    FillIsMore(q, Free(child) - Free(parent));
    assert Contains(child, first) && Contains(child, last);
    assert !Contains(parent, first) || !Contains(parent, last);
  }

  /** `prefixWithin` says exactly that the child's addresses are among the parent's. */
  lemma WithinMeansSubset(child: Prefix, parent: Prefix)
    requires Valid(child) && Valid(parent)
    ensures Within(child, parent) <==> forall x: Addr :: Contains(child, x) ==> Contains(parent, x)
  {
    ContainsBase(child);
    if Within(child, parent) {
      NestedIfShared(child, parent, child.addr);
    } else if child.bits < parent.bits && child.addr.family == parent.addr.family {
      WiderIsNotSubset(child, parent);
    }
  }
}
