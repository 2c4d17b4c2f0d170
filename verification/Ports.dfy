/** The default port of an app's GoAccess WebSocket. */
module Ports {

  const BASE := 39000
  const SPAN := 20000

  predicate Reserved(port: int) {
    port in {80, 443, 3478, 8080, 50443, 19090}
  }

  type byte = bv8

  /** FNV-1a with 32 bits: exclusive-or with the byte, then multiply modulo 2^32. */
  function Mix(hash: bv32, b: byte): bv32 {
    (hash ^ (b as bv32)) * 16777619
  }

  function FnvFrom(hash: bv32, bytes: seq<byte>): bv32
    decreases |bytes|
  {
    if bytes == [] then hash else FnvFrom(Mix(hash, bytes[0]), bytes[1..])
  }

  function Fnv1a(bytes: seq<byte>): bv32 {
    FnvFrom(2166136261, bytes)
  }

  function Offset(name: seq<byte>): (offset: nat)
    ensures offset < SPAN
  {
    (Fnv1a(name) as nat) % SPAN
  }

  /** Hashing in pieces is hashing at once. */
  lemma {:induction false} FnvAppend(hash: bv32, a: seq<byte>, b: seq<byte>)
    ensures FnvFrom(hash, a + b) == FnvFrom(FnvFrom(hash, a), b)
    decreases |a|
  {
    if a == [] {
      assert a + b == b;
    } else {
      assert (a + b)[0] == a[0] && (a + b)[1..] == a[1..] + b;
      FnvAppend(Mix(hash, a[0]), a[1..], b);
    }
  }

  /** The step before: 899433627 is the inverse of the factor modulo 2^32. */
  function Unmix(hash: bv32, b: byte): bv32 {
    (hash * 899433627) ^ (b as bv32)
  }

  lemma FactorIsUndone(hash: bv32, b: byte)
    ensures Unmix((hash ^ (b as bv32)) * 16777619, b) == hash
  {
  }

  /** A step of the hash loses nothing. */
  lemma MixIsUndone(hash: bv32, b: byte)
    ensures Unmix(Mix(hash, b), b) == hash
  {
    FactorIsUndone(hash, b);
    var mixed := (hash ^ (b as bv32)) * 16777619;
    assert Mix(hash, b) == mixed;
  }

  /** Read the bytes backwards, undoing every step. */
  function Undo(hash: bv32, bytes: seq<byte>): bv32 {
    if bytes == [] then hash
    else Unmix(Undo(hash, bytes[1..]), bytes[0])
  }

  /** So for every text the hash determines where it started. */
  lemma {:induction false} HashIsUndone(hash: bv32, bytes: seq<byte>)
    ensures Undo(FnvFrom(hash, bytes), bytes) == hash
    decreases |bytes|
  {
    if bytes != [] {
      HashIsUndone(Mix(hash, bytes[0]), bytes[1..]);
      MixIsUndone(hash, bytes[0]);
    }
  }

  /** The published values for the empty text, for "a" and for "foobar". */
  lemma KnownHashes()
    ensures Fnv1a([]) == 0x811c9dc5
    ensures Fnv1a([0x61]) == 0xe40c292c
    ensures Fnv1a([0x66, 0x6f, 0x6f, 0x62, 0x61, 0x72]) == 0xbf9cf968
  {
  }

  method Hash(bytes: seq<byte>) returns (hash: bv32)
    ensures hash == Fnv1a(bytes)
  {
    hash := 2166136261;
    for i := 0 to |bytes|
      invariant FnvFrom(hash, bytes[i..]) == Fnv1a(bytes)
    {
      assert bytes[i..][1..] == bytes[i + 1..];
      hash := Mix(hash, bytes[i]);
    }
  }

  /** The port `d` steps after `offset`, going round the span. */
  function PortAt(offset: nat, d: nat): (port: int)
    ensures BASE <= port < BASE + SPAN
  {
    BASE + (offset + d) % SPAN
  }

  predicate FirstFree(offset: nat, d: nat) {
    !Reserved(PortAt(offset, d)) && forall e :: 0 <= e < d ==> Reserved(PortAt(offset, e))
  }

  /** Only one port of the span is reserved, so the second probe succeeds at the latest. */
  lemma NeverTwoInARow(offset: nat, d: nat)
    ensures Reserved(PortAt(offset, d)) ==> !Reserved(PortAt(offset, d + 1))
  {
  }

  /** The search loop. */
  method Probe(start: nat) returns (port: int, ghost d: nat)
    requires start < SPAN
    ensures d < SPAN && port == PortAt(start, d) && FirstFree(start, d)
  {
    NeverTwoInARow(start, 0);
    var offset := start;
    d := 0;
    while true
      invariant d <= 1 && offset == (start + d) % SPAN
      invariant d == 1 ==> Reserved(PortAt(start, 0))
      decreases 1 - d
    {
      port := BASE + offset;
      if !Reserved(port) {
        return;
      }
      offset := (offset + 1) % SPAN;
      d := d + 1;
    }
  }

  /** The search ends for every name, at the first port from the hashed one on, going round, that is
      not reserved. */
  method DefaultWebSocketPort(name: seq<byte>) returns (port: int)
    ensures 39000 <= port < 59000 && !Reserved(port)
    ensures exists d :: 0 <= d < SPAN && port == PortAt(Offset(name), d) && FirstFree(Offset(name), d)
  {
    var hash := Hash(name);
    ghost var d;
    port, d := Probe((hash as nat) % SPAN);
    assert (hash as nat) % SPAN == Offset(name);
    assert port == PortAt(Offset(name), d) && FirstFree(Offset(name), d);
  }

  /** It is the hashed port itself, except that 50443 is passed over. */
  lemma FirstFreeIs(offset: nat, d: nat)
    requires offset < SPAN && d < SPAN && FirstFree(offset, d)
    ensures PortAt(offset, d) == if BASE + offset == 50443 then 50444 else BASE + offset
  {
    NeverTwoInARow(offset, 0);
    var first, second := PortAt(offset, 0), PortAt(offset, 1);
    assert (d > 0 ==> Reserved(first)) && (d > 1 ==> Reserved(second));
  }
}
