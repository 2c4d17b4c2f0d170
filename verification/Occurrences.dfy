/** The order in which things occur for the first time. */
module Occurrences {

  /** The first position of `x`, or the length. */
  function FirstAt<T(==)>(s: seq<T>, x: T): (i: nat)
    ensures i <= |s| && x !in s[..i] && (i < |s| ==> s[i] == x)
    ensures i < |s| <==> x in s
  {
    if s == [] || s[0] == x then 0 else 1 + FirstAt(s[1..], x)
  }

  /** `t` has its elements in the order in which they first occur in `s`. */
  ghost predicate InOrderOf<T>(t: seq<T>, s: seq<T>) {
    forall i, j :: 0 <= i < j < |t| ==> FirstAt(s, t[i]) < FirstAt(s, t[j])
  }

  lemma {:induction false} FirstAtStays<T>(s: seq<T>, x: T, y: T)
    ensures y in s ==> FirstAt(s + [x], y) == FirstAt(s, y)
    ensures y !in s ==> FirstAt(s + [x], y) >= |s|
    decreases |s|
  {
    if s != [] {
      assert (s + [x])[0] == s[0] && (s + [x])[1..] == s[1..] + [x];
      FirstAtStays(s[1..], x, y);
    }
  }

  /** `t` has the elements of `s`, each once, in the order in which they first occur. */
  ghost predicate AreFirsts<T(!new)>(t: seq<T>, s: seq<T>) {
    (forall x :: x in t <==> x in s) && InOrderOf(t, s)
  }

  /** The same, unfolded only where `FirstsMean` asks for it. */
  ghost predicate Firsts<T(!new)>(t: seq<T>, s: seq<T>) {
    forall l {:trigger AreFirsts(t, l)} :: l == s ==> AreFirsts(t, l)
  }

  lemma FirstsMean<T(!new)>(t: seq<T>, s: seq<T>)
    ensures Firsts(t, s) <==> AreFirsts(t, s)
    ensures Firsts(t, s) ==> forall i, j :: 0 <= i < j < |t| ==> t[i] != t[j]
  {
  }

  lemma NoFirsts<T(!new)>()
    ensures Firsts<T>([], [])
  {
    assert AreFirsts<T>([], []);
  }

  lemma InOrderGrows<T>(t: seq<T>, s: seq<T>, x: T)
    requires InOrderOf(t, s) && forall y <- t :: y in s
    ensures InOrderOf(t, s + [x]) && (x !in s ==> InOrderOf(t + [x], s + [x]))
  {
    forall y ensures y in s ==> FirstAt(s + [x], y) == FirstAt(s, y) {
      FirstAtStays(s, x, y);
    }
    FirstAtStays(s, x, x);
    assert forall i :: 0 <= i < |t| ==> t[i] in s;
  }

  /** What occurs again changes nothing, and what occurs for the first time comes last. */
  lemma OneMoreOccurs<T(!new)>(t: seq<T>, s: seq<T>, x: T)
    requires Firsts(t, s)
    ensures x in t <==> x in s
    ensures Firsts(if x in t then t else t + [x], s + [x])
  {
    FirstsMean(t, s);
    InOrderGrows(t, s, x);
    assert AreFirsts(if x in t then t else t + [x], s + [x]);
  }
}
