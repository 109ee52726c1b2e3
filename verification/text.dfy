/** Splitting a string at the first occurrence of a separator character, as
    needed to show that the strings the handlers build by joining fields with a
    separator can be taken apart again. */
module Text {

  /** Where the first `c` of `t` stands (`|t|` when there is none). */
  function IndexOf(t: string, c: char): nat
    decreases |t|
  {
    if t == [] || t[0] == c then 0 else 1 + IndexOf(t[1..], c)
  }

  /** After a prefix free of `c`, the first `c` is the separator that follows it. */
  lemma {:induction false} IndexOfAfter(e: string, c: char, s: string)
    requires c !in e
    ensures IndexOf(e + [c] + s, c) == |e|
    decreases |e|
  {
    if e != [] {
      assert (e + [c] + s)[1..] == e[1..] + [c] + s;
      IndexOfAfter(e[1..], c, s);
    }
  }

  /** Joining a `c`-free head to a tail with `c` between them can be undone. */
  lemma {:induction false} SplitUnique(e1: string, s1: string, e2: string, s2: string, c: char)
    requires c !in e1 && c !in e2
    requires e1 + [c] + s1 == e2 + [c] + s2
    ensures e1 == e2 && s1 == s2
  {
    var t := e1 + [c] + s1;
    IndexOfAfter(e1, c, s1);
    IndexOfAfter(e2, c, s2);
    assert e1 == t[..|e1|];
    assert s1 == t[|e1| + 1..];
  }

  /** `t` is the fields `a`, `b` and `d` laid end to end with a `c` between
      each two: every field can be read back at its own offset. */
  predicate Fields3(t: string, a: string, b: string, d: string, c: char)
  {
    && |t| == |a| + |b| + |d| + 2
    && t[..|a|] == a && t[|a|] == c
    && t[|a| + 1..|a| + 1 + |b|] == b && t[|a| + 1 + |b|] == c
    && t[|a| + 2 + |b|..] == d
  }

  /** Joining three fields with a separator lays them out as `Fields3` says,
      and that is the only string laid out so. */
  lemma Fields3Join(a: string, b: string, d: string, c: char)
    ensures Fields3(a + [c] + b + [c] + d, a, b, d, c)
    ensures forall t | Fields3(t, a, b, d, c) :: t == a + [c] + b + [c] + d
  {
    var j := a + [c] + b + [c] + d;
    assert j[|a| + 1..|a| + 1 + |b|] == b;
    forall t | Fields3(t, a, b, d, c)
      ensures t == j
    {
      assert t == t[..|a|] + [t[|a|]] + t[|a| + 1..|a| + 1 + |b|] + [t[|a| + 1 + |b|]] + t[|a| + 2 + |b|..];
    }
  }

  /** A string has at most one `c`-free head that is followed by `c`. */
  lemma HeadUnique(t: string, a1: string, a2: string, c: char)
    requires c !in a1 && c !in a2
    requires |a1| < |t| && t[..|a1|] == a1 && t[|a1|] == c
    requires |a2| < |t| && t[..|a2|] == a2 && t[|a2|] == c
    ensures a1 == a2
  {
    assert t == a1 + [c] + t[|a1| + 1..];
    assert t == a2 + [c] + t[|a2| + 1..];
    IndexOfAfter(a1, c, t[|a1| + 1..]);
    IndexOfAfter(a2, c, t[|a2| + 1..]);
  }
}
