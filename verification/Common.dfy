/** Shared value types, machine-integer bounds and finite sums. */
module Common {

  datatype Option<+T> = None | Some(value: T)

  datatype Result<+T, +E> = Ok(value: T) | Err(error: E)

  const U32_MAX: nat := 0xFFFF_FFFF
  const U64_MAX: nat := 0xFFFF_FFFF_FFFF_FFFF

  function Min(a: nat, b: nat): nat { if a <= b then a else b }

  function Max(a: nat, b: nat): nat { if a <= b then b else a }

  /** Saturating subtraction on the naturals. */
  function SatSub(a: nat, b: nat): nat { if a >= b then a - b else 0 }

  // ---- sums over sequences -------------------------------------------------

  ghost function SumBy<T>(s: seq<T>, f: T -> nat): nat {
    if s == [] then 0 else f(s[0]) + SumBy(s[1..], f)
  }

  lemma {:induction false} SumByAppend<T>(s: seq<T>, x: T, f: T -> nat)
    ensures SumBy(s + [x], f) == SumBy(s, f) + f(x)
  {
    if s == [] {
      assert (s + [x])[1..] == [];
    } else {
      assert (s + [x])[1..] == s[1..] + [x];
      SumByAppend(s[1..], x, f);
    }
  }

  lemma {:induction false} SumByUpdate<T>(s: seq<T>, i: nat, x: T, f: T -> nat)
    requires i < |s|
    ensures SumBy(s[i := x], f) + f(s[i]) == SumBy(s, f) + f(x)
  {
    if i == 0 {
      assert s[i := x][1..] == s[1..];
    } else {
      assert s[i := x][1..] == s[1..][i - 1 := x];
      SumByUpdate(s[1..], i - 1, x, f);
    }
  }

  /** Equal summands give equal sums, and a sum dominates each summand. */
  lemma {:induction false} SumByCongruent<S, T>(s: seq<S>, f: S -> nat, t: seq<T>, g: T -> nat)
    requires |s| == |t|
    requires forall i | 0 <= i < |s| :: f(s[i]) == g(t[i])
    ensures SumBy(s, f) == SumBy(t, g)
  {
    if s != [] {
      SumByCongruent(s[1..], f, t[1..], g);
    }
  }

  lemma {:induction false} SumByZero<T>(s: seq<T>, f: T -> nat)
    requires forall i | 0 <= i < |s| :: f(s[i]) == 0
    ensures SumBy(s, f) == 0
  {
    if s != [] {
      SumByZero(s[1..], f);
    }
  }

  lemma {:induction false} SumByMember<T>(s: seq<T>, i: nat, f: T -> nat)
    requires i < |s|
    ensures f(s[i]) <= SumBy(s, f)
  {
    if i > 0 {
      SumByMember(s[1..], i - 1, f);
    }
  }

  // ---- permutations --------------------------------------------------------

  lemma HeadMultiset<T>(s: seq<T>)
    requires s != []
    ensures multiset(s) == multiset{s[0]} + multiset(s[1..])
  {
    assert s == [s[0]] + s[1..];
  }

  lemma CutAt<T>(s: seq<T>, i: nat) returns (a: seq<T>, b: seq<T>)
    requires i < |s|
    ensures s == a + [s[i]] + b
  {
    a, b := s[..i], s[i + 1..];
  }

  /** A permutation holds the head somewhere, and the rest around it. */
  lemma Partner<T>(p: seq<T>, q: seq<T>) returns (a: seq<T>, b: seq<T>)
    requires multiset(p) == multiset(q) && p != []
    ensures q == a + [p[0]] + b && multiset(p[1..]) == multiset(a + b)
  {
    HeadMultiset(p);
    assert p[0] in multiset(q);
    var i :| 0 <= i < |q| && q[i] == p[0];
    a, b := CutAt(q, i);
    assert multiset(q) == multiset{p[0]} + multiset(a + b);
    SameRest(multiset{p[0]}, multiset(p[1..]), multiset(a + b));
  }

  lemma SameRest<T>(x: multiset<T>, y: multiset<T>, z: multiset<T>)
    requires x + y == x + z
    ensures y == z
  {
    assert y == x + y - x && z == x + z - x;
  }

  lemma {:induction false} SumByConcat<T>(a: seq<T>, b: seq<T>, f: T -> nat)
    ensures SumBy(a + b, f) == SumBy(a, f) + SumBy(b, f)
    decreases |a|
  {
    if a == [] {
      assert a + b == b;
    } else {
      assert (a + b)[0] == a[0] && (a + b)[1..] == a[1..] + b;
      SumByConcat(a[1..], b, f);
    }
  }

  /** The order of summation does not matter. */
  lemma {:induction false} SumByPermuted<T>(p: seq<T>, q: seq<T>, f: T -> nat)
    requires multiset(p) == multiset(q)
    ensures SumBy(p, f) == SumBy(q, f)
    decreases |p|
  {
    if p == [] {
      assert |multiset(q)| == 0;
    } else {
      var a, b := Partner(p, q);
      SumByPermuted(p[1..], a + b, f);
      SumByAppend(a, p[0], f);
      SumByConcat(a + [p[0]], b, f);
      SumByConcat(a, b, f);
    }
  }

  // ---- gathering -----------------------------------------------------------

  /** What `f` makes of each element, in order. */
  function Gather<S, T>(s: seq<S>, f: S -> seq<T>): seq<T> {
    if s == [] then [] else Gather(s[..|s| - 1], f) + f(s[|s| - 1])
  }

  lemma GatherLast<S, T>(a: seq<S>, x: S, f: S -> seq<T>)
    ensures Gather(a + [x], f) == Gather(a, f) + f(x)
  {
    assert (a + [x])[..|a|] == a;
  }

  lemma {:induction false} GatherConcat<S, T>(a: seq<S>, b: seq<S>, f: S -> seq<T>)
    ensures Gather(a + b, f) == Gather(a, f) + Gather(b, f)
    decreases |b|
  {
    if b == [] {
      assert a + b == a;
    } else {
      var front, x := b[..|b| - 1], b[|b| - 1];
      assert b == front + [x] && a + b == (a + front) + [x];
      GatherConcat(a, front, f);
      GatherLast(a + front, x, f);
    }
  }

  lemma MiddleMultiset<T>(u: seq<T>, v: seq<T>, w: seq<T>)
    ensures multiset(u + v + w) == multiset(v) + multiset(u + w)
  {
  }

  /** An element gathers the same wherever it stands. */
  lemma GatherMiddle<S, T>(a: seq<S>, x: S, b: seq<S>, f: S -> seq<T>)
    ensures multiset(Gather(a + [x] + b, f)) == multiset(f(x)) + multiset(Gather(a + b, f))
  {
    GatherLast(a, x, f);
    GatherConcat(a + [x], b, f);
    GatherConcat(a, b, f);
    MiddleMultiset(Gather(a, f), f(x), Gather(b, f));
  }

  lemma GatherHead<S, T>(s: seq<S>, f: S -> seq<T>)
    requires s != []
    ensures multiset(Gather(s, f)) == multiset(f(s[0])) + multiset(Gather(s[1..], f))
  {
    assert s == [] + [s[0]] + s[1..] && [] + s[1..] == s[1..];
    GatherMiddle([], s[0], s[1..], f);
  }

  /** The same elements in another order gather the same. */
  lemma {:induction false} GatherPermuted<S, T>(p: seq<S>, q: seq<S>, f: S -> seq<T>)
    requires multiset(p) == multiset(q)
    ensures multiset(Gather(p, f)) == multiset(Gather(q, f))
    decreases |p|
  {
    if p == [] {
      assert |multiset(q)| == 0;
    } else {
      var a, b := Partner(p, q);
      GatherPermuted(p[1..], a + b, f);
      GatherHead(p, f);
      GatherMiddle(a, p[0], b, f);
    }
  }

  // ---- sums over maps ------------------------------------------------------

  /** The sum of `f` over the values of a map; the key order does not matter. */
  ghost function SumOver<K, V>(m: map<K, V>, f: V -> nat): nat
    decreases |m|
  {
    if m == map[] then 0
    else
      var k :| k in m;
      f(m[k]) + SumOver(m - {k}, f)
  }

  lemma {:induction false} SumOverRemove<K, V>(m: map<K, V>, k: K, f: V -> nat)
    requires k in m
    ensures SumOver(m, f) == f(m[k]) + SumOver(m - {k}, f)
    decreases |m|
  {
    var j :| j in m && SumOver(m, f) == f(m[j]) + SumOver(m - {j}, f);
    if j != k {
      SumOverRemove(m - {j}, k, f);
      SumOverRemove(m - {k}, j, f);
      assert m - {j} - {k} == m - {k} - {j};
    }
  }

  lemma {:induction false} SumOverUpdate<K, V>(m: map<K, V>, k: K, v: V, f: V -> nat)
    ensures SumOver(m[k := v], f) == SumOver(m - {k}, f) + f(v)
    ensures k !in m ==> SumOver(m[k := v], f) == SumOver(m, f) + f(v)
    ensures k in m ==> SumOver(m[k := v], f) + f(m[k]) == SumOver(m, f) + f(v)
  {
    SumOverRemove(m[k := v], k, f);
    assert m[k := v] - {k} == m - {k};
    if k in m {
      SumOverRemove(m, k, f);
    } else {
      assert m - {k} == m;
    }
  }

  function Identity(): nat -> nat { (n: nat) => n }

  /** The total of a map of counters. */
  ghost function Total<K>(m: map<K, nat>): nat { SumOver(m, Identity()) }

  lemma TotalUpdate<K>(m: map<K, nat>, k: K, v: nat)
    ensures Total(m[k := v]) + (if k in m then m[k] else 0) == Total(m) + v
  {
    SumOverUpdate(m, k, v, Identity());
  }
}
