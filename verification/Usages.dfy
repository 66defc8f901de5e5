/** Token usage with saturating totals, and what it means for folded usage to be
conserved. */
module Usages {
  import opened Common

  datatype Field = InputTokens | OutputTokens | CacheReadTokens | CacheCreationTokens

  datatype Usage = Usage(
    input: nat,
    output: nat,
    cacheRead: nat,
    cacheCreation: nat,
    contextOccupancy: nat,
    inputIncludesCache: bool,
    rateLimits: Option<string>,
    estimated: bool)
  {
    function At(f: Field): nat {
      match f
      case InputTokens => input
      case OutputTokens => output
      case CacheReadTokens => cacheRead
      case CacheCreationTokens => cacheCreation
    }

    predicate IsZero() { input == 0 && output == 0 && cacheRead == 0 && cacheCreation == 0 }

    /** Every count fits 64 bits. */
    predicate Representable() {
      input <= U64_MAX && output <= U64_MAX && cacheRead <= U64_MAX && cacheCreation <= U64_MAX
    }

    /** Counts add up; the latest rate-limit snapshot stays; the rest is the receiver's. */
    function Add(other: Usage): Usage {
      this.(input := SatAdd(input, other.input), output := SatAdd(output, other.output),
            cacheRead := SatAdd(cacheRead, other.cacheRead), cacheCreation := SatAdd(cacheCreation, other.cacheCreation),
            rateLimits := if other.rateLimits.Some? then other.rateLimits else rateLimits,
            estimated := estimated || other.estimated)
    }
  }

  const NONE: Usage := Usage(0, 0, 0, 0, 0, false, None, false)

  function SatAdd(a: nat, b: nat): nat { Min(a + b, U64_MAX) }

  function Or<T>(first: Option<T>, second: Option<T>): Option<T> { if first.Some? then first else second }

  function Count(f: Field): Usage -> nat { (u: Usage) => u.At(f) }

  /** Each token field of `u` is the saturating sum over all of `calls`. */
  ghost predicate Conserves(u: Usage, calls: seq<Usage>) {
    forall f :: u.At(f) == Min(SumBy(calls, Count(f)), U64_MAX)
  }

  /** No tokens means none in any field. */
  lemma ZeroIff(u: Usage)
    ensures u.IsZero() <==> forall f :: u.At(f) == 0
  {
    assert u.At(InputTokens) == u.input && u.At(OutputTokens) == u.output;
    assert u.At(CacheReadTokens) == u.cacheRead && u.At(CacheCreationTokens) == u.cacheCreation;
  }

  lemma NoneConserves()
    ensures Conserves(NONE, [])
  {
  }

  lemma AddAt(u: Usage, x: Usage, f: Field)
    ensures u.Add(x).At(f) == SatAdd(u.At(f), x.At(f)) == x.Add(u).At(f)
  {
  }

  /** Folding one more call in, on either side, conserves. */
  lemma AddConserves(u: Usage, calls: seq<Usage>, x: Usage)
    requires Conserves(u, calls)
    ensures Conserves(u.Add(x), calls + [x]) && Conserves(x.Add(u), calls + [x])
  {
    forall f ensures u.Add(x).At(f) == Min(SumBy(calls + [x], Count(f)), U64_MAX) == x.Add(u).At(f) {
      AddAt(u, x, f);
      SumByAppend(calls, x, Count(f));
    }
  }

  /** A total of zero bills nothing, so the last call alone stands for all of them. */
  lemma ZeroPrior(u: Usage, calls: seq<Usage>, x: Usage)
    requires Conserves(u, calls) && u.IsZero() && x.Representable()
    ensures Conserves(x, calls + [x])
  {
    forall f ensures x.At(f) == Min(SumBy(calls + [x], Count(f)), U64_MAX) {
      assert u.At(f) == 0;
      SumByAppend(calls, x, Count(f));
    }
  }

  /** The order of folding does not matter. */
  lemma ConservesInAnyOrder(u: Usage, v: Usage, a: seq<Usage>, b: seq<Usage>)
    requires Conserves(u, a) && Conserves(v, b) && multiset(a) == multiset(b)
    ensures forall f :: u.At(f) == v.At(f)
  {
    forall f ensures u.At(f) == v.At(f) {
      SumByPermuted(a, b, Count(f));
    }
  }
}
