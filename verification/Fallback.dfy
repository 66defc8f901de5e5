/** The fallback chain: backends tried in order behind circuit breakers, with the
usage of every backend called carried into the final result. */
module Fallback {
  import opened Common
  import opened Usages
  import Breaker

  /** What one backend's stream comes back with. */
  datatype Reply =
    | Completed(usage: Usage, hasContent: bool, refused: bool)
    | Errored(usage: Usage, eligible: bool, affectsHealth: bool)

  /** One link of the chain as one request meets it: the instants of its breaker calls,
      whether the operation still has a send, and the backend's reply. */
  datatype Link = Link(checkedAt: nat, recordedAt: nat, available: bool, reply: Reply)

  datatype Answer =
    | Completion(usage: Usage, backend: nat)
    | BreakerOpen(usage: Usage)
    | Exhausted(usage: Usage)
    | BackendError(usage: Usage, backend: nat)
    | ChainExhausted(usage: Usage)

  // ---- what one request does -----------------------------------------------

  datatype Visit = Skipped | Unaffordable | Called(reply: Reply)

  /** The reply that makes the chain try the next backend. */
  predicate FallsThrough(r: Reply) {
    match r
    case Completed(_, hasContent, refused) => !hasContent && !refused
    case Errored(_, eligible, _) => eligible
  }

  predicate Healthy(r: Reply) { r.Completed? || !r.affectsHealth }

  function VisitOf(c: Breaker.Config, b: Breaker.Inner, link: Link): Visit {
    if !Breaker.Check(c, b, link.checkedAt).1 then Skipped
    else if !link.available then Unaffordable
    else Called(link.reply)
  }

  predicate Ends(v: Visit) { v.Unaffordable? || (v.Called? && !FallsThrough(v.reply)) }

  /** The backends visited, from the `i`th on. */
  function Visits(c: Breaker.Config, bs: seq<Breaker.Inner>, links: seq<Link>, i: nat): (vs: seq<Visit>)
    requires |bs| == |links| && i <= |links|
    ensures |vs| <= |links| - i && (vs == [] ==> i == |links|)
    decreases |links| - i
  {
    if i == |links| then []
    else
      var v := VisitOf(c, bs[i], links[i]);
      [v] + if Ends(v) then [] else Visits(c, bs, links, i + 1)
  }

  /** The chain goes on after a visit exactly if the visit does not end it and a backend
      is left. */
  lemma {:induction false} VisitAt(c: Breaker.Config, bs: seq<Breaker.Inner>, links: seq<Link>, i: nat, k: nat)
    requires |bs| == |links| && i <= |links| && k < |Visits(c, bs, links, i)|
    ensures var vs := Visits(c, bs, links, i);
            vs[k] == VisitOf(c, bs[i + k], links[i + k]) && (k + 1 == |vs| <==> Ends(vs[k]) || i + k + 1 == |links|)
    decreases k
  {
    if k > 0 {
      VisitAt(c, bs, links, i + 1, k - 1);
    }
  }

  /** Each visit is what its backend and link make of it, and the last one is the first that
      ends the chain or exhausts it. */
  ghost predicate AreVisits(c: Breaker.Config, bs: seq<Breaker.Inner>, links: seq<Link>, vs: seq<Visit>)
    requires |bs| == |links|
  {
    && |vs| <= |links| && (vs == [] ==> links == [])
    && forall k | 0 <= k < |vs| :: vs[k] == VisitOf(c, bs[k], links[k]) && (k + 1 == |vs| <==> Ends(vs[k]) || k + 1 == |links|)
  }

  lemma VisitsAreVisits(c: Breaker.Config, bs: seq<Breaker.Inner>, links: seq<Link>)
    requires |bs| == |links|
    ensures AreVisits(c, bs, links, Visits(c, bs, links, 0))
  {
    var vs := Visits(c, bs, links, 0);
    forall k | 0 <= k < |vs|
      ensures vs[k] == VisitOf(c, bs[k], links[k]) && (k + 1 == |vs| <==> Ends(vs[k]) || k + 1 == |links|)
    {
      VisitAt(c, bs, links, 0, k);
    }
  }

  /** This link does not answer: its breaker refused the request, or the operation had a
      send and the backend completed with neither content nor a refusal, or failed with an
      error that allows the next backend. */
  predicate PassesOn(c: Breaker.Config, b: Breaker.Inner, link: Link) {
    || !Breaker.Check(c, b, link.checkedAt).1
    || (link.available
        && match link.reply
           case Completed(_, hasContent, refused) => !hasContent && !refused
           case Errored(_, eligible, _) => eligible)
  }

  /** A backend is visited if and only if none before it answers. */
  lemma {:induction false} VisitedIff(c: Breaker.Config, bs: seq<Breaker.Inner>, links: seq<Link>, i: nat, n: nat)
    requires |bs| == |links| && i <= n && i <= |links|
    ensures n < i + |Visits(c, bs, links, i)| <==> n < |links| && forall k | i <= k < n :: PassesOn(c, bs[k], links[k])
    decreases n - i
  {
    if i < n && i < |links| {
      VisitedIff(c, bs, links, i + 1, n);
      assert Ends(VisitOf(c, bs[i], links[i])) <==> !PassesOn(c, bs[i], links[i]);
    }
  }

  /** The usages of the backends actually called. */
  function Billed(vs: seq<Visit>): seq<Usage> {
    if vs == [] then []
    else
      var v := vs[|vs| - 1];
      Billed(vs[..|vs| - 1]) + Bill(v)
  }

  /** A visited breaker is checked; a called backend is recorded exactly once. */
  function BreakerAfter(c: Breaker.Config, b: Breaker.Inner, link: Link, v: Visit): Breaker.Inner {
    var checked := Breaker.Check(c, b, link.checkedAt).0;
    if v.Called? then Breaker.Record(c, checked, Healthy(v.reply), link.recordedAt) else checked
  }

  // ---- what a request does to a breaker's history --------------------------

  function PastAfter(c: Breaker.Config, h: Breaker.History, link: Link): Breaker.History {
    var checked := Breaker.Do(c, h, Breaker.CheckAt(link.checkedAt));
    if VisitOf(c, h.b, link).Called? then Breaker.Do(c, checked, Breaker.RecordAt(link.recordedAt, Healthy(link.reply)))
    else checked
  }

  /** A request whose instants go on from the breaker's keeps its history true, so every
      fact about breakers holds of a chain over any number of requests. */
  lemma PastKeeps(c: Breaker.Config, h: Breaker.History, link: Link)
    requires Breaker.Inv(c, h) && h.now <= link.checkedAt <= link.recordedAt
    ensures Breaker.Inv(c, PastAfter(c, h, link))
    ensures PastAfter(c, h, link).b == BreakerAfter(c, h.b, link, VisitOf(c, h.b, link))
    ensures PastAfter(c, h, link).now <= link.recordedAt
  {
    var check := Breaker.CheckAt(link.checkedAt);
    Breaker.CheckKeepsInv(c, h, check);
    if VisitOf(c, h.b, link).Called? {
      Breaker.RecordRefines(c, Breaker.Do(c, h, check), Breaker.RecordAt(link.recordedAt, Healthy(link.reply)));
    }
  }

  /** A granted check is matched by a record of the same visit if and only if the
      operation still has a send. The record is a success unless the backend failed with
      an error that tells of its health. */
  lemma GrantRecordedIff(c: Breaker.Config, h: Breaker.History, link: Link)
    requires Breaker.Check(c, h.b, link.checkedAt).1
    ensures |PastAfter(c, h, link).log| == |h.log| + 1 <==> link.available
    ensures !link.available ==> PastAfter(c, h, link).log == h.log
    ensures link.available ==>
              var sample := PastAfter(c, h, link).log[|h.log|].sample;
              sample.at == link.recordedAt && (sample.ok <==> !(link.reply.Errored? && link.reply.affectsHealth))
  {
  }

  /** A probe granted to an operation without a send stays out: the breaker is left
      half-open from that instant, and once all slots are taken, checks without a record
      are refused until exactly the probe timeout after it. */
  lemma {:induction false} UnrecordedProbeBlocks(c: Breaker.Config, h: Breaker.History, link: Link, calls: seq<Breaker.Call>, now: nat)
    requires Breaker.Inv(c, h) && h.now <= link.checkedAt && !link.available
    requires Breaker.Check(c, h.b, link.checkedAt).1 && Breaker.Check(c, h.b, link.checkedAt).0.status.HalfOpen?
    ensures var t := PastAfter(c, h, link);
            && t.b == BreakerAfter(c, h.b, link, VisitOf(c, h.b, link))
            && t.b.status.HalfOpen? && t.b.grantedAt == Some(link.checkedAt)
            && (t.b.probes == c.maxProbes && now >= link.checkedAt ==>
                  (Breaker.Check(c, t.b, now).1 <==> now >= link.checkedAt + c.probeTimeout))
    ensures var t := PastAfter(c, h, link);
            t.b.probes == c.maxProbes
            && (forall i | 0 <= i < |calls| ::
                  calls[i].CheckAt? && link.checkedAt <= calls[i].now < link.checkedAt + c.probeTimeout)
            ==> Breaker.Grants(c, t, calls) == 0 && Breaker.After(c, t, calls).b == t.b
  {
    var t := PastAfter(c, h, link);
    if t.b.probes == c.maxProbes
       && forall i | 0 <= i < |calls| :: calls[i].CheckAt? && link.checkedAt <= calls[i].now < link.checkedAt + c.probeTimeout {
      Breaker.NoGrantWhileProbing(c, t, calls);
    }
  }

  // ---- usage ---------------------------------------------------------------

  /** A completion that took in the usage of earlier attempts. */
  function Folded(winner: Usage, prior: Usage): Usage {
    if prior.IsZero() then winner
    else winner.Add(prior).(contextOccupancy := winner.contextOccupancy, inputIncludesCache := winner.inputIncludesCache,
                            rateLimits := Or(winner.rateLimits, prior.rateLimits))
  }

  lemma FoldedConserves(winner: Usage, prior: Usage, calls: seq<Usage>)
    requires Conserves(prior, calls) && winner.Representable()
    ensures Conserves(Folded(winner, prior), calls + [winner])
  {
    if prior.IsZero() {
      ZeroPrior(prior, calls, winner);
    } else {
      AddConserves(prior, calls, winner);
      assert forall f :: Folded(winner, prior).At(f) == winner.Add(prior).At(f);
    }
  }

  /** The mark that usage was estimated survives folding exactly unless earlier attempts
      were estimated at no tokens at all and the winner was not estimated; the rate
      limits exactly unless only such attempts carried any. */
  lemma MarksKeptIff(winner: Usage, prior: Usage)
    ensures Folded(winner, prior).estimated == (winner.estimated || prior.estimated)
            <==> !((forall f :: prior.At(f) == 0) && prior.estimated && !winner.estimated)
    ensures Folded(winner, prior).rateLimits == Or(winner.rateLimits, prior.rateLimits)
            <==> !((forall f :: prior.At(f) == 0) && prior.rateLimits.Some? && winner.rateLimits.None?)
  {
    ZeroIff(prior);
  }

  function Carry(prior: Usage, v: Visit): Usage { if v.Called? then prior.Add(v.reply.usage) else prior }

  /** The usage carried past these visits. */
  function Carried(vs: seq<Visit>): Usage {
    if vs == [] then NONE else Carry(Carried(vs[..|vs| - 1]), vs[|vs| - 1])
  }

  /** The usage of the answer that visit `v` gives. */
  function FinalUsage(prior: Usage, v: Visit, last: bool): Usage {
    if v.Called? && v.reply.Completed? then Folded(v.reply.usage, prior)
    else if v.Called? && last && Carry(prior, v).IsZero() then v.reply.usage
    else Carry(prior, v)
  }

  predicate Estimated(v: Visit) { v.Called? && v.reply.usage.estimated }

  ghost predicate Billable(v: Visit) { v.Called? && exists f :: v.reply.usage.At(f) > 0 }

  /** The latest rate-limit snapshot of these visits. */
  function LatestLimits(vs: seq<Visit>): Option<string> {
    if vs == [] then None
    else
      var v := vs[|vs| - 1];
      if v.Called? && v.reply.usage.rateLimits.Some? then v.reply.usage.rateLimits else LatestLimits(vs[..|vs| - 1])
  }

  lemma {:induction false} CarriedMarks(vs: seq<Visit>)
    ensures Carried(vs).estimated <==> exists i | 0 <= i < |vs| :: Estimated(vs[i])
    ensures !Carried(vs).IsZero() <==> exists i | 0 <= i < |vs| :: Billable(vs[i])
    ensures Carried(vs).rateLimits == LatestLimits(vs)
  {
    if vs != [] {
      var front, v := vs[..|vs| - 1], vs[|vs| - 1];
      CarriedMarks(front);
      assert forall i | 0 <= i < |front| :: vs[i] == front[i];
      assert Estimated(v) ==> Estimated(vs[|vs| - 1]);
      assert Billable(v) ==> Billable(vs[|vs| - 1]);
      if v.Called? {
        ZeroIff(v.reply.usage);
      }
    }
  }

  /** The marks of a completion, told by the visits: it is estimated if the winner was, or
      if some earlier attempt was and some earlier attempt used tokens; its rate limits
      are the winner's, else the latest earlier ones, provided some earlier attempt used
      tokens. */
  lemma CompletionMarks(vs: seq<Visit>, winner: Usage, last: bool)
    requires vs != [] && vs[|vs| - 1].Called? && vs[|vs| - 1].reply.Completed? && vs[|vs| - 1].reply.usage == winner
    ensures var k := |vs| - 1;
            var u := FinalUsage(Carried(vs[..k]), vs[k], last);
            && (u.estimated <==> winner.estimated || ((exists i | 0 <= i < k :: Estimated(vs[i])) && (exists i | 0 <= i < k :: Billable(vs[i]))))
            && u.rateLimits == (if winner.rateLimits.Some? then winner.rateLimits
                                else if exists i | 0 <= i < k :: Billable(vs[i]) then LatestLimits(vs[..k]) else None)
  {
    var k := |vs| - 1;
    var front := vs[..k];
    CarriedMarks(front);
    assert forall i | 0 <= i < k :: front[i] == vs[i];
  }

  function Bill(v: Visit): seq<Usage> { if v.Called? then [v.reply.usage] else [] }

  lemma BilledNext(vs: seq<Visit>, i: nat)
    requires i < |vs|
    ensures Billed(vs[..i + 1]) == Billed(vs[..i]) + Bill(vs[i])
  {
    assert vs[..i + 1][..i] == vs[..i];
  }

  /** The answer of the visit that ended the chain: a completion from a backend that
      produced output or was the last one, or the error of that visit. */
  ghost predicate Answers(a: Answer, v: Visit, k: nat, last: bool) {
    match v
    case Skipped => a.BreakerOpen? && last
    case Unaffordable => a.Exhausted?
    case Called(Completed(u, hasContent, refused)) =>
      && a.Completion? && a.backend == k && (hasContent || refused || last)
      && a.usage.contextOccupancy == u.contextOccupancy && a.usage.inputIncludesCache == u.inputIncludesCache
    case Called(Errored(_, eligible, _)) => a.BackendError? && a.backend == k && (!eligible || last)
  }

  /** The answer to a request that made these visits: it is the last visit's, with exactly
      the usage carried to it, and every token field is the saturating sum over the
      backends called. Only an empty chain answers without a visit. */
  ghost predicate Served(a: Answer, vs: seq<Visit>, length: nat) {
    && (a.ChainExhausted? <==> length == 0) && (vs == [] <==> length == 0)
    && Conserves(a.usage, Billed(vs))
    && (vs != [] ==>
          var k := |vs| - 1;
          Answers(a, vs[k], k, |vs| == length) && a.usage == FinalUsage(Carried(vs[..k]), vs[k], |vs| == length))
  }

  /** The usages of the called ones among the first `n` backends: their breakers let the
      request through and the operation had a send. */
  function CalledUsages(c: Breaker.Config, bs: seq<Breaker.Inner>, links: seq<Link>, n: nat): seq<Usage>
    requires n <= |bs| == |links|
  {
    if n == 0 then []
    else
      CalledUsages(c, bs, links, n - 1)
      + if Breaker.Check(c, bs[n - 1], links[n - 1].checkedAt).1 && links[n - 1].available then [links[n - 1].reply.usage] else []
  }

  lemma {:induction false} BilledIs(c: Breaker.Config, bs: seq<Breaker.Inner>, links: seq<Link>, vs: seq<Visit>, n: nat)
    requires |bs| == |links| && n <= |vs| && AreVisits(c, bs, links, vs)
    ensures Billed(vs[..n]) == CalledUsages(c, bs, links, n)
  {
    if n > 0 {
      BilledIs(c, bs, links, vs, n - 1);
      BilledNext(vs, n - 1);
    }
  }

  /** What the answer comes from, told on the links alone: the first backend that does not
      pass the request on, or the last one. */
  ghost predicate AnsweredBy(c: Breaker.Config, bs: seq<Breaker.Inner>, links: seq<Link>, k: nat, a: Answer)
    requires |bs| == |links|
  {
    && k < |links| && (forall i | 0 <= i < k :: PassesOn(c, bs[i], links[i]))
    && (k + 1 == |links| || !PassesOn(c, bs[k], links[k]))
    && Conserves(a.usage, CalledUsages(c, bs, links, k + 1))
    && if !Breaker.Check(c, bs[k], links[k].checkedAt).1 then a.BreakerOpen?
       else if !links[k].available then a.Exhausted?
       else if links[k].reply.Completed? then a.Completion? && a.backend == k
       else a.BackendError? && a.backend == k
  }

  /** A request through a chain is answered by the first backend that does not pass it on,
      or else by the last. */
  lemma ServedBy(c: Breaker.Config, bs: seq<Breaker.Inner>, links: seq<Link>, a: Answer) returns (k: nat)
    requires |bs| == |links| > 0 && Served(a, Visits(c, bs, links, 0), |links|)
    ensures AnsweredBy(c, bs, links, k, a)
  {
    var vs := Visits(c, bs, links, 0);
    k := |vs| - 1;
    VisitsAreVisits(c, bs, links);
    BilledIs(c, bs, links, vs, |vs|);
    assert vs[..|vs|] == vs;
    VisitedIff(c, bs, links, 0, k);
    VisitedIff(c, bs, links, 0, k + 1);
  }

  /** The breakers after the first `i` visits. */
  ghost predicate VisitedUpTo(c: Breaker.Config, now: seq<Breaker.Inner>, was: seq<Breaker.Inner>, links: seq<Link>, vs: seq<Visit>, i: nat) {
    && |now| == |was| == |links| && i <= |vs| <= |links|
    && forall j | 0 <= j < |links| :: now[j] == if j < i then BreakerAfter(c, was[j], links[j], vs[j]) else was[j]
  }

  lemma VisitedNext(c: Breaker.Config, now: seq<Breaker.Inner>, was: seq<Breaker.Inner>, links: seq<Link>, vs: seq<Visit>, i: nat)
    requires i < |vs| && VisitedUpTo(c, now, was, links, vs, i)
    ensures now[i] == was[i]
    ensures VisitedUpTo(c, now[i := BreakerAfter(c, was[i], links[i], vs[i])], was, links, vs, i + 1)
  {
  }

  /** Every instant of the request is at or after those the breakers have seen. */
  ghost predicate GoesOn(pasts: seq<Breaker.History>, links: seq<Link>) {
    |pasts| == |links| && forall i | 0 <= i < |links| :: pasts[i].now <= links[i].checkedAt <= links[i].recordedAt
  }

  /** The histories after a request that visited the first `n` backends. */
  ghost function PastsAfter(c: Breaker.Config, pasts: seq<Breaker.History>, links: seq<Link>, n: nat): (r: seq<Breaker.History>)
    requires |pasts| == |links|
    ensures |r| == |pasts|
  {
    seq(|pasts|, j requires 0 <= j < |pasts| => if j < n then PastAfter(c, pasts[j], links[j]) else pasts[j])
  }

  /** The breakers have these histories. */
  ghost predicate Remembered(c: Breaker.Config, breakers: seq<Breaker.Inner>, pasts: seq<Breaker.History>) {
    && |pasts| == |breakers|
    && forall i | 0 <= i < |pasts| :: pasts[i].b == breakers[i] && Breaker.Inv(c, pasts[i])
  }

  lemma ChainRemembers(c: Breaker.Config, now: seq<Breaker.Inner>, was: seq<Breaker.Inner>, pasts: seq<Breaker.History>, links: seq<Link>, vs: seq<Visit>)
    requires |was| == |links| && Remembered(c, was, pasts) && GoesOn(pasts, links)
    requires AreVisits(c, was, links, vs) && VisitedUpTo(c, now, was, links, vs, |vs|)
    ensures Remembered(c, now, PastsAfter(c, pasts, links, |vs|))
  {
    var after := PastsAfter(c, pasts, links, |vs|);
    forall j | 0 <= j < |links| ensures after[j].b == now[j] && Breaker.Inv(c, after[j]) {
      assert pasts[j].b == was[j];
      if j < |vs| {
        VisitRemembers(c, now[j], was[j], pasts[j], links[j]);
      }
    }
  }

  lemma VisitRemembers(c: Breaker.Config, now: Breaker.Inner, was: Breaker.Inner, past: Breaker.History, link: Link)
    requires past.b == was && Breaker.Inv(c, past) && past.now <= link.checkedAt <= link.recordedAt
    requires now == BreakerAfter(c, was, link, VisitOf(c, was, link))
    ensures PastAfter(c, past, link).b == now && Breaker.Inv(c, PastAfter(c, past, link))
  {
    PastKeeps(c, past, link);
  }

  lemma CarriedNext(vs: seq<Visit>, i: nat)
    requires i < |vs|
    ensures Carried(vs[..i + 1]) == Carry(Carried(vs[..i]), vs[i])
  {
    assert vs[..i + 1][..i] == vs[..i];
  }

  class FallbackProvider {
    const config: Breaker.Config
    var breakers: seq<Breaker.Inner>
    /** Everything each breaker was ever told. */
    ghost var pasts: seq<Breaker.History>

    ghost predicate Valid()
      reads this
    {
      Remembered(config, breakers, pasts)
    }

    constructor (config: Breaker.Config, length: nat)
      ensures Valid() && this.config == config
      ensures breakers == seq(length, _ => Breaker.NEW) && pasts == seq(length, _ => Breaker.BEGIN)
    {
      this.config := config;
      breakers := seq(length, _ => Breaker.NEW);
      pasts := seq(length, _ => Breaker.BEGIN);
    }

    /** A chain must not be empty. */
    static method Build(config: Breaker.Config, length: nat) returns (r: Option<FallbackProvider>)
      ensures r.Some? <==> length > 0
      ensures r.Some? ==> && fresh(r.value) && r.value.Valid() && r.value.config == config
                          && r.value.breakers == seq(length, _ => Breaker.NEW)
    {
      if length == 0 {
        return None;
      }
      var provider := new FallbackProvider(config, length);
      r := Some(provider);
    }

    /** One pass of the loop: the answer, or the usage to carry on. */
    method TryBackend(i: nat, link: Link, last: bool, prior: Usage, ghost calls: seq<Usage>)
      returns (carried: Usage, answer: Option<Answer>)
      requires i < |breakers|
      requires link.reply.usage.Representable() && Conserves(prior, calls)
      modifies this`breakers
      ensures var v := VisitOf(config, old(breakers)[i], link);
              && breakers == old(breakers)[i := BreakerAfter(config, old(breakers)[i], link, v)]
              && (answer.Some? <==> Ends(v) || last)
              && (answer.Some? ==> Answers(answer.value, v, i, last) && answer.value.usage == FinalUsage(prior, v, last))
              && (answer.None? ==> carried == Carry(prior, v))
              && Conserves(if answer.Some? then answer.value.usage else carried, calls + Bill(v))
    {
      carried := prior;
      assert calls + [] == calls;
      var (checked, allowed) := Breaker.Check(config, breakers[i], link.checkedAt);
      breakers := breakers[i := checked];
      if !allowed {
        answer := if last then Some(BreakerOpen(prior)) else None;
        return;
      }
      if !link.available {
        return carried, Some(Exhausted(prior));
      }
      var reply := link.reply;
      breakers := breakers[i := Breaker.Record(config, breakers[i], Healthy(reply), link.recordedAt)];
      if reply.Completed? && (reply.hasContent || reply.refused || last) {
        FoldedConserves(reply.usage, prior, calls);
        return carried, Some(Completion(Folded(reply.usage, prior), i));
      }
      AddConserves(prior, calls, reply.usage);
      carried := prior.Add(reply.usage);
      if reply.Completed? || (reply.eligible && !last) {
        return carried, None;
      }
      if last && carried.IsZero() {
        assert forall f :: carried.At(f) == 0 && SatAdd(prior.At(f), reply.usage.At(f)) == carried.At(f);
        return carried, Some(BackendError(reply.usage, i));
      }
      answer := Some(BackendError(carried, i));
    }

    /** The loop over the chain; `vs` are its visits. */
    method TryChain(links: seq<Link>, ghost vs: seq<Visit>) returns (a: Answer)
      requires |links| == |breakers| && AreVisits(config, breakers, links, vs)
      requires forall i | 0 <= i < |links| :: links[i].reply.usage.Representable()
      modifies this`breakers
      ensures Served(a, vs, |links|) && VisitedUpTo(config, breakers, old(breakers), links, vs, |vs|)
    {
      var prior := NONE;
      var i := 0;
      ghost var bs := breakers;
      while i < |links|
        invariant i <= |vs| <= |links| == |breakers| && (links != [] ==> i < |vs|)
        invariant prior == Carried(vs[..i]) && Conserves(prior, Billed(vs[..i]))
        invariant VisitedUpTo(config, breakers, bs, links, vs, i)
        decreases |links| - i
      {
        BilledNext(vs, i);
        CarriedNext(vs, i);
        VisitedNext(config, breakers, bs, links, vs, i);
        assert vs[..|vs|] == vs;
        var answer: Option<Answer>;
        prior, answer := TryBackend(i, links[i], i == |links| - 1, prior, Billed(vs[..i]));
        if answer.Some? {
          return answer.value;
        }
        i := i + 1;
      }
      NoneConserves();
      a := ChainExhausted(NONE);
    }

    /** One request through the chain. On any chain that can be built it answers inside
        the loop; every token field of the answer, completion or error, is the
        saturating sum over the backends actually called; each visited breaker is
        checked and each called backend recorded once; the rest is untouched, and every
        breaker's history stays true. */
    method Stream(links: seq<Link>) returns (a: Answer)
      requires Valid() && |links| == |breakers| && GoesOn(pasts, links)
      requires forall i | 0 <= i < |links| :: links[i].reply.usage.Representable()
      modifies this
      ensures Valid()
      ensures var vs := Visits(config, old(breakers), links, 0);
              && Served(a, vs, |links|)
              && VisitedUpTo(config, breakers, old(breakers), links, vs, |vs|)
              && pasts == PastsAfter(config, old(pasts), links, |vs|)
      ensures links != [] ==> exists k :: AnsweredBy(config, old(breakers), links, k, a)
    {
      ghost var bs := breakers;
      VisitsAreVisits(config, bs, links);
      a := TryChain(links, Visits(config, bs, links, 0));
      if links != [] {
        ghost var k := ServedBy(config, bs, links, a);
      }
      ChainRemembers(config, breakers, bs, pasts, links, Visits(config, bs, links, 0));
      pasts := PastsAfter(config, pasts, links, |Visits(config, bs, links, 0)|);
    }
  }
}
