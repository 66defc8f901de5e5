/** The mixture-of-agents route: one private reference call, then the aggregator, on
one shared allowance of sends. */
module Moa {
  import opened Common
  import opened Usages
  import Attempts

  /** A routed stream's result with the usage it reports. */
  datatype Routed = Completed(usage: Usage) | Errored(usage: Usage)

  datatype Answer =
    | TooManyReferences
    | Refused(error: Attempts.PlanError)
    | Completion(usage: Usage)
    | Failure(usage: Usage)

  /** The aggregate takes in the reference call; its own context size, cache convention
      and rate limits stand. */
  function WithReference(aggregate: Usage, reference: Usage): (u: Usage)
    ensures forall f :: u.At(f) == SatAdd(aggregate.At(f), reference.At(f))
    ensures u.contextOccupancy == aggregate.contextOccupancy && u.inputIncludesCache == aggregate.inputIncludesCache
    ensures u.estimated <==> aggregate.estimated || reference.estimated
    ensures u.rateLimits == if aggregate.rateLimits.Some? then aggregate.rateLimits else reference.rateLimits
  {
    Usage(SatAdd(aggregate.input, reference.input), SatAdd(aggregate.output, reference.output),
          SatAdd(aggregate.cacheRead, reference.cacheRead), SatAdd(aggregate.cacheCreation, reference.cacheCreation),
          aggregate.contextOccupancy, aggregate.inputIncludesCache,
          Or(aggregate.rateLimits, reference.rateLimits), aggregate.estimated || reference.estimated)
  }

  /** Both routes to the answer bill both calls; the reference is left out only when
      it used nothing. */
  lemma ReferenceIsBilled(aggregate: Usage, reference: Usage)
    requires aggregate.Representable() && reference.Representable()
    ensures Conserves(WithReference(aggregate, reference), [reference, aggregate])
    ensures reference.IsZero() ==> Conserves(aggregate, [reference, aggregate])
  {
    assert [reference, aggregate] == ([] + [reference]) + [aggregate];
    NoneConserves();
    AddConserves(NONE, [], reference);
    AddConserves(NONE.Add(reference), [] + [reference], aggregate);
    forall f ensures WithReference(aggregate, reference).At(f) == Min(SumBy([reference, aggregate], Count(f)), U64_MAX) {
      AddAt(NONE, reference, f);
      AddAt(NONE.Add(reference), aggregate, f);
    }
    if reference.IsZero() {
      ZeroPrior(NONE.Add(reference), [] + [reference], aggregate);
    }
  }

  method AddReferenceUsage(aggregate: Usage, reference: Usage) returns (u: Usage)
    ensures u == WithReference(aggregate, reference)
  {
    u := aggregate;
    u := u.(input := SatAdd(u.input, reference.input));
    u := u.(output := SatAdd(u.output, reference.output));
    u := u.(cacheRead := SatAdd(u.cacheRead, reference.cacheRead));
    u := u.(cacheCreation := SatAdd(u.cacheCreation, reference.cacheCreation));
    u := u.(rateLimits := Or(aggregate.rateLimits, reference.rateLimits));
    u := u.(estimated := u.estimated || reference.estimated);
  }

  /** The references and the aggregator, in 32 bits. */
  function Dispatches(references: nat): nat { Min(references + 1, U32_MAX) }

  /** One request on the virtual model. `sends` are the physical dispatches the
      reference call makes, each with what the network does to it. Both calls are
      billed whatever happened to them, and the aggregator starts with a send
      available if the allowance had room for one when the route was entered. */
  method Stream(execution: Attempts.RequestExecution, references: nat, sends: seq<(string, bool, nat -> Attempts.SendOutcome)>,
                reference: Routed, aggregate: Routed, ghost guard: nat)
    returns (a: Answer, aggregatorCanSend: bool)
    requires execution.Valid() && guard !in execution.live
    requires reference.usage.Representable() && aggregate.usage.Representable()
    modifies execution
    ensures execution.Valid() && execution.live == old(execution.live)
    ensures a.TooManyReferences? <==> references > U32_MAX
    ensures a.Refused? <==> references <= U32_MAX && old(execution.state.fanout).Some?
                            && old(execution.state.fanout).value != Min(references + 1, U32_MAX)
    ensures a.Refused? || a.TooManyReferences? ==> execution.state == old(execution.state)
    ensures a.Completion? || a.Failure? ==>
              && Conserves(a.usage, [reference.usage, aggregate.usage]) && (a.Completion? <==> aggregate.Completed?)
              && (old(execution.state.(fanout := Some(Min(references + 1, U32_MAX))).Available(execution.policy)) ==> aggregatorCanSend)
    ensures a.Completion? ==> a.usage.contextOccupancy == aggregate.usage.contextOccupancy
  {
    if references > U32_MAX {
      return TooManyReferences, false;
    }
    var planned := execution.PlanFanout(Dispatches(references));
    if planned.Err? {
      return Refused(planned.error), false;
    }
    ghost var live := execution.live;
    var granted := execution.Reserve(1, guard);
    ghost var held := execution.live;
    for i := 0 to |sends|
      invariant execution.Valid() && execution.live == held
      invariant execution.state.fanout == Some(Dispatches(references))
    {
      var (first, replay, world) := sends[i];
      var sent, _ := execution.DispatchControlled(first, replay, world);
    }
    execution.DropReservation(granted, guard);
    assert held - {guard} == live;
    aggregatorCanSend := execution.state.Available(execution.policy);
    ReferenceIsBilled(aggregate.usage, reference.usage);
    if aggregate.Errored? {
      if reference.usage.IsZero() {
        return Failure(aggregate.usage), aggregatorCanSend;
      }
      var usage := AddReferenceUsage(aggregate.usage, reference.usage);
      return Failure(usage), aggregatorCanSend;
    }
    var folded := AddReferenceUsage(aggregate.usage, reference.usage);
    a := Completion(folded);
  }
}
