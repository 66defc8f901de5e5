/** The budget ledger of `hi-rsi-runtime`: admission control with reservations.

A `Ledger` is the observable value of the ledger: what is consumed and what is
held, per kind. `BudgetLedger` is the object that the runtime shares; it also
keeps the table of live reservations, and its methods are proved against the
functions of `Ledger`.

The tallies are total: a kind that is absent from a map of the original is a
kind with amount zero here. */
module Budget {
  import opened Common

  datatype BudgetKind =
    | CpuTimeSeconds | DiskBytes | InputTokens | OutputTokens
    | ToolCalls | ModelCalls | CostMicrousd | RepairIterations

  /** One amount per kind. */
  datatype Tally = Tally(cpu: nat, disk: nat, input: nat, output: nat, tool: nat, model: nat, cost: nat, repair: nat) {
    function At(k: BudgetKind): nat {
      match k
      case CpuTimeSeconds => cpu
      case DiskBytes => disk
      case InputTokens => input
      case OutputTokens => output
      case ToolCalls => tool
      case ModelCalls => model
      case CostMicrousd => cost
      case RepairIterations => repair
    }

    function With(k: BudgetKind, n: nat): (t: Tally)
      ensures forall j: BudgetKind :: t.At(j) == if j == k then n else At(j)
    {
      match k
      case CpuTimeSeconds => this.(cpu := n)
      case DiskBytes => this.(disk := n)
      case InputTokens => this.(input := n)
      case OutputTokens => this.(output := n)
      case ToolCalls => this.(tool := n)
      case ModelCalls => this.(model := n)
      case CostMicrousd => this.(cost := n)
      case RepairIterations => this.(repair := n)
    }
  }

  const ZERO: Tally := Tally(0, 0, 0, 0, 0, 0, 0, 0)

  /** Tallies that agree on every kind are equal. */
  lemma TallyExtensional(a: Tally, b: Tally)
    requires forall k: BudgetKind :: a.At(k) == b.At(k)
    ensures a == b
  {
    assert a.At(CpuTimeSeconds) == b.At(CpuTimeSeconds) && a.At(DiskBytes) == b.At(DiskBytes);
    assert a.At(InputTokens) == b.At(InputTokens) && a.At(OutputTokens) == b.At(OutputTokens);
    assert a.At(ToolCalls) == b.At(ToolCalls) && a.At(ModelCalls) == b.At(ModelCalls);
    assert a.At(CostMicrousd) == b.At(CostMicrousd) && a.At(RepairIterations) == b.At(RepairIterations);
  }

  function Bump(t: Tally, k: BudgetKind, n: nat): Tally { t.With(k, t.At(k) + n) }

  function Lower(t: Tally, k: BudgetKind, n: nat): Tally { t.With(k, SatSub(t.At(k), n)) }

  function PointwiseMax(a: Tally, b: Tally): (t: Tally)
    ensures forall k: BudgetKind :: t.At(k) == Max(a.At(k), b.At(k))
  {
    Tally(Max(a.cpu, b.cpu), Max(a.disk, b.disk), Max(a.input, b.input), Max(a.output, b.output),
          Max(a.tool, b.tool), Max(a.model, b.model), Max(a.cost, b.cost), Max(a.repair, b.repair))
  }

  function PointwiseSum(a: Tally, b: Tally): (t: Tally)
    ensures forall k: BudgetKind :: t.At(k) == a.At(k) + b.At(k)
  {
    Tally(a.cpu + b.cpu, a.disk + b.disk, a.input + b.input, a.output + b.output,
          a.tool + b.tool, a.model + b.model, a.cost + b.cost, a.repair + b.repair)
  }

  predicate Below(a: Tally, b: Tally) { forall k: BudgetKind :: a.At(k) <= b.At(k) }

  datatype BudgetUsage = BudgetUsage(consumed: Tally, reserved: Tally) {
    /** The durable part: reservations are transient and never become durable. */
    function Settled(): BudgetUsage { BudgetUsage(consumed, ZERO) }
  }

  datatype BudgetError = NotPositive | Exhausted(kind: BudgetKind) | UnknownReservation | IdentityMismatch
    | SettlementTooLarge | ActiveReservations
    | UnsettledFloor | FloorExceedsLimit

  datatype Ledger = Ledger(limits: Tally, usage: BudgetUsage) {
    function Remaining(k: BudgetKind): nat {
      SatSub(limits.At(k), usage.consumed.At(k) + usage.reserved.At(k))
    }

    /** No kind is promised beyond its limit. */
    ghost predicate Sound() {
      forall k: BudgetKind :: usage.consumed.At(k) + usage.reserved.At(k) <= limits.At(k)
    }

    function Hold(k: BudgetKind, n: nat): Ledger {
      this.(usage := usage.(reserved := Bump(usage.reserved, k, n)))
    }

    function Free(k: BudgetKind, n: nat): Ledger {
      this.(usage := usage.(reserved := Lower(usage.reserved, k, n)))
    }

    function Spend(k: BudgetKind, n: nat): Ledger {
      this.(usage := usage.(consumed := Bump(usage.consumed, k, n)))
    }

    function Reserve(k: BudgetKind, n: nat): Result<Ledger, BudgetError> {
      if n == 0 then Err(NotPositive)
      else if n > Remaining(k) then Err(Exhausted(k))
      else Ok(Hold(k, n))
    }

    /** Consumption through the shared handle, which accepts a zero amount. */
    function Consume(k: BudgetKind, n: nat): Result<Ledger, BudgetError> {
      if n == 0 then Ok(this)
      else if n > Remaining(k) then Err(Exhausted(k))
      else Ok(Spend(k, n))
    }

    function MergeFloor(floor: BudgetUsage): Result<Ledger, BudgetError> {
      if usage.reserved != ZERO then Err(ActiveReservations)
      else if floor.reserved != ZERO then Err(UnsettledFloor)
      else if !Below(floor.consumed, limits) then Err(FloorExceedsLimit)
      else Ok(this.(usage := usage.(consumed := PointwiseMax(usage.consumed, floor.consumed))))
    }
  }

  /** An amount may be held or spent exactly if the ledger stays within its limits. */
  lemma AdmissionKeepsSound(l: Ledger, k: BudgetKind, n: nat)
    requires l.Sound()
    ensures n <= l.Remaining(k) <==> l.Hold(k, n).Sound()
    ensures n <= l.Remaining(k) <==> l.Spend(k, n).Sound()
    ensures n > 0 ==> (l.Reserve(k, n).Ok? <==> l.Hold(k, n).Sound()) && (l.Consume(k, n).Ok? <==> l.Spend(k, n).Sound())
  {
    assert l.Hold(k, n).usage.reserved.At(k) == l.usage.reserved.At(k) + n;
    assert l.Spend(k, n).usage.consumed.At(k) == l.usage.consumed.At(k) + n;
  }

  /** Reserving and releasing is nothing; reserving and committing is a plain expense of
      what was used. */
  lemma HoldThenSettle(l: Ledger, k: BudgetKind, n: nat, actual: nat)
    requires actual <= n
    ensures l.Hold(k, n).Free(k, n) == l
    ensures l.Hold(k, n).Free(k, n).Spend(k, actual) == l.Spend(k, actual)
    ensures l.Sound() && l.Hold(k, n).Sound() ==> l.Spend(k, actual).Sound()
  {
    TallyExtensional(Lower(Bump(l.usage.reserved, k, n), k, n), l.usage.reserved);
    assert l.Hold(k, n).usage.reserved.At(k) == l.usage.reserved.At(k) + n;
  }

  /** Merging is monotone and idempotent, and keeps the ledger within its limits. */
  lemma MergeFloorIsMonotoneAndIdempotent(l: Ledger, floor: BudgetUsage)
    requires l.Sound() && l.MergeFloor(floor).Ok?
    ensures var m := l.MergeFloor(floor).value;
            && m.Sound()
            && Below(l.usage.consumed, m.usage.consumed) && Below(floor.consumed, m.usage.consumed)
            && m.MergeFloor(floor) == Ok(m)
            && m.MergeFloor(m.usage) == Ok(m)
  {
    var m := l.MergeFloor(floor).value;
    assert m.usage.reserved == ZERO;
    TallyExtensional(PointwiseMax(m.usage.consumed, floor.consumed), m.usage.consumed);
    TallyExtensional(PointwiseMax(m.usage.consumed, m.usage.consumed), m.usage.consumed);
  }

  /** A floor is refused exactly if something is in flight on either side or the merged
      consumption would not fit the limits. */
  lemma FloorRefusedIff(l: Ledger, floor: BudgetUsage)
    requires l.Sound() && l.usage.reserved == ZERO
    ensures l.MergeFloor(floor).Ok?
            <==> floor.reserved == ZERO && Ledger(l.limits, BudgetUsage(PointwiseMax(l.usage.consumed, floor.consumed), ZERO)).Sound()
  {
    var merged := Ledger(l.limits, BudgetUsage(PointwiseMax(l.usage.consumed, floor.consumed), ZERO));
    if merged.Sound() {
      forall k: BudgetKind ensures floor.consumed.At(k) <= l.limits.At(k) {
        assert merged.usage.consumed.At(k) + merged.usage.reserved.At(k) <= merged.limits.At(k);
      }
    }
  }

  // ---- the shared object ---------------------------------------------------

  datatype BudgetReservation = BudgetReservation(id: nat, kind: BudgetKind, amount: nat)

  /** What the live reservations with ids up to `top` hold of kind `k`. */
  ghost function HeldUpTo(table: map<nat, BudgetReservation>, top: nat, k: BudgetKind): nat {
    if top == 0 then 0
    else HeldUpTo(table, top - 1, k) + if top in table && table[top].kind == k then table[top].amount else 0
  }

  lemma {:induction false} HeldUpToRemove(table: map<nat, BudgetReservation>, top: nat, k: BudgetKind, id: nat)
    requires id in table
    ensures HeldUpTo(table, top, k) == HeldUpTo(table - {id}, top, k)
              + if 0 < id <= top && table[id].kind == k then table[id].amount else 0
  {
    if top > 0 {
      HeldUpToRemove(table, top - 1, k, id);
    }
  }

  /** The held tally is what the live reservations hold, plus what was leaked. */
  ghost predicate TableMatches(table: map<nat, BudgetReservation>, top: nat, reserved: Tally, leaked: Tally) {
    && (forall id | id in table :: 0 < id <= top)
    && forall k: BudgetKind :: reserved.At(k) == HeldUpTo(table, top, k) + leaked.At(k)
  }

  lemma TableInsert(table: map<nat, BudgetReservation>, top: nat, reserved: Tally, leaked: Tally, r: BudgetReservation)
    requires TableMatches(table, top, reserved, leaked) && r.id == top + 1
    ensures TableMatches(table[r.id := r], top + 1, Bump(reserved, r.kind, r.amount), leaked)
  {
    var grown := table[r.id := r];
    assert grown - {r.id} == table;
    forall k: BudgetKind
      ensures HeldUpTo(grown, top + 1, k) + leaked.At(k) == reserved.At(k) + if r.kind == k then r.amount else 0
    {
      HeldUpToRemove(grown, top, k, r.id);
    }
  }

  lemma TableRemove(table: map<nat, BudgetReservation>, top: nat, reserved: Tally, leaked: Tally, id: nat)
    requires TableMatches(table, top, reserved, leaked) && id in table
    ensures table[id].amount <= reserved.At(table[id].kind)
    ensures TableMatches(table - {id}, top, Lower(reserved, table[id].kind, table[id].amount), leaked)
    ensures TableMatches(table - {id}, top, reserved, Bump(leaked, table[id].kind, table[id].amount))
  {
    forall k: BudgetKind
      ensures reserved.At(k) == HeldUpTo(table - {id}, top, k) + leaked.At(k) + if table[id].kind == k then table[id].amount else 0
    {
      HeldUpToRemove(table, top, k, id);
    }
  }

  /** What a client may call. */
  datatype LedgerCall =
    | CallReserve(kind: BudgetKind, amount: nat)
    | CallCommit(reservation: BudgetReservation, actual: nat)
    | CallRelease(reservation: BudgetReservation)
    | CallConsume(kind: BudgetKind, amount: nat)
    | CallMerge(floor: BudgetUsage)

  class BudgetLedger {
    const limits: Tally
    var usage: BudgetUsage
    var reservations: map<nat, BudgetReservation>
    var nextId: nat
    /** What is reserved although no reservation holds it any more. */
    ghost var leaked: Tally

    ghost predicate Valid()
      reads this
    {
      && View().Sound()
      && (forall id | id in reservations :: reservations[id].id == id && reservations[id].amount > 0)
      && TableMatches(reservations, nextId, usage.reserved, leaked)
    }

    function View(): Ledger
      reads this
    {
      Ledger(limits, usage)
    }

    /** This exact reservation is held here. */
    predicate Held(r: BudgetReservation)
      reads this
    {
      r.id in reservations && reservations[r.id] == r
    }

    constructor (limits: Tally)
      ensures Valid() && this.limits == limits
      ensures usage == BudgetUsage(ZERO, ZERO) && reservations == map[] && leaked == ZERO
    {
      this.limits := limits;
      usage := BudgetUsage(ZERO, ZERO);
      reservations := map[];
      nextId := 0;
      leaked := ZERO;
    }

    method Remaining(kind: BudgetKind) returns (available: nat)
      requires Valid()
      ensures available == limits.At(kind) - usage.consumed.At(kind) - usage.reserved.At(kind)
    {
      available := View().Remaining(kind);
    }

    method Reserve(kind: BudgetKind, amount: nat) returns (r: Result<BudgetReservation, BudgetError>)
      requires Valid()
      modifies this
      ensures Valid() && leaked == old(leaked)
      ensures old(View().Reserve(kind, amount)) == if r.Ok? then Ok(View()) else Err(r.error)
      ensures r.Err? ==> View() == old(View()) && reservations == old(reservations) && nextId == old(nextId)
      ensures r.Ok? ==> && r.value.kind == kind && r.value.amount == amount && r.value.id == nextId == old(nextId) + 1
                        && reservations == old(reservations)[r.value.id := r.value]
    {
      if amount == 0 {
        return Err(NotPositive);
      }
      if amount > View().Remaining(kind) {
        return Err(Exhausted(kind));
      }
      var reservation := BudgetReservation(nextId + 1, kind, amount);
      TableInsert(reservations, nextId, usage.reserved, leaked, reservation);
      AdmissionKeepsSound(View(), kind, amount);
      nextId := nextId + 1;
      usage := View().Hold(kind, amount).usage;
      reservations := reservations[nextId := reservation];
      r := Ok(reservation);
    }

    /** A held reservation always settles for up to its amount; a settled, unknown or
        altered one never does, and nothing changes. */
    method Commit(reservation: BudgetReservation, actual: nat) returns (r: Result<(), BudgetError>)
      requires Valid()
      modifies this`usage, this`reservations
      ensures Valid()
      ensures r.Ok? <==> old(Held(reservation)) && actual <= reservation.amount
      ensures r.Err? ==> View() == old(View()) && reservations == old(reservations)
      ensures r.Ok? ==> View() == old(View()).Free(reservation.kind, reservation.amount).Spend(reservation.kind, actual)
      ensures r.Ok? ==> reservations == old(reservations) - {reservation.id}
    {
      if reservation.id !in reservations {
        return Err(UnknownReservation);
      }
      if reservations[reservation.id] != reservation {
        return Err(IdentityMismatch);
      }
      if actual > reservation.amount {
        return Err(SettlementTooLarge);
      }
      TableRemove(reservations, nextId, usage.reserved, leaked, reservation.id);
      var taken := Take(reservation);
      usage := usage.(reserved := Lower(usage.reserved, reservation.kind, reservation.amount));
      usage := usage.(consumed := Bump(usage.consumed, reservation.kind, actual));
      r := Ok(());
    }

    /** A held reservation is given back, and a settled one is refused. A reservation of
        another ledger whose id is in use here is refused too, but the one held under
        that id is forgotten and its amount leaks. */
    method Release(reservation: BudgetReservation) returns (r: Result<(), BudgetError>)
      requires Valid()
      modifies this`usage, this`reservations, this`leaked
      ensures Valid()
      ensures r.Ok? <==> old(Held(reservation))
      ensures r == Err(UnknownReservation) <==> reservation.id !in old(reservations)
      ensures r.Err? ==> View() == old(View())
      ensures r.Ok? ==> View() == old(View()).Free(reservation.kind, reservation.amount)
      ensures reservations == old(reservations) - {reservation.id}
      ensures leaked == if reservation.id in old(reservations) && !old(Held(reservation))
                        then Bump(old(leaked), old(reservations)[reservation.id].kind, old(reservations)[reservation.id].amount)
                        else old(leaked)
    {
      if reservation.id in reservations {
        TableRemove(reservations, nextId, usage.reserved, leaked, reservation.id);
        ghost var held := reservations[reservation.id];
        if held != reservation {
          leaked := Bump(leaked, held.kind, held.amount);
        }
      } else {
        assert reservations - {reservation.id} == reservations;
      }
      var taken := Take(reservation);
      if taken.Err? {
        return Err(taken.error);
      }
      usage := usage.(reserved := Lower(usage.reserved, reservation.kind, reservation.amount));
      r := Ok(());
    }

    /** Removes the entry first and compares it afterwards. */
    method Take(requested: BudgetReservation) returns (r: Result<BudgetReservation, BudgetError>)
      modifies this`reservations
      ensures reservations == old(reservations) - {requested.id}
      ensures r.Ok? <==> old(Held(requested))
      ensures r.Ok? ==> r.value == requested
      ensures r.Err? ==> r.error == if requested.id in old(reservations) then IdentityMismatch else UnknownReservation
    {
      if requested.id !in reservations {
        assert reservations - {requested.id} == reservations;
        return Err(UnknownReservation);
      }
      var held := reservations[requested.id];
      reservations := reservations - {requested.id};
      r := if held == requested then Ok(held) else Err(IdentityMismatch);
    }

    method Consume(kind: BudgetKind, amount: nat) returns (r: Result<(), BudgetError>)
      requires Valid()
      modifies this
      ensures Valid() && reservations == old(reservations) && leaked == old(leaked)
      ensures old(View().Consume(kind, amount)) == if r.Ok? then Ok(View()) else Err(r.error)
      ensures r.Err? ==> View() == old(View())
      ensures nextId >= old(nextId)
    {
      if amount == 0 {
        return Ok(());
      }
      var reservation := Reserve(kind, amount);
      if reservation.Err? {
        return Err(reservation.error);
      }
      r := Commit(reservation.value, amount);
      assert reservations == old(reservations);
      HoldThenSettle(old(View()), kind, amount, amount);
    }

    /** The driver's own `consume` calls of one stage attempt, taken together. */
    method ChargeDriver(cost: Tally)
      requires Valid() && forall k: BudgetKind :: cost.At(k) <= View().Remaining(k)
      modifies this`usage
      ensures Valid()
      ensures usage == old(usage).(consumed := PointwiseSum(old(usage.consumed), cost))
    {
      usage := usage.(consumed := PointwiseSum(usage.consumed, cost));
    }

    method MergeConsumptionFloor(floor: BudgetUsage) returns (r: Result<BudgetUsage, BudgetError>)
      requires Valid()
      modifies this`usage
      ensures Valid()
      ensures old(View().MergeFloor(floor)) == if r.Ok? then Ok(View()) else Err(r.error)
      ensures r.Ok? ==> r.value == usage
      ensures r.Err? ==> View() == old(View())
    {
      if reservations != map[] {
        ghost var id :| id in reservations;
        TableRemove(reservations, nextId, usage.reserved, leaked, id);
      }
      if reservations != map[] || usage.reserved != ZERO {
        return Err(ActiveReservations);
      }
      if floor.reserved != ZERO {
        return Err(UnsettledFloor);
      }
      if !Below(floor.consumed, limits) {
        return Err(FloorExceedsLimit);
      }
      usage := usage.(consumed := PointwiseMax(usage.consumed, floor.consumed));
      r := Ok(usage);
    }

    /** A leak is for ever: whatever is called afterwards, the leaked amounts stay
        reserved, and while there are any no consumption floor is accepted. */
    method AnyCalls(calls: seq<LedgerCall>)
      requires Valid()
      modifies this
      ensures Valid() && Below(old(leaked), leaked) && Below(leaked, usage.reserved)
      ensures forall k: BudgetKind :: View().Remaining(k) + old(leaked).At(k) <= limits.At(k)
      ensures old(leaked) != ZERO ==> forall floor: BudgetUsage :: View().MergeFloor(floor) == Err(ActiveReservations)
    {
      for i := 0 to |calls|
        invariant Valid() && Below(old(leaked), leaked)
      {
        match calls[i] {
          case CallReserve(kind, amount) => var _ := Reserve(kind, amount);
          case CallCommit(reservation, actual) => var _ := Commit(reservation, actual);
          case CallRelease(reservation) => var _ := Release(reservation);
          case CallConsume(kind, amount) => var _ := Consume(kind, amount);
          case CallMerge(floor) => var _ := MergeConsumptionFloor(floor);
        }
      }
      if old(leaked) != ZERO && usage.reserved == ZERO {
        TallyExtensional(old(leaked), ZERO);
      }
    }
  }
}
