/** The progress clock of one streamed request: it stalls a silent model, but not a
request that is waiting for an approval. Instants are naturals. */
module Progress {
  import opened Common

  datatype Event =
    | Text(text: string)
    | Reasoning(text: string)
    | ToolCallDelta(arguments: string)
    | ProviderAttempt(operation: string, attempt: nat, phase: Phase)
    | OtherEvent

  datatype Phase = Started | WaitingForApproval | ApprovalCompleted | OtherPhase

  predicate IsProgress(e: Event) {
    match e
    case Text(t) => t != []
    case Reasoning(t) => t != []
    case ToolCallDelta(t) => t != []
    case _ => false
  }

  // ---- the two timestamps --------------------------------------------------

  datatype State = State(last: Option<nat>, pausedAt: Option<nat>, attempt: Option<(string, nat)>)

  const IDLE: State := State(None, None, None)

  /** `Some` when the event changes the clock and wakes the watcher. */
  function Observe(s: State, e: Event, now: nat): Option<State> {
    if IsProgress(e) then
      Some(s.(last := if s.last.Some? then Some(now) else None, pausedAt := if s.pausedAt.Some? then Some(now) else None))
    else if !e.ProviderAttempt? then None
    else match e.phase
      case Started =>
        if s.attempt == Some((e.operation, e.attempt)) then None
        else Some(State(Some(now), None, Some((e.operation, e.attempt))))
      case ApprovalCompleted =>
        if s.pausedAt.None? then Some(s)
        else Some(s.(pausedAt := None,
                     last := if s.last.Some? then Some(s.last.value + SatSub(now, s.pausedAt.value)) else None))
      case WaitingForApproval => Some(s.(pausedAt := if s.pausedAt.Some? then s.pausedAt else Some(now)))
      case OtherPhase => None
  }

  function Deadline(s: State, timeout: nat): Option<nat> {
    if s.last.Some? && s.pausedAt.None? then Some(s.last.value + timeout) else None
  }

  predicate Stalled(s: State, timeout: nat, now: nat) {
    s.pausedAt.None? && s.last.Some? && SatSub(now, s.last.value) >= timeout
  }

  // ---- the reference: a stopwatch ------------------------------------------

  /** A stopwatch: `spent` is what it showed at instant `at`. */
  datatype Stopwatch = Stopwatch(started: bool, held: bool, spent: nat, at: nat, attempt: Option<(string, nat)>) {
    function Shows(now: nat): nat
    {
      if started && !held then spent + SatSub(now, at) else spent
    }

    /** Progress zeroes it, a new attempt zeroes and starts it, waiting holds it, an
        approval lets it go on, anything else leaves it alone. */
    function Next(e: Event, now: nat): Stopwatch {
      if IsProgress(e) then this.(spent := 0, at := now)
      else if !e.ProviderAttempt? then this.(spent := Shows(now), at := now)
      else match e.phase
        case Started =>
          if attempt == Some((e.operation, e.attempt)) then this.(spent := Shows(now), at := now)
          else Stopwatch(true, false, 0, now, Some((e.operation, e.attempt)))
        case WaitingForApproval => this.(held := true, spent := Shows(now), at := now)
        case ApprovalCompleted => this.(held := false, spent := Shows(now), at := now)
        case OtherPhase => this.(spent := Shows(now), at := now)
    }

    /** The event sets the stopwatch anew, or holds or frees it, and so wakes the watcher. */
    predicate Wakes(e: Event) {
      || IsProgress(e)
      || (e.ProviderAttempt? && (e.phase.ApprovalCompleted? || e.phase.WaitingForApproval?
                                 || (e.phase.Started? && attempt != Some((e.operation, e.attempt)))))
    }

    predicate Expired(timeout: nat, now: nat) { started && !held && Shows(now) >= timeout }
  }

  /** What an event does to what the stopwatch will show at any later instant, and whether
      it wakes the watcher. */
  ghost predicate Means(w: Stopwatch, e: Event, now: nat, later: nat) {
    var next := w.Next(e, now);
    match e
    case Text(text) => if text == [] then Untouched(w, e, now, later) else Zeroed(w, e, now, later)
    case Reasoning(text) => if text == [] then Untouched(w, e, now, later) else Zeroed(w, e, now, later)
    case ToolCallDelta(arguments) => if arguments == [] then Untouched(w, e, now, later) else Zeroed(w, e, now, later)
    case OtherEvent => Untouched(w, e, now, later)
    case ProviderAttempt(_, _, OtherPhase) => Untouched(w, e, now, later)
    case ProviderAttempt(operation, attempt, Started) =>
      if w.attempt == Some((operation, attempt)) then Untouched(w, e, now, later)
      else next.started && !next.held && next.Shows(later) == later - now && next.attempt == Some((operation, attempt)) && w.Wakes(e)
    case ProviderAttempt(_, _, WaitingForApproval) =>
      next.held && next.started == w.started && next.attempt == w.attempt && next.Shows(later) == w.Shows(now) && w.Wakes(e)
    case ProviderAttempt(_, _, ApprovalCompleted) =>
      && !next.held && next.started == w.started && next.attempt == w.attempt && w.Wakes(e)
      && next.Shows(later) == w.Shows(now) + if w.started then later - now else 0
  }

  ghost predicate Untouched(w: Stopwatch, e: Event, now: nat, later: nat) {
    var next := w.Next(e, now);
    next.(spent := w.spent, at := w.at) == w && next.Shows(later) == w.Shows(later) && !w.Wakes(e)
  }

  ghost predicate Zeroed(w: Stopwatch, e: Event, now: nat, later: nat) {
    var next := w.Next(e, now);
    && next.(spent := w.spent, at := w.at) == w && w.Wakes(e)
    && next.Shows(later) == if w.started && !w.held then later - now else 0
  }

  /** Text, reasoning or arguments zero the stopwatch if there are any, a new attempt
      zeroes and starts it, a wait for an approval stops it, the approval lets it go on,
      and nothing else touches it or wakes the watcher. */
  lemma EventMeans(w: Stopwatch, e: Event, now: nat, later: nat)
    requires w.at <= now <= later
    ensures Means(w, e, now, later)
  {
  }

  const STOPPED: Stopwatch := Stopwatch(false, false, 0, 0, None)

  /** What the two timestamps mean. */
  predicate Represents(s: State, w: Stopwatch) {
    && s.attempt == w.attempt
    && s.last.Some? == w.started
    && s.pausedAt.Some? == w.held
    && (s.last.Some? ==> s.last.value <= w.at)
    && (s.pausedAt.Some? ==> s.pausedAt.value <= w.at)
    && (w.started && !w.held ==> w.at - s.last.value == w.spent)
    && (w.started && w.held ==> s.pausedAt.value - s.last.value == w.spent)
    && (!w.started ==> w.spent == 0)
  }

  function Observed(s: State, e: Event, now: nat): State {
    var next := Observe(s, e, now);
    if next.Some? then next.value else s
  }

  lemma ObserveRefines(s: State, w: Stopwatch, e: Event, now: nat)
    requires Represents(s, w) && w.at <= now
    ensures Represents(Observed(s, e, now), w.Next(e, now)) && w.Next(e, now).at == now
  {
  }

  /** Events with their instants, never going back in time. */
  type Trace = seq<(Event, nat)>

  ghost predicate Monotone(from: nat, trace: Trace) {
    && (forall i | 0 <= i < |trace| :: from <= trace[i].1)
    && (forall i, j | 0 <= i < j < |trace| :: trace[i].1 <= trace[j].1)
  }

  function StateAfter(s: State, trace: Trace): State
    decreases |trace|
  {
    if trace == [] then s else StateAfter(Observed(s, trace[0].0, trace[0].1), trace[1..])
  }

  function WatchAfter(w: Stopwatch, trace: Trace): Stopwatch
    decreases |trace|
  {
    if trace == [] then w else WatchAfter(w.Next(trace[0].0, trace[0].1), trace[1..])
  }

  /** On every event trace with a monotone clock the two timestamps are the stopwatch. */
  lemma {:induction false} TraceRefines(s: State, w: Stopwatch, trace: Trace, now: nat)
    requires Represents(s, w) && w.at <= now
    requires Monotone(w.at, trace) && forall i | 0 <= i < |trace| :: trace[i].1 <= now
    ensures Represents(StateAfter(s, trace), WatchAfter(w, trace))
    ensures w.at <= WatchAfter(w, trace).at <= now
    decreases |trace|
  {
    if trace != [] {
      var (e, t) := trace[0];
      ObserveRefines(s, w, e, t);
      var rest := trace[1..];
      assert forall i | 0 <= i < |rest| :: rest[i] == trace[i + 1];
      TraceRefines(Observed(s, e, t), w.Next(e, t), rest, now);
    }
  }

  lemma ExpiryOf(s: State, w: Stopwatch, timeout: nat, now: nat)
    requires Represents(s, w) && w.at <= now
    ensures Stalled(s, timeout, now) <==> w.Expired(timeout, now)
    ensures w.Expired(timeout, now) <==> Deadline(s, timeout).Some? && Deadline(s, timeout).value <= now
  {
  }

  /** The stall check holds exactly when the stopwatch of un-paused time runs and has
      reached the timeout, and the armed deadline is the first such instant. */
  lemma StallIsExpiry(trace: Trace, timeout: nat, now: nat)
    requires Monotone(0, trace) && forall i | 0 <= i < |trace| :: trace[i].1 <= now
    ensures var s := StateAfter(IDLE, trace); var w := WatchAfter(STOPPED, trace);
            && (Stalled(s, timeout, now) <==> w.Expired(timeout, now))
            && (Stalled(s, timeout, now) <==> Deadline(s, timeout).Some? && Deadline(s, timeout).value <= now)
  {
    TraceRefines(IDLE, STOPPED, trace, now);
    ExpiryOf(StateAfter(IDLE, trace), WatchAfter(STOPPED, trace), timeout, now);
  }

  // ---- the clock object and its watcher ------------------------------------

  /** One poll of the watched request: its instant, the events it delivered and its
      result if it finished. */
  datatype Turn<T> = Turn(now: nat, events: seq<Event>, result: Option<T>)

  datatype Verdict<T> = Finished(value: T) | RequestStalled | StillWaiting

  function Stamped(events: seq<Event>, now: nat): Trace {
    seq(|events|, i requires 0 <= i < |events| => (events[i], now))
  }

  /** Some event of the trace wakes the watcher. */
  function Awakened(w: Stopwatch, trace: Trace): bool
    decreases |trace|
  {
    trace != [] && (w.Wakes(trace[0].0) || Awakened(w.Next(trace[0].0, trace[0].1), trace[1..]))
  }

  /** What the watch must answer, told by the stopwatch alone. A poll that leaves a
      wake-up, or finds one from before, only re-arms the watch: the request is polled
      again before any stall is declared. Otherwise the request has stalled exactly if
      its stopwatch has run out. */
  function Judge<T>(w: Stopwatch, woken: bool, timeout: nat, enabled: bool, turns: seq<Turn<T>>): Verdict<T>
    decreases |turns|
  {
    if turns == [] then StillWaiting
    else
      var trace := Stamped(turns[0].events, turns[0].now);
      var after := WatchAfter(w, trace);
      if turns[0].result.Some? then Finished(turns[0].result.value)
      else if !enabled then Judge(after, woken, timeout, enabled, turns[1..])
      else if woken || Awakened(w, trace) then Judge(after, false, timeout, enabled, turns[1..])
      else if after.Expired(timeout, turns[0].now) then RequestStalled
      else Judge(after, false, timeout, enabled, turns[1..])
  }

  /** The stopwatch before the `i`th poll. */
  function WatchBefore<T>(w: Stopwatch, turns: seq<Turn<T>>, i: nat): Stopwatch
    requires i <= |turns|
  {
    if i == 0 then w else WatchAfter(WatchBefore(w, turns, i - 1), Stamped(turns[i - 1].events, turns[i - 1].now))
  }

  /** The `i`th poll is quiet and the stopwatch has run out by then. */
  ghost predicate StallsAt<T>(w: Stopwatch, woken: bool, timeout: nat, turns: seq<Turn<T>>, i: nat)
    requires i < |turns|
  {
    && !(i == 0 && woken) && !Awakened(WatchBefore(w, turns, i), Stamped(turns[i].events, turns[i].now))
    && WatchBefore(w, turns, i + 1).Expired(timeout, turns[i].now)
  }

  /** The watch goes on after the `i`th poll. */
  ghost predicate WaitsOn<T>(w: Stopwatch, woken: bool, timeout: nat, enabled: bool, turns: seq<Turn<T>>, i: nat)
    requires i < |turns|
  {
    turns[i].result.None? && !(enabled && StallsAt(w, woken, timeout, turns, i))
  }

  /** Going on with the rest of the polls, a wake-up before the first one is used up. */
  lemma {:induction false} BeforeRest<T>(w: Stopwatch, turns: seq<Turn<T>>, i: nat)
    requires turns != [] && 1 <= i <= |turns|
    ensures WatchBefore(WatchAfter(w, Stamped(turns[0].events, turns[0].now)), turns[1..], i - 1) == WatchBefore(w, turns, i)
  {
    if i > 1 {
      BeforeRest(w, turns, i - 1);
    }
  }

  lemma RestWaitsOn<T>(w: Stopwatch, woken: bool, left: bool, timeout: nat, enabled: bool, turns: seq<Turn<T>>, i: nat)
    requires 1 <= i < |turns| && (enabled ==> !left)
    ensures var after := WatchAfter(w, Stamped(turns[0].events, turns[0].now));
            WaitsOn(after, left, timeout, enabled, turns[1..], i - 1) <==> WaitsOn(w, woken, timeout, enabled, turns, i)
  {
    BeforeRest(w, turns, i);
    BeforeRest(w, turns, i + 1);
  }

  /** The answer is that of the first poll that brings a result or finds the request
      stalled. */
  lemma {:induction false} JudgeIs<T>(w: Stopwatch, woken: bool, timeout: nat, enabled: bool, turns: seq<Turn<T>>, k: nat)
    requires k <= |turns| && forall i | 0 <= i < k :: WaitsOn(w, woken, timeout, enabled, turns, i)
    requires k < |turns| ==> !WaitsOn(w, woken, timeout, enabled, turns, k)
    ensures Judge(w, woken, timeout, enabled, turns)
            == if k == |turns| then StillWaiting
               else if turns[k].result.Some? then Finished(turns[k].result.value)
               else RequestStalled
    decreases k
  {
    if turns != [] {
      var after := WatchAfter(w, Stamped(turns[0].events, turns[0].now));
      assert WatchBefore(w, turns, 1) == after;
      if k > 0 {
        assert WaitsOn(w, woken, timeout, enabled, turns, 0);
        var left := !enabled && woken;
        var rest := turns[1..];
        forall i | 0 <= i < |rest|
          ensures WaitsOn(after, left, timeout, enabled, rest, i) <==> WaitsOn(w, woken, timeout, enabled, turns, i + 1)
        {
          RestWaitsOn(w, woken, left, timeout, enabled, turns, i + 1);
        }
        JudgeIs(after, left, timeout, enabled, rest, k - 1);
      }
    }
  }

  ghost predicate Forward<T>(from: nat, turns: seq<Turn<T>>) {
    && (forall i | 0 <= i < |turns| :: from <= turns[i].now)
    && (forall i, j | 0 <= i < j < |turns| :: turns[i].now <= turns[j].now)
  }

  class RequestProgress {
    const timeout: nat
    /** The last instant the clock can represent. */
    const horizon: nat
    var state: State
    /** A stored wake-up of the watcher. */
    var changed: bool
    ghost var watch: Stopwatch

    ghost predicate Valid()
      reads this
    {
      Represents(state, watch)
    }

    constructor (timeout: nat, horizon: nat)
      ensures Valid() && watch == STOPPED && this.timeout == timeout && this.horizon == horizon && !changed
    {
      this.timeout := timeout;
      this.horizon := horizon;
      state := IDLE;
      changed := false;
      watch := STOPPED;
    }

    /** Any change of the armed deadline leaves a wake-up. */
    method ObserveEvent(e: Event, now: nat)
      requires Valid() && watch.at <= now
      modifies this
      ensures Valid() && watch == old(watch).Next(e, now) && watch.at == now
      ensures changed == (old(changed) || old(watch).Wakes(e))
      ensures !old(watch).Wakes(e) ==> state == old(state)
    {
      ObserveRefines(state, watch, e, now);
      watch := watch.Next(e, now);
      if IsProgress(e) {
        state := state.(last := if state.last.Some? then Some(now) else None,
                        pausedAt := if state.pausedAt.Some? then Some(now) else None);
      } else if e.ProviderAttempt? {
        match e.phase {
          case Started =>
            var attempt := (e.operation, e.attempt);
            if state.attempt == Some(attempt) {
              return;
            }
            state := State(Some(now), None, Some(attempt));
          case ApprovalCompleted =>
            if state.pausedAt.Some? {
              var paused := state.pausedAt.value;
              state := state.(pausedAt := None);
              if state.last.Some? {
                state := state.(last := Some(state.last.value + SatSub(now, paused)));
              }
            }
          case WaitingForApproval =>
            if state.pausedAt.None? {
              state := state.(pausedAt := Some(now));
            }
          case OtherPhase => return;
        }
      } else {
        return;
      }
      changed := true;
    }

    /** The events of one poll. */
    method ObserveAll(events: seq<Event>, now: nat)
      requires Valid() && watch.at <= now
      modifies this
      ensures Valid() && watch.at <= now && watch == WatchAfter(old(watch), Stamped(events, now))
      ensures changed == (old(changed) || Awakened(old(watch), Stamped(events, now)))
      ensures !Awakened(old(watch), Stamped(events, now)) ==> state == old(state)
    {
      ghost var trace := Stamped(events, now);
      var k := 0;
      assert trace[0..] == trace;
      while k < |events|
        invariant k <= |events| && Valid() && watch.at <= now
        invariant WatchAfter(old(watch), trace) == WatchAfter(watch, trace[k..])
        invariant (changed || Awakened(watch, trace[k..])) == (old(changed) || Awakened(old(watch), trace))
        invariant Awakened(old(watch), trace) || (state == old(state) && !Awakened(watch, trace[k..]))
      {
        assert trace[k..][0] == (events[k], now) && trace[k..][1..] == trace[k + 1..];
        ObserveEvent(events[k], now);
        k := k + 1;
      }
      assert trace[k..] == [];
    }

    /** Watches a request through its polls. The answer is the stopwatch's: the
        request's own result if it comes first, else a stall at the first quiet poll
        where the un-paused silence has reached the timeout. A deadline armed before an
        event never fires for it, and no stall is missed for want of a wake-up. */
    method Watch<T>(begun: nat, turns: seq<Turn<T>>) returns (v: Verdict<T>)
      requires Valid() && watch.at <= begun && Forward(begun, turns)
      modifies this
      ensures Valid()
      ensures v == old(Judge(watch, changed, timeout, timeout > 0 && begun + timeout <= horizon, turns))
    {
      var enabled := timeout > 0 && begun + timeout <= horizon;
      var deadline := Deadline(state, timeout);
      var i := 0;
      ghost var start, stale := watch, changed;
      assert turns[0..] == turns;
      while i < |turns|
        invariant i <= |turns| && Valid()
        invariant forall j | i <= j < |turns| :: watch.at <= turns[j].now
        invariant enabled && !changed ==> deadline == Deadline(state, timeout)
        invariant enabled ==> Judge(start, stale, timeout, enabled, turns) == Judge(watch, changed, timeout, enabled, turns[i..])
        invariant !enabled ==> Judge(start, stale, timeout, enabled, turns) == Judge(watch, stale, timeout, enabled, turns[i..])
      {
        var turn := turns[i];
        assert turns[i..][0] == turn && turns[i..][1..] == turns[i + 1..];
        ObserveAll(turn.events, turn.now);
        i := i + 1;
        if turn.result.Some? {
          return Finished(turn.result.value);
        }
        if enabled {
          if changed {
            changed := false;
            deadline := Deadline(state, timeout);
            continue;
          }
          ExpiryOf(state, watch, timeout, turn.now);
          if deadline.Some? && deadline.value <= turn.now {
            if state.pausedAt.None? && state.last.Some? && SatSub(turn.now, state.last.value) >= timeout {
              return RequestStalled;
            }
            deadline := Deadline(state, timeout);
          }
        }
      }
      v := StillWaiting;
    }
  }
}
