/** A collector session (macos_network.rs): queries, unsolicited events, sampling
    and restarts around the attribution engine. Protocol qualification is an input:
    it excludes its own sources and at some point reports success. */
module NStatSession {
  import opened Basics
  import opened NStatEngine

  const MAX_U64: nat := 0xffff_ffff_ffff_ffff

  /** A query reserves its epoch when it is sent and numbers its own events. */
  datatype Query = Query(context: nat, epoch: nat, nextOrdinal: nat, events: seq<Ordered>) {
    function Push(e: SourceEvent): Query {
      this.(nextOrdinal := nextOrdinal + 1, events := events + [Ordered(Order(epoch, nextOrdinal), e)])
    }
  }

  /** What the collector thread still has to note in the shared sample after it
      committed a query's answer and released the lock. */
  datatype Finishing = Nothing | EndingBaseline | CompletingInterval

  datatype State = State(engine: Engine, nextEpoch: nat, query: Option<Query>, finishing: Finishing, shared: Shared)

  /** What one call of `sample` returns: the rates, with the bytes and the nanoseconds
      they come from. */
  datatype Outcome =
    | Failed
    | PendingBaseline
    | Held
    | Ready(bytes: Interval, elapsed: nat, rates: Interval)
    | Partial(bytes: Interval, elapsed: nat, rates: Interval)

  /** `bytes_per_second`. */
  function BytesPerSecond(bytes: nat, nanos: nat): (rate: nat)
    ensures rate <= MAX_U64
    ensures nanos > 0 && rate < MAX_U64 ==>
              rate * nanos <= bytes * 1_000_000_000 < (rate + 1) * nanos
  {
    var n := if nanos == 0 then 1 else nanos;
    var exact := bytes * 1_000_000_000 / n;
    QuotientBounds(bytes * 1_000_000_000, n);
    if exact < MAX_U64 then exact else MAX_U64
  }

  lemma QuotientBounds(a: nat, n: nat)
    requires n > 0
    ensures (a / n) * n <= a < (a / n + 1) * n
  {
  }

  function RatesOver(bytes: Interval, nanos: nat): Interval {
    map p | p in bytes :: Rates(BytesPerSecond(bytes[p].rx, nanos), BytesPerSecond(bytes[p].tx, nanos))
  }

  datatype Op =
    | StartQuery(context: nat)
    | Event(event: SourceEvent, context: nat)
    | FinalCountsDropped
    | Answered(context: nat, qualified: bool)
    | Concluded(now: int)
    | Sample(now: int)
    | Fault
    | Restart(now: int)

  // ---- Steps ----

  function Direct(s: State, e: SourceEvent): Ordered { Ordered(Order(s.nextEpoch + 1, 0), e) }

  predicate Expected(s: State, context: nat) {
    context == 0 || (s.query.Some? && s.query.value.context == context)
  }

  function Committed(s: State, events: seq<Ordered>): State {
    s.(engine := EngineAfterAll(s.engine, events), shared := SharedAfterAll(s.engine, s.shared, events))
  }

  function Routed(s: State, e: SourceEvent, context: nat): State
    requires Expected(s, context)
  {
    if context == 0 then Committed(s, [Direct(s, e)]).(nextEpoch := s.nextEpoch + 1)
    else s.(query := Some(s.query.value.Push(e)))
  }

  /** The final answer of a query, up to where the lock is released; `prune` is false
      only in the reference that never forgets an order. */
  function Closed(s: State, qualified: bool, prune: bool): State
    requires s.query.Some?
  {
    var c := Committed(s, s.query.value.events).(query := None);
    var e := if prune then Pruned(c.engine) else c.engine;
    if !e.baseline && qualified then c.(engine := e.(baseline := true), finishing := EndingBaseline)
    else c.(engine := e, finishing := if e.baseline then CompletingInterval else Nothing)
  }

  /** The second locked section after an answer. */
  function Concluding(s: State, now: int): State {
    match s.finishing
    case Nothing => s
    case EndingBaseline =>
      s.(finishing := Nothing,
         shared := s.shared.(baselineComplete := true, intervalComplete := false, interval := map[], startedAt := now))
    case CompletingInterval => s.(finishing := Nothing, shared := s.shared.(intervalComplete := true))
  }

  function Sampled(sh: Shared, now: int): (Shared, Outcome) {
    var elapsed: nat := if now < sh.startedAt then 0 else now - sh.startedAt;
    if sh.failed then (sh, Failed)
    else if !sh.baselineComplete then (sh, PendingBaseline)
    else if !sh.intervalComplete || elapsed == 0 then (sh, Held)
    else (sh.(startedAt := now, intervalComplete := false, interval := map[], dataLoss := false),
          if sh.dataLoss then Partial(sh.interval, elapsed, RatesOver(sh.interval, elapsed))
          else Ready(sh.interval, elapsed, RatesOver(sh.interval, elapsed)))
  }

  const NEW_ENGINE := Engine(map[], map[], false)

  /** `begin_session`: every session but the first follows a failure. */
  function Began(now: int, restarted: bool): State {
    State(NEW_ENGINE, 0, None, Nothing, Shared(false, false, map[], now, false, restarted))
  }

  function Queried(s: State, context: nat): State {
    if s.query.Some? then s
    else s.(query := Some(Query(context, s.nextEpoch + 1, 0, [])), nextEpoch := s.nextEpoch + 1)
  }

  /** An event in an unexpected context ends the session. */
  function Received(s: State, e: SourceEvent, context: nat): State {
    if Expected(s, context) then Routed(s, e, context) else s.(shared := s.shared.(failed := true))
  }

  function AnsweredBy(s: State, context: nat, qualified: bool, prune: bool): State {
    if s.query.Some? && s.query.value.context == context then Closed(s, qualified, prune) else s
  }

  /** Samples come at any time; the collector thread finishes an answer before it
      handles the next message. */
  function Step(s: State, op: Op, prune: bool): State {
    if op.Sample? then s.(shared := Sampled(s.shared, op.now).0)
    else if op.Restart? then if s.shared.failed then Began(op.now, true) else s
    else if s.shared.failed then s
    else if op.Fault? then s.(shared := s.shared.(failed := true))
    else if op.Concluded? then Concluding(s, op.now)
    else if !s.finishing.Nothing? then s
    else if op.StartQuery? then Queried(s, op.context)
    else if op.Event? then Received(s, op.event, op.context)
    else if op.FinalCountsDropped? then s.(shared := s.shared.(dataLoss := true))
    else AnsweredBy(s, op.context, op.qualified, prune)
  }

  function After(start: int, ops: seq<Op>, prune: bool): State {
    if ops == [] then Began(start, false)
    else Step(After(start, ops[..|ops| - 1], prune), ops[|ops| - 1], prune)
  }

  // ---- The session as the program runs it ----

  class Session {
    const engine: AttributionEngine
    const shared: SharedSample
    var nextEpoch: nat
    var query: Option<Query>
    var finishing: Finishing

    ghost function View(): State
      reads this, engine, shared
    {
      State(engine.State(), nextEpoch, query, finishing, shared.State())
    }

    constructor (now: int)
      ensures View() == Began(now, false) && fresh(engine) && fresh(shared)
    {
      engine := new AttributionEngine();
      shared := new SharedSample(now);
      nextEpoch, query, finishing := 0, None, Nothing;
    }

    method StartQuery(context: nat)
      requires query.None? && !shared.failed && finishing.Nothing?
      modifies this
      ensures View() == Step(old(View()), Op.StartQuery(context), true)
    {
      nextEpoch := nextEpoch + 1;
      query := Some(Query(context, nextEpoch, 0, []));
    }

    method RouteEvent(e: SourceEvent, context: nat) returns (ok: bool)
      modifies this, engine, shared
      ensures ok == Expected(old(View()), context)
      ensures ok ==> View() == Routed(old(View()), e, context)
      ensures !ok ==> View() == old(View())
    {
      if context == 0 {
        nextEpoch := nextEpoch + 1;
        var direct := Ordered(Order(nextEpoch, 0), e);
        engine.CommitEvents([direct], shared);
        return true;
      }
      if query.Some? && query.value.context == context {
        query := Some(query.value.Push(e));
        return true;
      }
      return false;
    }

    method NoteDroppedCounts()
      requires !shared.failed && finishing.Nothing?
      modifies shared`dataLoss
      ensures View() == Step(old(View()), FinalCountsDropped, true)
    {
      shared.dataLoss := true;
    }

    method QueryAnswered(context: nat, qualified: bool)
      requires !shared.failed && finishing.Nothing?
      modifies this, engine, shared
      ensures View() == Step(old(View()), Answered(context, qualified), true)
    {
      if query.None? || query.value.context != context {
        return;
      }
      var events := query.value.events;
      query := None;
      engine.CommitEvents(events, shared);
      engine.PruneTombstones();
      if !engine.baseline && qualified {
        engine.baseline := true;
        finishing := EndingBaseline;
      } else if engine.baseline {
        finishing := CompletingInterval;
      }
    }

    method Conclude(now: int)
      requires !shared.failed
      modifies this`finishing, shared
      ensures View() == Step(old(View()), Concluded(now), true)
    {
      if finishing.EndingBaseline? {
        shared.baselineComplete := true;
        shared.intervalComplete := false;
        shared.interval := map[];
        shared.startedAt := now;
      } else if finishing.CompletingInterval? {
        shared.intervalComplete := true;
      }
      finishing := Nothing;
    }

    method TakeSample(now: int) returns (outcome: Outcome)
      modifies shared
      ensures (shared.State(), outcome) == Sampled(old(shared.State()), now)
    {
      if shared.failed {
        return Failed;
      }
      if !shared.baselineComplete {
        return PendingBaseline;
      }
      if !shared.intervalComplete || now <= shared.startedAt {
        return Held;
      }
      var elapsed: nat := now - shared.startedAt;
      var bytes := shared.interval;
      var rates := RatesOver(bytes, elapsed);
      shared.startedAt := now;
      shared.intervalComplete := false;
      shared.interval := map[];
      if shared.dataLoss {
        shared.dataLoss := false;
        return Partial(bytes, elapsed, rates);
      }
      return Ready(bytes, elapsed, rates);
    }
  }

  // ---- Pruning tombstones is invisible ----

  predicate OrdersBounded(s: State) {
    && Bounded(s.engine.last, s.nextEpoch)
    && (s.query.Some? ==>
          var q := s.query.value;
          && 0 < q.epoch <= s.nextEpoch && q.nextOrdinal == |q.events|
          && forall i :: 0 <= i < |q.events| ==> q.events[i].order == Order(q.epoch, i))
  }

  /** The pruned engine forgot only orders that nothing still to come can lose to. */
  predicate Forgot(p: Engine, u: Engine, epoch: nat) {
    && p.sources == u.sources && p.baseline == u.baseline
    && (forall k :: k in p.last ==> k in u.last && p.last[k] == u.last[k])
    && (forall k :: k in u.last && k !in p.last ==> k !in u.sources && u.last[k].epoch < epoch)
  }

  function NextOrderEpoch(s: State): nat {
    if s.query.Some? then s.query.value.epoch else s.nextEpoch + 1
  }

  predicate Twins(p: State, u: State) {
    && p.nextEpoch == u.nextEpoch && p.query == u.query && p.finishing == u.finishing && p.shared == u.shared
    && OrdersBounded(u)
    && Forgot(p.engine, u.engine, NextOrderEpoch(u))
  }

  lemma EventAgrees(p: Engine, u: Engine, epoch: nat, o: Ordered)
    requires Forgot(p, u, epoch) && o.order.epoch >= epoch
    ensures Forgot(EngineAfter(p, o), EngineAfter(u, o), epoch)
    ensures BillAfter(p, o) == BillAfter(u, o) && LossAfter(p, o) == LossAfter(u, o)
  {
    assert Stale(p, o) == Stale(u, o);
  }

  lemma {:induction false} BatchAgrees(p: Engine, u: Engine, epoch: nat, s: Shared, events: seq<Ordered>)
    requires Forgot(p, u, epoch) && forall i :: 0 <= i < |events| ==> events[i].order.epoch >= epoch
    ensures Forgot(EngineAfterAll(p, events), EngineAfterAll(u, events), epoch)
    ensures SharedAfterAll(p, s, events) == SharedAfterAll(u, s, events)
  {
    if events != [] {
      var before, o := events[..|events| - 1], events[|events| - 1];
      BatchAgrees(p, u, epoch, s, before);
      EventAgrees(EngineAfterAll(p, before), EngineAfterAll(u, before), epoch, o);
    }
  }

  predicate Bounded(last: map<SourceRef, Order>, bound: nat) {
    forall k :: k in last ==> last[k].epoch <= bound
  }

  lemma {:induction false} BatchBounded(u: Engine, events: seq<Ordered>, bound: nat)
    requires Bounded(u.last, bound)
    requires forall i :: 0 <= i < |events| ==> events[i].order.epoch <= bound
    ensures Bounded(EngineAfterAll(u, events).last, bound)
  {
    if events != [] {
      var before, o := events[..|events| - 1], events[|events| - 1];
      BatchBounded(u, before, bound);
      assert o.order.epoch <= bound;
    }
  }

  lemma RoutedTwins(p: State, u: State, e: SourceEvent, context: nat)
    requires Twins(p, u) && Expected(u, context)
    ensures Twins(Routed(p, e, context), Routed(u, e, context))
  {
    if context == 0 {
      var d := [Direct(u, e)];
      BatchAgrees(p.engine, u.engine, NextOrderEpoch(u), u.shared, d);
      BatchBounded(u.engine, d, u.nextEpoch + 1);
    }
  }

  lemma ClosedTwins(p: State, u: State, qualified: bool)
    requires Twins(p, u) && u.query.Some?
    ensures Twins(Closed(p, qualified, true), Closed(u, qualified, false))
  {
    var events := u.query.value.events;
    BatchAgrees(p.engine, u.engine, u.query.value.epoch, u.shared, events);
    BatchBounded(u.engine, events, u.nextEpoch);
  }

  lemma StepTwins(p: State, u: State, op: Op)
    requires Twins(p, u)
    ensures Twins(Step(p, op, true), Step(u, op, false))
  {
    if !u.shared.failed && u.finishing.Nothing? {
      match op
      case Event(e, context) =>
        if Expected(u, context) { RoutedTwins(p, u, e, context); }
      case Answered(context, qualified) =>
        if u.query.Some? && u.query.value.context == context { ClosedTwins(p, u, qualified); }
      case _ =>
    }
  }

  /** Over every run of queries, events, answers, samples, failures and restarts,
      the engine that prunes has the same sources, interval bytes and loss flags as
      one that never forgets an order. */
  lemma {:induction false} PruningIsInvisible(start: int, ops: seq<Op>)
    ensures Twins(After(start, ops, true), After(start, ops, false))
  {
    if ops != [] {
      PruningIsInvisible(start, ops[..|ops| - 1]);
      StepTwins(After(start, ops[..|ops| - 1], true), After(start, ops[..|ops| - 1], false), ops[|ops| - 1]);
    }
  }
}
