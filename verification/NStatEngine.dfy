/** Per-process byte attribution from NStat source events (macos_network.rs).
    Query answers are buffered and committed late; unsolicited events commit at
    once; an (epoch, ordinal) order decides which event about a source is newest.
    Loss messages are reduced to whether one was raised; counters and byte totals
    are unbounded, so the source's saturating additions never saturate. */
module NStatEngine {
  import opened Basics

  type SourceRef = nat

  datatype Process = Process(pid: nat, uniquePid: nat)

  datatype Rates = Rates(rx: nat, tx: nat)

  type Interval = map<Process, Rates>

  datatype SourceState = SourceState(process: Process, rx: nat, tx: nat)

  datatype Update = Update(source: SourceRef, process: Process, rx: nat, tx: nat, closing: bool, discarded: bool)

  datatype SourceEvent = Updated(update: Update) | Removed(source: SourceRef)

  datatype Order = Order(epoch: nat, ordinal: nat)

  predicate Before(a: Order, b: Order) {
    a.epoch < b.epoch || (a.epoch == b.epoch && a.ordinal < b.ordinal)
  }

  datatype Ordered = Ordered(order: Order, event: SourceEvent)

  function RefOf(e: SourceEvent): SourceRef {
    match e
    case Updated(u) => u.source
    case Removed(k) => k
  }

  datatype Engine = Engine(sources: map<SourceRef, SourceState>, last: map<SourceRef, Order>, baseline: bool)

  /** Bytes charged to a process because of one source. */
  datatype Bill = Bill(source: SourceRef, process: Process, rx: nat, tx: nat)

  // ---- One event ----

  predicate Stale(e: Engine, o: Ordered) {
    var k := RefOf(o.event);
    k in e.last && !Before(e.last[k], o.order)
  }

  predicate GenerationChanged(e: Engine, u: Update) {
    u.source in e.sources && u.process != e.sources[u.source].process
  }

  predicate Regressed(e: Engine, u: Update) {
    u.source in e.sources && (u.rx < e.sources[u.source].rx || u.tx < e.sources[u.source].tx)
  }

  predicate LosesData(e: Engine, u: Update) {
    u.discarded || GenerationChanged(e, u) || Regressed(e, u)
  }

  function BillFor(e: Engine, u: Update): Option<Bill> {
    if GenerationChanged(e, u) || Regressed(e, u) then None
    else if u.source in e.sources then
      var old_ := e.sources[u.source];
      Some(Bill(u.source, old_.process, u.rx - old_.rx, u.tx - old_.tx))
    else if e.baseline then Some(Bill(u.source, u.process, u.rx, u.tx))
    else None
  }

  function RatesIn(m: Interval, p: Process): Rates {
    if p in m then m[p] else Rates(0, 0)
  }

  function Charge(m: Interval, bill: Option<Bill>): Interval {
    if bill.None? then m
    else
      var b := bill.value;
      var r := RatesIn(m, b.process);
      m[b.process := Rates(r.rx + b.rx, r.tx + b.tx)]
  }

  /** What the newest event about a source leaves of it. */
  function StateAfter(e: SourceEvent): Option<SourceState> {
    match e
    case Removed(_) => None
    case Updated(u) => if u.closing then None else Some(SourceState(u.process, u.rx, u.tx))
  }

  function WithSource(m: map<SourceRef, SourceState>, k: SourceRef, s: Option<SourceState>): map<SourceRef, SourceState> {
    if s.Some? then m[k := s.value] else m - {k}
  }

  function EngineAfter(e: Engine, o: Ordered): Engine {
    if Stale(e, o) then e
    else
      var k := RefOf(o.event);
      e.(last := e.last[k := o.order], sources := WithSource(e.sources, k, StateAfter(o.event)))
  }

  function BillAfter(e: Engine, o: Ordered): Option<Bill> {
    if Stale(e, o) || o.event.Removed? then None else BillFor(e, o.event.update)
  }

  predicate LossAfter(e: Engine, o: Ordered) {
    !Stale(e, o) && o.event.Updated? && LosesData(e, o.event.update)
  }

  /** What the collector thread and the sampling caller share under a lock. */
  datatype Shared = Shared(
    baselineComplete: bool,
    intervalComplete: bool,
    interval: Interval,
    startedAt: int,
    failed: bool,
    dataLoss: bool)

  // ---- A committed batch ----

  function EngineAfterAll(e: Engine, events: seq<Ordered>): Engine {
    if events == [] then e else EngineAfter(EngineAfterAll(e, events[..|events| - 1]), events[|events| - 1])
  }

  function SharedAfterAll(e: Engine, s: Shared, events: seq<Ordered>): Shared {
    if events == [] then s
    else
      var before, o := events[..|events| - 1], events[|events| - 1];
      var mid := EngineAfterAll(e, before);
      var sh := SharedAfterAll(e, s, before);
      sh.(interval := Charge(sh.interval, BillAfter(mid, o)), dataLoss := sh.dataLoss || LossAfter(mid, o))
  }

  function Pruned(e: Engine): Engine {
    e.(last := map k | k in e.last && k in e.sources :: e.last[k])
  }

  class SharedSample {
    var baselineComplete: bool
    var intervalComplete: bool
    var interval: Interval
    var startedAt: int
    var failed: bool
    var dataLoss: bool

    ghost function State(): Shared
      reads this
    {
      Shared(baselineComplete, intervalComplete, interval, startedAt, failed, dataLoss)
    }

    constructor (now: int)
      ensures State() == Shared(false, false, map[], now, false, false)
    {
      baselineComplete, intervalComplete, interval, startedAt, failed, dataLoss := false, false, map[], now, false, false;
    }
  }

  class AttributionEngine {
    var sources: map<SourceRef, SourceState>
    var last: map<SourceRef, Order>
    var baseline: bool

    ghost function State(): Engine
      reads this
    {
      Engine(sources, last, baseline)
    }

    constructor ()
      ensures State() == Engine(map[], map[], false)
    {
      sources, last, baseline := map[], map[], false;
    }

    method AddBytes(shared: SharedSample, p: Process, rx: nat, tx: nat, ghost source: SourceRef)
      modifies shared`interval
      ensures shared.interval == Charge(old(shared.interval), Some(Bill(source, p, rx, tx)))
    {
      var r := if p in shared.interval then shared.interval[p] else Rates(0, 0);
      shared.interval := shared.interval[p := Rates(r.rx + rx, r.tx + tx)];
    }

    method ApplyUpdate(u: Update, shared: SharedSample) returns (loss: bool)
      modifies this`sources, shared`interval
      ensures sources == WithSource(old(sources), u.source, StateAfter(Updated(u)))
      ensures shared.interval == Charge(old(shared.interval), BillFor(old(State()), u))
      ensures loss == LosesData(old(State()), u)
    {
      loss := u.discarded;
      if u.source in sources {
        var previous := sources[u.source];
        if u.process != previous.process {
          loss := true;
        } else if u.rx < previous.rx || u.tx < previous.tx {
          loss := true;
        } else {
          AddBytes(shared, previous.process, u.rx - previous.rx, u.tx - previous.tx, u.source);
        }
      } else if baseline {
        AddBytes(shared, u.process, u.rx, u.tx, u.source);
      }
      if u.closing {
        sources := sources - {u.source};
      } else {
        sources := sources[u.source := SourceState(u.process, u.rx, u.tx)];
      }
    }

    method ApplyEvent(o: Ordered, shared: SharedSample) returns (loss: bool)
      modifies this, shared`interval
      ensures State() == EngineAfter(old(State()), o)
      ensures shared.interval == Charge(old(shared.interval), BillAfter(old(State()), o))
      ensures loss == LossAfter(old(State()), o)
    {
      var k := RefOf(o.event);
      if k in last && !Before(last[k], o.order) {
        return false;
      }
      last := last[k := o.order];
      match o.event {
        case Updated(u) =>
          loss := ApplyUpdate(u, shared);
        case Removed(_) =>
          sources := sources - {k};
          loss := false;
      }
    }

    method CommitEvents(events: seq<Ordered>, shared: SharedSample)
      modifies this, shared`interval, shared`dataLoss
      ensures State() == EngineAfterAll(old(State()), events)
      ensures shared.State() == SharedAfterAll(old(State()), old(shared.State()), events)
    {
      for i := 0 to |events|
        invariant State() == EngineAfterAll(old(State()), events[..i])
        invariant shared.State() == SharedAfterAll(old(State()), old(shared.State()), events[..i])
      {
        assert events[..i + 1][..i] == events[..i];
        var loss := ApplyEvent(events[i], shared);
        if loss {
          shared.dataLoss := true;
        }
      }
      assert events[..|events|] == events;
    }

    method PruneTombstones()
      modifies this`last
      ensures State() == Pruned(old(State()))
    {
      var todo := last.Keys;
      while todo != {}
        invariant todo <= last.Keys <= old(last).Keys
        invariant forall k :: k in old(last) ==> (k in last <==> k in todo || k in sources)
        invariant forall k :: k in last ==> last[k] == old(last)[k]
        decreases todo
      {
        var k :| k in todo;
        todo := todo - {k};
        if k !in sources {
          last := last - {k};
        }
      }
    }
  }
}
