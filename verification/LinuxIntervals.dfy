/** From accepted intervals to published rates (linux_network.rs): a reader thread
    feeds a one-interval quarantine and an accumulator that a sampling caller drains
    whenever it likes. Byte sums never saturate. */
module LinuxIntervals {
  import opened Basics
  import opened LinuxProtocol
  import opened LinuxText

  datatype ReaderState = Starting | Running | Closed | Failed

  datatype Accumulator = Accumulator(count: nat, rx: map<nat, nat>, tx: map<nat, nat>)

  const EMPTY := Accumulator(0, map[], map[])

  datatype Shared = Shared(
    startedAt: int,
    lastIntervalAt: Option<int>,
    completed: Accumulator,
    quarantined: Option<Pending>,
    output: ReaderState)

  datatype Rates = Rates(rx: nat, tx: nat)

  /** `Ready` carries the rates and how many intervals they average. */
  datatype Sample = Ready(intervals: nat, rates: map<nat, Rates>) | Held | Broken

  const INTERVAL_LIVENESS: nat := 3_000
  const STARTUP_LIVENESS: nat := 10_000

  function At(m: map<nat, nat>, pid: nat): nat { if pid in m then m[pid] else 0 }

  function AddMaps(a: map<nat, nat>, b: map<nat, nat>): map<nat, nat> {
    map pid | pid in a.Keys + b.Keys :: At(a, pid) + At(b, pid)
  }

  function Pushed(c: Accumulator, p: Pending): Accumulator {
    Accumulator(c.count + 1, AddMaps(c.rx, p.rx), AddMaps(c.tx, p.tx))
  }

  /** The new interval waits; the one that waited becomes eligible. */
  function Accepted(s: Shared, p: Pending, now: int): Shared {
    s.(completed := if s.quarantined.Some? then Pushed(s.completed, s.quarantined.value) else s.completed,
       quarantined := Some(p),
       lastIntervalAt := Some(now))
  }

  /** `average_bytes_per_second` over intervals of one second. */
  function Average(bytes: nat, intervals: nat): (rate: nat)
    ensures intervals > 0 ==> rate * intervals <= bytes < (rate + 1) * intervals
  {
    var ms := if intervals == 0 then 1 else 1000 * intervals;
    var rate := bytes * 1000 / ms;
    if intervals > 0 then AverageBounds(bytes, intervals); rate else rate
  }

  lemma AverageBounds(bytes: nat, n: nat)
    requires n > 0
    ensures var rate := bytes * 1000 / (1000 * n); rate * n <= bytes < (rate + 1) * n
  {
  }

  function Row(rates: map<nat, Rates>, pid: nat): Rates {
    if pid in rates then rates[pid] else Rates(0, 0)
  }

  lemma AverageOfNothing(n: nat)
    requires n > 0
    ensures Average(0, n) == 0
  {
  }

  function RatesOf(c: Accumulator): map<nat, Rates>
    requires c.count > 0
  {
    map pid | pid in c.rx.Keys + c.tx.Keys :: Rates(Average(At(c.rx, pid), c.count), Average(At(c.tx, pid), c.count))
  }

  /** Why a sample must fail, if it must. */
  predicate ReaderFailure(s: Shared, now: int, readerFinished: bool) {
    || s.output.Failed? || s.output.Closed? || readerFinished
    || (s.lastIntervalAt.Some? && now - s.lastIntervalAt.value > INTERVAL_LIVENESS)
    || (s.lastIntervalAt.None? && now - s.startedAt > STARTUP_LIVENESS)
  }

  function Sampled(s: Shared, now: int, readerFinished: bool): (Shared, Sample) {
    if ReaderFailure(s, now, readerFinished) then (s, Broken)
    else if s.completed.count == 0 then (s, Held)
    else (s.(completed := EMPTY), Ready(s.completed.count, RatesOf(s.completed)))
  }

  class SharedIntervals {
    var startedAt: int
    var lastIntervalAt: Option<int>
    var count: nat
    var rx: map<nat, nat>
    var tx: map<nat, nat>
    var quarantined: Option<Pending>
    var output: ReaderState

    ghost function State(): Shared
      reads this
    {
      Shared(startedAt, lastIntervalAt, Accumulator(count, rx, tx), quarantined, output)
    }

    /** A drained accumulator has empty maps. */
    ghost predicate Valid()
      reads this
    {
      count == 0 ==> rx == map[] && tx == map[]
    }

    constructor (now: int)
      ensures Valid() && State() == Shared(now, None, EMPTY, None, Starting)
    {
      startedAt, lastIntervalAt, quarantined, output := now, None, None, Starting;
      count, rx, tx := 0, map[], map[];
    }

    /** Drains `from` into a copy of `into`. */
    method Merge(into: map<nat, nat>, from: map<nat, nat>) returns (sum: map<nat, nat>)
      ensures sum == AddMaps(into, from)
    {
      sum := into;
      var todo := from.Keys;
      while todo != {}
        invariant todo <= from.Keys
        invariant sum.Keys == into.Keys + (from.Keys - todo)
        invariant forall pid :: pid in sum ==>
                    sum[pid] == At(into, pid) + if pid in todo then 0 else At(from, pid)
        decreases todo
      {
        var pid :| pid in todo;
        sum := sum[pid := (if pid in sum then sum[pid] else 0) + from[pid]];
        todo := todo - {pid};
      }
    }

    method Push(p: Pending)
      requires Valid()
      modifies this`count, this`rx, this`tx
      ensures Valid() && Accumulator(count, rx, tx) == Pushed(old(State()).completed, p)
    {
      count := count + 1;
      rx := Merge(rx, p.rx);
      tx := Merge(tx, p.tx);
    }

    method AcceptInterval(p: Pending, now: int)
      requires Valid()
      modifies this
      ensures Valid() && State() == Accepted(old(State()), p, now)
    {
      var eligible := quarantined;
      quarantined := Some(p);
      if eligible.Some? {
        Push(eligible.value);
      }
      lastIntervalAt := Some(now);
    }

    method MarkClosed()
      modifies this`output
      ensures output == if old(output).Failed? then Failed else Closed
    {
      if !output.Failed? {
        output := Closed;
      }
    }

    /** The rates of the received bytes alone. */
    method ReceivedRates(n: nat) returns (rates: map<nat, Rates>)
      requires n > 0
      ensures rates.Keys == rx.Keys
      ensures forall pid :: pid in rates ==> rates[pid] == Rates(Average(rx[pid], n), 0)
    {
      rates := map[];
      var todo := rx.Keys;
      while todo != {}
        invariant todo <= rx.Keys && rates.Keys == rx.Keys - todo
        invariant forall pid :: pid in rates ==> rates[pid] == Rates(Average(rx[pid], n), 0)
        decreases todo
      {
        var pid :| pid in todo;
        rates := rates[pid := Rates(Average(rx[pid], n), 0)];
        todo := todo - {pid};
      }
    }

    /** Adds the rates of the transmitted bytes. */
    method WithTransmitted(received: map<nat, Rates>, n: nat) returns (rates: map<nat, Rates>)
      requires n > 0
      ensures rates.Keys == received.Keys + tx.Keys
      ensures forall pid :: pid in rates ==>
                rates[pid] == Row(received, pid).(tx := if pid in tx then Average(tx[pid], n) else Row(received, pid).tx)
    {
      rates := received;
      var todo := tx.Keys;
      while todo != {}
        invariant todo <= tx.Keys && rates.Keys == received.Keys + (tx.Keys - todo)
        invariant forall pid :: pid in rates ==>
                    rates[pid] == Row(received, pid).(
                      tx := if pid in tx && pid !in todo then Average(tx[pid], n) else Row(received, pid).tx)
        decreases todo
      {
        var pid :| pid in todo;
        rates := rates[pid := Row(rates, pid).(tx := Average(tx[pid], n))];
        todo := todo - {pid};
      }
    }

    method TakeRates() returns (rates: Option<(nat, map<nat, Rates>)>)
      requires Valid()
      modifies this`count, this`rx, this`tx
      ensures Valid() && Accumulator(count, rx, tx) == EMPTY
      ensures old(count) == 0 ==> rates.None?
      ensures old(count) > 0 ==> rates == Some((old(count), RatesOf(old(State()).completed)))
    {
      var n := count;
      if n == 0 {
        return None;
      }
      count := 0;
      var received := ReceivedRates(n);
      var all := WithTransmitted(received, n);
      AverageOfNothing(n);
      assert all == RatesOf(Accumulator(n, rx, tx));
      rx, tx := map[], map[];
      return Some((n, all));
    }

    method TakeSample(now: int, readerFinished: bool) returns (sample: Sample)
      requires Valid()
      modifies this`count, this`rx, this`tx
      ensures Valid() && (State(), sample) == Sampled(old(State()), now, readerFinished)
    {
      if output.Failed? || output.Closed? || readerFinished {
        return Broken;
      }
      if lastIntervalAt.Some? && now - lastIntervalAt.value > INTERVAL_LIVENESS {
        return Broken;
      }
      if lastIntervalAt.None? && now - startedAt > STARTUP_LIVENESS {
        return Broken;
      }
      var rates := TakeRates();
      if rates.None? {
        return Held;
      }
      return Ready(rates.value.0, rates.value.1);
    }
  }

  // ---- The reader and the sampler over whole runs ----

  /** `assembler` and `accepting` belong to the reader thread. */
  datatype System = System(assembler: Assembler, accepting: bool, stopped: bool, shared: Shared)

  datatype Op =
    | ReadLine(line: string, now: int)
    | EndOfFile
    | ReadError
    | TakeSample(now: int, readerFinished: bool)

  function Started(now: int): System {
    System(FRESH, true, false, Shared(now, None, EMPTY, None, Running))
  }

  predicate Refused(a: Assembler, line: string) {
    Decode(Fields(line)).None? || !Acceptable(a, Decode(Fields(line)).value)
  }

  function LineRead(s: System, line: string, now: int): System {
    if !s.accepting then s
    else if Refused(s.assembler, line) then s.(accepting := false, shared := s.shared.(output := Failed))
    else
      var l := Decode(Fields(line)).value;
      s.(assembler := Advanced(s.assembler, l),
         shared := if l.Marker? then Accepted(s.shared, s.assembler.pending, now) else s.shared)
  }

  function Step(s: System, op: Op): System {
    match op
    case TakeSample(now, finished) => s.(shared := Sampled(s.shared, now, finished).0)
    case ReadLine(line, now) => if s.stopped then s else LineRead(s, line, now)
    case EndOfFile =>
      if s.stopped then s
      else s.(stopped := true, shared := s.shared.(output := if s.shared.output.Failed? then Failed else Closed))
    case ReadError => if s.stopped then s else s.(stopped := true, shared := s.shared.(output := Failed))
  }

  function After(start: int, ops: seq<Op>): System {
    if ops == [] then Started(start) else Step(After(start, ops[..|ops| - 1]), ops[|ops| - 1])
  }

  /** The typed line, if this step feeds the assembler one it accepts. */
  function FedIn(s: System, op: Op): seq<Line> {
    if op.ReadLine? && !s.stopped && s.accepting && !Refused(s.assembler, op.line)
    then [Decode(Fields(op.line)).value] else []
  }

  function AcceptedIn(s: System, op: Op): seq<Pending> {
    if FedIn(s, op) != [] && FedIn(s, op)[0].Marker? then [s.assembler.pending] else []
  }

  function PublishedIn(s: System, op: Op): nat {
    if !op.TakeSample? then 0
    else
      var sample := Sampled(s.shared, op.now, op.readerFinished).1;
      if sample.Ready? then sample.intervals else 0
  }

  function FedBy(start: int, ops: seq<Op>): seq<Line> {
    if ops == [] then []
    else FedBy(start, ops[..|ops| - 1]) + FedIn(After(start, ops[..|ops| - 1]), ops[|ops| - 1])
  }

  /** The intervals accepted so far. */
  function AcceptedBy(start: int, ops: seq<Op>): seq<Pending> {
    if ops == [] then []
    else AcceptedBy(start, ops[..|ops| - 1]) + AcceptedIn(After(start, ops[..|ops| - 1]), ops[|ops| - 1])
  }

  /** How many of them samples have published. */
  function PublishedBy(start: int, ops: seq<Op>): nat {
    if ops == [] then 0
    else PublishedBy(start, ops[..|ops| - 1]) + PublishedIn(After(start, ops[..|ops| - 1]), ops[|ops| - 1])
  }

  /** The bytes of one process over a range of intervals. */
  function SumOver(ps: seq<Pending>, d: Direction, pid: nat): nat {
    if ps == [] then 0 else SumOver(ps[..|ps| - 1], d, pid) + At(Counts(ps[|ps| - 1], d), pid)
  }

  ghost predicate Holds(c: Accumulator, ps: seq<Pending>) {
    && c.count == |ps|
    && (forall pid :: At(c.rx, pid) == SumOver(ps, Rx, pid) && At(c.tx, pid) == SumOver(ps, Tx, pid))
  }

  lemma PushHolds(c: Accumulator, ps: seq<Pending>, p: Pending)
    requires Holds(c, ps)
    ensures Holds(Pushed(c, p), ps + [p])
  {
  }

  /** accepted == published, then accumulated, then the quarantined one. */
  ghost predicate Conserved(s: Shared, accepted: seq<Pending>, published: nat) {
    && published + s.completed.count + (if s.quarantined.Some? then 1 else 0) == |accepted|
    && (s.quarantined.Some? <==> accepted != [])
    && (accepted != [] ==> s.quarantined == Some(accepted[|accepted| - 1]))
    && Holds(s.completed, accepted[published..published + s.completed.count])
    && (s.completed.count == 0 ==> s.completed == EMPTY)
  }

  lemma AcceptConserves(s: Shared, p: Pending, now: int, accepted: seq<Pending>, published: nat)
    requires Conserved(s, accepted, published)
    ensures Conserved(Accepted(s, p, now), accepted + [p], published)
  {
    if s.quarantined.Some? {
      var n := published + s.completed.count;
      PushHolds(s.completed, accepted[published..n], s.quarantined.value);
      assert (accepted + [p])[published..n + 1] == accepted[published..n] + [accepted[n]];
    } else {
      assert (accepted + [p])[published..published] == accepted[published..published];
    }
  }

  lemma SampleConserves(s: Shared, now: int, finished: bool, accepted: seq<Pending>, published: nat)
    requires Conserved(s, accepted, published)
    ensures var (t, sample) := Sampled(s, now, finished);
            Conserved(t, accepted, published + if sample.Ready? then sample.intervals else 0)
  {
  }

  /** What a step does to the shared part, and what it accepts and publishes. */
  ghost predicate Effect(s: Shared, t: Shared, accepted: seq<Pending>, published: nat) {
    || (exists p, now :: accepted == [p] && published == 0 && t == Accepted(s, p, now))
    || (exists now, finished :: accepted == [] && SampledTo(s, now, finished, t, published))
    || (accepted == [] && published == 0 && t == s.(output := t.output))
  }

  predicate SampledTo(s: Shared, now: int, finished: bool, t: Shared, published: nat) {
    var (u, sample) := Sampled(s, now, finished);
    t == u && published == if sample.Ready? then sample.intervals else 0
  }

  lemma StepEffect(s: System, op: Op)
    ensures Effect(s.shared, Step(s, op).shared, AcceptedIn(s, op), PublishedIn(s, op))
  {
    if op.TakeSample? {
      assert SampledTo(s.shared, op.now, op.readerFinished, Step(s, op).shared, PublishedIn(s, op));
    } else if AcceptedIn(s, op) != [] {
      assert Step(s, op).shared == Accepted(s.shared, s.assembler.pending, op.now);
    }
  }

  lemma StepConserves(s: Shared, t: Shared, more: seq<Pending>, count: nat, accepted: seq<Pending>, published: nat)
    requires Conserved(s, accepted, published) && Effect(s, t, more, count)
    ensures Conserved(t, accepted + more, published + count)
  {
    assert accepted + [] == accepted;
    if p, now :| more == [p] && count == 0 && t == Accepted(s, p, now) {
      AcceptConserves(s, p, now, accepted, published);
    } else if now, finished :| more == [] && SampledTo(s, now, finished, t, count) {
      SampleConserves(s, now, finished, accepted, published);
    } else {
      OutputIrrelevant(s, t.output, accepted, published);
    }
  }

  lemma OutputIrrelevant(s: Shared, output: ReaderState, accepted: seq<Pending>, published: nat)
    requires Conserved(s, accepted, published)
    ensures Conserved(s.(output := output), accepted, published)
  {
  }

  lemma {:induction false} RunConserves(start: int, ops: seq<Op>)
    ensures Conserved(After(start, ops).shared, AcceptedBy(start, ops), PublishedBy(start, ops))
  {
    if ops != [] {
      var before := ops[..|ops| - 1];
      RunConserves(start, before);
      var s, op := After(start, before), ops[|ops| - 1];
      StepEffect(s, op);
      StepConserves(s.shared, Step(s, op).shared, AcceptedIn(s, op), PublishedIn(s, op),
                    AcceptedBy(start, before), PublishedBy(start, before));
    }
  }

  lemma {:induction false} SumOverSplits(ps: seq<Pending>, qs: seq<Pending>, d: Direction, pid: nat)
    ensures SumOver(ps + qs, d, pid) == SumOver(ps, d, pid) + SumOver(qs, d, pid)
  {
    if qs == [] {
      assert ps + qs == ps;
    } else {
      SumOverSplits(ps, qs[..|qs| - 1], d, pid);
      assert (ps + qs)[..|ps + qs| - 1] == ps + qs[..|qs| - 1];
    }
  }

  function Totals(c: Accumulator, d: Direction): map<nat, nat> { if d.Rx? then c.rx else c.tx }

  predicate Divides(s: Shared, accepted: seq<Pending>, published: nat, d: Direction, pid: nat) {
    && |accepted| == published + s.completed.count + (if s.quarantined.Some? then 1 else 0)
    && (published > 0 ==> published < |accepted|)
    && s.quarantined == (if accepted == [] then None else Some(accepted[|accepted| - 1]))
    && At(Totals(s.completed, d), pid) == SumOver(accepted[published..published + s.completed.count], d, pid)
    && SumOver(accepted, d, pid) ==
       SumOver(accepted[..published], d, pid) + At(Totals(s.completed, d), pid)
       + (if s.quarantined.Some? then At(Counts(s.quarantined.value, d), pid) else 0)
  }

  lemma SumOverThree(ps: seq<Pending>, published: nat, n: nat, d: Direction, pid: nat)
    requires published <= n <= |ps|
    ensures SumOver(ps, d, pid) ==
            SumOver(ps[..published], d, pid) + SumOver(ps[published..n], d, pid) + SumOver(ps[n..], d, pid)
  {
    assert ps == ps[..n] + ps[n..] && ps[..n] == ps[..published] + ps[published..n];
    SumOverSplits(ps[..n], ps[n..], d, pid);
    SumOverSplits(ps[..published], ps[published..n], d, pid);
  }

  lemma SumOverOne(p: Pending, d: Direction, pid: nat)
    ensures SumOver([p], d, pid) == At(Counts(p, d), pid)
  {
    assert [p][..0] == [];
  }

  lemma ConservedDivides(s: Shared, accepted: seq<Pending>, published: nat, d: Direction, pid: nat)
    requires Conserved(s, accepted, published)
    ensures Divides(s, accepted, published, d, pid)
  {
    var n := published + s.completed.count;
    SumOverThree(accepted, published, n, d, pid);
    if s.quarantined.Some? {
      assert accepted[n..] == [s.quarantined.value];
      SumOverOne(s.quarantined.value, d, pid);
    }
  }

  /** At every point of every run: accepted intervals are the published ones, then the
      accumulated ones, then the last one, which is quarantined; each process's bytes
      divide the same way; and an interval is published only after the next completed. */
  lemma QuarantineConserves(start: int, ops: seq<Op>, d: Direction, pid: nat)
    ensures Divides(After(start, ops).shared, AcceptedBy(start, ops), PublishedBy(start, ops), d, pid)
  {
    RunConserves(start, ops);
    ConservedDivides(After(start, ops).shared, AcceptedBy(start, ops), PublishedBy(start, ops), d, pid);
  }

  predicate Averages(rate: Rates, batch: seq<Pending>, pid: nat) {
    && rate.rx * |batch| <= SumOver(batch, Rx, pid) < (rate.rx + 1) * |batch|
    && rate.tx * |batch| <= SumOver(batch, Tx, pid) < (rate.tx + 1) * |batch|
  }

  lemma HeldAverages(c: Accumulator, batch: seq<Pending>, pid: nat)
    requires Holds(c, batch) && c.count > 0
    ensures Averages(Row(RatesOf(c), pid), batch, pid)
  {
    AverageOfNothing(c.count);
    assert At(c.rx, pid) == SumOver(batch, Rx, pid);
    assert Row(RatesOf(c), pid) == Rates(Average(At(c.rx, pid), c.count), Average(At(c.tx, pid), c.count));
  }

  /** A process missing from the rates is one with rate zero. */
  predicate SampleIsExact(sample: Sample, accepted: seq<Pending>, from: nat, pid: nat)
    requires sample.Ready?
  {
    && 0 < sample.intervals && from + sample.intervals < |accepted|
    && Averages(Row(sample.rates, pid), accepted[from..from + sample.intervals], pid)
  }

  lemma ConservedSample(s: Shared, accepted: seq<Pending>, published: nat, now: int, finished: bool, pid: nat)
    requires Conserved(s, accepted, published) && Sampled(s, now, finished).1.Ready?
    ensures SampleIsExact(Sampled(s, now, finished).1, accepted, published, pid)
  {
    HeldAverages(s.completed, accepted[published..published + s.completed.count], pid);
  }

  /** A Ready sample averages exactly the intervals after the published ones, all but the
      quarantined last one, rounding down, for every process whether listed or not. */
  lemma SampleAverages(start: int, ops: seq<Op>, now: int, finished: bool, pid: nat)
    requires Sampled(After(start, ops).shared, now, finished).1.Ready?
    ensures SampleIsExact(Sampled(After(start, ops).shared, now, finished).1,
                          AcceptedBy(start, ops), PublishedBy(start, ops), pid)
    ensures PublishedBy(start, ops) + Sampled(After(start, ops).shared, now, finished).1.intervals + 1 ==
            |AcceptedBy(start, ops)|
  {
    RunConserves(start, ops);
    ConservedSample(After(start, ops).shared, AcceptedBy(start, ops), PublishedBy(start, ops), now, finished, pid);
  }

  lemma StepFeeds(s: System, op: Op, fed: seq<Line>, accepted: seq<Pending>)
    requires Feed(FRESH, fed) == Some((s.assembler, accepted))
    ensures Feed(FRESH, fed + FedIn(s, op)) == Some((Step(s, op).assembler, accepted + AcceptedIn(s, op)))
  {
    assert fed + [] == fed && accepted + [] == accepted;
    if FedIn(s, op) != [] {
      var l := FedIn(s, op)[0];
      assert (fed + [l])[..|fed + [l]| - 1] == fed;
    }
  }

  /** The intervals accepted from raw text are exactly those of a well-formed
      transcript: header, then intervals 1, 2, 3, ... with matching counts and totals. */
  lemma {:induction false} AcceptedIsTranscript(start: int, ops: seq<Op>)
    ensures Feed(FRESH, FedBy(start, ops)) == Some((After(start, ops).assembler, AcceptedBy(start, ops)))
  {
    if ops != [] {
      var before := ops[..|ops| - 1];
      AcceptedIsTranscript(start, before);
      StepFeeds(After(start, before), ops[|ops| - 1], FedBy(start, before), AcceptedBy(start, before));
    }
  }

  predicate Dead(s: System) {
    (s.shared.output.Failed? || s.shared.output.Closed?) && (s.stopped || !s.accepting)
  }

  lemma DeadStaysDead(s: System, op: Op)
    requires Dead(s)
    ensures Dead(Step(s, op)) && AcceptedIn(s, op) == [] && PublishedIn(s, op) == 0
  {
  }

  lemma DeadSnoc(start: int, ops: seq<Op>, op: Op)
    requires Dead(After(start, ops))
    ensures Dead(After(start, ops + [op]))
    ensures AcceptedBy(start, ops + [op]) == AcceptedBy(start, ops)
    ensures PublishedBy(start, ops + [op]) == PublishedBy(start, ops)
  {
    assert (ops + [op])[..|ops|] == ops;
    DeadStaysDead(After(start, ops), op);
  }

  lemma {:induction false} NothingAfterDeath(start: int, ops: seq<Op>, more: seq<Op>)
    requires Dead(After(start, ops))
    ensures Dead(After(start, ops + more))
    ensures AcceptedBy(start, ops + more) == AcceptedBy(start, ops)
    ensures PublishedBy(start, ops + more) == PublishedBy(start, ops)
  {
    if more == [] {
      assert ops + more == ops;
    } else {
      var init := more[..|more| - 1];
      NothingAfterDeath(start, ops, init);
      assert ops + more == (ops + init) + [more[|more| - 1]];
      DeadSnoc(start, ops + init, more[|more| - 1]);
    }
  }

  /** A line the assembler must refuse, a read error, or the end of the output. */
  predicate EndsProtocol(s: System, op: Op) {
    !s.stopped && (op.EndOfFile? || op.ReadError? || (op.ReadLine? && s.accepting && Refused(s.assembler, op.line)))
  }

  /** The first refused line, read error or end of output is final: whatever follows,
      no interval is accepted or published from there on, not even the quarantined and
      accumulated ones, and every sample fails. */
  lemma ErrorIsFinal(start: int, ops: seq<Op>, op: Op, more: seq<Op>, now: int, finished: bool)
    requires EndsProtocol(After(start, ops), op)
    ensures AcceptedBy(start, ops + [op] + more) == AcceptedBy(start, ops)
    ensures PublishedBy(start, ops + [op] + more) == PublishedBy(start, ops)
    ensures Sampled(After(start, ops + [op] + more).shared, now, finished).1.Broken?
  {
    assert (ops + [op])[..|ops|] == ops;
    NothingAfterDeath(start, ops + [op], more);
  }

  // ---- Which answer a sample gives ----

  /** Some operation of the run ended the protocol. */
  ghost predicate ProtocolEnded(start: int, ops: seq<Op>) {
    exists i :: 0 <= i < |ops| && EndsProtocol(After(start, ops[..i]), ops[i])
  }

  /** When the read that accepted the last interval happened. */
  function LastAcceptedAt(start: int, ops: seq<Op>): Option<int> {
    if ops == [] then None
    else
      var before, op := ops[..|ops| - 1], ops[|ops| - 1];
      if op.ReadLine? && AcceptedIn(After(start, before), op) != [] then Some(op.now) else LastAcceptedAt(start, before)
  }

  /** No interval for more than three seconds, or none at all for more than ten. */
  predicate Stalled(start: int, ops: seq<Op>, now: int) {
    var last := LastAcceptedAt(start, ops);
    if last.Some? then now > last.value + 3_000 else now > start + 10_000
  }

  predicate OutputOver(s: System) { s.shared.output.Failed? || s.shared.output.Closed? }

  lemma StepOutput(s: System, op: Op)
    requires OutputOver(s) <==> s.stopped || !s.accepting
    ensures OutputOver(Step(s, op)) <==> Step(s, op).stopped || !Step(s, op).accepting
    ensures OutputOver(Step(s, op)) <==> OutputOver(s) || EndsProtocol(s, op)
    ensures Step(s, op).shared.startedAt == s.shared.startedAt
    ensures Step(s, op).shared.lastIntervalAt ==
            if op.ReadLine? && AcceptedIn(s, op) != [] then Some(op.now) else s.shared.lastIntervalAt
  {
  }

  lemma EndedSnoc(start: int, before: seq<Op>, op: Op)
    ensures ProtocolEnded(start, before + [op]) <==> ProtocolEnded(start, before) || EndsProtocol(After(start, before), op)
  {
    var ops, n := before + [op], |before|;
    assert ops[..n] == before && ops[n] == op;
    assert forall i :: 0 <= i < n ==> ops[..i] == before[..i] && ops[i] == before[i];
    if ProtocolEnded(start, ops) {
      var i :| 0 <= i < |ops| && EndsProtocol(After(start, ops[..i]), ops[i]);
      if i < n { assert EndsProtocol(After(start, before[..i]), before[i]); }
    }
    if ProtocolEnded(start, before) {
      var i :| 0 <= i < n && EndsProtocol(After(start, before[..i]), before[i]);
      assert EndsProtocol(After(start, ops[..i]), ops[i]);
    } else if EndsProtocol(After(start, before), op) {
      assert EndsProtocol(After(start, ops[..n]), ops[n]);
    }
  }

  lemma {:induction false} OutputTracked(start: int, ops: seq<Op>)
    ensures var s := After(start, ops);
            && (OutputOver(s) <==> ProtocolEnded(start, ops)) && (OutputOver(s) <==> s.stopped || !s.accepting)
            && s.shared.startedAt == start && s.shared.lastIntervalAt == LastAcceptedAt(start, ops)
  {
    if ops != [] {
      var before, op := ops[..|ops| - 1], ops[|ops| - 1];
      OutputTracked(start, before);
      StepOutput(After(start, before), op);
      EndedSnoc(start, before, op);
      assert ops == before + [op];
    }
  }

  /** Over every run a sample fails exactly when the protocol has ended, the reader is
      reported finished, or intervals have stopped coming; otherwise it is Ready exactly
      when some accepted interval but the last is not published yet, and else Held. */
  lemma SampleAnswerExact(start: int, ops: seq<Op>, now: int, finished: bool)
    ensures var sample := Sampled(After(start, ops).shared, now, finished).1;
            if ProtocolEnded(start, ops) || finished || Stalled(start, ops, now) then sample.Broken?
            else if PublishedBy(start, ops) + 1 < |AcceptedBy(start, ops)| then sample.Ready?
            else sample.Held?
  {
    OutputTracked(start, ops);
    RunConserves(start, ops);
  }

  // ---- From printed maps to accepted intervals ----

  /** A run in which the reader gets printed lines and samples come at any time. */
  datatype Cue = Printed(line: Line, now: int) | Sampling(now: int, readerFinished: bool)

  function OpOf(c: Cue): Op {
    if c.Printed? then ReadLine(Print(c.line), c.now) else TakeSample(c.now, c.readerFinished)
  }

  function Played(script: seq<Cue>): seq<Op> {
    if script == [] then [] else Played(script[..|script| - 1]) + [OpOf(script[|script| - 1])]
  }

  function LinesOf(script: seq<Cue>): seq<Line> {
    if script == [] then []
    else LinesOf(script[..|script| - 1]) + if script[|script| - 1].Printed? then [script[|script| - 1].line] else []
  }

  lemma LineFed(s: System, l: Line, now: int)
    requires s.accepting && !s.stopped && Printable(l) && Acceptable(s.assembler, l)
    ensures var op := ReadLine(Print(l), now);
            FedIn(s, op) == [l] && Step(s, op).accepting && !Step(s, op).stopped
  {
    LineRoundTrip(l);
  }

  /** The reader has taken in exactly these lines and goes on. */
  predicate Took(start: int, ops: seq<Op>, lines: seq<Line>) {
    FedBy(start, ops) == lines && After(start, ops).accepting && !After(start, ops).stopped
  }

  lemma PrintExtends(start: int, before: seq<Op>, op: Op, init: seq<Line>, l: Line)
    requires Took(start, before, init) && Printable(l) && Acceptable(After(start, before).assembler, l)
    requires op.ReadLine? && op.line == Print(l)
    ensures Took(start, before + [op], init + [l])
  {
    assert (before + [op])[..|before|] == before;
    LineFed(After(start, before), l, op.now);
  }

  lemma SampleExtends(start: int, before: seq<Op>, op: Op, lines: seq<Line>)
    requires Took(start, before, lines) && op.TakeSample?
    ensures Took(start, before + [op], lines)
  {
    assert (before + [op])[..|before|] == before && lines + [] == lines;
  }

  lemma FedPrefix(init: seq<Line>, l: Line)
    requires Feed(FRESH, init + [l]).Some?
    ensures Feed(FRESH, init).Some? && Acceptable(Feed(FRESH, init).value.0, l)
  {
    assert (init + [l])[..|init|] == init;
  }

  predicate AllPrintable(lines: seq<Line>) { forall l :: l in lines ==> Printable(l) }

  lemma {:induction false} PrintsReadBack(start: int, script: seq<Cue>)
    requires Feed(FRESH, LinesOf(script)).Some? && AllPrintable(LinesOf(script))
    ensures Took(start, Played(script), LinesOf(script))
  {
    if script != [] {
      var before, c := script[..|script| - 1], script[|script| - 1];
      if c.Printed? {
        FedPrefix(LinesOf(before), c.line);
        PrintsReadBack(start, before);
        AssemblerFed(start, Played(before), LinesOf(before));
        assert c.line in LinesOf(script);
        PrintExtends(start, Played(before), OpOf(c), LinesOf(before), c.line);
      } else {
        assert LinesOf(before) + [] == LinesOf(before);
        PrintsReadBack(start, before);
        SampleExtends(start, Played(before), OpOf(c), LinesOf(before));
      }
    }
  }

  lemma AssemblerFed(start: int, ops: seq<Op>, lines: seq<Line>)
    requires FedBy(start, ops) == lines
    ensures Feed(FRESH, lines).Some? && After(start, ops).assembler == Feed(FRESH, lines).value.0
  {
    AcceptedIsTranscript(start, ops);
  }

  predicate SmallPids(cs: seq<Count>) { forall i :: 0 <= i < |cs| ==> cs[i].pid <= MAX_U32 }

  predicate SmallInterval(i: Interval) { SmallPids(i.rx) && SmallPids(i.tx) }

  lemma {:induction false} EntryInSum(cs: seq<Count>, i: nat)
    requires i < |cs|
    ensures cs[i].bytes <= Sum(cs)
  {
    if i < |cs| - 1 {
      EntryInSum(cs[..|cs| - 1], i);
    }
  }

  lemma SectionPrintable(d: Direction, epoch: nat, cs: seq<Count>)
    requires WellFormed(cs) && SmallPids(cs) && epoch <= MAX_U64
    ensures AllPrintable(SectionLines(d, epoch, cs))
  {
    forall i | 0 <= i < |cs| ensures Printable(EntryLines(d, epoch, cs)[i]) { EntryInSum(cs, i); }
  }

  lemma {:induction false} TranscriptPrintable(intervals: seq<Interval>)
    requires |intervals| < MAX_U64
    requires forall k :: 0 <= k < |intervals| ==> WellFormedInterval(intervals[k]) && SmallInterval(intervals[k])
    ensures AllPrintable(Transcript(intervals))
  {
    if intervals != [] {
      var last := intervals[|intervals| - 1];
      TranscriptPrintable(intervals[..|intervals| - 1]);
      SectionPrintable(Rx, |intervals|, last.rx);
      SectionPrintable(Tx, |intervals|, last.tx);
    }
  }

  /** Printing any intervals and reading the text, with samples taken at any time in
      between, accepts exactly the intervals printed. */
  lemma PrintedIntervalsAccepted(start: int, script: seq<Cue>, intervals: seq<Interval>)
    requires |intervals| < MAX_U64
    requires forall k :: 0 <= k < |intervals| ==> WellFormedInterval(intervals[k]) && SmallInterval(intervals[k])
    requires LinesOf(script) == Transcript(intervals)
    ensures AcceptedBy(start, Played(script)) == AllPending(intervals)
  {
    TranscriptReadBack(intervals);
    TranscriptPrintable(intervals);
    PrintsReadBack(start, script);
    AcceptedIsTranscript(start, Played(script));
  }

  /** The sum of a map's values. */
  ghost function MapTotal(m: map<nat, nat>): nat
    decreases m.Keys
  {
    if pid :| pid in m then MapTotal(m - {pid}) + m[pid] else 0
  }

  lemma {:induction false} TotalWithout(m: map<nat, nat>, pid: nat)
    requires pid in m
    ensures MapTotal(m) == MapTotal(m - {pid}) + m[pid]
    decreases m.Keys
  {
    var x :| x in m && MapTotal(m) == MapTotal(m - {x}) + m[x];
    if x != pid {
      TotalWithout(m - {x}, pid);
      TotalWithout(m - {pid}, x);
      assert m - {x} - {pid} == m - {pid} - {x};
    }
  }

  lemma TotalWith(m: map<nat, nat>, pid: nat, bytes: nat)
    requires pid !in m
    ensures MapTotal(m[pid := bytes]) == MapTotal(m) + bytes && |m[pid := bytes]| == |m| + 1
  {
    TotalWithout(m[pid := bytes], pid);
    assert m[pid := bytes] - {pid} == m;
    assert m[pid := bytes].Keys == m.Keys + {pid};
  }

  /** All listings of one map have its total and its size. */
  lemma {:induction false} ListingTotal(cs: seq<Count>)
    requires Distinct(cs)
    ensures Sum(cs) == MapTotal(MapOf(cs)) && |cs| == |MapOf(cs)|
  {
    if cs != [] {
      var init, last := cs[..|cs| - 1], cs[|cs| - 1];
      ListingTotal(init);
      MapOfKeys(init, last.pid);
      TotalWith(MapOf(init), last.pid, last.bytes);
    }
  }

  /** Maps that the protocol can carry. */
  ghost predicate InRange(m: map<nat, nat>) {
    MapTotal(m) <= MAX_U64 && |m| <= MAX_U64 && forall pid :: pid in m ==> pid <= MAX_U32
  }

  /** Every map has a listing without repetition, well-formed exactly if the map is in range. */
  lemma EveryMapListed(m: map<nat, nat>) returns (cs: seq<Count>)
    ensures Distinct(cs) && MapOf(cs) == m
    ensures WellFormed(cs) && SmallPids(cs) <==> InRange(m)
  {
    cs := Listed(m);
    ListingTotal(cs);
    forall i | 0 <= i < |cs| ensures cs[i].pid in m { MapOfKeys(cs, cs[i].pid); }
    forall pid | pid in m ensures exists i :: 0 <= i < |cs| && cs[i].pid == pid { MapOfKeys(cs, pid); }
  }

  lemma {:induction false} Listed(m: map<nat, nat>) returns (cs: seq<Count>)
    ensures Distinct(cs) && MapOf(cs) == m
    decreases m.Keys
  {
    if pid :| pid in m {
      var rest := Listed(m - {pid});
      cs := rest + [Count(pid, m[pid])];
      assert cs[..|rest|] == rest;
      forall i | 0 <= i < |rest| ensures rest[i].pid != pid { MapOfKeys(rest, rest[i].pid); }
      assert (m - {pid})[pid := m[pid]] == m;
    } else {
      cs := [];
      assert m == map[];
    }
  }

  predicate Carried(i: Interval) { WellFormedInterval(i) && SmallInterval(i) }

  lemma {:induction false} AnyMapsListed(maps: seq<Pending>) returns (intervals: seq<Interval>)
    requires forall k :: 0 <= k < |maps| ==> InRange(maps[k].rx) && InRange(maps[k].tx)
    ensures AllPending(intervals) == maps && forall k :: 0 <= k < |intervals| ==> Carried(intervals[k])
  {
    intervals := [];
    if maps != [] {
      var init, last := maps[..|maps| - 1], maps[|maps| - 1];
      var before := AnyMapsListed(init);
      var rx := EveryMapListed(last.rx);
      var tx := EveryMapListed(last.tx);
      intervals := before + [Interval(rx, tx)];
      assert AllPending(intervals) == AllPending(before) + [last];
    }
  }

  /** Any maps in range can be printed, and whoever reads the text, with samples at any
      time in between, accepts exactly those maps. */
  lemma AnyMapsAccepted(maps: seq<Pending>) returns (lines: seq<Line>)
    requires |maps| < MAX_U64 && forall k :: 0 <= k < |maps| ==> InRange(maps[k].rx) && InRange(maps[k].tx)
    ensures forall start, script :: LinesOf(script) == lines ==> AcceptedBy(start, Played(script)) == maps
  {
    var intervals := AnyMapsListed(maps);
    lines := Transcript(intervals);
    assert |AllPending(intervals)| == |intervals|;
    forall start, script | LinesOf(script) == lines
      ensures AcceptedBy(start, Played(script)) == maps
    {
      assert forall k :: 0 <= k < |intervals| ==> Carried(intervals[k]);
      PrintedIntervalsAccepted(start, script, intervals);
    }
  }
}
