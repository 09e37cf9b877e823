/** What a collector session adds up to (macos_network.rs): which committed event
    decides each source, where every byte goes, and what a Ready sample promises. */
module NStatLedger {
  import opened Basics
  import opened NStatEngine
  import opened NStatSession

  // ---- The newest event decides ----

  function CommittedBy(s: State, op: Op): seq<Ordered> {
    if s.shared.failed || !s.finishing.Nothing? then []
    else if op.Event? && op.context == 0 then [Direct(s, op.event)]
    else if op.Answered? && s.query.Some? && s.query.value.context == op.context then s.query.value.events
    else []
  }

  /** Every event committed in the current session, in commit order. */
  function History(start: int, ops: seq<Op>): seq<Ordered> {
    if ops == [] then []
    else
      var before, op := ops[..|ops| - 1], ops[|ops| - 1];
      var s := After(start, before, true);
      if Restarts(s, op) then [] else History(start, before) + CommittedBy(s, op)
  }

  /** The committed event about `k` with the highest order. */
  function Newest(h: seq<Ordered>, k: SourceRef): Option<Ordered> {
    if h == [] then None
    else
      var rest, o := Newest(h[..|h| - 1], k), h[|h| - 1];
      if RefOf(o.event) == k && (rest.None? || Before(rest.value.order, o.order)) then Some(o) else rest
  }

  lemma {:induction false} NewestIsNewest(h: seq<Ordered>, k: SourceRef)
    ensures Newest(h, k).None? ==> forall o :: o in h ==> RefOf(o.event) != k
    ensures Newest(h, k).Some? ==>
              && Newest(h, k).value in h && RefOf(Newest(h, k).value.event) == k
              && forall o :: o in h && RefOf(o.event) == k ==> !Before(Newest(h, k).value.order, o.order)
  {
    if h != [] {
      NewestIsNewest(h[..|h| - 1], k);
      assert h == h[..|h| - 1] + [h[|h| - 1]];
    }
  }

  predicate DecidedBy(e: Engine, k: SourceRef, newest: Option<Ordered>) {
    if newest.None? then k !in e.last && k !in e.sources
    else
      && k in e.last && e.last[k] == newest.value.order
      && (match StateAfter(newest.value.event)
          case None => k !in e.sources
          case Some(st) => k in e.sources && e.sources[k] == st)
  }

  ghost predicate Reflects(e: Engine, h: seq<Ordered>) {
    forall k :: DecidedBy(e, k, Newest(h, k))
  }

  lemma EventReflected(e: Engine, h: seq<Ordered>, o: Ordered)
    requires Reflects(e, h)
    ensures Reflects(EngineAfter(e, o), h + [o])
  {
  }

  lemma {:induction false} BatchReflected(e: Engine, h: seq<Ordered>, events: seq<Ordered>)
    requires Reflects(e, h)
    ensures Reflects(EngineAfterAll(e, events), h + events)
  {
    if events == [] {
      assert h + events == h;
    } else {
      var before, o := events[..|events| - 1], events[|events| - 1];
      BatchReflected(e, h, before);
      EventReflected(EngineAfterAll(e, before), h + before, o);
      assert (h + before) + [o] == h + events;
    }
  }

  predicate Restarts(s: State, op: Op) { op.Restart? && s.shared.failed }

  /** Apart from restarts, a step changes the sources only by its commit. */
  lemma StepCommits(s: State, op: Op, prune: bool)
    requires !Restarts(s, op)
    ensures var e, c := Step(s, op, prune).engine, EngineAfterAll(s.engine, CommittedBy(s, op));
            e.sources == c.sources && (!prune ==> e.last == c.last) && (c.baseline ==> e.baseline)
  {
    assert EngineAfterAll(s.engine, []) == s.engine;
  }

  lemma StepReflected(s: State, h: seq<Ordered>, op: Op)
    requires Reflects(s.engine, h)
    ensures Reflects(Step(s, op, false).engine,
                     if Restarts(s, op) then [] else h + CommittedBy(s, op))
  {
    if !Restarts(s, op) {
      var committed := CommittedBy(s, op);
      StepCommits(s, op, false);
      BatchReflected(s.engine, h, committed);
      var e, c := Step(s, op, false).engine, EngineAfterAll(s.engine, committed);
      forall k ensures DecidedBy(e, k, Newest(h + committed, k)) {
        assert DecidedBy(c, k, Newest(h + committed, k));
      }
    }
  }

  lemma {:induction false} ReferenceReflects(start: int, ops: seq<Op>)
    ensures Reflects(After(start, ops, false).engine, History(start, ops))
  {
    if ops != [] {
      var before, op := ops[..|ops| - 1], ops[|ops| - 1];
      ReferenceReflects(start, before);
      PruningIsInvisible(start, before);
      StepReflected(After(start, before, false), History(start, before), op);
    }
  }

  /** Over every run: a source is there exactly if its highest-order committed event is an
      update that did not close it, with the process and the counters of that update,
      whatever order the events were committed in. */
  lemma NewestEventDecides(start: int, ops: seq<Op>, k: SourceRef)
    ensures var sources := After(start, ops, true).engine.sources;
            var newest := Newest(History(start, ops), k);
            if newest.Some? && newest.value.event.Updated? && !newest.value.event.update.closing
            then
              var u := newest.value.event.update;
              k in sources && sources[k] == SourceState(u.process, u.rx, u.tx)
            else k !in sources
    ensures var newest := Newest(History(start, ops), k);
            newest.Some? ==>
              forall o :: o in History(start, ops) && RefOf(o.event) == k ==> !Before(newest.value.order, o.order)
  {
    PruningIsInvisible(start, ops);
    ReferenceReflects(start, ops);
    NewestIsNewest(History(start, ops), k);
    assert DecidedBy(After(start, ops, false).engine, k, Newest(History(start, ops), k));
  }

  predicate DistinctOrders(h: seq<Ordered>) {
    forall i, j :: 0 <= i < j < |h| ==> h[i].order != h[j].order
  }

  /** What a history must satisfy for the next commits to bring new orders. */
  predicate Spent(s: State, h: seq<Ordered>) {
    DistinctOrders(h) &&
    forall o :: o in h ==> o.order.epoch <= s.nextEpoch && (s.query.Some? ==> o.order.epoch != s.query.value.epoch)
  }

  lemma StepSpends(s: State, h: seq<Ordered>, op: Op)
    requires Spent(s, h) && OrdersBounded(s)
    ensures Spent(Step(s, op, true), if Restarts(s, op) then [] else h + CommittedBy(s, op))
  {
    var committed := CommittedBy(s, op);
    forall i, j | 0 <= i < j < |h + committed| ensures (h + committed)[i].order != (h + committed)[j].order {
      assert i < |h| ==> h[i] in h;
    }
  }

  /** No two committed events share an order, so the newest one is unique. */
  lemma {:induction false} OrdersAreDistinct(start: int, ops: seq<Op>)
    ensures Spent(After(start, ops, true), History(start, ops))
  {
    if ops != [] {
      var before := ops[..|ops| - 1];
      OrdersAreDistinct(start, before);
      PruningIsInvisible(start, before);
      StepSpends(After(start, before, true), History(start, before), ops[|ops| - 1]);
    }
  }

  // ---- Every commit of the run ----

  /** A committed event, the engine it met and the bill it produced. */
  datatype Commit = Commit(engine: Engine, event: Ordered, bill: Option<Bill>)

  function CommitOf(e: Engine, o: Ordered): Commit { Commit(e, o, BillAfter(e, o)) }

  function Commits(e: Engine, events: seq<Ordered>): seq<Commit> {
    if events == [] then []
    else
      var before := events[..|events| - 1];
      Commits(e, before) + [CommitOf(EngineAfterAll(e, before), events[|events| - 1])]
  }

  /** All commits of all sessions, in order. */
  function Trace(start: int, ops: seq<Op>): seq<Commit> {
    if ops == [] then []
    else
      var before := ops[..|ops| - 1];
      var s := After(start, before, true);
      Trace(start, before) + Commits(s.engine, CommittedBy(s, ops[|ops| - 1]))
  }

  /** Received or transmitted bytes. */
  datatype Side = Rx | Tx

  function Bytes(r: Rates, d: Side): nat { if d.Rx? then r.rx else r.tx }

  function SourceShare(bill: Option<Bill>, k: SourceRef, d: Side): nat {
    if bill.Some? && bill.value.source == k then Bytes(Rates(bill.value.rx, bill.value.tx), d) else 0
  }

  function ProcessShare(bill: Option<Bill>, p: Process, d: Side): nat {
    if bill.Some? && bill.value.process == p then Bytes(Rates(bill.value.rx, bill.value.tx), d) else 0
  }

  /** The bytes billed for a source by the commits from position `from` on. */
  function BilledTo(tr: seq<Commit>, k: SourceRef, d: Side, from: nat): nat {
    if |tr| <= from then 0
    else BilledTo(tr[..|tr| - 1], k, d, from) + SourceShare(tr[|tr| - 1].bill, k, d)
  }

  /** The bytes charged to a process by the commits from position `from` on. */
  function ChargedTo(tr: seq<Commit>, p: Process, d: Side, from: nat): nat {
    if |tr| <= from then 0
    else ChargedTo(tr[..|tr| - 1], p, d, from) + ProcessShare(tr[|tr| - 1].bill, p, d)
  }

  // ---- Per source: billed bytes telescope ----

  /** The event was not stale and is about `k`. */
  predicate Applies(c: Commit, k: SourceRef) { !Stale(c.engine, c.event) && RefOf(c.event.event) == k }

  predicate Untouched(tr: seq<Commit>, k: SourceRef, from: nat, to: nat) {
    forall j :: from <= j < to && j < |tr| ==> !Applies(tr[j], k)
  }

  predicate Updates(c: Commit, k: SourceRef) { Applies(c, k) && c.event.event.Updated? }

  /** Every update applied to `k` from `from` on keeps its identity, and no counter falls. */
  predicate Clean(tr: seq<Commit>, k: SourceRef, from: nat) {
    forall j :: from <= j < |tr| && Updates(tr[j], k) ==>
      !GenerationChanged(tr[j].engine, tr[j].event.event.update) && !Regressed(tr[j].engine, tr[j].event.event.update)
  }

  /** `k` is not opened again after it was there, or was updated or removed, since `from`. */
  predicate NotReopened(tr: seq<Commit>, k: SourceRef, from: nat) {
    forall j :: from <= j < |tr| && Updates(tr[j], k) ==> k in tr[j].engine.sources || Untouched(tr, k, from, j)
  }

  /** The counter of the last update applied to `k` from `from` on, or `base`. */
  function LastCounter(tr: seq<Commit>, k: SourceRef, d: Side, from: nat, base: nat): nat {
    if |tr| <= from then base
    else
      var c := tr[|tr| - 1];
      if Updates(c, k) then CounterOf(c.event.event.update, d)
      else LastCounter(tr[..|tr| - 1], k, d, from, base)
  }

  function CounterOf(u: Update, d: Side): nat { Bytes(Rates(u.rx, u.tx), d) }

  function CounterIn(e: Engine, k: SourceRef, d: Side): nat {
    if k in e.sources then Bytes(Rates(e.sources[k].rx, e.sources[k].tx), d) else 0
  }

  /** Where the counters of earlier openings of `k` had got to when it was opened again. */
  function Retired(tr: seq<Commit>, k: SourceRef, d: Side, from: nat, base: nat): nat {
    if |tr| <= from then 0
    else
      var init, c := tr[..|tr| - 1], tr[|tr| - 1];
      Retired(init, k, d, from, base) +
      if Updates(c, k) && k !in c.engine.sources then LastCounter(init, k, d, from, base) else 0
  }

  predicate Telescoped(tr: seq<Commit>, e: Engine, k: SourceRef, d: Side, from: nat, base: nat) {
    var last, retired := LastCounter(tr, k, d, from, base), Retired(tr, k, d, from, base);
    && base + BilledTo(tr, k, d, from) == retired + last
    && (NotReopened(tr, k, from) ==> retired == 0)
    && (k in e.sources ==> CounterIn(e, k, d) == last)
    && (k !in e.sources && Untouched(tr, k, from, |tr|) ==> last == 0)
  }

  lemma CleanPrefix(tr: seq<Commit>, c: Commit, k: SourceRef, from: nat)
    ensures Clean(tr + [c], k, from) ==> Clean(tr, k, from)
    ensures NotReopened(tr + [c], k, from) ==> NotReopened(tr, k, from)
  {
    var all := tr + [c];
    assert forall j :: 0 <= j < |tr| ==> all[j] == tr[j];
    if NotReopened(all, k, from) {
      forall j | from <= j < |tr| && Updates(tr[j], k)
        ensures k in tr[j].engine.sources || Untouched(tr, k, from, j)
      {
        assert Updates(all[j], k);
        if Untouched(all, k, from, j) {
          forall i | from <= i < j ensures !Applies(tr[i], k) { assert all[i] == tr[i]; }
        }
      }
    }
  }

  lemma UntouchedPrefix(tr: seq<Commit>, c: Commit, k: SourceRef, from: nat)
    ensures Untouched(tr + [c], k, from, |tr|) ==> Untouched(tr, k, from, |tr|)
  {
    forall j | Untouched(tr + [c], k, from, |tr|) && from <= j < |tr|
      ensures !Applies(tr[j], k)
    {
      assert (tr + [c])[j] == tr[j];
    }
  }

  lemma AppliedUpdate(e: Engine, o: Ordered, k: SourceRef, d: Side)
    requires e.baseline && Updates(CommitOf(e, o), k)
    requires !GenerationChanged(e, o.event.update) && !Regressed(e, o.event.update)
    ensures SourceShare(BillAfter(e, o), k, d) + CounterIn(e, k, d) == CounterOf(o.event.update, d)
    ensures k in EngineAfter(e, o).sources ==> CounterIn(EngineAfter(e, o), k, d) == CounterOf(o.event.update, d)
  {
  }

  lemma NoUpdate(e: Engine, o: Ordered, k: SourceRef, d: Side)
    requires !Updates(CommitOf(e, o), k)
    ensures SourceShare(BillAfter(e, o), k, d) == 0
    ensures k in EngineAfter(e, o).sources ==> k in e.sources && CounterIn(EngineAfter(e, o), k, d) == CounterIn(e, k, d)
    ensures !Applies(CommitOf(e, o), k) ==> (k in EngineAfter(e, o).sources <==> k in e.sources)
  {
  }

  lemma EventTelescopes(tr: seq<Commit>, e: Engine, o: Ordered, k: SourceRef, d: Side, from: nat, base: nat)
    requires from <= |tr| && e.baseline && Telescoped(tr, e, k, d, from, base)
    requires Clean(tr + [CommitOf(e, o)], k, from)
    ensures Telescoped(tr + [CommitOf(e, o)], EngineAfter(e, o), k, d, from, base)
  {
    var c := CommitOf(e, o);
    var all := tr + [c];
    assert all[..|all| - 1] == tr && all[|tr|] == c;
    UntouchedPrefix(tr, c, k, from);
    CleanPrefix(tr, c, k, from);
    if Updates(c, k) {
      AppliedUpdate(e, o, k, d);
      assert !Untouched(all, k, from, |all|);
    } else {
      NoUpdate(e, o, k, d);
      if Applies(c, k) { assert !Untouched(all, k, from, |all|); }
      assert Untouched(all, k, from, |all|) ==> Untouched(all, k, from, |tr|);
    }
  }

  lemma {:induction false} BatchTelescopes(tr: seq<Commit>, e: Engine, events: seq<Ordered>, k: SourceRef, d: Side,
                                           from: nat, base: nat)
    requires from <= |tr| && e.baseline && Telescoped(tr, e, k, d, from, base)
    requires Clean(tr + Commits(e, events), k, from)
    ensures Telescoped(tr + Commits(e, events), EngineAfterAll(e, events), k, d, from, base)
    ensures EngineAfterAll(e, events).baseline
  {
    if events == [] {
      assert tr + Commits(e, events) == tr;
    } else {
      var before, o := events[..|events| - 1], events[|events| - 1];
      var mid := EngineAfterAll(e, before);
      assert tr + Commits(e, events) == (tr + Commits(e, before)) + [CommitOf(mid, o)];
      CleanPrefix(tr + Commits(e, before), CommitOf(mid, o), k, from);
      BatchTelescopes(tr, e, before, k, d, from, base);
      EventTelescopes(tr + Commits(e, before), mid, o, k, d, from, base);
    }
  }

  lemma SameSources(tr: seq<Commit>, e: Engine, f: Engine, k: SourceRef, d: Side, from: nat, base: nat)
    requires Telescoped(tr, e, k, d, from, base) && f.sources == e.sources
    ensures Telescoped(tr, f, k, d, from, base)
  {
  }

  lemma {:induction false} CleanBefore(tr: seq<Commit>, rest: seq<Commit>, k: SourceRef, from: nat)
    requires Clean(tr + rest, k, from)
    ensures Clean(tr, k, from)
  {
    if rest == [] {
      assert tr + rest == tr;
    } else {
      var init, last := rest[..|rest| - 1], rest[|rest| - 1];
      assert tr + rest == (tr + init) + [last];
      CleanPrefix(tr + init, last, k, from);
      CleanBefore(tr, init, k, from);
    }
  }

  /** From operation `n` on the session is the same one. */
  predicate OneSession(start: int, ops: seq<Op>, n: nat) {
    forall j :: n <= j < |ops| ==> !Restarts(After(start, ops[..j], true), ops[j])
  }

  lemma OneSessionBefore(start: int, ops: seq<Op>, n: nat)
    requires ops != [] && n < |ops| && OneSession(start, ops, n)
    ensures OneSession(start, ops[..|ops| - 1], n) && !Restarts(After(start, ops[..|ops| - 1], true), ops[|ops| - 1])
  {
    var before := ops[..|ops| - 1];
    forall j | n <= j < |before| ensures !Restarts(After(start, before[..j], true), before[j]) {
      assert before[..j] == ops[..j] && before[j] == ops[j];
    }
  }

  lemma {:induction false} TelescopesSince(start: int, ops: seq<Op>, n: nat, k: SourceRef, d: Side, from: nat, base: nat)
    requires n <= |ops| && After(start, ops[..n], true).engine.baseline && OneSession(start, ops, n)
    requires from == |Trace(start, ops[..n])| && base == CounterIn(After(start, ops[..n], true).engine, k, d)
    requires Clean(Trace(start, ops), k, from)
    ensures After(start, ops, true).engine.baseline && from <= |Trace(start, ops)|
    ensures Telescoped(Trace(start, ops), After(start, ops, true).engine, k, d, from, base)
    decreases |ops|
  {
    if n == |ops| {
      assert ops[..n] == ops;
    } else {
      var before, op := ops[..|ops| - 1], ops[|ops| - 1];
      assert before[..n] == ops[..n];
      OneSessionBefore(start, ops, n);
      var s := After(start, before, true);
      var committed := CommittedBy(s, op);
      CleanBefore(Trace(start, before), Commits(s.engine, committed), k, from);
      TelescopesSince(start, before, n, k, d, from, base);
      BatchTelescopes(Trace(start, before), s.engine, committed, k, d, from, base);
      StepCommits(s, op, true);
      SameSources(Trace(start, ops), EngineAfterAll(s.engine, committed), After(start, ops, true).engine, k, d, from, base);
    }
  }

  /** Per source, from any moment `n` after the end of the session's baseline (such as
      the operation that ended it): if every update applied to `k` since kept its
      identity and did not regress, the bytes billed for `k` since are its last applied
      counter minus its counter at `n`, which is zero if it was not there; a source
      opened again counts from zero once more. Other sources are irrelevant. */
  lemma SourceBytesTelescope(start: int, ops: seq<Op>, n: nat, k: SourceRef, d: Side)
    requires n <= |ops| && After(start, ops[..n], true).engine.baseline && OneSession(start, ops, n)
    requires Clean(Trace(start, ops), k, |Trace(start, ops[..n])|)
    ensures var base, from := CounterIn(After(start, ops[..n], true).engine, k, d), |Trace(start, ops[..n])|;
            var tr, e := Trace(start, ops), After(start, ops, true).engine;
            var last := LastCounter(tr, k, d, from, base);
            && BilledTo(tr, k, d, from) == Retired(tr, k, d, from, base) + last - base
            && (NotReopened(tr, k, from) ==> BilledTo(tr, k, d, from) == last - base)
            && (k in e.sources ==> last == CounterIn(e, k, d))
  {
    TelescopesSince(start, ops, n, k, d, |Trace(start, ops[..n])|, CounterIn(After(start, ops[..n], true).engine, k, d));
  }

  // ---- Per process: every byte is handed out, discarded or pending ----

  predicate Publishes(s: State, op: Op) {
    op.Sample? && (Sampled(s.shared, op.now).1.Ready? || Sampled(s.shared, op.now).1.Partial?)
  }

  /** A restart, and the end of a baseline, throw the pending interval away. */
  predicate Discards(s: State, op: Op) {
    Restarts(s, op) || (op.Concluded? && !s.shared.failed && s.finishing.EndingBaseline?)
  }

  function PendingIn(s: State, p: Process, d: Side): nat { Bytes(RatesIn(s.shared.interval, p), d) }

  /** The bytes a call of `sample` hands to its caller. */
  function Delivered(o: Outcome, p: Process, d: Side): nat {
    if o.Ready? || o.Partial? then Bytes(RatesIn(o.bytes, p), d) else 0
  }

  function DeliveredBy(s: State, op: Op, p: Process, d: Side): nat {
    if op.Sample? then Delivered(Sampled(s.shared, op.now).1, p, d) else 0
  }

  function HandedOut(start: int, ops: seq<Op>, p: Process, d: Side): nat {
    if ops == [] then 0
    else
      var before := ops[..|ops| - 1];
      var s := After(start, before, true);
      HandedOut(start, before, p, d) + DeliveredBy(s, ops[|ops| - 1], p, d)
  }

  function Discarded(start: int, ops: seq<Op>, p: Process, d: Side): nat {
    if ops == [] then 0
    else
      var before := ops[..|ops| - 1];
      var s := After(start, before, true);
      Discarded(start, before, p, d) + if Discards(s, ops[|ops| - 1]) then PendingIn(s, p, d) else 0
  }

  /** How many commits there were when the interval was last emptied. */
  function EmptiedAt(start: int, ops: seq<Op>): nat {
    if ops == [] then 0
    else
      var before := ops[..|ops| - 1];
      var s := After(start, before, true);
      if Publishes(s, ops[|ops| - 1]) || Discards(s, ops[|ops| - 1]) then |Trace(start, ops)|
      else EmptiedAt(start, before)
  }

  lemma {:induction false} ChargedAppend(tr: seq<Commit>, more: seq<Commit>, p: Process, d: Side, from: nat)
    requires from <= |tr|
    ensures ChargedTo(tr + more, p, d, from) == ChargedTo(tr, p, d, from) + ChargedTo(more, p, d, 0)
  {
    if more == [] {
      assert tr + more == tr;
    } else {
      var init := more[..|more| - 1];
      assert (tr + more)[..|tr + more| - 1] == tr + init;
      ChargedAppend(tr, init, p, d, from);
    }
  }

  lemma ChargeAdds(m: Interval, bill: Option<Bill>, p: Process, d: Side)
    ensures Bytes(RatesIn(Charge(m, bill), p), d) == Bytes(RatesIn(m, p), d) + ProcessShare(bill, p, d)
  {
  }

  lemma {:induction false} BatchCharges(e: Engine, sh: Shared, events: seq<Ordered>, p: Process, d: Side)
    ensures Bytes(RatesIn(SharedAfterAll(e, sh, events).interval, p), d) ==
            Bytes(RatesIn(sh.interval, p), d) + ChargedTo(Commits(e, events), p, d, 0)
  {
    if events != [] {
      var before, o := events[..|events| - 1], events[|events| - 1];
      BatchCharges(e, sh, before, p, d);
      var cs := Commits(e, events);
      assert cs[..|cs| - 1] == Commits(e, before);
      ChargeAdds(SharedAfterAll(e, sh, before).interval, BillAfter(EngineAfterAll(e, before), o), p, d);
    }
  }

  /** A step adds what it commits to the interval, unless it empties it. */
  lemma StepInterval(s: State, op: Op)
    ensures Step(s, op, true).shared.interval ==
            if Publishes(s, op) || Discards(s, op) then map[]
            else SharedAfterAll(s.engine, s.shared, CommittedBy(s, op)).interval
    ensures Publishes(s, op) || Discards(s, op) ==> CommittedBy(s, op) == []
  {
    assert SharedAfterAll(s.engine, s.shared, []) == s.shared;
  }

  lemma StepCharges(s: State, op: Op, p: Process, d: Side)
    ensures PendingIn(Step(s, op, true), p, d) ==
            if Publishes(s, op) || Discards(s, op) then 0
            else PendingIn(s, p, d) + ChargedTo(Commits(s.engine, CommittedBy(s, op)), p, d, 0)
    ensures Publishes(s, op) || Discards(s, op) ==> CommittedBy(s, op) == [] && !(Publishes(s, op) && Discards(s, op))
    ensures DeliveredBy(s, op, p, d) == if Publishes(s, op) then PendingIn(s, p, d) else 0
  {
    StepInterval(s, op);
    BatchCharges(s.engine, s.shared, CommittedBy(s, op), p, d);
  }

  /** Over the whole run, through restarts: every byte charged to a process was handed
      to exactly one sample, discarded by a restart or at the end of a baseline, or is
      still pending; and what is pending was charged since the interval was emptied. */
  lemma {:induction false} ProcessBytesConserved(start: int, ops: seq<Op>, p: Process, d: Side)
    ensures var tr, pending := Trace(start, ops), PendingIn(After(start, ops, true), p, d);
            && ChargedTo(tr, p, d, 0) == HandedOut(start, ops, p, d) + Discarded(start, ops, p, d) + pending
            && EmptiedAt(start, ops) <= |tr| && pending == ChargedTo(tr, p, d, EmptiedAt(start, ops))
  {
    if ops != [] {
      var before, op := ops[..|ops| - 1], ops[|ops| - 1];
      var s := After(start, before, true);
      var tr, more := Trace(start, before), Commits(s.engine, CommittedBy(s, op));
      ProcessBytesConserved(start, before, p, d);
      StepCharges(s, op, p, d);
      ChargedAppend(tr, more, p, d, 0);
      ChargedAppend(tr, more, p, d, EmptiedAt(start, before));
    }
  }

  predicate ChargesNothing(c: Commit) {
    c.bill.Some? ==> c.bill.value.rx == 0 && c.bill.value.tx == 0
  }

  ghost predicate NobodyCharged(tr: seq<Commit>, from: nat) {
    forall p, d :: ChargedTo(tr, p, d, from) == 0
  }

  ghost predicate Quiet(tr: seq<Commit>, from: nat) {
    forall j :: from <= j < |tr| ==> ChargesNothing(tr[j])
  }

  lemma {:induction false} NothingCharged(tr: seq<Commit>, from: nat)
    ensures NobodyCharged(tr, from) <==> Quiet(tr, from)
  {
    if |tr| > from {
      var init, last := tr[..|tr| - 1], tr[|tr| - 1];
      NothingCharged(init, from);
      assert forall j :: from <= j < |init| ==> init[j] == tr[j];
      if NobodyCharged(tr, from) {
        forall p, d ensures ChargedTo(init, p, d, from) == 0 && ProcessShare(last.bill, p, d) == 0 {
          assert ChargedTo(tr, p, d, from) == 0;
        }
        if last.bill.Some? {
          assert ProcessShare(last.bill, last.bill.value.process, Rx) == 0;
          assert ProcessShare(last.bill, last.bill.value.process, Tx) == 0;
        }
      } else if Quiet(tr, from) {
        assert ChargesNothing(tr[|tr| - 1]);
        forall p, d ensures ChargedTo(tr, p, d, from) == 0 {
          assert ChargedTo(init, p, d, from) == 0;
        }
      }
    }
  }

  ghost predicate LosesNothing(start: int, ops: seq<Op>, op: Op) {
    forall p, d :: Discarded(start, ops + [op], p, d) == Discarded(start, ops, p, d)
  }

  /** Every entry of the interval is zero. */
  predicate AllZero(m: Interval) { forall p :: p in m ==> m[p] == Rates(0, 0) }

  lemma ZeroPending(s: State)
    ensures AllZero(s.shared.interval) <==> forall p, d :: PendingIn(s, p, d) == 0
  {
    if forall p, d :: PendingIn(s, p, d) == 0 {
      forall p | p in s.shared.interval ensures s.shared.interval[p] == Rates(0, 0) {
        assert PendingIn(s, p, Rx) == 0 && PendingIn(s, p, Tx) == 0;
      }
    }
  }

  /** A restart loses no byte exactly when every pending entry is zero, which is when no
      commit has charged any byte since the interval was last published or thrown away. */
  lemma RestartLosesNothing(start: int, ops: seq<Op>, now: int)
    requires After(start, ops, true).shared.failed
    ensures LosesNothing(start, ops, Restart(now)) <==> AllZero(After(start, ops, true).shared.interval)
    ensures AllZero(After(start, ops, true).shared.interval) <==> Quiet(Trace(start, ops), EmptiedAt(start, ops))
  {
    var s, tr, from := After(start, ops, true), Trace(start, ops), EmptiedAt(start, ops);
    ZeroPending(s);
    NothingCharged(tr, from);
    forall p, d
      ensures PendingIn(s, p, d) == ChargedTo(tr, p, d, from)
      ensures Discarded(start, ops + [Restart(now)], p, d) == Discarded(start, ops, p, d) + PendingIn(s, p, d)
    {
      ProcessBytesConserved(start, ops, p, d);
      RestartDiscards(start, ops, now, p, d);
    }
    assert LosesNothing(start, ops, Restart(now)) <==> forall p, d :: PendingIn(s, p, d) == 0;
    assert NobodyCharged(tr, from) <==> forall p, d :: PendingIn(s, p, d) == 0;
  }

  lemma RestartDiscards(start: int, ops: seq<Op>, now: int, p: Process, d: Side)
    requires After(start, ops, true).shared.failed
    ensures Discarded(start, ops + [Restart(now)], p, d) ==
            Discarded(start, ops, p, d) + ChargedTo(Trace(start, ops), p, d, EmptiedAt(start, ops))
  {
    var all := ops + [Restart(now)];
    assert all[..|all| - 1] == ops && all[|all| - 1] == Restart(now);
    ProcessBytesConserved(start, ops, p, d);
  }

  /** The four accounts of a run after one more operation. */
  lemma OneMore(start: int, ops: seq<Op>, op: Op, p: Process, d: Side)
    ensures var s, all := After(start, ops, true), ops + [op];
            && After(start, all, true) == Step(s, op, true)
            && Trace(start, all) == Trace(start, ops) + Commits(s.engine, CommittedBy(s, op))
            && HandedOut(start, all, p, d) == HandedOut(start, ops, p, d) + DeliveredBy(s, op, p, d)
            && Discarded(start, all, p, d) == Discarded(start, ops, p, d) + (if Discards(s, op) then PendingIn(s, p, d) else 0)
  {
    assert (ops + [op])[..|ops|] == ops;
  }

  const BASELINED := [StartQuery(1), Answered(1, true), Concluded(0)]

  const BASELINED_STATE :=
    State(NEW_ENGINE.(baseline := true), 1, None, Nothing, Shared(true, false, map[], 0, false, false))

  /** The run has come to state `s` without committing anything. */
  predicate QuietAt(ops: seq<Op>, s: State, p: Process, d: Side) {
    After(0, ops, true) == s && Trace(0, ops) == [] && HandedOut(0, ops, p, d) == 0 && Discarded(0, ops, p, d) == 0
  }

  lemma QuietStep(ops: seq<Op>, s: State, op: Op, t: State, p: Process, d: Side)
    requires QuietAt(ops, s, p, d) && CommittedBy(s, op) == [] && PendingIn(s, p, d) == 0 && Step(s, op, true) == t
    ensures QuietAt(ops + [op], t, p, d)
  {
    OneMore(0, ops, op, p, d);
  }

  lemma BaselineSteps(s: State, t: State)
    requires s == Began(0, false).(query := Some(Query(1, 1, 0, [])), nextEpoch := 1)
    requires t == s.(query := None, engine := NEW_ENGINE.(baseline := true), finishing := EndingBaseline)
    ensures Step(Began(0, false), StartQuery(1), true) == s
    ensures Step(s, Answered(1, true), true) == t && CommittedBy(s, Answered(1, true)) == []
    ensures Step(t, Concluded(0), true) == BASELINED_STATE && CommittedBy(t, Concluded(0)) == []
  {
    assert Committed(s, []) == s && Pruned(NEW_ENGINE) == NEW_ENGINE;
  }

  lemma BaselinedState(p: Process, d: Side)
    ensures QuietAt(BASELINED, BASELINED_STATE, p, d)
  {
    var s := Began(0, false).(query := Some(Query(1, 1, 0, [])), nextEpoch := 1);
    var t := s.(query := None, engine := NEW_ENGINE.(baseline := true), finishing := EndingBaseline);
    BaselineSteps(s, t);
    BaselinedRun([], s, t, p, d);
    assert [] + [StartQuery(1)] + [Answered(1, true)] + [Concluded(0)] == BASELINED;
  }

  lemma BaselinedRun(ops: seq<Op>, s: State, t: State, p: Process, d: Side)
    requires QuietAt(ops, Began(0, false), p, d) && s.shared.interval == map[] && t.shared.interval == map[]
    requires Step(Began(0, false), StartQuery(1), true) == s
    requires Step(s, Answered(1, true), true) == t && CommittedBy(s, Answered(1, true)) == []
    requires Step(t, Concluded(0), true) == BASELINED_STATE && CommittedBy(t, Concluded(0)) == []
    ensures QuietAt(ops + [StartQuery(1)] + [Answered(1, true)] + [Concluded(0)], BASELINED_STATE, p, d)
  {
    QuietStep(ops, Began(0, false), StartQuery(1), s, p, d);
    QuietStep(ops + [StartQuery(1)], s, Answered(1, true), t, p, d);
    QuietStep(ops + [StartQuery(1)] + [Answered(1, true)], t, Concluded(0), BASELINED_STATE, p, d);
  }

  lemma FailureDiscards(start: int, ops: seq<Op>, now: int, p: Process, d: Side)
    requires !After(start, ops, true).shared.failed
    ensures var all := ops + [Fault] + [Restart(now)];
            && Trace(start, all) == Trace(start, ops) && HandedOut(start, all, p, d) == HandedOut(start, ops, p, d)
            && Discarded(start, all, p, d) == Discarded(start, ops, p, d) + PendingIn(After(start, ops, true), p, d)
            && After(start, all, true).shared.interval == map[]
  {
    OneMore(start, ops, Fault, p, d);
    OneMore(start, ops + [Fault], Restart(now), p, d);
  }

  function FiveBytes(p: Process): SourceEvent { Updated(Update(1, p, 5, 0, false, false)) }

  lemma DirectGoesOn(s: State, e: SourceEvent)
    requires !s.shared.failed
    ensures !Step(s, Event(e, 0), true).shared.failed
  {
    var d := [Direct(s, e)];
    assert d[..|d| - 1] == [];
    assert SharedAfterAll(s.engine, s.shared, d).failed == SharedAfterAll(s.engine, s.shared, []).failed;
  }

  lemma FiveStep(s: State, p: Process)
    requires s == BASELINED_STATE
    ensures var op, t := Event(FiveBytes(p), 0), Step(s, Event(FiveBytes(p), 0), true);
            && CommittedBy(s, op) == [Direct(s, FiveBytes(p))] && !Discards(s, op) && DeliveredBy(s, op, p, Rx) == 0
            && ChargedTo(Commits(s.engine, CommittedBy(s, op)), p, Rx, 0) == 5
            && !t.shared.failed && PendingIn(t, p, Rx) == 5
  {
    var op := Event(FiveBytes(p), 0);
    assert CommittedBy(s, op) == [Direct(s, FiveBytes(p))] && PendingIn(s, p, Rx) == 0;
    OneCharge(s.engine, Direct(s, FiveBytes(p)), p);
    StepCharges(s, op, p, Rx);
    DirectGoesOn(s, FiveBytes(p));
  }

  lemma FiveBilled(ops: seq<Op>, s: State, p: Process)
    requires After(0, ops, true) == s == BASELINED_STATE && Trace(0, ops) == []
    ensures var all := ops + [Event(FiveBytes(p), 0)];
            && !After(0, all, true).shared.failed && PendingIn(After(0, all, true), p, Rx) == 5
            && HandedOut(0, all, p, Rx) == HandedOut(0, ops, p, Rx) && Discarded(0, all, p, Rx) == Discarded(0, ops, p, Rx)
            && ChargedTo(Trace(0, all), p, Rx, 0) == 5
  {
    var op := Event(FiveBytes(p), 0);
    FiveStep(s, p);
    OneMore(0, ops, op, p, Rx);
    var more := Commits(s.engine, CommittedBy(s, op));
    assert [] + more == more;
  }

  lemma OneCharge(e: Engine, o: Ordered, p: Process)
    requires BillAfter(e, o) == Some(Bill(1, p, 5, 0))
    ensures ChargedTo(Commits(e, [o]), p, Rx, 0) == 5
  {
    assert [o][..0] == [] && Commits(e, []) == [] && EngineAfterAll(e, []) == e;
    var cs := [] + [CommitOf(e, o)];
    assert Commits(e, [o]) == cs && cs[..0] == [] && ChargedTo(cs[..0], p, Rx, 0) == 0;
  }

  /** Such a loss happens: five bytes billed after the baseline reach no sample. */
  lemma RestartCanLose(p: Process)
    ensures var ops := BASELINED + [Event(FiveBytes(p), 0)] + [Fault] + [Restart(9)];
            && ChargedTo(Trace(0, ops), p, Rx, 0) == 5 && HandedOut(0, ops, p, Rx) == 0
            && Discarded(0, ops, p, Rx) == 5 && After(0, ops, true).shared.interval == map[]
  {
    BaselinedState(p, Rx);
    LosesFive(BASELINED, p);
  }

  lemma LosesFive(ops: seq<Op>, p: Process)
    requires After(0, ops, true) == BASELINED_STATE && Trace(0, ops) == []
    requires HandedOut(0, ops, p, Rx) == 0 && Discarded(0, ops, p, Rx) == 0
    ensures var all := ops + [Event(FiveBytes(p), 0)] + [Fault] + [Restart(9)];
            && ChargedTo(Trace(0, all), p, Rx, 0) == 5 && HandedOut(0, all, p, Rx) == 0
            && Discarded(0, all, p, Rx) == 5 && After(0, all, true).shared.interval == map[]
  {
    FiveBilled(ops, BASELINED_STATE, p);
    FailureDiscards(0, ops + [Event(FiveBytes(p), 0)], 9, p, Rx);
  }

  // ---- What a sample says about losses ----

  /** The step loses data, or may have: final counts dropped, a committed update that
      was discarded, changed identity or regressed, or a restart. */
  predicate Raises(s: State, op: Op) {
    || (op.FinalCountsDropped? && !s.shared.failed && s.finishing.Nothing?)
    || (exists c :: c in Commits(s.engine, CommittedBy(s, op)) && LossAfter(c.engine, c.event))
    || Restarts(s, op)
  }

  /** For each operation of the run, whether `f` holds of it and the state it met. */
  function Flags(start: int, ops: seq<Op>, f: (State, Op) -> bool): (r: seq<bool>)
    ensures |r| == |ops|
  {
    if ops == [] then []
    else
      var before := ops[..|ops| - 1];
      Flags(start, before, f) + [f(After(start, before, true), ops[|ops| - 1])]
  }

  /** Some operation did the one thing and none after it the other. */
  ghost predicate Since(start: int, ops: seq<Op>, raises: (State, Op) -> bool, clears: (State, Op) -> bool) {
    Outstanding(Flags(start, ops, raises), Flags(start, ops, clears))
  }

  /** Some operation raised a loss and none after it published a sample. */
  ghost predicate LossOutstanding(start: int, ops: seq<Op>) { Since(start, ops, Raises, Publishes) }

  lemma {:induction false} BatchLoses(e: Engine, sh: Shared, events: seq<Ordered>)
    ensures SharedAfterAll(e, sh, events).dataLoss <==>
            sh.dataLoss || exists c :: c in Commits(e, events) && LossAfter(c.engine, c.event)
  {
    if events != [] {
      var before, o := events[..|events| - 1], events[|events| - 1];
      BatchLoses(e, sh, before);
      var c := CommitOf(EngineAfterAll(e, before), o);
      assert Commits(e, events) == Commits(e, before) + [c];
      assert LossAfter(c.engine, c.event) ==> c in Commits(e, events);
    }
  }

  lemma StepLoses(s: State, op: Op)
    ensures Step(s, op, true).shared.dataLoss <==> Raises(s, op) || (s.shared.dataLoss && !Publishes(s, op))
  {
    BatchLoses(s.engine, s.shared, CommittedBy(s, op));
    assert SharedAfterAll(s.engine, s.shared, []) == s.shared;
  }

  /** A flag that one thing sets and another clears. */
  lemma {:induction false} FlagExact(start: int, ops: seq<Op>, flag: State -> bool,
                                     raises: (State, Op) -> bool, clears: (State, Op) -> bool)
    requires !flag(Began(start, false))
    requires forall s, op :: flag(Step(s, op, true)) <==> raises(s, op) || (flag(s) && !clears(s, op))
    ensures flag(After(start, ops, true)) <==> Since(start, ops, raises, clears)
  {
    if ops != [] {
      var before, op := ops[..|ops| - 1], ops[|ops| - 1];
      FlagExact(start, before, flag, raises, clears);
      var s := After(start, before, true);
      OutstandingStep(Flags(start, before, raises), Flags(start, before, clears), raises(s, op), clears(s, op));
    }
  }

  lemma LossFlagExact(start: int, ops: seq<Op>)
    ensures After(start, ops, true).shared.dataLoss <==> LossOutstanding(start, ops)
  {
    var flag := (s: State) => s.shared.dataLoss;
    forall s, op ensures flag(Step(s, op, true)) <==> Raises(s, op) || (flag(s) && !Publishes(s, op)) {
      StepLoses(s, op);
    }
    FlagExact(start, ops, flag, Raises, Publishes);
  }

  /** Over every run, a published sample is Ready exactly when no loss was raised and no
      session restarted since the previous published sample; otherwise it is Partial. */
  lemma ReadyMeansNoLoss(start: int, ops: seq<Op>, now: int)
    ensures var outcome := Sampled(After(start, ops, true).shared, now).1;
            && (outcome.Ready? ==> !LossOutstanding(start, ops))
            && (outcome.Partial? ==> LossOutstanding(start, ops))
  {
    LossFlagExact(start, ops);
  }

  // ---- What a sample answers ----

  /** The answer or the event is one of the query in progress. */
  predicate Belongs(s: State, context: nat) { s.query.Some? && s.query.value.context == context }

  /** The step ends the session: a fault, or an event in an unexpected context. */
  predicate Fails(s: State, op: Op) {
    !s.shared.failed && (op.Fault? || (op.Event? && s.finishing.Nothing? && op.context != 0 && !Belongs(s, op.context)))
  }

  /** The step tells samplers that the baseline is there. */
  predicate EndsBaseline(s: State, op: Op) { op.Concluded? && !s.shared.failed && s.finishing.EndingBaseline? }

  /** The step tells samplers that a query after the baseline was answered. */
  predicate CompletesInterval(s: State, op: Op) {
    op.Concluded? && !s.shared.failed && s.finishing.CompletingInterval?
  }

  predicate Empties(s: State, op: Op) { Publishes(s, op) || Discards(s, op) }

  lemma {:induction false} BatchKeepsFlags(e: Engine, sh: Shared, events: seq<Ordered>)
    ensures var t := SharedAfterAll(e, sh, events);
            && t.failed == sh.failed && t.baselineComplete == sh.baselineComplete
            && t.intervalComplete == sh.intervalComplete && t.startedAt == sh.startedAt
  {
    if events != [] {
      BatchKeepsFlags(e, sh, events[..|events| - 1]);
    }
  }

  lemma StepFlags(s: State, op: Op)
    ensures var t := Step(s, op, true).shared;
            && (t.failed <==> Fails(s, op) || (s.shared.failed && !Restarts(s, op)))
            && (t.baselineComplete <==> EndsBaseline(s, op) || (s.shared.baselineComplete && !Restarts(s, op)))
            && (t.intervalComplete <==> CompletesInterval(s, op) || (s.shared.intervalComplete && !Empties(s, op)))
            && t.startedAt == if Empties(s, op) then op.now else s.shared.startedAt
  {
    BatchKeepsFlags(s.engine, s.shared, CommittedBy(s, op));
    assert SharedAfterAll(s.engine, s.shared, []) == s.shared;
  }

  /** When the interval was last emptied; `start` if never. */
  function EmptiedTime(start: int, ops: seq<Op>): int {
    if ops == [] then start
    else
      var before := ops[..|ops| - 1];
      if Empties(After(start, before, true), ops[|ops| - 1]) then ops[|ops| - 1].now else EmptiedTime(start, before)
  }

  lemma {:induction false} StartedWhenEmptied(start: int, ops: seq<Op>)
    ensures After(start, ops, true).shared.startedAt == EmptiedTime(start, ops)
  {
    if ops != [] {
      StartedWhenEmptied(start, ops[..|ops| - 1]);
      StepFlags(After(start, ops[..|ops| - 1], true), ops[|ops| - 1]);
    }
  }

  lemma FlagsExact(start: int, ops: seq<Op>)
    ensures var sh := After(start, ops, true).shared;
            && (sh.failed <==> Since(start, ops, Fails, Restarts))
            && (sh.baselineComplete <==> Since(start, ops, EndsBaseline, Restarts))
            && (sh.intervalComplete <==> Since(start, ops, CompletesInterval, Empties))
  {
    var failed := (s: State) => s.shared.failed;
    var baselined := (s: State) => s.shared.baselineComplete;
    var completed := (s: State) => s.shared.intervalComplete;
    forall s, op
      ensures failed(Step(s, op, true)) <==> Fails(s, op) || (failed(s) && !Restarts(s, op))
      ensures baselined(Step(s, op, true)) <==> EndsBaseline(s, op) || (baselined(s) && !Restarts(s, op))
      ensures completed(Step(s, op, true)) <==> CompletesInterval(s, op) || (completed(s) && !Empties(s, op))
    {
      StepFlags(s, op);
    }
    FlagExact(start, ops, failed, Fails, Restarts);
    FlagExact(start, ops, baselined, EndsBaseline, Restarts);
    FlagExact(start, ops, completed, CompletesInterval, Empties);
  }

  /** Which answer a sample gives, over every run: Failed while a failure is not followed
      by a restart, pending until a baseline of this session has ended, Held until a later
      query has been answered since the interval was last emptied and time has passed,
      and otherwise published, Ready exactly if no loss is outstanding. */
  lemma SampleAnswerExact(start: int, ops: seq<Op>, now: int)
    ensures var o := Sampled(After(start, ops, true).shared, now).1;
            if Since(start, ops, Fails, Restarts) then o.Failed?
            else if !Since(start, ops, EndsBaseline, Restarts) then o.PendingBaseline?
            else if !Since(start, ops, CompletesInterval, Empties) || now <= EmptiedTime(start, ops) then o.Held?
            else if LossOutstanding(start, ops) then o.Partial? else o.Ready?
  {
    FlagsExact(start, ops);
    LossFlagExact(start, ops);
    StartedWhenEmptied(start, ops);
  }

  function RateOf(o: Outcome, p: Process, d: Side): nat
    requires o.Ready? || o.Partial?
  {
    Bytes(RatesIn(o.rates, p), d)
  }

  /** What a published sample contains, over every run: for every process exactly the
      bytes charged to it since the interval was last emptied, over exactly the time
      since then, as bytes per second rounded down and cut off at 64 bits. */
  lemma SampleContentsExact(start: int, ops: seq<Op>, now: int, p: Process, d: Side)
    requires Publishes(After(start, ops, true), Op.Sample(now))
    ensures var o := Sampled(After(start, ops, true).shared, now).1;
            var bytes := ChargedTo(Trace(start, ops), p, d, EmptiedAt(start, ops));
            && Delivered(o, p, d) == bytes
            && o.elapsed == now - EmptiedTime(start, ops) > 0
            && RateOf(o, p, d) == BytesPerSecond(bytes, o.elapsed)
  {
    ProcessBytesConserved(start, ops, p, d);
    StartedWhenEmptied(start, ops);
    NoBytesNoRate(Sampled(After(start, ops, true).shared, now).1.elapsed);
  }

  lemma NoBytesNoRate(nanos: nat)
    ensures BytesPerSecond(0, nanos) == 0
  {
  }

  // ---- Whose bytes they are ----

  /** The update a commit brings, if it brings one about process `p`. */
  predicate Names(c: Commit, p: Process) { c.event.event.Updated? && c.event.event.update.process == p }

  lemma BillNamesUpdate(e: Engine, o: Ordered)
    ensures BillAfter(e, o).Some? ==>
              && o.event.Updated? && BillAfter(e, o).value.process == o.event.update.process
              && BillAfter(e, o).value.source == o.event.update.source
  {
  }

  lemma {:induction false} CommitsAreBilled(e: Engine, events: seq<Ordered>, i: nat)
    requires i < |Commits(e, events)|
    ensures Commits(e, events)[i] == CommitOf(Commits(e, events)[i].engine, Commits(e, events)[i].event)
  {
    var before := events[..|events| - 1];
    if i < |Commits(e, before)| {
      CommitsAreBilled(e, before, i);
    }
  }

  lemma {:induction false} TraceIsBilled(start: int, ops: seq<Op>, i: nat)
    requires i < |Trace(start, ops)|
    ensures Trace(start, ops)[i] == CommitOf(Trace(start, ops)[i].engine, Trace(start, ops)[i].event)
  {
    var before := ops[..|ops| - 1];
    var s := After(start, before, true);
    var tr, more := Trace(start, before), Commits(s.engine, CommittedBy(s, ops[|ops| - 1]));
    assert Trace(start, ops) == tr + more;
    if i < |tr| {
      TraceIsBilled(start, before, i);
      assert (tr + more)[i] == tr[i];
    } else {
      CommitsAreBilled(s.engine, CommittedBy(s, ops[|ops| - 1]), i - |tr|);
      assert (tr + more)[i] == more[i - |tr|];
    }
  }

  /** Every bill of every run names the process and the source of the update that
      produced it, and its bytes are the counters of that update, less those the source
      had if it was there. */
  lemma BillsNameTheirUpdate(start: int, ops: seq<Op>, i: nat, d: Side)
    requires i < |Trace(start, ops)| && Trace(start, ops)[i].bill.Some?
    ensures var c := Trace(start, ops)[i];
            && Names(c, c.bill.value.process) && c.bill.value.source == c.event.event.update.source
            && ProcessShare(c.bill, c.bill.value.process, d) ==
               CounterOf(c.event.event.update, d) - CounterIn(c.engine, c.bill.value.source, d)
  {
    var c := Trace(start, ops)[i];
    TraceIsBilled(start, ops, i);
    BillNamesUpdate(c.engine, c.event);
  }

  /** The bytes billed by the updates that name `p`, whatever source they are about. */
  function BilledByUpdatesOf(tr: seq<Commit>, p: Process, d: Side, from: nat): nat {
    if |tr| <= from then 0
    else
      var c := tr[|tr| - 1];
      BilledByUpdatesOf(tr[..|tr| - 1], p, d, from) +
      if Names(c, p) then SourceShare(c.bill, c.event.event.update.source, d) else 0
  }

  /** So what a process is charged is exactly what its own updates were billed. */
  lemma ChargedForOwnUpdates(start: int, ops: seq<Op>, p: Process, d: Side, from: nat)
    ensures ChargedTo(Trace(start, ops), p, d, from) == BilledByUpdatesOf(Trace(start, ops), p, d, from)
  {
    var tr := Trace(start, ops);
    forall i | 0 <= i < |tr| ensures tr[i] == CommitOf(tr[i].engine, tr[i].event) { TraceIsBilled(start, ops, i); }
    OwnUpdates(tr, p, d, from);
  }

  lemma {:induction false} OwnUpdates(tr: seq<Commit>, p: Process, d: Side, from: nat)
    requires forall i :: 0 <= i < |tr| ==> tr[i] == CommitOf(tr[i].engine, tr[i].event)
    ensures ChargedTo(tr, p, d, from) == BilledByUpdatesOf(tr, p, d, from)
  {
    if |tr| > from {
      var init, c := tr[..|tr| - 1], tr[|tr| - 1];
      assert forall i :: 0 <= i < |init| ==> init[i] == tr[i];
      OwnUpdates(init, p, d, from);
      BillNamesUpdate(c.engine, c.event);
    }
  }

  // ---- Every event received is committed ----

  predicate Handles(s: State) { !s.shared.failed && s.finishing.Nothing? }

  /** The events of the query in progress, as they were received. */
  function Buffered(start: int, ops: seq<Op>): seq<SourceEvent> {
    if ops == [] then []
    else
      var before, op := ops[..|ops| - 1], ops[|ops| - 1];
      var s, sofar := After(start, before, true), Buffered(start, before);
      if Restarts(s, op) then []
      else if !Handles(s) then sofar
      else if op.StartQuery? && s.query.None? then []
      else if op.Event? && op.context != 0 && Belongs(s, op.context) then sofar + [op.event]
      else sofar
  }

  function EventsIn(events: seq<Ordered>): seq<SourceEvent> {
    seq(|events|, i requires 0 <= i < |events| => events[i].event)
  }

  lemma StepBuffers(s: State, op: Op, sofar: seq<SourceEvent>)
    requires s.query.Some? ==> EventsIn(s.query.value.events) == sofar
    ensures var t := Step(s, op, true);
            t.query.Some? ==>
              EventsIn(t.query.value.events) ==
              if Restarts(s, op) then []
              else if !Handles(s) then sofar
              else if op.StartQuery? && s.query.None? then []
              else if op.Event? && op.context != 0 && Belongs(s, op.context) then sofar + [op.event]
              else sofar
  {
  }

  lemma {:induction false} QueryHoldsBuffered(start: int, ops: seq<Op>)
    ensures var s := After(start, ops, true);
            s.query.Some? ==> EventsIn(s.query.value.events) == Buffered(start, ops)
  {
    if ops != [] {
      var before := ops[..|ops| - 1];
      QueryHoldsBuffered(start, before);
      StepBuffers(After(start, before, true), ops[|ops| - 1], Buffered(start, before));
    }
  }

  /** Over every run: an unsolicited event is committed at once, and the final answer of a
      query commits every event received for it, in the order received; nothing else
      commits anything. */
  lemma CommitsExact(start: int, ops: seq<Op>, op: Op)
    ensures var s := After(start, ops, true);
            EventsIn(CommittedBy(s, op)) ==
            if !Handles(s) then []
            else if op.Event? && op.context == 0 then [op.event]
            else if op.Answered? && Belongs(s, op.context) then Buffered(start, ops)
            else []
  {
    QueryHoldsBuffered(start, ops);
  }

  // ---- What one commit does, by the events before it ----

  /** The update that left the source open, if the newest event about it did. */
  function OpenUpdate(newest: Option<Ordered>): Option<Update> {
    if newest.Some? && newest.value.event.Updated? && !newest.value.event.update.closing
    then Some(newest.value.event.update) else None
  }

  predicate Breaks(before: Option<Update>, u: Update) {
    before.Some? && (before.value.process != u.process || u.rx < before.value.rx || u.tx < before.value.tx)
  }

  /** What the event `o` owes after the events `h`. */
  function Owed(h: seq<Ordered>, o: Ordered, baseline: bool): Option<Bill> {
    var newest := Newest(h, RefOf(o.event));
    if o.event.Removed? || (newest.Some? && !Before(newest.value.order, o.order)) then None
    else
      var u, before := o.event.update, OpenUpdate(newest);
      if Breaks(before, u) then None
      else if before.Some? then Some(Bill(u.source, u.process, u.rx - before.value.rx, u.tx - before.value.tx))
      else if baseline then Some(Bill(u.source, u.process, u.rx, u.tx))
      else None
  }

  predicate Lost(h: seq<Ordered>, o: Ordered) {
    var newest := Newest(h, RefOf(o.event));
    && o.event.Updated? && (newest.Some? ==> Before(newest.value.order, o.order))
    && (o.event.update.discarded || Breaks(OpenUpdate(newest), o.event.update))
  }

  lemma DecidedOwes(e: Engine, h: seq<Ordered>, o: Ordered)
    requires DecidedBy(e, RefOf(o.event), Newest(h, RefOf(o.event)))
    ensures BillAfter(e, o) == Owed(h, o, e.baseline) && LossAfter(e, o) == Lost(h, o)
  {
  }

  lemma {:induction false} BatchBaseline(e: Engine, events: seq<Ordered>)
    ensures EngineAfterAll(e, events).baseline == e.baseline
  {
    if events != [] {
      BatchBaseline(e, events[..|events| - 1]);
    }
  }

  lemma CommitsAreCurrent(s: State, op: Op)
    requires OrdersBounded(s)
    ensures forall i :: 0 <= i < |CommittedBy(s, op)| ==> CommittedBy(s, op)[i].order.epoch >= NextOrderEpoch(s)
  {
  }

  /** Over every run, what the `i`-th event of a commit bills and whether it loses data,
      from the events committed before it: a late event and a removal do nothing; an
      update of an open source bills the growth of both counters, or loses data when the
      process differs or a counter fell; one that opens a source bills its counters, once
      the baseline is there; and an update that was discarded always loses data. */
  lemma CommitExact(start: int, ops: seq<Op>, op: Op, i: nat)
    requires i < |CommittedBy(After(start, ops, true), op)|
    ensures var s := After(start, ops, true);
            var events := CommittedBy(s, op);
            var met, h := EngineAfterAll(s.engine, events[..i]), History(start, ops) + events[..i];
            BillAfter(met, events[i]) == Owed(h, events[i], s.engine.baseline) && LossAfter(met, events[i]) == Lost(h, events[i])
  {
    var p, u := After(start, ops, true), After(start, ops, false);
    var events := CommittedBy(p, op);
    var before, o := events[..i], events[i];
    PruningIsInvisible(start, ops);
    ReferenceReflects(start, ops);
    CommitsAreCurrent(u, op);
    BatchAgrees(p.engine, u.engine, NextOrderEpoch(u), u.shared, before);
    EventAgrees(EngineAfterAll(p.engine, before), EngineAfterAll(u.engine, before), NextOrderEpoch(u), o);
    BatchReflected(u.engine, History(start, ops), before);
    BatchBaseline(u.engine, before);
    DecidedOwes(EngineAfterAll(u.engine, before), History(start, ops) + before, o);
  }

  /** The baseline is there exactly when an answer was qualified since the session began. */
  lemma BaselineExact(start: int, ops: seq<Op>)
    ensures After(start, ops, true).engine.baseline <==> Since(start, ops, Qualifies, Restarts)
  {
    var flag := (s: State) => s.engine.baseline;
    forall s, op ensures flag(Step(s, op, true)) <==> Qualifies(s, op) || (flag(s) && !Restarts(s, op)) {
      BatchBaseline(s.engine, CommittedBy(s, op));
      assert EngineAfterAll(s.engine, []) == s.engine;
    }
    FlagExact(start, ops, flag, Qualifies, Restarts);
  }

  predicate Qualifies(s: State, op: Op) {
    Handles(s) && op.Answered? && op.qualified && Belongs(s, op.context)
  }
}
