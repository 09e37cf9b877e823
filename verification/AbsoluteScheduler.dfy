/** The deadline grid of the collector worker (collector_engine.rs): deadlines
    `next`, `next + interval`, ...; finished work moves to the first deadline
    after its completion and counts every deadline it ran over. Times are integer
    ticks. */
module AbsoluteScheduler {
  import opened TimedWindows

  /** How many grid deadlines after `next` had passed by `completedAt`. */
  function Overrun(next: int, interval: nat, completedAt: int): nat
    requires interval > 0
  {
    if completedAt < next then 0 else (completedAt - next) / interval
  }

  lemma OverrunExact(next: int, interval: nat, completedAt: int, k: nat)
    requires interval > 0
    requires next + (k + 1) * interval > completedAt
    requires k > 0 ==> next + k * interval <= completedAt
    ensures Overrun(next, interval, completedAt) == k
  {
    if k > 0 {
      assert k * interval >= interval;
      var d := completedAt - next;
      assert k * interval <= d < k * interval + interval;
      QuotientUnique(d, interval, k);
    } else if completedAt >= next {
      QuotientUnique(completedAt - next, interval, 0);
    }
  }

  lemma QuotientUnique(d: int, interval: nat, k: nat)
    requires interval > 0 && k * interval <= d < k * interval + interval
    ensures d / interval == k
  {
    var q := d / interval;
    assert d == q * interval + d % interval;
    assert q < k ==> (q + 1) * interval <= k * interval;
    assert q > k ==> (k + 1) * interval <= q * interval;
  }

  // ---- The scheduler's calls ----

  datatype SchedulerState = SchedulerState(
    interval: nat, next: int, misses: nat, recentMisses: seq<Sample<nat>>, lateness: seq<Sample<int>>)

  /** One call, at the time it is given. */
  datatype Call =
    | Start(at: int)
    | Complete(at: int)
    | CompletePaused(at: int)
    | Reanchored(at: int, interval: nat, dueNow: bool)
    | ReadCadence(at: int)

  predicate PositiveInterval(c: Call) { c.Reanchored? ==> c.interval > 0 }

  function Missed(s: SchedulerState, at: int): nat
    requires s.interval > 0
  {
    Overrun(s.next, s.interval, at)
  }

  function Called(s: SchedulerState, c: Call, window: nat): SchedulerState
    requires s.interval > 0
  {
    match c
    case Start(at) => s.(lateness := PruneFront(s.lateness + [(at, Age(at, s.next))], at, window))
    case Complete(at) =>
      var missed := Missed(s, at);
      s.(next := s.next + (missed + 1) * s.interval, misses := s.misses + missed,
         recentMisses := if missed == 0 then s.recentMisses else PruneFront(s.recentMisses + [(at, missed)], at, window))
    case CompletePaused(at) => s.(next := s.next + (Missed(s, at) + 1) * s.interval)
    case Reanchored(at, interval, dueNow) => s.(interval := interval, next := if dueNow then at else at + interval)
    case ReadCadence(at) =>
      s.(recentMisses := PruneFront(s.recentMisses, at, window), lateness := PruneFront(s.lateness, at, window))
  }

  /** `cadence`: total misses, recent misses and the 95th percentile of lateness. */
  function CadenceOf(s: SchedulerState, now: int, window: nat): (nat, nat, int)
    requires s.interval > 0
  {
    var t := Called(s, ReadCadence(now), window);
    (t.misses, Total(t.recentMisses), P95Of(Values(t.lateness)))
  }

  function Opened(now: int, interval: nat, paused: bool): SchedulerState {
    SchedulerState(interval, if paused then now + interval else now, 0, [], [])
  }

  /** The loop of both completions: from deadline to deadline until one lies ahead. */
  method SkipPassed(deadline: int, interval: nat, completedAt: int) returns (next: int, missed: nat)
    requires interval > 0
    ensures missed == Overrun(deadline, interval, completedAt)
    ensures next == deadline + (missed + 1) * interval && next > completedAt
  {
    next, missed := deadline + interval, 0;
    while next <= completedAt
      invariant next == deadline + (missed + 1) * interval
      invariant missed > 0 ==> next - interval <= completedAt
      decreases completedAt - next
    {
      Distributes(missed + 1, 1, interval);
      missed := missed + 1;
      next := next + interval;
    }
    Distributes(missed, 1, interval);
    OverrunExact(deadline, interval, completedAt, missed);
  }

  class Scheduler {
    var interval: nat
    var nextDeadline: int
    var deadlineMisses: nat
    const recentMisses: TimedWindow<nat>
    const lateness: TimedWindow<int>

    ghost predicate Valid()
      reads this
    {
      && interval > 0 && recentMisses as object != lateness as object
      && recentMisses.window == lateness.window
    }

    ghost function State(): SchedulerState
      reads this, recentMisses, lateness
    {
      SchedulerState(interval, nextDeadline, deadlineMisses, recentMisses.values, lateness.values)
    }

    constructor (now: int, interval: nat, metricWindow: nat, paused: bool)
      requires interval > 0
      ensures Valid() && State() == Opened(now, interval, paused)
      ensures fresh(recentMisses) && fresh(lateness) && lateness.window == metricWindow
    {
      this.interval := interval;
      nextDeadline := if paused then now + interval else now;
      deadlineMisses := 0;
      recentMisses := new TimedWindow(metricWindow);
      lateness := new TimedWindow(metricWindow);
      new;
    }

    method RecordStart(now: int)
      requires Valid()
      modifies lateness
      ensures State() == Called(old(State()), Start(now), lateness.window)
    {
      lateness.AddAt(now, Age(now, nextDeadline));
    }

    method CompleteScheduledWork(completedAt: int)
      requires Valid()
      modifies this, recentMisses
      ensures Valid() && nextDeadline > completedAt
      ensures State() == Called(old(State()), Complete(completedAt), lateness.window)
    {
      var next, missed := SkipPassed(nextDeadline, interval, completedAt);
      deadlineMisses := deadlineMisses + missed;
      if missed > 0 {
        recentMisses.AddAt(completedAt, missed);
      }
      nextDeadline := next;
    }

    method CompletePausedWork(completedAt: int)
      requires Valid()
      modifies this
      ensures Valid() && nextDeadline > completedAt
      ensures State() == Called(old(State()), CompletePaused(completedAt), lateness.window)
    {
      var next, _ := SkipPassed(nextDeadline, interval, completedAt);
      nextDeadline := next;
    }

    method Reanchor(now: int, interval: nat, dueNow: bool)
      requires Valid() && interval > 0
      modifies this
      ensures Valid() && State() == Called(old(State()), Reanchored(now, interval, dueNow), lateness.window)
    {
      this.interval := interval;
      nextDeadline := if dueNow then now else now + interval;
    }

    method Cadence(now: int) returns (total: nat, recent: nat, p95: int)
      requires Valid()
      modifies recentMisses, lateness
      ensures State() == Called(old(State()), ReadCadence(now), lateness.window)
      ensures (total, recent, p95) == CadenceOf(old(State()), now, lateness.window)
    {
      total := deadlineMisses;
      recent := CountAt(recentMisses, now);
      p95 := P95At(lateness, now);
    }
  }

  // ---- Whole runs of the worker ----

  /** The scheduler after a run of calls, with re-anchorings, pauses and reads. */
  function After(s: SchedulerState, calls: seq<Call>, window: nat): (t: SchedulerState)
    requires s.interval > 0 && forall c :: c in calls ==> PositiveInterval(c)
    ensures t.interval > 0
  {
    if calls == [] then s
    else
      assert PositiveInterval(calls[|calls| - 1]);
      Called(After(s, calls[..|calls| - 1], window), calls[|calls| - 1], window)
  }

  // ---- The grid between two re-anchorings ----

  predicate OnGrid(calls: seq<Call>) { forall c :: c in calls ==> !c.Reanchored? }

  predicate Completes(c: Call) { c.Complete? || c.CompletePaused? }

  /** How many grid deadlines one call moves past. */
  function Moved(s: SchedulerState, c: Call): nat
    requires s.interval > 0
  {
    if Completes(c) then Missed(s, c.at) + 1 else 0
  }

  /** The grid position of the next deadline; the run starts at position 0. */
  function Position(s: SchedulerState, calls: seq<Call>, window: nat): nat
    requires s.interval > 0 && OnGrid(calls)
  {
    if calls == [] then 0
    else
      var before := calls[..|calls| - 1];
      Position(s, before, window) + Moved(After(s, before, window), calls[|calls| - 1])
  }

  function Completions(calls: seq<Call>): nat {
    if calls == [] then 0
    else Completions(calls[..|calls| - 1]) + if calls[|calls| - 1].Complete? then 1 else 0
  }

  /** The positions passed while paused, which no one counts as missed. */
  function PausedPositions(s: SchedulerState, calls: seq<Call>, window: nat): nat
    requires s.interval > 0 && OnGrid(calls)
  {
    if calls == [] then 0
    else
      var before, c := calls[..|calls| - 1], calls[|calls| - 1];
      PausedPositions(s, before, window) + if c.CompletePaused? then Moved(After(s, before, window), c) else 0
  }

  /** The positions whose deadline a collection answered. */
  function Answered(s: SchedulerState, calls: seq<Call>, window: nat): set<nat>
    requires s.interval > 0 && OnGrid(calls)
  {
    if calls == [] then {}
    else
      var before := calls[..|calls| - 1];
      Answered(s, before, window) + if calls[|calls| - 1].Complete? then {Position(s, before, window)} else {}
  }

  function Below(n: nat): (r: set<nat>)
    ensures |r| == n && forall j: nat :: j in r <==> j < n
  {
    if n == 0 then {} else Below(n - 1) + {n - 1}
  }

  /** One call on the grid. */
  lemma CallMoves(s: SchedulerState, c: Call, window: nat)
    requires s.interval > 0 && !c.Reanchored?
    ensures var t := Called(s, c, window);
            && t.interval == s.interval && t.next == s.next + Moved(s, c) * s.interval && t.next >= s.next
            && t.misses == s.misses + (if c.Complete? then Missed(s, c.at) else 0)
            && (Completes(c) ==> t.next > c.at)
  {
    if Completes(c) { OverrunPasses(s.next, s.interval, c.at); }
  }

  lemma OverrunPasses(next: int, interval: nat, at: int)
    requires interval > 0
    ensures next + (Overrun(next, interval, at) + 1) * interval > at
    ensures (Overrun(next, interval, at) + 1) * interval >= 0
  {
    if at >= next {
      var d := at - next;
      assert d == (d / interval) * interval + d % interval;
    }
  }

  lemma {:induction false} GridPositions(s: SchedulerState, calls: seq<Call>, window: nat)
    requires s.interval > 0 && OnGrid(calls)
    ensures var t, n := After(s, calls, window), Position(s, calls, window);
            && t.interval == s.interval && t.next == s.next + n * s.interval && t.misses >= s.misses
            && n == Completions(calls) + (t.misses - s.misses) + PausedPositions(s, calls, window)
  {
    if calls != [] {
      var before, c := calls[..|calls| - 1], calls[|calls| - 1];
      GridPositions(s, before, window);
      var mid, n := After(s, before, window), Position(s, before, window);
      CallMoves(mid, c, window);
      Distributes(n, Moved(mid, c), s.interval);
      assert Position(s, calls, window) == n + Moved(mid, c);
    }
  }

  lemma {:induction false} AnsweredPositions(s: SchedulerState, calls: seq<Call>, window: nat)
    requires s.interval > 0 && OnGrid(calls)
    ensures |Answered(s, calls, window)| == Completions(calls)
    ensures forall j :: j in Answered(s, calls, window) ==> j < Position(s, calls, window)
  {
    if calls != [] {
      var before := calls[..|calls| - 1];
      AnsweredPositions(s, before, window);
      assert Position(s, before, window) !in Answered(s, before, window);
    }
  }

  lemma UnansweredSize(n: nat, answered: set<nat>)
    requires forall j :: j in answered ==> j < n
    ensures |Below(n) - answered| == n - |answered|
  {
    assert answered <= Below(n);
  }

  lemma SameProduct(a: int, b: int, k: int)
    requires a == b
    ensures a * k == b * k
  {
  }

  lemma Distributes(a: int, b: int, k: int)
    ensures (a + b) * k == a * k + b * k
  {
  }

  lemma {:induction false} AfterEveryCompletion(s: SchedulerState, calls: seq<Call>, window: nat, i: nat)
    requires s.interval > 0 && OnGrid(calls) && i < |calls| && Completes(calls[i])
    ensures After(s, calls, window).next > calls[i].at
  {
    var before, c := calls[..|calls| - 1], calls[|calls| - 1];
    CallMoves(After(s, before, window), c, window);
    if i < |calls| - 1 {
      AfterEveryCompletion(s, before, window, i);
    }
  }

  /** From any state of the scheduler, such as the one a re-anchoring leaves, through any
      calls without another re-anchoring: the deadline stays on the grid, strictly after
      every completion; the positions passed are the collections, the misses counted and
      those passed while paused; and the deadlines no collection answered are exactly as
      many as the misses counted and the paused positions. */
  lemma GridAccounting(s: SchedulerState, calls: seq<Call>, window: nat)
    requires s.interval > 0 && OnGrid(calls)
    ensures var t, paused := After(s, calls, window), PausedPositions(s, calls, window);
            && t.misses >= s.misses
            && t.next == s.next + (Completions(calls) + (t.misses - s.misses) + paused) * s.interval
            && |Below(Position(s, calls, window)) - Answered(s, calls, window)| == (t.misses - s.misses) + paused
            && (forall i :: 0 <= i < |calls| && Completes(calls[i]) ==> t.next > calls[i].at)
            && ((forall c :: c in calls ==> !c.CompletePaused?) ==> paused == 0)
  {
    GridEquation(s, calls, window);
    Unanswered(s, calls, window);
    forall i | 0 <= i < |calls| && Completes(calls[i])
      ensures After(s, calls, window).next > calls[i].at
    {
      AfterEveryCompletion(s, calls, window, i);
    }
    if forall c :: c in calls ==> !c.CompletePaused? {
      NeverPaused(s, calls, window);
    }
  }

  lemma GridEquation(s: SchedulerState, calls: seq<Call>, window: nat)
    requires s.interval > 0 && OnGrid(calls)
    ensures var t := After(s, calls, window);
            t.next == s.next + (Completions(calls) + (t.misses - s.misses) + PausedPositions(s, calls, window)) * s.interval
  {
    var t, n := After(s, calls, window), Position(s, calls, window);
    GridPositions(s, calls, window);
    SameProduct(n, Completions(calls) + (t.misses - s.misses) + PausedPositions(s, calls, window), s.interval);
  }

  lemma Unanswered(s: SchedulerState, calls: seq<Call>, window: nat)
    requires s.interval > 0 && OnGrid(calls)
    ensures var misses := After(s, calls, window).misses - s.misses;
            && misses >= 0
            && |Below(Position(s, calls, window)) - Answered(s, calls, window)| == misses + PausedPositions(s, calls, window)
  {
    GridPositions(s, calls, window);
    AnsweredPositions(s, calls, window);
    UnansweredSize(Position(s, calls, window), Answered(s, calls, window));
  }

  /** The first deadline of the grid a re-anchoring, or the opening, lays down. */
  function AnchorOf(c: Call): int
    requires c.Reanchored?
  {
    if c.dueNow then c.at else c.at + c.interval
  }

  /** The grid in force after a run: its first deadline, its interval, and how many of
      its positions have been passed since it was laid down. */
  function GridOf(s: SchedulerState, calls: seq<Call>, window: nat): (int, nat, nat)
    requires s.interval > 0 && forall c :: c in calls ==> PositiveInterval(c)
  {
    if calls == [] then (s.next, s.interval, 0)
    else
      var before, c := calls[..|calls| - 1], calls[|calls| - 1];
      if c.Reanchored? then (AnchorOf(c), c.interval, 0)
      else
        var (anchor, interval, n) := GridOf(s, before, window);
        (anchor, interval, n + Moved(After(s, before, window), c))
  }

  lemma {:induction false} GridAlong(s: SchedulerState, calls: seq<Call>, window: nat)
    requires s.interval > 0 && forall c :: c in calls ==> PositiveInterval(c)
    ensures var (anchor, every, n) := GridOf(s, calls, window);
            After(s, calls, window).next == anchor + n * every && After(s, calls, window).interval == every
  {
    if calls != [] && !calls[|calls| - 1].Reanchored? {
      var before, c := calls[..|calls| - 1], calls[|calls| - 1];
      GridAlong(s, before, window);
      CallMoves(After(s, before, window), c, window);
      Distributes(GridOf(s, before, window).2, Moved(After(s, before, window), c), GridOf(s, before, window).1);
    }
  }

  lemma {:induction false} FirstGrid(s: SchedulerState, calls: seq<Call>, window: nat)
    requires s.interval > 0 && OnGrid(calls)
    ensures GridOf(s, calls, window).0 == s.next && GridOf(s, calls, window).1 == s.interval
  {
    if calls != [] {
      FirstGrid(s, calls[..|calls| - 1], window);
    }
  }

  /** Over every run, through any re-anchorings: the next deadline is that many positions
      along the grid laid down last, at its anchor (now, or one interval from now) and
      with its interval; before any re-anchoring the grid starts at the opening, or one
      interval later if the worker opened paused. */
  lemma GridFromAnchor(start: int, interval: nat, paused: bool, calls: seq<Call>, window: nat)
    requires interval > 0 && forall c :: c in calls ==> PositiveInterval(c)
    ensures var s := Opened(start, interval, paused);
            var (anchor, every, n) := GridOf(s, calls, window);
            && After(s, calls, window).next == anchor + n * every && After(s, calls, window).interval == every
            && (OnGrid(calls) ==> anchor == (if paused then start + interval else start) && every == interval)
  {
    GridAlong(Opened(start, interval, paused), calls, window);
    if OnGrid(calls) { FirstGrid(Opened(start, interval, paused), calls, window); }
  }

  lemma {:induction false} NeverPaused(s: SchedulerState, calls: seq<Call>, window: nat)
    requires s.interval > 0 && OnGrid(calls) && forall c :: c in calls ==> !c.CompletePaused?
    ensures PausedPositions(s, calls, window) == 0
  {
    if calls != [] {
      NeverPaused(s, calls[..|calls| - 1], window);
    }
  }

  // ---- The windows over every run ----

  /** Every overrun of the run with the misses it counted. */
  function AllMisses(s: SchedulerState, calls: seq<Call>, window: nat): seq<Sample<nat>>
    requires s.interval > 0 && forall c :: c in calls ==> PositiveInterval(c)
  {
    if calls == [] then []
    else
      var before, c := calls[..|calls| - 1], calls[|calls| - 1];
      AllMisses(s, before, window) + MissesOf(After(s, before, window), c)
  }

  /** Every start of the run with how late it was. */
  function AllLateness(s: SchedulerState, calls: seq<Call>, window: nat): seq<Sample<int>>
    requires s.interval > 0 && forall c :: c in calls ==> PositiveInterval(c)
  {
    if calls == [] then []
    else
      var before, c := calls[..|calls| - 1], calls[|calls| - 1];
      AllLateness(s, before, window) + LatenessOf(After(s, before, window), c)
  }

  predicate InOrder(calls: seq<Call>) {
    forall i, j :: 0 <= i < j < |calls| ==> calls[i].at <= calls[j].at
  }

  ghost predicate Fits<V>(window: nat, values: seq<Sample<V>>, all: seq<Sample<V>>, now: int) {
    && Ordered(all) && (forall x :: x in all ==> x.0 <= now)
    && Ordered(values) && (forall x :: x in values ==> x.0 <= now)
    && Recent(values, now, window) == Recent(all, now, window)
  }

  lemma LaterFits<V>(window: nat, values: seq<Sample<V>>, all: seq<Sample<V>>, now: int, later: int)
    requires Fits(window, values, all, now) && now <= later
    ensures Fits(window, values, all, later)
  {
    RecentTwice(values, now, later, window);
    RecentTwice(all, now, later, window);
  }

  lemma AddedFits<V>(window: nat, values: seq<Sample<V>>, all: seq<Sample<V>>, x: Sample<V>)
    requires Fits(window, values, all, x.0)
    ensures Fits(window, PruneFront(values + [x], x.0, window), all + [x], x.0)
  {
    AddIsFiltered(all, values, x, window);
    RecentMembers(all + [x], x.0, window);
    RecentTwice(all + [x], x.0, x.0, window);
  }

  lemma PrunedFits<V>(window: nat, values: seq<Sample<V>>, all: seq<Sample<V>>, now: int)
    requires Fits(window, values, all, now)
    ensures Fits(window, PruneFront(values, now, window), all, now)
    ensures PruneFront(values, now, window) == Recent(all, now, window)
  {
    PruneIsFilter(values, now, window);
    RecentMembers(all, now, window);
    RecentTwice(all, now, now, window);
  }

  lemma {:induction false} TotalAppend(s: seq<Sample<nat>>, x: Sample<nat>)
    ensures Total(s + [x]) == Total(s) + x.1
  {
    if s != [] {
      TotalAppend(s[1..], x);
      assert (s + [x])[1..] == s[1..] + [x];
    }
  }

  ghost predicate Accounted(s: SchedulerState, window: nat, misses: seq<Sample<nat>>, late: seq<Sample<int>>, now: int) {
    Fits(window, s.recentMisses, misses, now) && Fits(window, s.lateness, late, now) && s.misses == Total(misses)
  }

  /** What one call adds to the record of misses, and to that of starts. */
  function MissesOf(s: SchedulerState, c: Call): seq<Sample<nat>>
    requires s.interval > 0
  {
    if c.Complete? && Missed(s, c.at) > 0 then [(c.at, Missed(s, c.at))] else []
  }

  /** How far past its deadline the start came, zero if before it. */
  function LatenessOf(s: SchedulerState, c: Call): seq<Sample<int>> {
    if !c.Start? then []
    else [(c.at, if c.at > s.next then c.at - s.next else 0)]
  }

  lemma MissesFit(s: SchedulerState, c: Call, window: nat, misses: seq<Sample<nat>>)
    requires s.interval > 0 && Fits(window, s.recentMisses, misses, c.at) && s.misses == Total(misses)
    ensures var t, more := Called(s, c, window), misses + MissesOf(s, c);
            Fits(window, t.recentMisses, more, c.at) && t.misses == Total(more)
  {
    assert misses + [] == misses;
    if c.Complete? && Missed(s, c.at) > 0 {
      AddedFits(window, s.recentMisses, misses, (c.at, Missed(s, c.at)));
      TotalAppend(misses, (c.at, Missed(s, c.at)));
    } else if c.ReadCadence? {
      PrunedFits(window, s.recentMisses, misses, c.at);
    }
  }

  lemma LatenessFits(s: SchedulerState, c: Call, window: nat, late: seq<Sample<int>>)
    requires s.interval > 0 && Fits(window, s.lateness, late, c.at)
    ensures Fits(window, Called(s, c, window).lateness, late + LatenessOf(s, c), c.at)
  {
    assert late + [] == late;
    if c.Start? {
      AddedFits(window, s.lateness, late, (c.at, Age(c.at, s.next) as int));
      assert LatenessOf(s, c) == [(c.at, Age(c.at, s.next) as int)];
    } else if c.ReadCadence? {
      PrunedFits(window, s.lateness, late, c.at);
    }
  }

  lemma {:induction false} RunAccounted(s: SchedulerState, calls: seq<Call>, window: nat, now: int)
    requires s.interval > 0 && (forall c :: c in calls ==> PositiveInterval(c)) && InOrder(calls)
    requires s.recentMisses == [] && s.lateness == [] && s.misses == 0
    requires forall c :: c in calls ==> c.at <= now
    ensures Accounted(After(s, calls, window), window, AllMisses(s, calls, window), AllLateness(s, calls, window), now)
  {
    if calls != [] {
      var before, c := calls[..|calls| - 1], calls[|calls| - 1];
      RunAccounted(s, before, window, c.at);
      MissesFit(After(s, before, window), c, window, AllMisses(s, before, window));
      LatenessFits(After(s, before, window), c, window, AllLateness(s, before, window));
      var t := After(s, calls, window);
      LaterFits(window, t.recentMisses, AllMisses(s, calls, window), c.at, now);
      LaterFits(window, t.lateness, AllLateness(s, calls, window), c.at, now);
    }
  }

  /** Reading the cadence at `now`, after any run of collections, heartbeats, pauses,
      re-anchorings and earlier reads on a non-decreasing clock: the total is every miss
      counted since the start, the recent misses are those inside the metric window and
      no more than the total, and the lateness reported is the 95th percentile of exactly
      the in-window ones of all starts, or zero if there are none. */
  lemma CadenceExact(start: int, interval: nat, paused: bool, calls: seq<Call>, now: int, window: nat)
    requires interval > 0 && (forall c :: c in calls ==> PositiveInterval(c)) && InOrder(calls + [ReadCadence(now)])
    ensures var s := Opened(start, interval, paused);
            var misses, late := AllMisses(s, calls, window), Recent(AllLateness(s, calls, window), now, window);
            var (total, recent, p95) := CadenceOf(After(s, calls, window), now, window);
            && total == Total(misses)
            && recent == Total(Recent(misses, now, window)) <= total
            && if late == [] then p95 == 0 else IsP95(Values(late), p95)
  {
    var s, all := Opened(start, interval, paused), calls + [ReadCadence(now)];
    assert forall i :: 0 <= i < |calls| ==> all[i] == calls[i] && all[i].at <= all[|calls|].at;
    RunAccounted(s, calls, window, now);
    var t, misses := After(s, calls, window), AllMisses(s, calls, window);
    PrunedFits(window, t.recentMisses, misses, now);
    PrunedFits(window, t.lateness, AllLateness(s, calls, window), now);
    RecentTotalBounded(misses, now, window);
    var late := Recent(AllLateness(s, calls, window), now, window);
    if late != [] { NearestRank(Values(late)); }
  }
}
