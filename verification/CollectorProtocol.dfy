/** The whole refresh protocol: callers, the bounded control channel, the
    collector worker and the shutdown path, interleaved at every point where the
    source releases a lock (collector_engine.rs). An `Action` is one such step;
    `Apply` gives its effect. Clocks, collection outcomes, panics and timeouts are
    choices of the environment. */
module CollectorProtocol {
  import opened Basics
  import opened RefreshGate

  const CONTROL_QUEUE_CAPACITY := 8

  datatype Control = Refresh | Pause | Resume | SetInterval | Shutdown

  /** A call of `refresh_now` between registration and return. `since` is the
      number of collections that had begun when it registered. */
  datatype Caller =
    | Sending(target: nat, since: nat)
    | SendFailed(target: nat, since: nat, error: RefreshError)
    | Waiting(target: nat, since: nat)
    | Leaving(since: nat, outcome: Result<Publication, RefreshError>)

  /** `job` is the refresh generation being served, `None` for scheduled and
      resume collections. */
  datatype Worker =
    | Idle
    | Received
    | Starting(generation: nat)
    | Collecting(job: Option<nat>, collection: nat)
    | Published(job: Option<nat>, fatal: bool)
    | Panicked
    | Terminating
    | FatalLoop
    | Stopped

  datatype ShutdownStage = NotRequested | FlagRaised | GateTerminated

  datatype System = System(
    gate: GateState,
    channel: seq<Control>,
    callers: map<nat, Caller>,
    worker: Worker,
    published: Option<Publication>,
    revision: nat,
    collections: nat,
    shutdown: ShutdownStage)

  datatype Action =
    // refresh_now
    | Register(id: nat)
    | TrySend(id: nat)
    | ReportFailure(id: nat)
    | Poll(id: nat)
    | TimeOut(id: nat)
    | Finish(id: nat)
    // other holders of the control channel
    | Post(control: Control)
    // collector_loop
    | ObserveFlag
    | StartScheduled
    | Heartbeat
    | Receive
    | Begin
    | StartRefresh
    | Publish(event: Event)
    | Panic
    | PublishPanic
    | Conclude
    | TerminateByWorker
    // CollectorEngine::shutdown
    | RaiseFlag
    | TerminateByShutdown

  const INITIAL_SYSTEM := System(INITIAL, [], map[], Idle, None, 0, 0, NotRequested)

  predicate ChannelOpen(s: System) { !s.worker.Stopped? && |s.channel| < CONTROL_QUEUE_CAPACITY }

  predicate Enabled(s: System, a: Action) {
    match a
    case Register(id) => id !in s.callers && s.gate.terminal.None?
    case TrySend(id) => id in s.callers && s.callers[id].Sending?
    case ReportFailure(id) => id in s.callers && s.callers[id].SendFailed?
    case Poll(id) => id in s.callers && s.callers[id].Waiting? && Answer(s.gate, s.callers[id].target).Some?
    case TimeOut(id) => id in s.callers && s.callers[id].Waiting?
    case Finish(id) => id in s.callers && s.callers[id].Leaving?
    case Post(c) => !c.Refresh? && ChannelOpen(s) && (c.Shutdown? ==> s.shutdown.GateTerminated?)
    case ObserveFlag => (s.worker.Idle? || s.worker.FatalLoop?) && !s.shutdown.NotRequested?
    case StartScheduled => s.worker.Idle?
    case Heartbeat => s.worker.Idle?
    case Receive => (s.worker.Idle? || s.worker.FatalLoop?) && s.channel != []
    case Begin => s.worker.Received?
    case StartRefresh => s.worker.Starting?
    case Publish(e) => s.worker.Collecting? && !e.PausedHeartbeat?
    case Panic => s.worker.Collecting?
    case PublishPanic => s.worker.Panicked?
    case Conclude => s.worker.Published? && s.published.Some?
    case TerminateByWorker => s.worker.Terminating?
    case RaiseFlag => s.shutdown.NotRequested?
    case TerminateByShutdown => s.shutdown.FlagRaised?
  }

  function Publishing(s: System, p: Publication, next: Worker): System {
    s.(published := Some(p), revision := p.revision, worker := next)
  }

  function AfterReceive(s: System): System
    requires s.channel != []
  {
    var rest := s.(channel := s.channel[1..]);
    match s.channel[0]
    case Shutdown => rest.(worker := Stopped, channel := [])
    case Refresh => rest.(worker := if s.worker.Idle? then Received else FatalLoop)
    case Resume =>
      if s.worker.Idle?
      then rest.(worker := Collecting(None, s.collections + 1), collections := s.collections + 1)
      else rest
    case _ => rest
  }

  function AfterConclude(s: System): System
    requires s.worker.Published? && s.published.Some?
  {
    if s.worker.fatal
    then s.(worker := FatalLoop, gate := Terminated(s.gate, EngineFatal))
    else if s.worker.job.Some?
    then s.(worker := Idle, gate := Completed(s.gate, s.worker.job.value, s.published.value))
    else s.(worker := Idle)
  }

  function Apply(s: System, a: Action): System
    requires Enabled(s, a)
  {
    match a
    case Register(id) =>
      var t := Target(s.gate);
      s.(gate := Registered(s.gate),
         callers := s.callers[id := if s.gate.wakeQueued then Waiting(t, s.collections)
                                    else Sending(t, s.collections)])
    case TrySend(id) =>
      var c := s.callers[id];
      if ChannelOpen(s)
      then s.(channel := s.channel + [Refresh], callers := s.callers[id := Waiting(c.target, c.since)])
      else s.(callers := s.callers[id := SendFailed(c.target, c.since,
              if s.worker.Stopped? then EngineUnavailable else ControlBusy)])
    case ReportFailure(id) =>
      var c := s.callers[id];
      s.(gate := Failed(s.gate, c.target, c.error), callers := s.callers[id := Leaving(c.since, Err(c.error))])
    case Poll(id) =>
      var c := s.callers[id];
      s.(callers := s.callers[id := Leaving(c.since, Answer(s.gate, c.target).value)])
    case TimeOut(id) =>
      s.(callers := s.callers[id := Leaving(s.callers[id].since, Err(TimedOut))])
    case Finish(id) =>
      s.(gate := Finished(s.gate), callers := s.callers - {id})
    case Post(c) => s.(channel := s.channel + [c])
    case ObserveFlag => s.(worker := Stopped, channel := [])
    case StartScheduled =>
      s.(worker := Collecting(None, s.collections + 1), collections := s.collections + 1)
    case Heartbeat => Publishing(s, Publication(s.revision + 1, PausedHeartbeat, 0), Idle)
    case Receive => AfterReceive(s)
    case Begin =>
      var g := Begun(s.gate);
      s.(gate := g, worker := if s.gate.requested <= s.gate.started then Idle else Starting(g.started))
    case StartRefresh =>
      s.(worker := Collecting(Some(s.worker.generation), s.collections + 1), collections := s.collections + 1)
    case Publish(e) =>
      Publishing(s, Publication(s.revision + 1, e, s.worker.collection), Published(s.worker.job, e.Fatal?))
    case Panic => s.(worker := Panicked)
    case PublishPanic => Publishing(s, Publication(s.revision + 1, Fatal, 0), Terminating)
    case Conclude => AfterConclude(s)
    case TerminateByWorker =>
      s.(worker := FatalLoop, gate := Terminated(s.gate, EngineFatal))
    case RaiseFlag => s.(shutdown := FlagRaised)
    case TerminateByShutdown =>
      s.(shutdown := GateTerminated, gate := Terminated(s.gate, ShuttingDown))
  }

  /** `acts` is a run from `s` to `t`. */
  ghost predicate Run(s: System, acts: seq<Action>, t: System)
    decreases |acts|
  {
    if acts == [] then s == t
    else Enabled(s, acts[0]) && Run(Apply(s, acts[0]), acts[1..], t)
  }

  ghost predicate Reachable(t: System) {
    exists acts :: Run(INITIAL_SYSTEM, acts, t)
  }

  // ---- Where a wake-up token can be ----

  datatype Place = AtCaller(id: nat) | InChannel(index: nat) | AtWorker

  predicate HoldsToken(c: Caller) { c.Sending? || c.SendFailed? }

  predicate TokenAt(s: System, p: Place) {
    match p
    case AtCaller(id) => id in s.callers && HoldsToken(s.callers[id])
    case InChannel(i) => i < |s.channel| && s.channel[i] == Refresh
    case AtWorker => s.worker.Received?
  }

  ghost function LiveTokens(s: System): set<Place> {
    (set id | id in s.callers && HoldsToken(s.callers[id]) :: AtCaller(id))
    + (set i | 0 <= i < |s.channel| && s.channel[i] == Refresh :: InChannel(i))
    + (if s.worker.Received? then {AtWorker} else {})
  }

  // ---- The inductive invariant ----

  /** The refresh generation the worker has begun and not yet completed. */
  function Serving(w: Worker): Option<nat> {
    match w
    case Starting(g) => Some(g)
    case Collecting(job, _) => job
    case Published(job, _) => job
    case _ => None
  }

  predicate Doomed(w: Worker) {
    w.Panicked? || w.Terminating? || w.FatalLoop? || w.Stopped?
  }

  predicate Generations(s: System) {
    var g := s.gate;
    && g.completed <= g.started <= g.requested <= g.started + 1
    && (Serving(s.worker).Some? ==> Serving(s.worker).value == g.started == g.completed + 1)
    && (Serving(s.worker).None? && !Doomed(s.worker) ==> g.completed == g.started)
  }

  predicate Counting(s: System) { s.gate.waiting == |s.callers| }

  predicate Lifecycle(s: System) {
    && (s.worker.Stopped? ==> !s.shutdown.NotRequested? && s.channel == [])
    && (s.worker.FatalLoop? || s.shutdown.GateTerminated? ==> s.gate.terminal.Some?)
    && (Control.Shutdown in s.channel ==> s.shutdown.GateTerminated?)
    && |s.channel| <= CONTROL_QUEUE_CAPACITY
  }

  /** While the gate is open there is at most one live token, and unless the
      worker may have dropped its channel there is one whenever a wake is queued. */
  ghost predicate Tokens(s: System) {
    s.gate.terminal.None? ==>
      && (forall p, q :: TokenAt(s, p) && TokenAt(s, q) ==> p == q)
      && (s.gate.wakeQueued && s.shutdown.NotRequested? ==> exists p :: TokenAt(s, p))
      && (!s.gate.wakeQueued ==> forall p :: !TokenAt(s, p))
      && WakeFacts(s.gate)
  }

  predicate Registrant(c: Caller) { !c.Leaving? }

  predicate TargetOk(s: System, c: Caller) {
    Registrant(c) ==>
      && 0 < c.target <= s.gate.requested
      && (HoldsToken(c) && s.gate.terminal.None? ==> c.target == s.gate.requested)
      && (c.target <= s.gate.completed ==>
            s.gate.publication.Some? && s.gate.publication.value.0 == s.gate.completed)
  }

  /** Publications exist, carry the current revision and name a past collection. */
  predicate Publications(s: System) {
    && (s.published.Some? ==> s.published.value.revision == s.revision)
    && (s.worker.Collecting? ==> 0 < s.worker.collection <= s.collections)
    && (s.worker.Published? ==>
          && s.published.Some?
          && (s.published.value.event.Fatal? <==> s.worker.fatal)
          && !s.published.value.event.PausedHeartbeat?)
  }

  predicate GoodFor(p: Publication, since: nat) {
    p.collection > since && (p.event.Sample? || p.event.Unavailable?)
  }

  /** What a caller already holds is fresh. */
  predicate Held(s: System, c: Caller) {
    && c.since <= s.collections
    && (c.Leaving? && c.outcome.Ok? ==> GoodFor(c.outcome.value, c.since))
    && (c.Leaving? && c.outcome.Err? ==> c.outcome.error != ResultUnavailable)
    && (c.SendFailed? ==> c.error != ResultUnavailable)
  }

  /** What a caller can collect now, or will get from the work in progress, is fresh. */
  predicate Coming(s: System, target: nat, since: nat) {
    && (s.gate.publication.Some? && s.gate.publication.value.0 >= target ==>
          GoodFor(s.gate.publication.value.1, since))
    && (s.worker.Collecting? && s.worker.job.Some? && s.worker.job.value >= target ==>
          s.worker.collection > since)
    && (s.worker.Published? && s.worker.job.Some? && s.worker.job.value >= target ==>
          s.published.Some? && s.published.value.collection > since)
  }

  /** Every result a caller holds, can collect now, or will get from the work in
      progress comes from a collection begun after it registered. */
  predicate FreshFor(s: System, c: Caller) {
    Held(s, c) && (Registrant(c) ==> Coming(s, c.target, c.since))
  }

  predicate ErrorsNamed(g: GateState) {
    && (g.terminal.Some? ==> g.terminal.value != ResultUnavailable)
    && (g.failed.Some? ==> g.failed.value.1 != ResultUnavailable)
    && (g.publication.Some? ==> g.publication.value.0 <= g.completed)
  }

  /** A waiting caller's answer is there or on its way. */
  predicate OnItsWay(s: System, c: Caller) {
    c.Waiting? ==>
      || Answer(s.gate, c.target).Some?
      || s.gate.wakeQueued
      || (Serving(s.worker).Some? && Serving(s.worker).value >= c.target)
      || Doomed(s.worker)
      || !s.shutdown.NotRequested?
  }

  predicate CallerOk(s: System, c: Caller) {
    TargetOk(s, c) && FreshFor(s, c) && OnItsWay(s, c)
  }

  predicate Machinery(s: System) {
    Generations(s) && Counting(s) && Lifecycle(s) && Publications(s) && ErrorsNamed(s.gate)
  }

  ghost predicate Inv(s: System) {
    && Machinery(s)
    && Tokens(s)
    && forall id :: id in s.callers ==> CallerOk(s, s.callers[id])
  }

  // ---- Every action keeps the invariant ----

  lemma RemoveSize<K, V>(m: map<K, V>, k: K)
    requires k in m
    ensures |m - {k}| == |m| - 1
  {
  }

  predicate ByCaller(a: Action) {
    a.Register? || a.TrySend? || a.ReportFailure? || a.Poll? || a.TimeOut? || a.Finish?
  }

  lemma OnlyCallersMoveCallers(s: System, a: Action)
    requires Enabled(s, a) && !ByCaller(a)
    ensures Apply(s, a).callers == s.callers && Apply(s, a).gate.waiting == s.gate.waiting
  {
  }

  lemma CallerActionsCount(s: System, a: Action)
    requires Enabled(s, a) && ByCaller(a) && Counting(s)
    ensures Counting(Apply(s, a))
  {
  }

  lemma KeepsGenerationsByCaller(s: System, a: Action)
    requires Generations(s) && Enabled(s, a) && ByCaller(a)
    ensures Generations(Apply(s, a))
  {
  }

  lemma KeepsGenerationsByOthers(s: System, a: Action)
    requires Generations(s) && Enabled(s, a) && !ByCaller(a)
    ensures Generations(Apply(s, a))
  {
  }

  lemma KeepsGenerations(s: System, a: Action)
    requires Generations(s) && Enabled(s, a)
    ensures Generations(Apply(s, a))
  {
    if ByCaller(a) { KeepsGenerationsByCaller(s, a); } else { KeepsGenerationsByOthers(s, a); }
  }

  lemma KeepsLifecycleByCaller(s: System, a: Action)
    requires Lifecycle(s) && Enabled(s, a) && ByCaller(a)
    ensures Lifecycle(Apply(s, a))
  {
  }

  lemma KeepsLifecycleByOthers(s: System, a: Action)
    requires Lifecycle(s) && Enabled(s, a) && !ByCaller(a)
    ensures Lifecycle(Apply(s, a))
  {
    if a.Receive? {
      assert forall c :: c in s.channel[1..] ==> c in s.channel;
    }
  }

  lemma KeepsLifecycle(s: System, a: Action)
    requires Lifecycle(s) && Enabled(s, a)
    ensures Lifecycle(Apply(s, a))
  {
    if ByCaller(a) { KeepsLifecycleByCaller(s, a); } else { KeepsLifecycleByOthers(s, a); }
  }

  lemma KeepsPublications(s: System, a: Action)
    requires Publications(s) && Enabled(s, a)
    ensures Publications(Apply(s, a))
  {
  }

  lemma KeepsErrorsNamedByCaller(s: System, a: Action)
    requires ErrorsNamed(s.gate) && Generations(s) && Enabled(s, a)
    requires a.ReportFailure? ==> FreshFor(s, s.callers[a.id])
    requires ByCaller(a)
    ensures ErrorsNamed(Apply(s, a).gate)
  {
  }

  lemma KeepsErrorsNamedByOthers(s: System, a: Action)
    requires ErrorsNamed(s.gate) && Generations(s) && Enabled(s, a)
    requires a.ReportFailure? ==> FreshFor(s, s.callers[a.id])
    requires !ByCaller(a)
    ensures ErrorsNamed(Apply(s, a).gate)
  {
  }

  lemma KeepsErrorsNamed(s: System, a: Action)
    requires ErrorsNamed(s.gate) && Generations(s) && Enabled(s, a)
    requires a.ReportFailure? ==> FreshFor(s, s.callers[a.id])
    ensures ErrorsNamed(Apply(s, a).gate)
  {
    if ByCaller(a) { KeepsErrorsNamedByCaller(s, a); } else { KeepsErrorsNamedByOthers(s, a); }
  }

  /** Where the token found at `p` is after the action, if it is still live. */
  function TokenMoves(s: System, a: Action, p: Place): Place {
    match p
    case AtCaller(id) => if a == TrySend(id) && ChannelOpen(s) then InChannel(|s.channel|) else p
    case InChannel(i) =>
      if a.Receive? then if i == 0 then AtWorker else InChannel(i - 1) else p
    case AtWorker => p
  }

  /** Its inverse: a token live after the action was live before it, unless the
      action is the registration that created it. */
  function TokenCame(s: System, a: Action, p: Place): Place {
    match p
    case InChannel(i) =>
      if a.TrySend? && i == |s.channel| then AtCaller(a.id)
      else if a.Receive? then InChannel(i + 1)
      else p
    case AtWorker => if a.Receive? then InChannel(0) else p
    case AtCaller(_) => p
  }

  lemma TokenFollowedByCaller(s: System, a: Action, p: Place)
    requires Lifecycle(s) && Enabled(s, a) && Apply(s, a).gate.terminal.None?
    requires TokenAt(Apply(s, a), p)
    requires ByCaller(a)
    ensures TokenAt(s, TokenCame(s, a, p)) || (a.Register? && p == AtCaller(a.id) && !s.gate.wakeQueued)
    ensures TokenAt(s, TokenCame(s, a, p)) ==> TokenMoves(s, a, TokenCame(s, a, p)) == p
  {
  }

  lemma TokenFollowedByOthers(s: System, a: Action, p: Place)
    requires Lifecycle(s) && Enabled(s, a) && Apply(s, a).gate.terminal.None?
    requires TokenAt(Apply(s, a), p)
    requires !ByCaller(a)
    ensures TokenAt(s, TokenCame(s, a, p)) || (a.Register? && p == AtCaller(a.id) && !s.gate.wakeQueued)
    ensures TokenAt(s, TokenCame(s, a, p)) ==> TokenMoves(s, a, TokenCame(s, a, p)) == p
  {
  }

  lemma TokenFollowed(s: System, a: Action, p: Place)
    requires Lifecycle(s) && Enabled(s, a) && Apply(s, a).gate.terminal.None?
    requires TokenAt(Apply(s, a), p)
    ensures TokenAt(s, TokenCame(s, a, p)) || (a.Register? && p == AtCaller(a.id) && !s.gate.wakeQueued)
    ensures TokenAt(s, TokenCame(s, a, p)) ==> TokenMoves(s, a, TokenCame(s, a, p)) == p
  {
    if ByCaller(a) { TokenFollowedByCaller(s, a, p); } else { TokenFollowedByOthers(s, a, p); }
  }

  lemma TokenSurvivesByCaller(s: System, a: Action, p: Place)
    requires Lifecycle(s) && Enabled(s, a) && Apply(s, a).gate.terminal.None?
    requires TokenAt(s, p) && Apply(s, a).shutdown.NotRequested?
    requires ByCaller(a)
    ensures || TokenAt(Apply(s, a), TokenMoves(s, a, p))
            || (a.ReportFailure? && p == AtCaller(a.id))
            || (a.Begin? && p == AtWorker)
  {
  }

  lemma TokenSurvivesByOthers(s: System, a: Action, p: Place)
    requires Lifecycle(s) && Enabled(s, a) && Apply(s, a).gate.terminal.None?
    requires TokenAt(s, p) && Apply(s, a).shutdown.NotRequested?
    requires !ByCaller(a)
    ensures || TokenAt(Apply(s, a), TokenMoves(s, a, p))
            || (a.ReportFailure? && p == AtCaller(a.id))
            || (a.Begin? && p == AtWorker)
  {
  }

  lemma TokenSurvives(s: System, a: Action, p: Place)
    requires Lifecycle(s) && Enabled(s, a) && Apply(s, a).gate.terminal.None?
    requires TokenAt(s, p) && Apply(s, a).shutdown.NotRequested?
    ensures || TokenAt(Apply(s, a), TokenMoves(s, a, p))
            || (a.ReportFailure? && p == AtCaller(a.id))
            || (a.Begin? && p == AtWorker)
  {
    if ByCaller(a) { TokenSurvivesByCaller(s, a, p); } else { TokenSurvivesByOthers(s, a, p); }
  }

  lemma KeepsOneToken(s: System, a: Action, p: Place, q: Place)
    requires Lifecycle(s) && Tokens(s) && Enabled(s, a) && Apply(s, a).gate.terminal.None?
    requires TokenAt(Apply(s, a), p) && TokenAt(Apply(s, a), q)
    ensures p == q
  {
    TokenFollowed(s, a, p);
    TokenFollowed(s, a, q);
  }

  lemma KeepsLiveToken(s: System, a: Action)
    requires Lifecycle(s) && Tokens(s) && Enabled(s, a) && Apply(s, a).gate.terminal.None?
    requires Apply(s, a).gate.wakeQueued && Apply(s, a).shutdown.NotRequested?
    ensures exists p :: TokenAt(Apply(s, a), p)
  {
    if s.gate.wakeQueued {
      var p :| TokenAt(s, p);
      TokenSurvives(s, a, p);
    } else {
      assert TokenAt(Apply(s, a), AtCaller(a.id));
    }
  }

  lemma KeepsNoToken(s: System, a: Action, p: Place)
    requires Lifecycle(s) && Tokens(s) && Enabled(s, a) && Apply(s, a).gate.terminal.None?
    requires !Apply(s, a).gate.wakeQueued
    ensures !TokenAt(Apply(s, a), p)
  {
    assert a.ReportFailure? ==> TokenAt(s, AtCaller(a.id));
    assert a.Begin? ==> TokenAt(s, AtWorker);
    if TokenAt(Apply(s, a), p) {
      TokenFollowed(s, a, p);
    }
  }

  /** What the wake flag says about the counters. */
  predicate WakeFacts(g: GateState) {
    g.terminal.None? && g.wakeQueued ==> g.requested == g.started + 1 && g.failed.None?
  }

  lemma KeepsWakeFacts(s: System, a: Action)
    requires WakeFacts(s.gate) && Generations(s) && Enabled(s, a)
    ensures WakeFacts(Apply(s, a).gate)
  {
  }

  lemma KeepsTokens(s: System, a: Action)
    requires Lifecycle(s) && Tokens(s) && Generations(s) && Enabled(s, a)
    ensures Tokens(Apply(s, a))
  {
    var t := Apply(s, a);
    KeepsWakeFacts(s, a);
    if t.gate.terminal.None? {
      forall p, q | TokenAt(t, p) && TokenAt(t, q) ensures p == q { KeepsOneToken(s, a, p, q); }
      if t.gate.wakeQueued && t.shutdown.NotRequested? { KeepsLiveToken(s, a); }
      forall p | !t.gate.wakeQueued ensures !TokenAt(t, p) { KeepsNoToken(s, a, p); }
    }
  }

  /** What the token discipline says about one caller and the acting party. */
  predicate TokenFacts(s: System, a: Action, c: Caller) {
    && (s.gate.terminal.None? && HoldsToken(c) ==>
          s.gate.wakeQueued && s.gate.requested == s.gate.started + 1)
    && (s.gate.terminal.None? && a.ReportFailure? && a.id in s.callers && s.callers[a.id].SendFailed? ==>
          s.callers[a.id].target == s.gate.requested)
    && (s.gate.terminal.None? && a.Begin? ==> s.gate.requested == s.gate.started + 1)
    && (a.Finish? ==> s.gate.waiting > 1)
  }

  lemma TokenFactsHold(s: System, a: Action, id: nat)
    requires Inv(s) && Enabled(s, a) && id in s.callers
    requires a != Finish(id)
    ensures TokenFacts(s, a, s.callers[id])
  {
    assert CallerOk(s, s.callers[id]);
    assert HoldsToken(s.callers[id]) ==> TokenAt(s, AtCaller(id));
    if a.ReportFailure? {
      assert CallerOk(s, s.callers[a.id]) && TokenAt(s, AtCaller(a.id));
    } else if a.Finish? {
      OthersRemain(s, a.id, id);
    } else if a.Begin? {
      assert TokenAt(s, AtWorker);
    }
  }

  lemma OthersRemain(s: System, leaver: nat, id: nat)
    requires Counting(s) && leaver in s.callers && id in s.callers && id != leaver
    ensures s.gate.waiting > 1
  {
    RemoveSize(s.callers, leaver);
    assert id in s.callers - {leaver};
  }

  lemma KeepsTargetOkByCaller(s: System, a: Action, id: nat)
    requires Generations(s) && Enabled(s, a) && id in s.callers && id in Apply(s, a).callers
    requires TargetOk(s, s.callers[id]) && TokenFacts(s, a, s.callers[id])
    requires ByCaller(a)
    ensures TargetOk(Apply(s, a), Apply(s, a).callers[id])
  {
  }

  lemma KeepsTargetOkByOthers(s: System, a: Action, id: nat)
    requires Generations(s) && Enabled(s, a) && id in s.callers && id in Apply(s, a).callers
    requires TargetOk(s, s.callers[id]) && TokenFacts(s, a, s.callers[id])
    requires !ByCaller(a)
    ensures TargetOk(Apply(s, a), Apply(s, a).callers[id])
  {
  }

  lemma KeepsTargetOk(s: System, a: Action, id: nat)
    requires Generations(s) && Enabled(s, a) && id in s.callers && id in Apply(s, a).callers
    requires TargetOk(s, s.callers[id]) && TokenFacts(s, a, s.callers[id])
    ensures TargetOk(Apply(s, a), Apply(s, a).callers[id])
  {
    if ByCaller(a) { KeepsTargetOkByCaller(s, a, id); } else { KeepsTargetOkByOthers(s, a, id); }
  }

  lemma ComingByCaller(s: System, a: Action, target: nat, since: nat)
    requires Enabled(s, a) && ByCaller(a) && Coming(s, target, since)
    ensures Coming(Apply(s, a), target, since)
  {
  }

  lemma ComingByOthers(s: System, a: Action, target: nat, since: nat)
    requires Publications(s) && Enabled(s, a) && !ByCaller(a) && since <= s.collections && Coming(s, target, since)
    ensures Coming(Apply(s, a), target, since)
  {
  }

  /** What a caller's own step leaves it with. */
  lemma HeldAfterOwnStep(s: System, a: Action)
    requires Enabled(s, a) && ByCaller(a) && !a.Register? && !a.Finish? && ErrorsNamed(s.gate)
    requires TargetOk(s, s.callers[a.id]) && FreshFor(s, s.callers[a.id])
    ensures var c, d := s.callers[a.id], Apply(s, a).callers[a.id];
            Held(Apply(s, a), d) && d.since == c.since && (Registrant(d) ==> Registrant(c) && d.target == c.target)
  {
  }

  lemma HeldByOthers(s: System, a: Action, c: Caller)
    requires Enabled(s, a) && Held(s, c)
    ensures Held(Apply(s, a), c)
  {
  }

  lemma OthersUntouched(s: System, a: Action, id: nat)
    requires Enabled(s, a) && id in s.callers && !(ByCaller(a) && a.id == id)
    ensures id in Apply(s, a).callers && Apply(s, a).callers[id] == s.callers[id]
  {
  }

  lemma KeepsFreshFor(s: System, a: Action, id: nat)
    requires Publications(s) && ErrorsNamed(s.gate)
    requires Enabled(s, a) && id in s.callers && id in Apply(s, a).callers
    requires TargetOk(s, s.callers[id]) && FreshFor(s, s.callers[id])
    ensures FreshFor(Apply(s, a), Apply(s, a).callers[id])
  {
    var c := s.callers[id];
    if Registrant(c) {
      if ByCaller(a) { ComingByCaller(s, a, c.target, c.since); } else { ComingByOthers(s, a, c.target, c.since); }
    }
    if ByCaller(a) && a.id == id {
      HeldAfterOwnStep(s, a);
    } else {
      OthersUntouched(s, a, id);
      HeldByOthers(s, a, c);
    }
  }

  lemma KeepsOnItsWayByCaller(s: System, a: Action, id: nat)
    requires Generations(s) && Enabled(s, a) && id in s.callers && id in Apply(s, a).callers
    requires TargetOk(s, s.callers[id]) && OnItsWay(s, s.callers[id]) && TokenFacts(s, a, s.callers[id])
    requires ByCaller(a)
    ensures OnItsWay(Apply(s, a), Apply(s, a).callers[id])
  {
  }

  lemma KeepsOnItsWayByOthers(s: System, a: Action, id: nat)
    requires Generations(s) && Enabled(s, a) && id in s.callers && id in Apply(s, a).callers
    requires TargetOk(s, s.callers[id]) && OnItsWay(s, s.callers[id]) && TokenFacts(s, a, s.callers[id])
    requires !ByCaller(a)
    ensures OnItsWay(Apply(s, a), Apply(s, a).callers[id])
  {
  }

  lemma KeepsOnItsWay(s: System, a: Action, id: nat)
    requires Generations(s) && Enabled(s, a) && id in s.callers && id in Apply(s, a).callers
    requires TargetOk(s, s.callers[id]) && OnItsWay(s, s.callers[id]) && TokenFacts(s, a, s.callers[id])
    ensures OnItsWay(Apply(s, a), Apply(s, a).callers[id])
  {
    if ByCaller(a) { KeepsOnItsWayByCaller(s, a, id); } else { KeepsOnItsWayByOthers(s, a, id); }
  }

  lemma NewcomerOk(s: System, id: nat)
    requires Inv(s) && Enabled(s, Register(id))
    ensures CallerOk(Apply(s, Register(id)), Apply(s, Register(id)).callers[id])
  {
  }

  lemma CallerStaysOk(s: System, a: Action, id: nat)
    requires Inv(s) && Enabled(s, a) && id in Apply(s, a).callers
    ensures CallerOk(Apply(s, a), Apply(s, a).callers[id])
  {
    if id in s.callers {
      assert CallerOk(s, s.callers[id]);
      TokenFactsHold(s, a, id);
      KeepsTargetOk(s, a, id);
      KeepsFreshFor(s, a, id);
      KeepsOnItsWay(s, a, id);
    } else {
      NewcomerOk(s, id);
    }
  }

  lemma KeepsMachinery(s: System, a: Action)
    requires Machinery(s) && Enabled(s, a) && (a.ReportFailure? ==> FreshFor(s, s.callers[a.id]))
    ensures Machinery(Apply(s, a))
  {
    KeepsGenerations(s, a);
    if ByCaller(a) { CallerActionsCount(s, a); } else { OnlyCallersMoveCallers(s, a); }
    KeepsLifecycle(s, a);
    KeepsPublications(s, a);
    KeepsErrorsNamed(s, a);
  }

  lemma StepKeepsInv(s: System, a: Action)
    requires Inv(s) && Enabled(s, a)
    ensures Inv(Apply(s, a))
  {
    assert a.ReportFailure? ==> CallerOk(s, s.callers[a.id]);
    KeepsMachinery(s, a);
    KeepsTokens(s, a);
    forall id | id in Apply(s, a).callers ensures CallerOk(Apply(s, a), Apply(s, a).callers[id]) {
      CallerStaysOk(s, a, id);
    }
  }

  lemma {:induction false} RunKeepsInv(s: System, acts: seq<Action>, t: System)
    requires Inv(s) && Run(s, acts, t)
    ensures Inv(t)
    decreases |acts|
  {
    if acts != [] {
      StepKeepsInv(s, acts[0]);
      RunKeepsInv(Apply(s, acts[0]), acts[1..], t);
    }
  }

  lemma ReachableInv(t: System)
    requires Reachable(t)
    ensures Inv(t)
  {
    var acts :| Run(INITIAL_SYSTEM, acts, t);
    RunKeepsInv(INITIAL_SYSTEM, acts, t);
  }

  // ---- Theorems over every interleaving ----

  /** Whatever a refresh call returns: a publication comes from a collection that
      began after the call registered and is not the fatal one, and the
      "result unavailable" branch is never taken. */
  lemma RefreshIsFresh(s: System, id: nat)
    requires Reachable(s) && id in s.callers && s.callers[id].Leaving?
    ensures s.callers[id].outcome.Ok? ==> GoodFor(s.callers[id].outcome.value, s.callers[id].since)
    ensures s.callers[id].outcome != Err(ResultUnavailable)
  {
    ReachableInv(s);
    assert CallerOk(s, s.callers[id]);
  }

  /** Generations stay within one of each other, every caller that registers
      while the same generation is the last one started waits for the same next
      generation, and a failure recorded earlier is never visible to it. */
  lemma RegistrationsCoalesce(s: System, t: System, id: nat, jd: nat)
    requires Reachable(s) && Reachable(t) && s.gate.started == t.gate.started
    requires Enabled(s, Register(id)) && Enabled(t, Register(jd))
    ensures s.gate.completed <= s.gate.started <= s.gate.requested <= s.gate.started + 1
    ensures Apply(s, Register(id)).callers[id].target == Apply(t, Register(jd)).callers[jd].target
    ensures Apply(s, Register(id)).callers[id].target == s.gate.started + 1
    ensures Apply(s, Register(id)).gate.failed.None?
  {
    ReachableInv(s);
    ReachableInv(t);
  }

  lemma TokensAreLive(s: System, p: Place)
    ensures p in LiveTokens(s) <==> TokenAt(s, p)
  {
  }

  lemma TokenCount(s: System)
    requires Tokens(s) && s.gate.terminal.None? && s.shutdown.NotRequested?
    ensures |LiveTokens(s)| == if s.gate.wakeQueued then 1 else 0
  {
    var live := LiveTokens(s);
    if s.gate.wakeQueued {
      var p :| TokenAt(s, p);
      TokensAreLive(s, p);
      forall q | q in live ensures q == p { TokensAreLive(s, q); }
      assert live == {p};
    } else if live != {} {
      var q :| q in live;
      TokensAreLive(s, q);
    }
  }

  /** Until shutdown is requested or the gate is closed, the wake flag is set
      exactly when one wake-up is on its way to the worker, and never two. */
  lemma WakeMeansOneToken(s: System)
    requires Reachable(s) && s.gate.terminal.None? && s.shutdown.NotRequested?
    ensures |LiveTokens(s)| == if s.gate.wakeQueued then 1 else 0
  {
    ReachableInv(s);
    TokenCount(s);
  }

  /** While the gate is open, the worker alive and no shutdown requested, a waiting
      caller has its own generation being served, or exactly one wake-up on its way,
      or a recorded failure that covers it. */
  lemma WaiterAccounted(s: System, id: nat)
    requires Reachable(s) && s.gate.terminal.None? && s.shutdown.NotRequested? && !Doomed(s.worker)
    requires id in s.callers && s.callers[id].Waiting? && s.callers[id].target > s.gate.completed
    ensures var target := s.callers[id].target;
            || Serving(s.worker) == Some(target)
            || |LiveTokens(s)| == 1
            || (s.gate.failed.Some? && s.gate.failed.value.0 >= target)
  {
    ReachableInv(s);
    assert CallerOk(s, s.callers[id]);
    TokenCount(s);
  }

  lemma {:induction false} RevisionGrows(s: System, acts: seq<Action>, t: System)
    requires Run(s, acts, t)
    ensures s.revision <= t.revision
    ensures s.published != t.published ==> s.revision < t.revision
    decreases |acts|
  {
    if acts != [] {
      RevisionGrows(Apply(s, acts[0]), acts[1..], t);
    }
  }

  /** Along every run publications carry strictly increasing revisions: a later one that
      differs has a larger revision, and none is ever taken back. */
  lemma RevisionsIncrease(s: System, acts: seq<Action>, t: System)
    requires Reachable(s) && Run(s, acts, t) && s.published.Some?
    ensures t.published.Some?
    ensures s.published != t.published ==> s.published.value.revision < t.published.value.revision
  {
    ReachableInv(s);
    RunKeepsInv(s, acts, t);
    RevisionGrows(s, acts, t);
    StaysPublished(s, acts, t);
  }

  lemma {:induction false} StaysPublished(s: System, acts: seq<Action>, t: System)
    requires Run(s, acts, t) && s.published.Some?
    ensures t.published.Some?
    decreases |acts|
  {
    if acts != [] {
      StaysPublished(Apply(s, acts[0]), acts[1..], t);
    }
  }

  // ---- No caller is stranded ----

  function WorkLeft(w: Worker): nat {
    match w
    case Starting(_) => 3
    case Collecting(_, _) => 2
    case Published(_, _) => 1
    case _ => 0
  }

  predicate ServedNow(s: System, target: nat) {
    || Answer(s.gate, target).Some?
    || !s.shutdown.NotRequested?
    || Doomed(s.worker)
    || (s.worker.Published? && s.worker.fatal)
    || (Serving(s.worker).Some? && Serving(s.worker).value >= target)
  }

  /** An upper bound on the steps still needed to answer a caller whose wake-up
      token is at `p`. */
  function Rank(s: System, target: nat, p: Place): nat {
    if Answer(s.gate, target).Some? then 0
    else if !s.shutdown.NotRequested? then 1
    else if s.worker.Panicked? then 2
    else if Doomed(s.worker) then 1
    else if ServedNow(s, target) then WorkLeft(s.worker)
    else match p
      case AtWorker => 4
      case InChannel(i) => 5 + 3 * i + WorkLeft(s.worker)
      case AtCaller(id) =>
        if id in s.callers && s.callers[id].SendFailed? then 1
        else 6 + 3 * |s.channel| + WorkLeft(s.worker)
  }

  /** The worker's next step when nothing goes wrong. */
  function WorkerStep(w: Worker): Action {
    match w
    case Panicked => PublishPanic
    case Terminating => TerminateByWorker
    case Starting(_) => StartRefresh
    case Collecting(_, _) => Publish(Sample)
    case Published(_, _) => Conclude
    case Received => Begin
    case _ => Receive
  }

  function NextStep(s: System, target: nat, p: Place): Action {
    if !s.shutdown.NotRequested? then TerminateByShutdown
    else if ServedNow(s, target) || !p.AtCaller? then WorkerStep(s.worker)
    else if p.id in s.callers && s.callers[p.id].SendFailed? then ReportFailure(p.id)
    else TrySend(p.id)
  }

  /** Steps that finish work already in progress: no newcomer, no timeout, no
      panic, no new shutdown. */
  predicate Finishing(a: Action) {
    || a.TrySend? || a.ReportFailure? || a.Receive? || a.Begin? || a.StartRefresh?
    || a.Publish? || a.PublishPanic? || a.Conclude? || a.TerminateByWorker?
    || a.ObserveFlag? || a.TerminateByShutdown?
  }

  ghost predicate Pending(s: System, id: nat, target: nat, p: Place) {
    && Inv(s)
    && id in s.callers && s.callers[id].Waiting? && s.callers[id].target == target
    && (ServedNow(s, target) || TokenAt(s, p))
  }

  /** The facts about one waiting caller that its next step needs. */
  predicate PendingFacts(s: System, target: nat, p: Place) {
    && Generations(s) && Lifecycle(s) && Publications(s)
    && s.gate.terminal.None? && target <= s.gate.requested
    && (ServedNow(s, target) ||
        (&& TokenAt(s, p)
         && s.gate.requested == s.gate.started + 1
         && (s.worker.Received? <==> p.AtWorker?)
         && (p.AtCaller? ==> s.callers[p.id].target == s.gate.requested)))
  }

  lemma PendingFactsHold(s: System, id: nat, target: nat, p: Place)
    requires Pending(s, id, target, p) && Answer(s.gate, target).None?
    ensures PendingFacts(s, target, p)
  {
    assert CallerOk(s, s.callers[id]);
    if !ServedNow(s, target) {
      assert s.worker.Received? ==> TokenAt(s, AtWorker);
      assert p.AtCaller? ==> CallerOk(s, s.callers[p.id]);
    }
  }

  lemma RankDrops(s: System, target: nat, p: Place)
    requires PendingFacts(s, target, p) && Answer(s.gate, target).None?
    ensures var a := NextStep(s, target, p);
            && Finishing(a) && Enabled(s, a)
            && (ServedNow(Apply(s, a), target) || TokenAt(Apply(s, a), TokenMoves(s, a, p)))
            && Rank(Apply(s, a), target, TokenMoves(s, a, p)) < Rank(s, target, p)
  {
  }

  lemma FinishingKeepsWaiters(s: System, a: Action, id: nat)
    requires Finishing(a) && Enabled(s, a) && id in s.callers && s.callers[id].Waiting?
    ensures id in Apply(s, a).callers && Apply(s, a).callers[id] == s.callers[id]
  {
  }

  lemma {:induction false} AnswerArrives(s: System, id: nat, target: nat, p: Place) returns (acts: seq<Action>, t: System)
    requires Pending(s, id, target, p)
    ensures Run(s, acts, t) && (forall a :: a in acts ==> Finishing(a)) && |acts| <= Rank(s, target, p)
    ensures id in t.callers && t.callers[id] == s.callers[id] && Answer(t.gate, target).Some?
    decreases Rank(s, target, p)
  {
    if Answer(s.gate, target).Some? {
      return [], s;
    }
    PendingFactsHold(s, id, target, p);
    RankDrops(s, target, p);
    var a := NextStep(s, target, p);
    StepKeepsInv(s, a);
    FinishingKeepsWaiters(s, a, id);
    var rest;
    rest, t := AnswerArrives(Apply(s, a), id, target, TokenMoves(s, a, p));
    acts := [a] + rest;
    assert acts[1..] == rest;
  }

  /** No refresh caller is ever stranded: from every reachable state, at most 33
      steps that only finish work in progress lead to a state in which the caller,
      still waiting for the same generation, finds its answer. */
  lemma NoCallerStranded(s: System, id: nat) returns (acts: seq<Action>, t: System)
    requires Reachable(s) && id in s.callers && s.callers[id].Waiting?
    ensures Run(s, acts, t) && (forall a :: a in acts ==> Finishing(a)) && |acts| <= 33
    ensures id in t.callers && t.callers[id] == s.callers[id]
    ensures Answer(t.gate, s.callers[id].target).Some?
  {
    ReachableInv(s);
    var target := s.callers[id].target;
    assert CallerOk(s, s.callers[id]);
    var p := AtWorker;
    if !ServedNow(s, target) {
      assert OnItsWay(s, s.callers[id]);
      p :| TokenAt(s, p);
    }
    acts, t := AnswerArrives(s, id, target, p);
  }

  // ---- Every schedule answers ----

  /** The steps that wind the system down without the caller itself: work in progress
      is finished, a shutdown already asked for proceeds, and the other callers poll,
      time out and leave. */
  predicate WindsDown(a: Action, id: nat) {
    Finishing(a) || ((a.Poll? || a.TimeOut? || a.Finish?) && a.id != id)
  }

  function CallerSteps(c: Caller): nat {
    match c
    case Sending(_, _) => 8
    case SendFailed(_, _, _) => 2
    case Waiting(_, _) => 2
    case Leaving(_, _) => 1
  }

  ghost function CallersSteps(m: map<nat, Caller>): nat
    decreases m.Keys
  {
    if id :| id in m then CallersSteps(m - {id}) + CallerSteps(m[id]) else 0
  }

  function WorkerSteps(w: Worker): nat {
    match w
    case Stopped => 0
    case Idle => 1
    case FatalLoop => 1
    case Published(_, _) => 2
    case Terminating => 2
    case Collecting(_, _) => 3
    case Panicked => 3
    case Starting(_) => 4
    case Received => 5
  }

  /** An upper bound on the winding-down steps still possible. */
  ghost function StepsLeft(s: System): nat {
    CallersSteps(s.callers) + 5 * |s.channel| + WorkerSteps(s.worker) + if s.shutdown.FlagRaised? then 1 else 0
  }

  lemma {:induction false} StepsWithout(m: map<nat, Caller>, id: nat)
    requires id in m
    ensures CallersSteps(m) == CallersSteps(m - {id}) + CallerSteps(m[id])
    decreases m.Keys
  {
    var x :| x in m && CallersSteps(m) == CallersSteps(m - {x}) + CallerSteps(m[x]);
    if x != id {
      StepsWithout(m - {x}, id);
      StepsWithout(m - {id}, x);
      assert m - {x} - {id} == m - {id} - {x};
    }
  }

  lemma StepsWith(m: map<nat, Caller>, id: nat, c: Caller)
    requires id in m
    ensures CallersSteps(m[id := c]) + CallerSteps(m[id]) == CallersSteps(m) + CallerSteps(c)
  {
    StepsWithout(m, id);
    StepsWithout(m[id := c], id);
    assert m[id := c] - {id} == m - {id};
  }

  lemma CallerStepLowers(s: System, a: Action)
    requires Enabled(s, a) && ByCaller(a) && !a.Register?
    ensures StepsLeft(Apply(s, a)) < StepsLeft(s)
  {
    if a.Finish? {
      StepsWithout(s.callers, a.id);
    } else {
      StepsWith(s.callers, a.id, Apply(s, a).callers[a.id]);
    }
  }

  lemma OtherStepLowers(s: System, a: Action)
    requires Enabled(s, a) && Finishing(a) && !ByCaller(a)
    ensures StepsLeft(Apply(s, a)) < StepsLeft(s)
  {
    OnlyCallersMoveCallers(s, a);
  }

  lemma WindingDownLowers(s: System, a: Action, id: nat)
    requires Enabled(s, a) && WindsDown(a, id)
    ensures StepsLeft(Apply(s, a)) < StepsLeft(s)
  {
    if ByCaller(a) { CallerStepLowers(s, a); } else { OtherStepLowers(s, a); }
  }

  lemma WaiterUntouched(s: System, a: Action, id: nat)
    requires Enabled(s, a) && WindsDown(a, id) && id in s.callers && s.callers[id].Waiting?
    ensures id in Apply(s, a).callers && Apply(s, a).callers[id] == s.callers[id]
  {
  }

  lemma {:induction false} WindingDownRun(s: System, acts: seq<Action>, t: System, id: nat)
    requires Inv(s) && Run(s, acts, t) && (forall a :: a in acts ==> WindsDown(a, id))
    requires id in s.callers && s.callers[id].Waiting?
    ensures Inv(t) && |acts| + StepsLeft(t) <= StepsLeft(s)
    ensures id in t.callers && t.callers[id] == s.callers[id]
    decreases |acts|
  {
    if acts != [] {
      assert acts[0] in acts;
      StepKeepsInv(s, acts[0]);
      WindingDownLowers(s, acts[0], id);
      WaiterUntouched(s, acts[0], id);
      WindingDownRun(Apply(s, acts[0]), acts[1..], t, id);
    }
  }

  /** An unanswered waiter always has a step to wait for. */
  lemma SomeStepEnabled(s: System, id: nat) returns (a: Action)
    requires Inv(s) && id in s.callers && s.callers[id].Waiting? && Answer(s.gate, s.callers[id].target).None?
    ensures Enabled(s, a) && Finishing(a)
  {
    var target := s.callers[id].target;
    assert CallerOk(s, s.callers[id]);
    var p := AtWorker;
    if !ServedNow(s, target) {
      p :| TokenAt(s, p);
    }
    PendingFactsHold(s, id, target, p);
    RankDrops(s, target, p);
    a := NextStep(s, target, p);
  }

  /** Under every schedule: from any reachable state, however the winding-down steps are
      ordered, there are at most `StepsLeft` of them, and when none is left to take the
      waiting caller has its answer. */
  lemma EveryScheduleAnswers(s: System, acts: seq<Action>, t: System, id: nat)
    requires Reachable(s) && id in s.callers && s.callers[id].Waiting?
    requires Run(s, acts, t) && forall a :: a in acts ==> WindsDown(a, id)
    ensures |acts| <= StepsLeft(s) && id in t.callers && t.callers[id] == s.callers[id]
    ensures (forall a :: WindsDown(a, id) ==> !Enabled(t, a)) ==> Answer(t.gate, s.callers[id].target).Some?
  {
    ReachableInv(s);
    WindingDownRun(s, acts, t, id);
    if Answer(t.gate, s.callers[id].target).None? {
      var a := SomeStepEnabled(t, id);
      assert WindsDown(a, id);
    }
  }

  /** And an answer, once there, is not taken away. */
  lemma AnswerStays(s: System, a: Action, id: nat)
    requires Inv(s) && Enabled(s, a) && WindsDown(a, id) && id in s.callers && s.callers[id].Waiting?
    requires Answer(s.gate, s.callers[id].target).Some?
    ensures Answer(Apply(s, a).gate, s.callers[id].target).Some?
  {
    assert CallerOk(s, s.callers[id]);
    TokenFactsHold(s, a, id);
    KeepsAnswer(s, a, s.callers[id].target);
  }

  lemma KeepsAnswer(s: System, a: Action, target: nat)
    requires Generations(s) && Enabled(s, a) && target <= s.gate.requested && !a.Register?
    requires s.gate.terminal.None? && a.ReportFailure? ==> s.callers[a.id].target == s.gate.requested
    requires a.Finish? ==> s.gate.waiting > 1
    requires Answer(s.gate, target).Some?
    ensures Answer(Apply(s, a).gate, target).Some?
  {
  }

  /** The last caller to leave takes the stored publication and failure with it; while
      others remain, both stay. */
  lemma LastLeaverClears(s: System, id: nat)
    requires Reachable(s) && Enabled(s, Finish(id))
    ensures var g := Apply(s, Finish(id)).gate;
            if s.callers.Keys == {id} then g.publication.None? && g.failed.None?
            else g.publication == s.gate.publication && g.failed == s.gate.failed
  {
    ReachableInv(s);
    RemoveSize(s.callers, id);
    if s.callers.Keys == {id} {
      assert s.callers - {id} == map[];
    } else {
      var other :| other in s.callers.Keys && other != id;
      assert other in s.callers - {id};
    }
  }
}
