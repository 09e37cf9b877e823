/** Where the answers of the refresh protocol come from (collector_engine.rs): every
    publication a caller gets, every error, and every snapshot, traced to the actions of
    the run. */
module CollectorAnswers {
  import opened Basics
  import opened RefreshGate
  import opened CollectorProtocol

  /** The state a run of actions leads to, if each was possible. */
  function After(acts: seq<Action>): Option<System> {
    if acts == [] then Some(INITIAL_SYSTEM)
    else
      var before, a := After(acts[..|acts| - 1]), acts[|acts| - 1];
      if before.Some? && Enabled(before.value, a) then Some(Apply(before.value, a)) else None
  }

  lemma {:induction false} RunSplits(s: System, acts: seq<Action>, t: System) returns (mid: System)
    requires Run(s, acts, t) && acts != []
    ensures Run(s, acts[..|acts| - 1], mid) && Enabled(mid, acts[|acts| - 1]) && t == Apply(mid, acts[|acts| - 1])
    decreases |acts|
  {
    if |acts| == 1 {
      assert acts[1..] == [];
      return s;
    }
    mid := RunSplits(Apply(s, acts[0]), acts[1..], t);
    assert acts[1..][..|acts| - 2] == acts[..|acts| - 1][1..];
  }

  lemma {:induction false} RunLeadsTo(acts: seq<Action>, t: System)
    requires Run(INITIAL_SYSTEM, acts, t)
    ensures After(acts) == Some(t)
    decreases |acts|
  {
    if acts != [] {
      var mid := RunSplits(INITIAL_SYSTEM, acts, t);
      RunLeadsTo(acts[..|acts| - 1], mid);
    }
  }

  // ---- The snapshot ----

  predicate Publishing(a: Action) { a.Publish? || a.Heartbeat? || a.PublishPanic? }

  function EventOf(a: Action): Event
    requires Publishing(a)
  {
    match a
    case Publish(e) => e
    case Heartbeat => PausedHeartbeat
    case PublishPanic => Fatal
  }

  function Publications(acts: seq<Action>): nat {
    if acts == [] then 0
    else Publications(acts[..|acts| - 1]) + if Publishing(acts[|acts| - 1]) then 1 else 0
  }

  function LastEvent(acts: seq<Action>): Option<Event> {
    if acts == [] then None
    else if Publishing(acts[|acts| - 1]) then Some(EventOf(acts[|acts| - 1]))
    else LastEvent(acts[..|acts| - 1])
  }

  /** Over every run: the revision is the number of publications so far, and the snapshot
      is the last one, with that revision and the event of the action that published it. */
  lemma {:induction false} SnapshotExact(acts: seq<Action>)
    requires After(acts).Some?
    ensures var s := After(acts).value;
            && s.revision == Publications(acts)
            && (if LastEvent(acts).None? then s.published.None?
                else s.published.Some? && s.published.value.revision == Publications(acts)
                     && s.published.value.event == LastEvent(acts).value)
  {
    if acts != [] {
      SnapshotExact(acts[..|acts| - 1]);
      StepPublishes(After(acts[..|acts| - 1]).value, acts[|acts| - 1]);
    }
  }

  lemma StepPublishes(s: System, a: Action)
    requires Enabled(s, a)
    ensures var t := Apply(s, a);
            if Publishing(a) then
              && t.revision == s.revision + 1 && t.published.Some?
              && t.published.value.revision == t.revision && t.published.value.event == EventOf(a)
            else t.revision == s.revision && t.published == s.published
  {
  }

  // ---- Where a caller's publication comes from ----

  /** Action `i` of the run ended a collection with `p`: it published the event, under the
      next revision and the number of that collection. */
  predicate PublishedAt(acts: seq<Action>, i: nat, p: Publication) {
    && i < |acts| && acts[i].Publish? && After(acts[..i]).Some?
    && After(acts[..i]).value.worker.Collecting?
    && p.event == acts[i].event && p.revision == Publications(acts[..i]) + 1
    && p.collection == After(acts[..i]).value.worker.collection
    && After(acts[..i + 1]).Some? && After(acts[..i + 1]).value.published == Some(p)
  }

  ghost predicate WasPublished(acts: seq<Action>, p: Publication) { exists i: nat :: PublishedAt(acts, i, p) }

  lemma StillPublished(acts: seq<Action>, a: Action, p: Publication)
    requires WasPublished(acts, p)
    ensures WasPublished(acts + [a], p)
  {
    var i: nat :| PublishedAt(acts, i, p);
    assert (acts + [a])[..i] == acts[..i] && (acts + [a])[..i + 1] == acts[..i + 1];
    assert PublishedAt(acts + [a], i, p);
  }

  lemma JustPublished(acts: seq<Action>, e: Event)
    requires After(acts).Some? && Enabled(After(acts).value, Publish(e))
    ensures WasPublished(acts + [Publish(e)], Apply(After(acts).value, Publish(e)).published.value)
  {
    var all, n := acts + [Publish(e)], |acts|;
    SnapshotExact(acts);
    assert all[..n] == acts && all[..n + 1] == all;
    assert PublishedAt(all, n, Apply(After(acts).value, Publish(e)).published.value);
  }

  predicate Got(c: Caller, p: Publication) { c.Leaving? && c.outcome == Ok(p) }

  ghost predicate Sourced(acts: seq<Action>, s: System) {
    && (s.worker.Published? ==> s.published.Some? && WasPublished(acts, s.published.value))
    && (s.gate.publication.Some? ==> WasPublished(acts, s.gate.publication.value.1))
    && (forall id, p :: id in s.callers && Got(s.callers[id], p) ==> WasPublished(acts, p))
  }

  /** What a step leaves in the worker's and the gate's hands was there, or is published
      by it; and a caller gets only what the gate held. */
  lemma StepHands(s: System, a: Action)
    requires Enabled(s, a)
    ensures var t := Apply(s, a);
            && (t.worker.Published? && !a.Publish? ==> s.worker.Published? && t.published == s.published)
            && (t.gate.publication.Some? ==>
                  || t.gate.publication == s.gate.publication
                  || (a.Conclude? && s.published.Some? && t.gate.publication.value.1 == s.published.value))
  {
  }

  lemma StepGets(s: System, a: Action, id: nat, p: Publication)
    requires Enabled(s, a) && id in Apply(s, a).callers && Got(Apply(s, a).callers[id], p)
    ensures || (id in s.callers && Got(s.callers[id], p))
            || (s.gate.publication.Some? && s.gate.publication.value.1 == p)
  {
  }

  lemma StepSourced(acts: seq<Action>, a: Action)
    requires After(acts).Some? && Enabled(After(acts).value, a) && Sourced(acts, After(acts).value)
    ensures Sourced(acts + [a], Apply(After(acts).value, a))
  {
    var s, t := After(acts).value, Apply(After(acts).value, a);
    StepHands(s, a);
    forall p | WasPublished(acts, p) ensures WasPublished(acts + [a], p) { StillPublished(acts, a, p); }
    if a.Publish? { JustPublished(acts, a.event); }
    forall id, p | id in t.callers && Got(t.callers[id], p) ensures WasPublished(acts + [a], p) {
      StepGets(s, a, id, p);
    }
  }

  lemma {:induction false} RunSourced(acts: seq<Action>)
    requires After(acts).Some?
    ensures Sourced(acts, After(acts).value)
  {
    if acts != [] {
      var before := acts[..|acts| - 1];
      RunSourced(before);
      StepSourced(before, acts[|acts| - 1]);
      assert acts == before + [acts[|acts| - 1]];
    }
  }

  /** Whatever publication a refresh call returns, some earlier action of the run
      published exactly it, at the end of the collection it names and with the event that
      collection ended with. */
  lemma AnswerWasPublished(acts: seq<Action>, t: System, id: nat)
    requires Run(INITIAL_SYSTEM, acts, t) && id in t.callers && t.callers[id].Leaving? && t.callers[id].outcome.Ok?
    ensures exists i: nat :: PublishedAt(acts, i, t.callers[id].outcome.value)
  {
    RunLeadsTo(acts, t);
    RunSourced(acts);
    var p := t.callers[id].outcome.value;
    assert Got(t.callers[id], p);
    assert WasPublished(acts, p);
  }

  // ---- Where an error comes from ----

  /** A send of the run found the channel unusable for this reason. */
  predicate SendFailedAt(acts: seq<Action>, i: nat, stopped: bool) {
    && i < |acts| && acts[i].TrySend? && After(acts[..i]).Some?
    && (if stopped then After(acts[..i]).value.worker.Stopped?
        else !After(acts[..i]).value.worker.Stopped? && |After(acts[..i]).value.channel| >= CONTROL_QUEUE_CAPACITY)
  }

  /** Something in the run that justifies telling caller `id` this error. */
  ghost predicate Explained(acts: seq<Action>, id: nat, e: RefreshError) {
    match e
    case TimedOut => TimeOut(id) in acts
    case EngineFatal => Publish(Fatal) in acts || Panic in acts
    case ShuttingDown => TerminateByShutdown in acts
    case ControlBusy => exists i: nat :: SendFailedAt(acts, i, false)
    case EngineUnavailable => exists i: nat :: SendFailedAt(acts, i, true)
    case ResultUnavailable => false
  }

  lemma StillExplained(acts: seq<Action>, a: Action, id: nat, e: RefreshError)
    requires Explained(acts, id, e)
    ensures Explained(acts + [a], id, e)
  {
    if e.ControlBusy? || e.EngineUnavailable? {
      var i: nat :| SendFailedAt(acts, i, e.EngineUnavailable?);
      assert (acts + [a])[..i] == acts[..i];
      assert SendFailedAt(acts + [a], i, e.EngineUnavailable?);
    }
  }

  /** The error a caller has been told, or is about to report. */
  predicate Told(c: Caller, e: RefreshError) {
    (c.Leaving? && c.outcome == Err(e)) || (c.SendFailed? && c.error == e)
  }

  /** The errors the gate and the worker carry do not depend on who asks. */
  ghost predicate Shared(acts: seq<Action>, e: RefreshError) { !e.TimedOut? && Explained(acts, 0, e) }

  ghost predicate Justified(acts: seq<Action>, s: System) {
    && (s.gate.terminal.Some? ==> Shared(acts, s.gate.terminal.value))
    && (s.gate.failed.Some? ==> Shared(acts, s.gate.failed.value.1))
    && ((s.worker.Published? && s.worker.fatal) || s.worker.Panicked? || s.worker.Terminating? ==>
          Explained(acts, 0, EngineFatal))
    && (forall id :: id in s.callers && s.callers[id].SendFailed? ==> !s.callers[id].error.TimedOut?)
    && (forall id, e :: id in s.callers && Told(s.callers[id], e) ==> Explained(acts, id, e))
  }

  lemma StepTells(s: System, a: Action, id: nat, e: RefreshError)
    requires Enabled(s, a) && id in Apply(s, a).callers && Told(Apply(s, a).callers[id], e)
    ensures || (id in s.callers && Told(s.callers[id], e))
            || (a == TimeOut(id) && e == TimedOut)
            || (a == TrySend(id) && !ChannelOpen(s) && e == if s.worker.Stopped? then EngineUnavailable else ControlBusy)
            || (s.gate.terminal == Some(e))
            || (a == Poll(id) && s.gate.failed.Some? && s.gate.failed.value.1 == e)
            || e == ResultUnavailable
  {
  }

  lemma StepErrors(s: System, a: Action)
    requires Enabled(s, a)
    ensures var t := Apply(s, a);
            && (t.gate.terminal.Some? ==>
                  || t.gate.terminal == s.gate.terminal
                  || (a.TerminateByShutdown? && t.gate.terminal == Some(ShuttingDown))
                  || (a.TerminateByWorker? && t.gate.terminal == Some(EngineFatal))
                  || (a.Conclude? && s.worker.Published? && s.worker.fatal && t.gate.terminal == Some(EngineFatal)))
            && (t.gate.failed.Some? ==>
                  || t.gate.failed == s.gate.failed
                  || (a.ReportFailure? && t.gate.failed.value.1 == s.callers[a.id].error))
            && ((t.worker.Published? && t.worker.fatal) || t.worker.Panicked? || t.worker.Terminating? ==>
                  || (s.worker.Published? && s.worker.fatal) || s.worker.Panicked? || s.worker.Terminating?
                  || a == Publish(Fatal) || a == Panic)
  {
  }

  lemma SendNoted(acts: seq<Action>, id: nat)
    requires After(acts).Some? && Enabled(After(acts).value, TrySend(id)) && !ChannelOpen(After(acts).value)
    ensures Explained(acts + [TrySend(id)], id,
                      if After(acts).value.worker.Stopped? then EngineUnavailable else ControlBusy)
  {
    var all, n := acts + [TrySend(id)], |acts|;
    assert all[..n] == acts;
    assert SendFailedAt(all, n, After(acts).value.worker.Stopped?);
  }

  lemma SharedKept(acts: seq<Action>, a: Action, e: RefreshError)
    requires Shared(acts, e)
    ensures Shared(acts + [a], e)
  {
    StillExplained(acts, a, 0, e);
  }

  lemma GateJustified(acts: seq<Action>, a: Action, s: System)
    requires Enabled(s, a) && Justified(acts, s)
    ensures var g, all := Apply(s, a).gate, acts + [a];
            (g.terminal.Some? ==> Shared(all, g.terminal.value)) && (g.failed.Some? ==> Shared(all, g.failed.value.1))
  {
    assert a in acts + [a];
    StepErrors(s, a);
    if s.gate.terminal.Some? { SharedKept(acts, a, s.gate.terminal.value); }
    if s.gate.failed.Some? { SharedKept(acts, a, s.gate.failed.value.1); }
    if Explained(acts, 0, EngineFatal) { StillExplained(acts, a, 0, EngineFatal); }
    if a.ReportFailure? { SendErrorShared(acts, a, s); }
  }

  lemma SendErrorShared(acts: seq<Action>, a: Action, s: System)
    requires Enabled(s, a) && a.ReportFailure? && Justified(acts, s)
    ensures Shared(acts + [a], s.callers[a.id].error)
  {
    assert Told(s.callers[a.id], s.callers[a.id].error);
    assert Explained(acts, 0, s.callers[a.id].error);
    SharedKept(acts, a, s.callers[a.id].error);
  }

  lemma WorkerJustified(acts: seq<Action>, a: Action, s: System)
    requires Enabled(s, a) && Justified(acts, s)
    ensures var w := Apply(s, a).worker;
            (w.Published? && w.fatal) || w.Panicked? || w.Terminating? ==> Explained(acts + [a], 0, EngineFatal)
  {
    assert a in acts + [a];
    StepErrors(s, a);
    if Explained(acts, 0, EngineFatal) { StillExplained(acts, a, 0, EngineFatal); }
  }

  lemma SendErrors(s: System, a: Action, id: nat)
    requires Enabled(s, a) && id in Apply(s, a).callers && Apply(s, a).callers[id].SendFailed?
    requires forall i :: i in s.callers && s.callers[i].SendFailed? ==> !s.callers[i].error.TimedOut?
    ensures !Apply(s, a).callers[id].error.TimedOut?
  {
  }

  lemma StepJustified(acts: seq<Action>, a: Action)
    requires After(acts).Some? && Enabled(After(acts).value, a)
    requires Justified(acts, After(acts).value) && Inv(Apply(After(acts).value, a))
    ensures Justified(acts + [a], Apply(After(acts).value, a))
  {
    var s, t := After(acts).value, Apply(After(acts).value, a);
    GateJustified(acts, a, s);
    WorkerJustified(acts, a, s);
    forall id | id in t.callers && t.callers[id].SendFailed? ensures !t.callers[id].error.TimedOut? { SendErrors(s, a, id); }
    forall id, e | id in t.callers && Told(t.callers[id], e) ensures Explained(acts + [a], id, e) {
      ToldExplained(acts, a, id, e);
    }
  }

  lemma ToldExplained(acts: seq<Action>, a: Action, id: nat, e: RefreshError)
    requires After(acts).Some? && Enabled(After(acts).value, a)
    requires Justified(acts, After(acts).value) && Inv(Apply(After(acts).value, a))
    requires id in Apply(After(acts).value, a).callers && Told(Apply(After(acts).value, a).callers[id], e)
    ensures Explained(acts + [a], id, e)
  {
    var s, t := After(acts).value, Apply(After(acts).value, a);
    StepTells(s, a, id, e);
    assert CallerOk(t, t.callers[id]);
    assert a in acts + [a];
    if a == TrySend(id) && !ChannelOpen(s) { SendNoted(acts, id); }
    if Explained(acts, id, e) { StillExplained(acts, a, id, e); }
  }

  lemma {:induction false} RunInv(acts: seq<Action>)
    requires After(acts).Some?
    ensures Inv(After(acts).value)
  {
    if acts != [] {
      RunInv(acts[..|acts| - 1]);
      StepKeepsInv(After(acts[..|acts| - 1]).value, acts[|acts| - 1]);
    }
  }

  lemma NothingToJustify()
    ensures Justified([], INITIAL_SYSTEM)
  {
  }

  lemma {:induction false} RunJustified(acts: seq<Action>)
    requires After(acts).Some?
    ensures Justified(acts, After(acts).value)
  {
    if acts == [] {
      NothingToJustify();
    } else {
      RunJustified(acts[..|acts| - 1]);
      LastJustified(acts[..|acts| - 1], acts[|acts| - 1]);
      assert acts == acts[..|acts| - 1] + [acts[|acts| - 1]];
    }
  }

  lemma LastJustified(before: seq<Action>, a: Action)
    requires After(before).Some? && Enabled(After(before).value, a) && Justified(before, After(before).value)
    ensures Justified(before + [a], Apply(After(before).value, a))
  {
    RunInv(before);
    StepKeepsInv(After(before).value, a);
    StepJustified(before, a);
  }

  /** Whatever error a refresh call returns, the run contains the reason: its own time-out,
      a fatal collection or panic, a shutdown, or a send that found the channel full or
      the worker gone. */
  lemma ErrorIsExplained(acts: seq<Action>, t: System, id: nat)
    requires Run(INITIAL_SYSTEM, acts, t) && id in t.callers && t.callers[id].Leaving? && t.callers[id].outcome.Err?
    ensures Explained(acts, id, t.callers[id].outcome.error)
  {
    RunLeadsTo(acts, t);
    RunJustified(acts);
    assert Told(t.callers[id], t.callers[id].outcome.error);
  }

  // ---- How many collections there were ----

  /** The action begins a collection: a due deadline, a begun refresh, or a resume. */
  predicate BeginsCollection(s: System, a: Action) {
    a.StartScheduled? || a.StartRefresh? || (a.Receive? && s.worker.Idle? && s.channel != [] && s.channel[0].Resume?)
  }

  function Collections(acts: seq<Action>): nat {
    if acts == [] then 0
    else
      var before := After(acts[..|acts| - 1]);
      Collections(acts[..|acts| - 1]) + if before.Some? && BeginsCollection(before.value, acts[|acts| - 1]) then 1 else 0
  }

  lemma StepCollects(s: System, a: Action)
    requires Enabled(s, a) && (s.worker.Collecting? ==> s.worker.collection == s.collections)
    ensures var t := Apply(s, a);
            && t.collections == s.collections + (if BeginsCollection(s, a) then 1 else 0)
            && (BeginsCollection(s, a) ==> t.worker.Collecting?)
            && (t.worker.Collecting? ==> t.worker.collection == t.collections)
  {
  }

  /** Collections are numbered 1, 2, 3, ... as deadlines, refreshes and resumes begin them,
      and the one in progress is the last. */
  lemma {:induction false} CollectionsExact(acts: seq<Action>)
    requires After(acts).Some?
    ensures var s := After(acts).value;
            s.collections == Collections(acts) && (s.worker.Collecting? ==> s.worker.collection == Collections(acts))
  {
    if acts != [] {
      CollectionsExact(acts[..|acts| - 1]);
      StepCollects(After(acts[..|acts| - 1]).value, acts[|acts| - 1]);
    }
  }

  // ---- Shutting down ----

  /** The worker ends: it sees the flag between two pieces of work, or takes the
      shutdown control. */
  predicate Stops(s: System, a: Action) {
    a.ObserveFlag? || (a.Receive? && s.channel != [] && s.channel[0] == Control.Shutdown)
  }

  predicate StopsAt(acts: seq<Action>, i: nat) {
    i < |acts| && After(acts[..i]).Some? && Stops(After(acts[..i]).value, acts[i])
  }

  ghost predicate HasStopped(acts: seq<Action>) { exists i: nat :: StopsAt(acts, i) }

  lemma StepStops(s: System, a: Action)
    requires Enabled(s, a)
    ensures Apply(s, a).worker.Stopped? <==> s.worker.Stopped? || Stops(s, a)
    ensures Apply(s, a).shutdown == if a.RaiseFlag? then FlagRaised else if a.TerminateByShutdown? then GateTerminated else s.shutdown
  {
  }

  lemma HasStoppedStep(before: seq<Action>, a: Action)
    requires After(before).Some?
    ensures HasStopped(before + [a]) <==> HasStopped(before) || Stops(After(before).value, a)
  {
    var acts, n := before + [a], |before|;
    assert acts[..n] == before;
    if i: nat :| StopsAt(before, i) {
      assert acts[..i] == before[..i];
      assert StopsAt(acts, i);
    }
    if i: nat :| StopsAt(acts, i) && i < n {
      assert acts[..i] == before[..i];
      assert StopsAt(before, i);
    }
    assert StopsAt(acts, n) <==> Stops(After(before).value, a);
  }

  /** Over every run: shutdown has got as far as its own steps took it, and the worker has
      stopped exactly if it once saw the flag or took the shutdown control. */
  lemma {:induction false} ShutdownExact(acts: seq<Action>)
    requires After(acts).Some?
    ensures var s := After(acts).value;
            && (s.shutdown.NotRequested? <==> RaiseFlag !in acts)
            && (s.shutdown.GateTerminated? <==> TerminateByShutdown in acts)
            && (s.worker.Stopped? <==> HasStopped(acts))
  {
    if acts != [] {
      var before, a := acts[..|acts| - 1], acts[|acts| - 1];
      assert acts == before + [a];
      ShutdownExact(before);
      StepStops(After(before).value, a);
      HasStoppedStep(before, a);
    }
  }

  function StopStep(w: Worker): Action { if w.Idle? || w.FatalLoop? then ObserveFlag else WorkerStep(w) }

  lemma StopStepGoesOn(s: System)
    requires Inv(s) && !s.shutdown.NotRequested? && !s.worker.Stopped?
    ensures Enabled(s, StopStep(s.worker))
    ensures var t := Apply(s, StopStep(s.worker));
            WorkerSteps(t.worker) < WorkerSteps(s.worker) && t.shutdown == s.shutdown
  {
  }

  /** From every reachable state, once the flag is raised, at most five steps of the
      worker itself bring it to its end, whatever it was doing. */
  lemma ShutdownCompletes(s: System) returns (steps: seq<Action>, t: System)
    requires Reachable(s) && !s.shutdown.NotRequested?
    ensures |steps| <= 5 && Run(s, steps, t) && t.worker.Stopped?
  {
    ReachableInv(s);
    steps, t := WindsDown(s);
  }

  lemma {:induction false} WindsDown(s: System) returns (steps: seq<Action>, t: System)
    requires Inv(s) && !s.shutdown.NotRequested?
    ensures |steps| <= WorkerSteps(s.worker) && Run(s, steps, t) && t.worker.Stopped?
    decreases WorkerSteps(s.worker)
  {
    if s.worker.Stopped? {
      return [], s;
    }
    var a := StopStep(s.worker);
    StopStepGoesOn(s);
    StepKeepsInv(s, a);
    steps, t := WindsDown(Apply(s, a));
    assert ([a] + steps)[1..] == steps;
    steps := [a] + steps;
  }
}
