/** The mutex-protected gate through which many callers share one collector
    worker (collector_engine.rs). `GateState` is the value under the mutex; each
    function below is the effect of one critical section, and the class performs
    the same critical sections by assigning its fields. Generation counters are
    unbounded: the source's saturating additions never saturate. */
module RefreshGate {
  import opened Basics

  /** The error texts a refresh can return. */
  datatype RefreshError =
    | ShuttingDown
    | ControlBusy
    | EngineUnavailable
    | EngineFatal
    | TimedOut
    | ResultUnavailable

  datatype Event = Sample | Unavailable | Fatal | PausedHeartbeat

  /** `collection` numbers the `collect` call that produced the publication,
      0 when none did. */
  datatype Publication = Publication(revision: nat, event: Event, collection: nat)

  datatype GateState = GateState(
    requested: nat,
    started: nat,
    completed: nat,
    waiting: nat,
    wakeQueued: bool,
    publication: Option<(nat, Publication)>,
    failed: Option<(nat, RefreshError)>,
    terminal: Option<RefreshError>)

  const INITIAL := GateState(0, 0, 0, 0, false, None, None, None)

  /** The generation a caller that registers now will wait for. */
  function Target(g: GateState): nat {
    if g.requested == g.started then g.requested + 1 else g.requested
  }

  function Registered(g: GateState): GateState {
    g.(requested := Target(g),
       wakeQueued := true,
       failed := if g.wakeQueued then g.failed else None,
       waiting := g.waiting + 1)
  }

  function Begun(g: GateState): GateState {
    g.(wakeQueued := false,
       started := if g.requested <= g.started then g.started else g.started + 1)
  }

  function Completed(g: GateState, generation: nat, p: Publication): GateState {
    g.(completed := generation, publication := Some((generation, p)))
  }

  function Failed(g: GateState, generation: nat, error: RefreshError): GateState {
    g.(failed := Some((generation, error)), wakeQueued := false)
  }

  function Finished(g: GateState): GateState {
    var waiting: nat := if g.waiting == 0 then 0 else g.waiting - 1;
    if waiting == 0
    then g.(waiting := 0, publication := None, failed := None)
    else g.(waiting := waiting)
  }

  function Terminated(g: GateState, error: RefreshError): GateState {
    g.(terminal := Some(error), wakeQueued := false)
  }

  /** What one look at the gate tells a waiter: an answer, or keep waiting. */
  function Answer(g: GateState, target: nat): Option<Result<Publication, RefreshError>> {
    if g.terminal.Some? then Some(Err(g.terminal.value))
    else if g.completed >= target then
      if g.publication.Some? && g.publication.value.0 >= target
      then Some(Ok(g.publication.value.1))
      else Some(Err(ResultUnavailable))
    else if g.failed.Some? && g.failed.value.0 >= target then Some(Err(g.failed.value.1))
    else None
  }

  class Gate {
    var requested: nat
    var started: nat
    var completed: nat
    var waiting: nat
    var wakeQueued: bool
    var publication: Option<(nat, Publication)>
    var failed: Option<(nat, RefreshError)>
    var terminal: Option<RefreshError>

    ghost function State(): GateState
      reads this
    {
      GateState(requested, started, completed, waiting, wakeQueued, publication, failed, terminal)
    }

    constructor ()
      ensures State() == INITIAL
    {
      requested, started, completed, waiting, wakeQueued := 0, 0, 0, 0, false;
      publication, failed, terminal := None, None, None;
    }

    /** The registration section of `refresh_now`: the target generation, and
        whether this caller must post the wake-up. */
    method Register() returns (r: Result<(nat, bool), RefreshError>)
      modifies this
      ensures old(terminal).Some? ==> r == Err(old(terminal).value) && State() == old(State())
      ensures old(terminal).None? ==>
                && r == Ok((Target(old(State())), !old(wakeQueued)))
                && State() == Registered(old(State()))
    {
      if terminal.Some? {
        return Err(terminal.value);
      }
      if requested == started {
        requested := requested + 1;
      }
      var schedule := !wakeQueued;
      wakeQueued := true;
      if schedule {
        failed := None;
      }
      waiting := waiting + 1;
      return Ok((requested, schedule));
    }

    method Begin() returns (generation: Option<nat>)
      modifies this
      ensures State() == Begun(old(State()))
      ensures generation == if old(requested) <= old(started) then None else Some(started)
    {
      wakeQueued := false;
      if requested <= started {
        return None;
      }
      started := started + 1;
      return Some(started);
    }

    method Complete(generation: nat, p: Publication)
      modifies this
      ensures State() == Completed(old(State()), generation, p)
    {
      completed := generation;
      publication := Some((generation, p));
    }

    method Fail(generation: nat, error: RefreshError)
      modifies this
      ensures State() == Failed(old(State()), generation, error)
    {
      failed := Some((generation, error));
      wakeQueued := false;
    }

    method FinishWait()
      modifies this
      ensures State() == Finished(old(State()))
    {
      if waiting > 0 {
        waiting := waiting - 1;
      }
      if waiting == 0 {
        publication := None;
        failed := None;
      }
    }

    method Terminate(error: RefreshError)
      modifies this
      ensures State() == Terminated(old(State()), error)
    {
      terminal := Some(error);
      wakeQueued := false;
    }

    /** One pass of the wait loop: `None` means the caller blocks again. */
    method Poll(target: nat) returns (answer: Option<Result<Publication, RefreshError>>)
      ensures answer == Answer(State(), target)
    {
      if terminal.Some? {
        return Some(Err(terminal.value));
      }
      if completed >= target {
        if publication.Some? && publication.value.0 >= target {
          return Some(Ok(publication.value.1));
        }
        return Some(Err(ResultUnavailable));
      }
      if failed.Some? && failed.value.0 >= target {
        return Some(Err(failed.value.1));
      }
      return None;
    }
  }
}
