/** The bounded queue in front of the background writer
    (background_persistence.rs). `QueueState` is the value under the mutex and each
    function is the effect of one critical section; the class performs the same
    sections by assigning its fields. Generation counters never saturate. */
module WriterQueue {
  import opened Basics
  import opened PersistenceCoordinator

  const QUEUE_CAPACITY := 32

  type Payload = string

  datatype Work =
    | Write(component: Component, payload: Payload)
    | Remove(component: Component)
    | Record(event: Payload)
    | RetryDiagnostics

  datatype Job = Job(generation: nat, at: nat, work: Work)

  function Owner(w: Work): Option<Component> {
    match w
    case Write(c, _) => Some(c)
    case Remove(c) => Some(c)
    case Record(_) => Some(Diagnostics)
    case RetryDiagnostics => None
  }

  /** Only disposable cache writes coalesce. */
  predicate Coalescible(w: Work) { w.Write? && w.component.WarmCache? }

  /** `rejected` keeps the generation and time of a refused submission. */
  datatype QueueState = QueueState(
    generation: nat,
    rejected: map<Component, (nat, nat)>,
    failedWrites: set<Component>,
    jobs: seq<Job>,
    active: Option<Option<Component>>,
    health: Components,
    closed: bool,
    completed: bool)

  function Kept(jobs: seq<Job>): (kept: seq<Job>)
    ensures |kept| <= |jobs|
    ensures forall j :: j in kept <==> j in jobs && !Coalescible(j.work)
  {
    if jobs == [] then []
    else if Coalescible(jobs[0].work) then Kept(jobs[1..])
    else [jobs[0]] + Kept(jobs[1..])
  }

  function Refused(q: QueueState, job: Job): QueueState {
    var owner := Owner(job.work);
    if owner.Some? then q.(rejected := q.rejected[owner.value := (job.generation, job.at)]) else q
  }

  /** `submit`: the new queue and whether the job was accepted. */
  function Submitted(q: QueueState, work: Work, at: nat): (QueueState, bool) {
    var job := Job(q.generation + 1, at, work);
    var counted := q.(generation := q.generation + 1);
    if q.closed then (Refused(counted, job), false)
    else
      var room := if Coalescible(work) then counted.(jobs := Kept(q.jobs)) else counted;
      if |room.jobs| >= QUEUE_CAPACITY then (Refused(room, job), false)
      else (room.(jobs := room.jobs + [job]), true)
  }

  function Taken(q: QueueState): QueueState
    requires q.jobs != []
  {
    q.(jobs := q.jobs[1..], active := Some(Owner(q.jobs[0].work)))
  }

  function AllRefused(at: (nat, nat)): map<Component, (nat, nat)> {
    map[Settings := at, WarmCache := at, Diagnostics := at]
  }

  lemma AllRefusedCovers(at: (nat, nat), c: Component)
    ensures c in AllRefused(at) && AllRefused(at)[c] == at
  {
  }

  /** The worker's section after a job, `snapshot` being the coordinator's health. */
  function FinishedJob(q: QueueState, job: Job, snapshot: Components, panicked: bool): QueueState {
    var idle := q.(health := snapshot, active := None);
    if panicked then
      idle.(closed := true, completed := true, jobs := [],
            rejected := AllRefused((q.generation, job.at)))
    else
      var owner := Owner(job.work);
      if owner.None? then idle
      else if snapshot.At(owner.value).state.Healthy? then
        idle.(failedWrites := q.failedWrites - {owner.value},
              rejected := if owner.value in q.rejected && q.rejected[owner.value].0 < job.generation
                          then q.rejected - {owner.value} else q.rejected)
      else idle.(failedWrites := q.failedWrites + {owner.value})
  }

  /** What `flush` answers on one look, or `None` to keep waiting. */
  function FlushAnswer(q: QueueState): Option<bool> {
    if q.jobs != [] || q.active.Some? then None
    else Some(!q.closed && q.rejected == map[] && q.failedWrites == {})
  }

  predicate Pending(q: QueueState, c: Component) {
    (exists j :: j in q.jobs && Owner(j.work) == Some(c)) || q.active == Some(Some(c))
  }

  /** The health `health()` reports for one component. */
  function Reported(q: QueueState, c: Component): ComponentHealth {
    var h := q.health.At(c);
    var h1 := if Pending(q, c) then h.(durability := SessionOnly) else h;
    if c in q.rejected
    then ComponentHealth(Degraded, SessionOnly, h1.lastSuccess,
                         Some((Failure(false, false, "writer queue"), q.rejected[c].1)))
    else h1
  }

  class Queue {
    var generation: nat
    var rejected: map<Component, (nat, nat)>
    var failedWrites: set<Component>
    var jobs: seq<Job>
    var active: Option<Option<Component>>
    var health: Components
    var closed: bool
    var completed: bool

    ghost function State(): QueueState
      reads this
    {
      QueueState(generation, rejected, failedWrites, jobs, active, health, closed, completed)
    }

    constructor (health: Components)
      ensures State() == QueueState(0, map[], {}, [], None, health, false, false)
    {
      generation, rejected, failedWrites, jobs, active := 0, map[], {}, [], None;
      this.health, closed, completed := health, false, false;
    }

    method Refuse(job: Job)
      modifies this`rejected
      ensures State() == Refused(old(State()), job)
    {
      var owner := Owner(job.work);
      if owner.Some? {
        rejected := rejected[owner.value := (job.generation, job.at)];
      }
    }

    method Coalesce()
      modifies this`jobs
      ensures jobs == Kept(old(jobs))
    {
      var kept, i := [], 0;
      while i < |jobs|
        invariant i <= |jobs| && kept + Kept(jobs[i..]) == Kept(jobs)
      {
        assert jobs[i..][1..] == jobs[i + 1..];
        if !Coalescible(jobs[i].work) {
          kept := kept + [jobs[i]];
        }
        i := i + 1;
      }
      jobs := kept;
    }

    method Submit(work: Work, at: nat) returns (accepted: bool)
      modifies this
      ensures (State(), accepted) == Submitted(old(State()), work, at)
    {
      generation := generation + 1;
      var job := Job(generation, at, work);
      if closed {
        Refuse(job);
        return false;
      }
      if Coalescible(work) {
        Coalesce();
      }
      if |jobs| >= QUEUE_CAPACITY {
        Refuse(job);
        return false;
      }
      jobs := jobs + [job];
      return true;
    }

    method TakeJob() returns (job: Option<Job>)
      modifies this
      ensures old(jobs) == [] ==> job.None? && State() == old(State()).(completed := old(closed) || old(completed))
      ensures old(jobs) != [] ==> job == Some(old(jobs)[0]) && State() == Taken(old(State()))
    {
      if jobs == [] {
        if closed {
          completed := true;
        }
        return None;
      }
      job := Some(jobs[0]);
      jobs := jobs[1..];
      active := Some(Owner(job.value.work));
    }

    method FinishJob(job: Job, snapshot: Components, panicked: bool)
      modifies this
      ensures State() == FinishedJob(old(State()), job, snapshot, panicked)
    {
      health := snapshot;
      active := None;
      if panicked {
        closed, completed := true, true;
        var failed := (generation, job.at);
        rejected := rejected[Settings := failed][WarmCache := failed][Diagnostics := failed];
        jobs := [];
        forall c ensures c in AllRefused(failed) { AllRefusedCovers(failed, c); }
        assert rejected == AllRefused(failed);
        return;
      }
      var owner := Owner(job.work);
      if owner.Some? {
        var c := owner.value;
        var healthy := health.At(c).state.Healthy?;
        if healthy {
          failedWrites := failedWrites - {c};
        } else {
          failedWrites := failedWrites + {c};
        }
        if c in rejected && rejected[c].0 < job.generation && healthy {
          rejected := rejected - {c};
        }
      }
    }

    method PollFlush() returns (answer: Option<bool>)
      ensures answer == FlushAnswer(State())
    {
      if jobs != [] || active.Some? {
        return None;
      }
      return Some(!closed && rejected == map[] && failedWrites == {});
    }

    method Close()
      modifies this`closed
      ensures closed
    {
      closed := true;
    }

    method ReportHealth(c: Component) returns (h: ComponentHealth)
      ensures h == Reported(State(), c)
    {
      h := health.At(c);
      var pending := active == Some(Some(c));
      for i := 0 to |jobs|
        invariant pending <==> active == Some(Some(c)) || exists j :: j in jobs[..i] && Owner(j.work) == Some(c)
      {
        assert jobs[..i + 1] == jobs[..i] + [jobs[i]];
        if Owner(jobs[i].work) == Some(c) {
          assert jobs[i] in jobs[..i + 1];
          pending := true;
        }
      }
      assert jobs[..|jobs|] == jobs;
      if pending {
        h := h.(durability := SessionOnly);
      }
      if c in rejected {
        h := ComponentHealth(Degraded, SessionOnly, h.lastSuccess,
                             Some((Failure(false, false, "writer queue"), rejected[c].1)));
      }
    }
  }
}
