/** The background writer as a whole: submitters, the worker thread, the
    coordinator it drives and the files it changes (background_persistence.rs,
    persistence.rs). A job runs outside the queue lock, so submissions, flushes and
    health reads interleave with it; storage results, root checks and panics are
    choices of the environment. */
module BackgroundWriter {
  import opened Basics
  import opened PersistenceCoordinator
  import opened WriterQueue

  /** The stored files, and the diagnostics log as the sequence of its events. */
  datatype Contents = Contents(settings: Option<Payload>, cache: Option<Payload>, log: seq<Payload>) {
    function File(c: Component): Option<Payload> {
      if c.WarmCache? then cache else settings
    }
  }

  const SETTINGS_PERSISTED: Payload := "settings persisted"

  /** The two components whose file a submission replaces. */
  predicate Tracked(c: Component) { c.Settings? || c.WarmCache? }

  /** One submission, in order of generation: entry `i` has generation `i + 1`. */
  datatype Submission = Submission(work: Work, accepted: bool)

  datatype Running = NoJob | Working(job: Job) | Done(job: Job)

  /** `truth` is the reference of `PersistenceCoordinator`, `executed` the latest
      generation executed for each component; both only observe. */
  datatype System = System(
    queue: QueueState,
    running: Running,
    coordinator: CoordinatorState,
    disk: Contents,
    submissions: seq<Submission>,
    truth: PerComponent<Truth>,
    executed: PerComponent<nat>)

  /** What storage does with one file operation; `leftover` says whether a failed
      one changed the file all the same. */
  datatype Attempt = Attempt(root: Option<Failure>, error: Option<Failure>, leftover: bool, rootAfter: Option<Failure>)

  datatype Action =
    | Submit(work: Work, at: nat)
    | Take
    | Execute(main: Attempt, event: Attempt, skipped: bool)
    | Panic(coordinator: CoordinatorState, disk: Contents)
    | Finish
    | Close

  function FileAfter(w: Work, before: Option<Payload>): Option<Payload> {
    match w
    case Write(_, p) => Some(p)
    case Remove(_) => None
    case _ => before
  }

  function Stores(d: Contents, w: Work): Contents {
    match w
    case Write(c, p) => if c.WarmCache? then d.(cache := Some(p)) else d.(settings := Some(p))
    case Remove(c) => if c.WarmCache? then d.(cache := None) else d.(settings := None)
    case Record(e) => d.(log := d.log + [e])
    case RetryDiagnostics => d
  }

  /** The coordinator operation a job performs. */
  function MainOperation(job: Job, m: Attempt, skipped: bool): Operation
    requires Owner(job.work).Some?
  {
    var good := match job.work
      case Remove(_) => Stored(NotApplicable, false)
      case Record(_) => if skipped then Skipped else Stored(Durable, true)
      case _ => Stored(Durable, true);
    Operation(Owner(job.work).value, job.at, m.root,
              if m.error.Some? then NotStored(m.error.value) else good, m.rootAfter)
  }

  function EventOperation(job: Job, e: Attempt, skipped: bool): Operation {
    Operation(Diagnostics, job.at, e.root,
              if e.error.Some? then NotStored(e.error.value) else if skipped then Skipped else Stored(Durable, true),
              e.rootAfter)
  }

  function Tell(t: PerComponent<Truth>, op: Operation): PerComponent<Truth> {
    PerComponent(TruthAfter(t.settings, Settings, op), TruthAfter(t.cache, WarmCache, op),
                 TruthAfter(t.diagnostics, Diagnostics, op))
  }

  predicate RootUsable(s: CoordinatorState, m: Attempt) { s.revalidates && m.root.None? }

  function PerformIn(s: System, op: Operation): System {
    s.(coordinator := Performed(s.coordinator, op),
       truth := if s.coordinator.revalidates then Tell(s.truth, op) else s.truth)
  }

  /** Running the job's operation on the coordinator and the files. */
  function RanMain(s: System, job: Job, m: Attempt, skipped: bool): System
    requires Owner(job.work).Some?
  {
    var changes := RootUsable(s.coordinator, m) && (m.error.None? || m.leftover) && !(job.work.Record? && skipped);
    PerformIn(s, MainOperation(job, m, skipped)).(
      running := Done(job),
      disk := if changes then Stores(s.disk, job.work) else s.disk,
      executed := s.executed.With(Owner(job.work).value, job.generation))
  }

  /** The event that a stored settings file leaves in the diagnostics log. */
  function Logged(s: System, job: Job, e: Attempt, skipped: bool): System {
    var logged := RootUsable(s.coordinator, e) && (e.error.None? || e.leftover) && !skipped;
    PerformIn(s, EventOperation(job, e, skipped)).(
      disk := if logged then Stores(s.disk, Record(SETTINGS_PERSISTED)) else s.disk)
  }

  function Ran(s: System, job: Job, m: Attempt, e: Attempt, skipped: bool): System {
    if Owner(job.work).None? then s.(running := Done(job))
    else
      var main := RanMain(s, job, m, skipped);
      var ok := RootUsable(s.coordinator, m) && m.error.None?;
      if ok && job.work.Write? && Owner(job.work) == Some(Settings) then Logged(main, job, e, skipped) else main
  }

  /** The writer is never asked to write or remove the diagnostics file. */
  predicate Submittable(w: Work) { w.Write? || w.Remove? ==> Tracked(w.component) }

  predicate Enabled(s: System, a: Action) {
    match a
    case Submit(w, _) => Submittable(w)
    case Take => s.running.NoJob? && s.queue.jobs != [] && !s.queue.completed
    case Execute(_, _, _) => s.running.Working?
    case Panic(_, _) => s.running.Working?
    case Finish => s.running.Done?
    case Close => true
  }

  function AfterSubmit(s: System, w: Work, at: nat): System {
    var (q, accepted) := Submitted(s.queue, w, at);
    s.(queue := q, submissions := s.submissions + [Submission(w, accepted)])
  }

  function AfterTake(s: System): System
    requires s.queue.jobs != []
  {
    s.(queue := Taken(s.queue), running := Working(s.queue.jobs[0]))
  }

  function AfterFinish(s: System): System
    requires s.running.Done?
  {
    s.(queue := FinishedJob(s.queue, s.running.job, s.coordinator.components, false), running := NoJob)
  }

  function AfterClose(s: System): System { s.(queue := s.queue.(closed := true)) }

  function Apply(s: System, a: Action): System
    requires Enabled(s, a)
  {
    match a
    case Submit(w, at) => AfterSubmit(s, w, at)
    case Take => AfterTake(s)
    case Execute(m, e, skipped) => Ran(s, s.running.job, m, e, skipped)
    case Panic(coordinator, disk) =>
      s.(queue := FinishedJob(s.queue, s.running.job, coordinator.components, true),
         running := NoJob, coordinator := coordinator, disk := disk)
    case Finish => AfterFinish(s)
    case Close => AfterClose(s)
  }

  /** A writer just started over a coordinator `c` whose truth is `t`. */
  ghost predicate Started(s: System) {
    && s.queue == QueueState(0, map[], {}, [], None, s.coordinator.components, false, false)
    && s.running.NoJob? && s.submissions == [] && s.executed == PerComponent(0, 0, 0)
    && Knows(s.coordinator, s.truth)
  }

  ghost predicate Run(s: System, acts: seq<Action>, t: System)
    decreases |acts|
  {
    if acts == [] then s == t
    else Enabled(s, acts[0]) && Run(Apply(s, acts[0]), acts[1..], t)
  }

  ghost predicate Reachable(t: System) {
    exists s, acts :: Started(s) && Run(s, acts, t)
  }

  // ---- The invariant ----

  /** The coordinator reflects the truth about each component, or its root could
      never be resolved and it claims nothing. */
  predicate Knows(k: CoordinatorState, t: PerComponent<Truth>) {
    if k.revalidates
    then Coherent(k) && Holds(k, Settings, t.settings) && Holds(k, WarmCache, t.cache) && Holds(k, Diagnostics, t.diagnostics)
    else k.rootFailure.Some? && NeverHealthy(k.components)
  }

  predicate NeverHealthy(cs: Components) {
    !cs.settings.state.Healthy? && !cs.cache.state.Healthy? && !cs.diagnostics.state.Healthy?
  }

  /** The generation of the last submission for `c`, 0 if none. */
  function Latest(subs: seq<Submission>, c: Component): (g: nat)
    ensures g <= |subs|
    ensures g > 0 ==> Owner(subs[g - 1].work) == Some(c)
  {
    if subs == [] then 0
    else if Owner(subs[|subs| - 1].work) == Some(c) then |subs|
    else Latest(subs[..|subs| - 1], c)
  }

  predicate FromSubmission(subs: seq<Submission>, j: Job) {
    0 < j.generation <= |subs| && subs[j.generation - 1] == Submission(j.work, true)
  }

  predicate Increasing(jobs: seq<Job>) {
    forall i, j :: 0 <= i < j < |jobs| ==> jobs[i].generation < jobs[j].generation
  }

  predicate OneCoalescible(jobs: seq<Job>) {
    forall i, j :: 0 <= i < j < |jobs| && Coalescible(jobs[i].work) ==> !Coalescible(jobs[j].work)
  }

  /** Jobs in submission order, each accepted, with at most one cache write. */
  predicate Line(subs: seq<Submission>, jobs: seq<Job>) {
    (forall j :: j in jobs ==> FromSubmission(subs, j)) && Increasing(jobs) && OneCoalescible(jobs)
  }

  predicate AllSubmittable(subs: seq<Submission>) {
    forall i :: 0 <= i < |subs| ==> Submittable(subs[i].work)
  }

  predicate WorkerOk(s: System) {
    && (s.queue.active.Some? <==> !s.running.NoJob?)
    && (!s.running.NoJob? ==>
          && FromSubmission(s.submissions, s.running.job)
          && s.queue.active == Some(Owner(s.running.job.work))
          && forall j :: j in s.queue.jobs ==> s.running.job.generation < j.generation)
  }

  predicate Queued(s: System) {
    && s.queue.generation == |s.submissions|
    && AllSubmittable(s.submissions)
    && Line(s.submissions, s.queue.jobs)
    && |s.queue.jobs| <= QUEUE_CAPACITY
    && WorkerOk(s)
  }

  predicate HasJob(s: System, g: nat) {
    || (exists j :: j in s.queue.jobs && j.generation == g)
    || (s.running.Working? && s.running.job.generation == g)
  }

  /** Where the last submission for `c` is. */
  predicate Traced(s: System, c: Component) { TracedAt(s, c, Latest(s.submissions, c)) }

  predicate TracedAt(s: System, c: Component, g: nat)
    requires g <= |s.submissions|
  {
    g > 0 ==>
      if !s.submissions[g - 1].accepted then c in s.queue.rejected && s.queue.rejected[c].0 >= g
      else HasJob(s, g) || s.executed.At(c) == g
  }

  predicate DoneFor(s: System, c: Component) { s.running.Done? && Owner(s.running.job.work) == Some(c) }

  /** What an executed generation of `c` has left behind. */
  predicate Settled(s: System, c: Component) {
    var g := s.executed.At(c);
    && g <= Latest(s.submissions, c)
    && (s.running.Done? && Owner(s.running.job.work) == Some(c) ==> g == s.running.job.generation)
    && (g > 0 ==>
          && Owner(s.submissions[g - 1].work) == Some(c)
          && (Believed(s, c) ==> s.disk.File(c) == FileAfter(s.submissions[g - 1].work, None))
          && (!DoneFor(s, c) && c !in s.queue.failedWrites ==> Believed(s, c)))
    && (!DoneFor(s, c) && s.queue.health.At(c).state.Healthy? ==> Believed(s, c))
  }

  /** Work for `c` still ahead is newer than what was executed. */
  predicate Ahead(s: System, c: Component) {
    && s.executed.At(c) <= |s.submissions|
    && (forall j :: j in s.queue.jobs ==> s.executed.At(c) < j.generation)
    && (s.running.Working? ==> s.executed.At(c) < s.running.job.generation)
  }

  /** The reference says the latest attempt for `c` succeeded. */
  predicate Believed(s: System, c: Component) {
    s.coordinator.revalidates && s.truth.At(c).ok
  }

  predicate Crashed(s: System) {
    s.queue.closed && s.queue.completed && s.queue.jobs == [] && s.running.NoJob? &&
    forall c :: c in s.queue.rejected
  }

  predicate Follows(s: System, c: Component) { Traced(s, c) && Settled(s, c) && Ahead(s, c) }

  predicate Inv(s: System) {
    Crashed(s) ||
    (&& Knows(s.coordinator, s.truth) && Queued(s)
     && Follows(s, Settings) && Follows(s, WarmCache))
  }

  // ---- Every action keeps the invariant ----

  lemma {:induction false} KeptIncreasing(jobs: seq<Job>)
    requires Increasing(jobs)
    ensures Increasing(Kept(jobs))
  {
    if jobs != [] {
      KeptIncreasing(jobs[1..]);
      var rest := Kept(jobs[1..]);
      forall i | 0 <= i < |rest| ensures jobs[0].generation < rest[i].generation {
        assert rest[i] in jobs[1..];
      }
    }
  }

  lemma KeptLine(subs: seq<Submission>, jobs: seq<Job>)
    requires Line(subs, jobs)
    ensures Line(subs, Kept(jobs))
  {
    KeptIncreasing(jobs);
    var kept := Kept(jobs);
    assert forall i :: 0 <= i < |kept| ==> kept[i] in kept;
  }

  lemma LongerLine(subs: seq<Submission>, jobs: seq<Job>, x: Submission)
    requires Line(subs, jobs)
    ensures Line(subs + [x], jobs)
  {
  }

  lemma AppendLine(subs: seq<Submission>, jobs: seq<Job>, job: Job)
    requires Line(subs, jobs) && job.generation == |subs| + 1
    requires Coalescible(job.work) ==> forall j :: j in jobs ==> !Coalescible(j.work)
    ensures Line(subs + [Submission(job.work, true)], jobs + [job])
  {
    LongerLine(subs, jobs, Submission(job.work, true));
    assert forall i :: 0 <= i < |jobs| ==> jobs[i] in jobs && FromSubmission(subs, jobs[i]);
  }

  lemma {:induction false} KeptAll(jobs: seq<Job>)
    requires forall j :: j in jobs ==> !Coalescible(j.work)
    ensures Kept(jobs) == jobs
  {
    if jobs != [] {
      KeptAll(jobs[1..]);
    }
  }

  lemma {:induction false} KeptShrinks(jobs: seq<Job>, j: Job)
    requires j in jobs && Coalescible(j.work)
    ensures |Kept(jobs)| < |jobs|
  {
    if !Coalescible(jobs[0].work) {
      assert jobs == [jobs[0]] + jobs[1..];
      KeptShrinks(jobs[1..], j);
    }
  }

  /** A refused submission leaves the queue as it was: a pending cache write is
      dropped only when its replacement takes a place. */
  lemma RefusalDropsNothing(q: QueueState, w: Work, at: nat)
    requires |q.jobs| <= QUEUE_CAPACITY && !Submitted(q, w, at).1
    ensures Submitted(q, w, at).0.jobs == q.jobs
  {
    if !q.closed && Coalescible(w) {
      if j :| j in q.jobs && Coalescible(j.work) {
        KeptShrinks(q.jobs, j);
      } else {
        KeptAll(q.jobs);
      }
    }
  }

  lemma {:induction false} LatestIsLast(subs: seq<Submission>, c: Component, i: nat)
    requires i < |subs| && Owner(subs[i].work) == Some(c)
    ensures i < Latest(subs, c)
  {
    if i < |subs| - 1 {
      LatestIsLast(subs[..|subs| - 1], c, i);
    }
  }

  lemma LatestGrows(subs: seq<Submission>, x: Submission, c: Component)
    ensures Latest(subs + [x], c) == if Owner(x.work) == Some(c) then |subs| + 1 else Latest(subs, c)
  {
  }

  /** The queue that an accepted submission appends to. */
  function Room(q: QueueState, w: Work): seq<Job> {
    if Coalescible(w) then Kept(q.jobs) else q.jobs
  }

  lemma AcceptedLine(s: System, w: Work, at: nat)
    requires Line(s.submissions, s.queue.jobs) && s.queue.generation == |s.submissions| && Submitted(s.queue, w, at).1
    ensures Line(AfterSubmit(s, w, at).submissions, AfterSubmit(s, w, at).queue.jobs)
  {
    KeptLine(s.submissions, s.queue.jobs);
    AppendLine(s.submissions, Room(s.queue, w), Job(s.queue.generation + 1, at, w));
  }

  lemma RefusedLine(s: System, w: Work, at: nat)
    requires Line(s.submissions, s.queue.jobs) && |s.queue.jobs| <= QUEUE_CAPACITY && !Submitted(s.queue, w, at).1
    ensures Line(AfterSubmit(s, w, at).submissions, AfterSubmit(s, w, at).queue.jobs)
  {
    RefusalDropsNothing(s.queue, w, at);
    LongerLine(s.submissions, s.queue.jobs, Submission(w, false));
  }

  lemma SubmitKeepsWorker(s: System, w: Work, at: nat)
    requires WorkerOk(s) && s.queue.generation == |s.submissions| && |s.queue.jobs| <= QUEUE_CAPACITY
    ensures WorkerOk(AfterSubmit(s, w, at))
  {
    var t := AfterSubmit(s, w, at);
    if !Submitted(s.queue, w, at).1 { RefusalDropsNothing(s.queue, w, at); }
    assert forall j :: j in t.queue.jobs ==> j in s.queue.jobs || j.generation == s.queue.generation + 1;
  }

  lemma SubmitKeepsQueued(s: System, w: Work, at: nat)
    requires Queued(s) && Submittable(w)
    ensures Queued(AfterSubmit(s, w, at))
  {
    if Submitted(s.queue, w, at).1 { AcceptedLine(s, w, at); } else { RefusedLine(s, w, at); }
    SubmitKeepsWorker(s, w, at);
    SubmitFits(s, w, at);
  }

  lemma SubmitFits(s: System, w: Work, at: nat)
    requires |s.queue.jobs| <= QUEUE_CAPACITY && Submittable(w) && AllSubmittable(s.submissions)
    ensures |AfterSubmit(s, w, at).queue.jobs| <= QUEUE_CAPACITY && AllSubmittable(AfterSubmit(s, w, at).submissions)
  {
  }

  /** A job survives every submission, unless it is a cache write that a newer
      cache write replaces. */
  lemma JobSurvives(s: System, w: Work, at: nat, g: nat)
    requires Queued(s) && Submittable(w) && HasJob(s, g) && 0 < g <= |s.submissions|
    requires !Coalescible(w) || !Coalescible(s.submissions[g - 1].work)
    ensures HasJob(AfterSubmit(s, w, at), g)
  {
    if j :| j in s.queue.jobs && j.generation == g {
      assert FromSubmission(s.submissions, j);
      if Submitted(s.queue, w, at).1 {
        assert j in Room(s.queue, w);
        assert j in AfterSubmit(s, w, at).queue.jobs;
      } else {
        RefusalDropsNothing(s.queue, w, at);
      }
    }
  }

  lemma OwnSubmitTraced(s: System, w: Work, at: nat, c: Component)
    requires s.queue.generation == |s.submissions| && Owner(w) == Some(c)
    ensures Traced(AfterSubmit(s, w, at), c)
  {
    var t := AfterSubmit(s, w, at);
    var accepted := Submitted(s.queue, w, at).1;
    LatestGrows(s.submissions, Submission(w, accepted), c);
    if accepted {
      assert t.queue.jobs[|t.queue.jobs| - 1] in t.queue.jobs;
    }
  }

  lemma OtherSubmitTraced(s: System, w: Work, at: nat, c: Component)
    requires Queued(s) && Traced(s, c) && Submittable(w) && Owner(w) != Some(c)
    ensures Traced(AfterSubmit(s, w, at), c)
  {
    var g := Latest(s.submissions, c);
    LatestGrows(s.submissions, Submission(w, Submitted(s.queue, w, at).1), c);
    if g > 0 && s.submissions[g - 1].accepted && HasJob(s, g) {
      JobSurvives(s, w, at, g);
    }
    StillTraced(s, AfterSubmit(s, w, at), c, g);
  }

  lemma StillTraced(s: System, t: System, c: Component, g: nat)
    requires g <= |s.submissions| && TracedAt(s, c, g) && t.executed == s.executed && s.submissions <= t.submissions
    requires c in s.queue.rejected ==> c in t.queue.rejected && t.queue.rejected[c] == s.queue.rejected[c]
    requires g > 0 && s.submissions[g - 1].accepted && HasJob(s, g) ==> HasJob(t, g)
    ensures TracedAt(t, c, g)
  {
  }

  lemma SubmitKeepsTraced(s: System, w: Work, at: nat, c: Component)
    requires Queued(s) && Traced(s, c) && Submittable(w)
    ensures Traced(AfterSubmit(s, w, at), c)
  {
    if Owner(w) == Some(c) {
      OwnSubmitTraced(s, w, at, c);
    } else {
      OtherSubmitTraced(s, w, at, c);
    }
  }

  lemma SubmitKeepsSettled(s: System, w: Work, at: nat, c: Component)
    requires Settled(s, c) && Submittable(w)
    ensures Settled(AfterSubmit(s, w, at), c)
  {
    LatestGrows(s.submissions, Submission(w, Submitted(s.queue, w, at).1), c);
    LongerSettled(s, AfterSubmit(s, w, at), c);
  }

  lemma LongerSettled(s: System, t: System, c: Component)
    requires Settled(s, c) && s.submissions <= t.submissions && Latest(s.submissions, c) <= Latest(t.submissions, c)
    requires t.queue.failedWrites == s.queue.failedWrites && t.queue.health == s.queue.health
    requires t.(queue := s.queue, submissions := s.submissions) == s
    ensures Settled(t, c)
  {
  }

  lemma TakeKeepsQueued(s: System)
    requires Queued(s) && s.running.NoJob? && s.queue.jobs != []
    ensures Queued(AfterTake(s))
  {
  }

  lemma TakeKeepsTraced(s: System, c: Component)
    requires Traced(s, c) && s.running.NoJob? && s.queue.jobs != []
    ensures Traced(AfterTake(s), c)
  {
  }

  lemma TakeKeepsSettled(s: System, c: Component)
    requires Settled(s, c) && s.running.NoJob? && s.queue.jobs != []
    ensures Settled(AfterTake(s), c)
  {
  }

  lemma FinishKeepsQueued(s: System)
    requires Queued(s) && s.running.Done?
    ensures Queued(AfterFinish(s))
  {
  }

  lemma FinishKeepsTraced(s: System, c: Component)
    requires Queued(s) && Traced(s, c) && s.running.Done?
    ensures Traced(AfterFinish(s), c)
  {
    var g, t := Latest(s.submissions, c), AfterFinish(s);
    assert HasJob(s, g) ==> HasJob(t, g);
    FinishKeepsRejection(s, c);
    if g > 0 {
      FinishTraces(s, t, c, g);
    }
  }

  /** A rejection newer than the finished job stays recorded. */
  lemma FinishKeepsRejection(s: System, c: Component)
    requires s.running.Done? && FromSubmission(s.submissions, s.running.job)
    ensures var g := Latest(s.submissions, c);
            g > 0 && !s.submissions[g - 1].accepted && c in s.queue.rejected && s.queue.rejected[c].0 >= g ==>
              c in AfterFinish(s).queue.rejected && AfterFinish(s).queue.rejected[c].0 >= g
  {
    var job := s.running.job;
    if Owner(job.work) == Some(c) {
      LatestIsLast(s.submissions, c, job.generation - 1);
    }
  }

  lemma FinishTraces(s: System, t: System, c: Component, g: nat)
    requires 0 < g <= |s.submissions| && TracedAt(s, c, g) && t.submissions == s.submissions && t.executed == s.executed
    requires HasJob(s, g) ==> HasJob(t, g)
    requires !s.submissions[g - 1].accepted && c in s.queue.rejected && s.queue.rejected[c].0 >= g ==>
               c in t.queue.rejected && t.queue.rejected[c].0 >= g
    ensures TracedAt(t, c, g)
  {
  }

  lemma FinishKeepsSettled(s: System, c: Component)
    requires Knows(s.coordinator, s.truth) && Settled(s, c) && s.running.Done?
    ensures Settled(AfterFinish(s), c)
  {
    if s.coordinator.components.At(c).state.Healthy? {
      HealthyMeansBelieved(s, c);
    }
    FinishSettles(s, c);
  }

  lemma HealthyMeansBelieved(s: System, c: Component)
    requires Knows(s.coordinator, s.truth) && s.coordinator.components.At(c).state.Healthy?
    ensures Believed(s, c)
  {
  }

  lemma FinishSettles(s: System, c: Component)
    requires s.coordinator.components.At(c).state.Healthy? ==> Believed(s, c)
    requires Settled(s, c) && s.running.Done?
    ensures Settled(AfterFinish(s), c)
  {
  }

  // ---- Running a job ----

  lemma TellIsTruth(s: System, op: Operation)
    requires Knows(s.coordinator, s.truth)
    ensures var t := PerformIn(s, op);
            && Knows(t.coordinator, t.truth)
            && t.coordinator.revalidates == s.coordinator.revalidates
            && forall c :: t.coordinator.revalidates ==> t.truth.At(c) == TruthAfter(s.truth.At(c), c, op)
  {
    if s.coordinator.revalidates {
      OperationKeepsTruth(s.coordinator, op, Settings, s.truth.settings);
      OperationKeepsTruth(s.coordinator, op, WarmCache, s.truth.cache);
      OperationKeepsTruth(s.coordinator, op, Diagnostics, s.truth.diagnostics);
    }
  }

  /** Running a job makes the truth about its own file match the file, and leaves
      every other tracked component and its file alone. */
  predicate RunOutcome(s: System, job: Job, t: System, c: Component) {
    && Knows(t.coordinator, t.truth)
    && t.queue == s.queue && t.submissions == s.submissions && t.running == Done(job)
    && if Owner(job.work) == Some(c) then
         t.executed.At(c) == job.generation && (Believed(t, c) ==> t.disk.File(c) == FileAfter(job.work, None))
       else
         t.executed.At(c) == s.executed.At(c) && Believed(t, c) == Believed(s, c) && t.disk.File(c) == s.disk.File(c)
  }

  lemma MainFacts(s: System, job: Job, m: Attempt, skipped: bool, c: Component)
    requires Knows(s.coordinator, s.truth) && Tracked(c) && Submittable(job.work) && Owner(job.work).Some?
    ensures RunOutcome(s, job, RanMain(s, job, m, skipped), c)
  {
    TellIsTruth(s, MainOperation(job, m, skipped));
  }

  lemma LogFacts(s: System, job: Job, e: Attempt, skipped: bool, c: Component)
    requires Knows(s.coordinator, s.truth) && Tracked(c)
    ensures var t := Logged(s, job, e, skipped);
            && Knows(t.coordinator, t.truth)
            && t.queue == s.queue && t.submissions == s.submissions && t.running == s.running
            && t.executed == s.executed && Believed(t, c) == Believed(s, c) && t.disk.File(c) == s.disk.File(c)
  {
    TellIsTruth(s, EventOperation(job, e, skipped));
  }

  lemma RunFacts(s: System, job: Job, m: Attempt, e: Attempt, skipped: bool, c: Component)
    requires Knows(s.coordinator, s.truth) && Tracked(c) && Submittable(job.work)
    ensures RunOutcome(s, job, Ran(s, job, m, e, skipped), c)
  {
    if Owner(job.work).Some? {
      MainFacts(s, job, m, skipped, c);
      LogFacts(RanMain(s, job, m, skipped), job, e, skipped, c);
    }
  }

  lemma SubmitKeepsAhead(s: System, w: Work, at: nat, c: Component)
    requires Queued(s) && Ahead(s, c) && Submittable(w)
    ensures Ahead(AfterSubmit(s, w, at), c)
  {
    var t := AfterSubmit(s, w, at);
    if Submitted(s.queue, w, at).1 {
      assert t.queue.jobs == Room(s.queue, w) + [Job(s.queue.generation + 1, at, w)];
      assert forall j :: j in Room(s.queue, w) ==> j in s.queue.jobs;
    } else {
      RefusalDropsNothing(s.queue, w, at);
    }
  }

  lemma TakeKeepsAhead(s: System, c: Component)
    requires Ahead(s, c) && s.running.NoJob? && s.queue.jobs != []
    ensures Ahead(AfterTake(s), c)
  {
  }

  lemma RunKeepsTraced(s: System, t: System, c: Component)
    requires s.running.Working? && FromSubmission(s.submissions, s.running.job)
    requires Traced(s, c) && s.executed.At(c) < s.running.job.generation
    requires t.queue == s.queue && t.submissions == s.submissions
    requires t.executed.At(c) == if Owner(s.running.job.work) == Some(c) then s.running.job.generation else s.executed.At(c)
    ensures Traced(t, c)
  {
    var job, g := s.running.job, Latest(s.submissions, c);
    if g > 0 && HasJob(s, g) && job.generation != g {
      var j :| j in s.queue.jobs && j.generation == g;
      assert j in t.queue.jobs;
    }
    if Owner(job.work) == Some(c) {
      LatestIsLast(s.submissions, c, job.generation - 1);
    }
  }

  lemma RunKeepsAhead(s: System, t: System, c: Component)
    requires Queued(s) && Ahead(s, c) && s.running.Working? && RunOutcome(s, s.running.job, t, c)
    ensures Ahead(t, c)
  {
  }

  lemma OwnRunSettled(s: System, t: System, c: Component)
    requires s.running.Working? && FromSubmission(s.submissions, s.running.job) && Owner(s.running.job.work) == Some(c)
    requires RunOutcome(s, s.running.job, t, c)
    ensures Settled(t, c)
  {
    LatestIsLast(s.submissions, c, s.running.job.generation - 1);
  }

  lemma OtherRunSettled(s: System, t: System, c: Component)
    requires s.running.Working? && Settled(s, c) && Owner(s.running.job.work) != Some(c)
    requires RunOutcome(s, s.running.job, t, c)
    ensures Settled(t, c)
  {
  }

  lemma RunKeepsSettled(s: System, t: System, c: Component)
    requires s.running.Working? && FromSubmission(s.submissions, s.running.job) && Settled(s, c)
    requires RunOutcome(s, s.running.job, t, c)
    ensures Settled(t, c)
  {
    if Owner(s.running.job.work) == Some(c) { OwnRunSettled(s, t, c); } else { OtherRunSettled(s, t, c); }
  }

  lemma RunKeepsQueued(s: System, t: System, c: Component)
    requires Queued(s) && s.running.Working? && RunOutcome(s, s.running.job, t, c)
    ensures Queued(t)
  {
  }

  lemma WorkSubmittable(s: System)
    requires Queued(s) && s.running.Working?
    ensures FromSubmission(s.submissions, s.running.job) && Submittable(s.running.job.work)
  {
  }

  lemma RunKeepsFollows(s: System, m: Attempt, e: Attempt, skipped: bool, c: Component)
    requires Knows(s.coordinator, s.truth) && Queued(s) && Follows(s, c) && s.running.Working? && Tracked(c)
    ensures Follows(Ran(s, s.running.job, m, e, skipped), c)
  {
    var t := Ran(s, s.running.job, m, e, skipped);
    WorkSubmittable(s);
    RunFacts(s, s.running.job, m, e, skipped, c);
    RunKeepsTraced(s, t, c);
    RunKeepsAhead(s, t, c);
    RunKeepsSettled(s, t, c);
  }

  lemma CloseKeepsTraced(s: System, c: Component)
    requires Traced(s, c)
    ensures Traced(AfterClose(s), c)
  {
  }

  lemma CloseKeepsSettled(s: System, c: Component)
    requires Settled(s, c)
    ensures Settled(AfterClose(s), c)
  {
  }

  lemma SubmitKeepsFollows(s: System, w: Work, at: nat, c: Component)
    requires Queued(s) && Follows(s, c) && Submittable(w)
    ensures Follows(AfterSubmit(s, w, at), c)
  {
    SubmitKeepsTraced(s, w, at, c);
    SubmitKeepsSettled(s, w, at, c);
    SubmitKeepsAhead(s, w, at, c);
  }

  lemma TakeKeepsFollows(s: System, c: Component)
    requires Follows(s, c) && s.running.NoJob? && s.queue.jobs != []
    ensures Follows(AfterTake(s), c)
  {
    TakeKeepsTraced(s, c);
    TakeKeepsSettled(s, c);
    TakeKeepsAhead(s, c);
  }

  lemma FinishKeepsAhead(s: System, c: Component)
    requires Ahead(s, c) && s.running.Done?
    ensures Ahead(AfterFinish(s), c)
  {
  }

  lemma FinishKeepsFollows(s: System, c: Component)
    requires Knows(s.coordinator, s.truth) && Queued(s) && Follows(s, c) && s.running.Done?
    ensures Follows(AfterFinish(s), c)
  {
    FinishKeepsTraced(s, c);
    FinishKeepsSettled(s, c);
    FinishKeepsAhead(s, c);
  }

  lemma CloseKeepsFollows(s: System, c: Component)
    requires Follows(s, c)
    ensures Follows(AfterClose(s), c)
  {
    CloseKeepsTraced(s, c);
    CloseKeepsSettled(s, c);
  }

  lemma FollowsKept(s: System, a: Action, c: Component)
    requires Knows(s.coordinator, s.truth) && Queued(s) && Follows(s, c) && Tracked(c)
    requires Enabled(s, a) && !a.Panic?
    ensures Follows(Apply(s, a), c)
  {
    match a
    case Submit(w, at) => SubmitKeepsFollows(s, w, at, c);
    case Take => TakeKeepsFollows(s, c);
    case Execute(m, e, skipped) => RunKeepsFollows(s, m, e, skipped, c);
    case Finish => FinishKeepsFollows(s, c);
    case Close => CloseKeepsFollows(s, c);
  }

  lemma QueuedKept(s: System, a: Action)
    requires Knows(s.coordinator, s.truth) && Queued(s) && Enabled(s, a) && !a.Panic?
    ensures Queued(Apply(s, a)) && Knows(Apply(s, a).coordinator, Apply(s, a).truth)
  {
    match a
    case Submit(w, at) => SubmitKeepsQueued(s, w, at);
    case Take => TakeKeepsQueued(s);
    case Execute(m, e, skipped) =>
      WorkSubmittable(s);
      RunFacts(s, s.running.job, m, e, skipped, Settings);
      RunKeepsQueued(s, Ran(s, s.running.job, m, e, skipped), Settings);
    case Finish => FinishKeepsQueued(s);
    case Close =>
  }

  lemma CrashIsFinal(s: System, a: Action)
    requires Enabled(s, a) && (Crashed(s) || a.Panic?)
    ensures Crashed(Apply(s, a))
  {
    if a.Panic? {
      forall c ensures c in Apply(s, a).queue.rejected {
        AllRefusedCovers((s.queue.generation, s.running.job.at), c);
      }
    }
  }

  lemma StepKeepsInv(s: System, a: Action)
    requires Inv(s) && Enabled(s, a)
    ensures Inv(Apply(s, a))
  {
    if Crashed(s) || a.Panic? {
      CrashIsFinal(s, a);
    } else {
      QueuedKept(s, a);
      FollowsKept(s, a, Settings);
      FollowsKept(s, a, WarmCache);
    }
  }

  lemma {:induction false} RunKeepsInv(s: System, acts: seq<Action>, t: System)
    requires Inv(s) && Run(s, acts, t)
    ensures Inv(t)
    decreases |acts|
  {
    if acts != [] {
      StepKeepsInv(s, acts[0]);
      RunKeepsInv(Apply(s, acts[0]), acts[1..], t);
    }
  }

  lemma ReachableInv(t: System)
    requires Reachable(t)
    ensures Inv(t)
  {
    var s, acts :| Started(s) && Run(s, acts, t);
    RunKeepsInv(s, acts, t);
  }

  /** The last operation submitted for `c` was accepted and executed, and the
      stored file is what it asked for. */
  predicate DiskHoldsLatest(s: System, c: Component) {
    var g := Latest(s.submissions, c);
    g > 0 ==>
      && s.submissions[g - 1].accepted
      && s.executed.At(c) == g
      && s.disk.File(c) == FileAfter(s.submissions[g - 1].work, None)
  }

  lemma JobMeansPending(s: System, c: Component)
    requires Queued(s) && Latest(s.submissions, c) > 0 && HasJob(s, Latest(s.submissions, c))
    ensures Pending(s.queue, c)
  {
  }

  /** A clean flush means the disk holds the last thing submitted: no rejection,
      storage failure, root outage or panic can hide behind later successes. */
  lemma FlushIsTruthful(s: System, c: Component)
    requires Reachable(s) && FlushAnswer(s.queue) == Some(true) && Tracked(c)
    ensures DiskHoldsLatest(s, c)
  {
    ReachableInv(s);
    IdleMeansExecuted(s, c);
  }

  lemma IdleMeansExecuted(s: System, c: Component)
    requires Queued(s) && Follows(s, c)
    requires c !in s.queue.rejected && !Pending(s.queue, c)
    requires c !in s.queue.failedWrites || s.queue.health.At(c).state.Healthy?
    ensures DiskHoldsLatest(s, c)
  {
    if Latest(s.submissions, c) > 0 && HasJob(s, Latest(s.submissions, c)) {
      JobMeansPending(s, c);
    }
    assert !DoneFor(s, c);
  }

  /** The same for `health`: whenever it calls a component Healthy without
      session-only durability, even while other work is queued or running. */
  lemma HealthClaimsHold(s: System, c: Component)
    requires Reachable(s) && Tracked(c)
    requires Reported(s.queue, c).state.Healthy? && !Reported(s.queue, c).durability.SessionOnly?
    ensures DiskHoldsLatest(s, c)
  {
    ReachableInv(s);
    IdleMeansExecuted(s, c);
  }

  /** At most 32 jobs wait, in the order submitted, at most one of them a cache write. */
  lemma QueueIsBounded(s: System)
    requires Reachable(s)
    ensures |s.queue.jobs| <= QUEUE_CAPACITY && Increasing(s.queue.jobs) && OneCoalescible(s.queue.jobs)
  {
    ReachableInv(s);
  }
}
