/** When the background writer accepts, flushes and reports health
    (background_persistence.rs), stated over the submissions and the jobs of the run
    rather than over the records the queue keeps. */
module WriterAnswers {
  import opened Basics
  import opened PersistenceCoordinator
  import opened WriterQueue
  import opened BackgroundWriter

  /** The state a run of actions leads to, if each was possible. */
  function After(start: System, acts: seq<Action>): Option<System> {
    if acts == [] then Some(start)
    else
      var before, a := After(start, acts[..|acts| - 1]), acts[|acts| - 1];
      if before.Some? && Enabled(before.value, a) then Some(Apply(before.value, a)) else None
  }

  lemma {:induction false} RunSplits(s: System, acts: seq<Action>, t: System) returns (mid: System)
    requires Run(s, acts, t) && acts != []
    ensures Run(s, acts[..|acts| - 1], mid) && Enabled(mid, acts[|acts| - 1]) && t == Apply(mid, acts[|acts| - 1])
    decreases |acts|
  {
    if |acts| == 1 {
      assert acts[1..] == [];
      return s;
    }
    mid := RunSplits(Apply(s, acts[0]), acts[1..], t);
    assert acts[1..][..|acts| - 2] == acts[..|acts| - 1][1..];
  }

  lemma {:induction false} RunLeadsTo(s: System, acts: seq<Action>, t: System)
    requires Run(s, acts, t)
    ensures After(s, acts) == Some(t)
    decreases |acts|
  {
    if acts != [] {
      var mid := RunSplits(s, acts, t);
      RunLeadsTo(s, acts[..|acts| - 1], mid);
    }
  }

  // ---- What happened to a component ----

  /** The job ended, and the worker then found its component like this. */
  predicate Ends(s: System, a: Action, c: Component) {
    a.Finish? && s.running.Done? && Owner(s.running.job.work) == Some(c)
  }

  predicate FoundHealthy(s: System, c: Component) { s.coordinator.components.At(c).state.Healthy? }

  /** The newest submission for `c` whose job ended Healthy, 0 if none. */
  function HealthyUpTo(start: System, acts: seq<Action>, c: Component): nat
    requires After(start, acts).Some?
  {
    if acts == [] then 0
    else
      var before := acts[..|acts| - 1];
      var s, sofar := After(start, before).value, HealthyUpTo(start, before, c);
      if Ends(s, acts[|acts| - 1], c) && FoundHealthy(s, c) && s.running.job.generation > sofar
      then s.running.job.generation else sofar
  }

  /** The last job for `c` that ended did not end Healthy. */
  predicate EndedBadly(start: System, acts: seq<Action>, c: Component)
    requires After(start, acts).Some?
  {
    acts != [] &&
    var before := acts[..|acts| - 1];
    var s := After(start, before).value;
    if Ends(s, acts[|acts| - 1], c) then !FoundHealthy(s, c) else EndedBadly(start, before, c)
  }

  /** The newest refused submission for `c`, 0 if none. */
  function Refusal(subs: seq<Submission>, c: Component): (g: nat)
    ensures g <= |subs| && (g > 0 ==> !subs[g - 1].accepted)
  {
    if subs == [] then 0
    else if Owner(subs[|subs| - 1].work) == Some(c) && !subs[|subs| - 1].accepted then |subs|
    else Refusal(subs[..|subs| - 1], c)
  }

  predicate Closes(a: Action) { a.Close? || a.Panic? }

  predicate Shut(acts: seq<Action>) { exists a :: a in acts && Closes(a) }

  predicate Calm(acts: seq<Action>) { forall a :: a in acts ==> !a.Panic? }

  /** Nothing was refused since a job for `c` ended Healthy, and the last one did. */
  predicate Clean(start: System, acts: seq<Action>, c: Component)
    requires After(start, acts).Some?
  {
    && Refusal(After(start, acts).value.submissions, c) <= HealthyUpTo(start, acts, c)
    && !EndedBadly(start, acts, c)
  }

  // ---- The queue's records say so ----

  /** The records for `c` stand for newest refusal `g`, newest Healthy job `h`, and
      whether the last job ended badly. */
  predicate Says(q: QueueState, c: Component, g: nat, h: nat, bad: bool) {
    && (c in q.rejected <==> g > h) && (c in q.rejected ==> q.rejected[c].0 == g)
    && (c in q.failedWrites <==> bad)
  }

  predicate Recorded(start: System, acts: seq<Action>, c: Component)
    requires After(start, acts).Some?
  {
    var s, h := After(start, acts).value, HealthyUpTo(start, acts, c);
    h <= |s.submissions| && Says(s.queue, c, Refusal(s.submissions, c), h, EndedBadly(start, acts, c))
  }

  lemma RefusalGrows(subs: seq<Submission>, x: Submission, c: Component)
    ensures Refusal(subs + [x], c) ==
            if Owner(x.work) == Some(c) && !x.accepted then |subs| + 1 else Refusal(subs, c)
  {
    assert (subs + [x])[..|subs|] == subs;
  }

  lemma SubmitSays(q: QueueState, w: Work, at: nat, c: Component, g: nat, h: nat, bad: bool)
    requires Says(q, c, g, h, bad) && h <= q.generation
    ensures var (t, accepted) := Submitted(q, w, at);
            Says(t, c, if Owner(w) == Some(c) && !accepted then q.generation + 1 else g, h, bad)
  {
  }

  lemma OwnFinishSays(q: QueueState, job: Job, shown: Components, c: Component, g: nat, h: nat, bad: bool)
    requires Says(q, c, g, h, bad) && Owner(job.work) == Some(c) && job.generation != g
    ensures var healthy := shown.At(c).state.Healthy?;
            Says(FinishedJob(q, job, shown, false), c, g,
                 if healthy && job.generation > h then job.generation else h, !healthy)
  {
  }

  lemma OtherFinishSays(q: QueueState, job: Job, shown: Components, c: Component, g: nat, h: nat, bad: bool)
    requires Says(q, c, g, h, bad) && Owner(job.work) != Some(c)
    ensures Says(FinishedJob(q, job, shown, false), c, g, h, bad)
  {
  }

  /** The other actions leave the records alone. */
  lemma OthersRecordNothing(s: System, a: Action)
    requires Enabled(s, a) && !a.Submit? && !a.Finish? && !a.Panic?
    ensures var t := Apply(s, a);
            && t.queue.rejected == s.queue.rejected && t.queue.failedWrites == s.queue.failedWrites
            && t.submissions == s.submissions
  {
  }

  lemma {:induction false} RunQueued(start: System, acts: seq<Action>)
    requires Started(start) && After(start, acts).Some? && Calm(acts)
    ensures Queued(After(start, acts).value) && Knows(After(start, acts).value.coordinator, After(start, acts).value.truth)
  {
    if acts != [] {
      RunQueued(start, acts[..|acts| - 1]);
      QueuedKept(After(start, acts[..|acts| - 1]).value, acts[|acts| - 1]);
    }
  }

  lemma NoJobEnds(start: System, before: seq<Action>, a: Action, c: Component)
    requires After(start, before).Some? && Enabled(After(start, before).value, a) && !a.Finish?
    ensures After(start, before + [a]) == Some(Apply(After(start, before).value, a))
    ensures HealthyUpTo(start, before + [a], c) == HealthyUpTo(start, before, c)
    ensures EndedBadly(start, before + [a], c) == EndedBadly(start, before, c)
  {
    assert (before + [a])[..|before|] == before;
  }

  lemma SubmitRecorded(start: System, before: seq<Action>, w: Work, at: nat, c: Component)
    requires After(start, before).Some? && Recorded(start, before, c) && Submittable(w)
    requires After(start, before).value.queue.generation == |After(start, before).value.submissions|
    ensures After(start, before + [Submit(w, at)]).Some? && Recorded(start, before + [Submit(w, at)], c)
  {
    var s := After(start, before).value;
    NoJobEnds(start, before, Submit(w, at), c);
    SubmitSays(s.queue, w, at, c, Refusal(s.submissions, c), HealthyUpTo(start, before, c), EndedBadly(start, before, c));
    RefusalGrows(s.submissions, Submission(w, Submitted(s.queue, w, at).1), c);
  }

  lemma FinishRecorded(start: System, before: seq<Action>, c: Component)
    requires After(start, before).Some? && Recorded(start, before, c) && After(start, before).value.running.Done?
    requires FromSubmission(After(start, before).value.submissions, After(start, before).value.running.job)
    ensures After(start, before + [Finish]).Some? && Recorded(start, before + [Finish], c)
  {
    var s, all := After(start, before).value, before + [Finish];
    assert all[..|before|] == before;
    var g, h, bad := Refusal(s.submissions, c), HealthyUpTo(start, before, c), EndedBadly(start, before, c);
    if Owner(s.running.job.work) == Some(c) {
      OwnFinishSays(s.queue, s.running.job, s.coordinator.components, c, g, h, bad);
    } else {
      OtherFinishSays(s.queue, s.running.job, s.coordinator.components, c, g, h, bad);
    }
  }

  lemma OtherRecorded(start: System, before: seq<Action>, a: Action, c: Component)
    requires After(start, before).Some? && Recorded(start, before, c) && Enabled(After(start, before).value, a)
    requires !a.Submit? && !a.Finish? && !a.Panic?
    ensures After(start, before + [a]).Some? && Recorded(start, before + [a], c)
  {
    NoJobEnds(start, before, a, c);
    OthersRecordNothing(After(start, before).value, a);
  }

  lemma LastRecorded(start: System, before: seq<Action>, a: Action, c: Component)
    requires After(start, before).Some? && Enabled(After(start, before).value, a) && !a.Panic?
    requires Recorded(start, before, c) && Queued(After(start, before).value)
    ensures After(start, before + [a]).Some? && Recorded(start, before + [a], c)
  {
    if a.Submit? {
      SubmitRecorded(start, before, a.work, a.at, c);
    } else if a.Finish? {
      FinishRecorded(start, before, c);
    } else {
      OtherRecorded(start, before, a, c);
    }
  }

  lemma {:induction false} RunRecorded(start: System, acts: seq<Action>, c: Component)
    requires Started(start) && After(start, acts).Some? && Calm(acts)
    ensures Recorded(start, acts, c)
  {
    if acts != [] {
      RunRecorded(start, acts[..|acts| - 1], c);
      RunQueued(start, acts[..|acts| - 1]);
      LastRecorded(start, acts[..|acts| - 1], acts[|acts| - 1], c);
      assert acts == acts[..|acts| - 1] + [acts[|acts| - 1]];
    }
  }

  lemma ClosedSnoc(before: seq<Action>, a: Action)
    ensures Shut(before + [a]) <==> Shut(before) || Closes(a)
  {
    assert a in before + [a];
    if Shut(before) {
      var x :| x in before && Closes(x);
      assert x in before + [a];
    }
  }

  lemma StepShuts(s: System, a: Action)
    requires Enabled(s, a)
    ensures Apply(s, a).queue.closed <==> s.queue.closed || Closes(a)
  {
  }

  lemma {:induction false} RunShut(start: System, acts: seq<Action>)
    requires Started(start) && After(start, acts).Some?
    ensures After(start, acts).value.queue.closed <==> Shut(acts)
  {
    if acts != [] {
      var before, a := acts[..|acts| - 1], acts[|acts| - 1];
      RunShut(start, before);
      StepShuts(After(start, before).value, a);
      ClosedSnoc(before, a);
      assert acts == before + [a];
    }
  }

  /** After a panic nothing waits or runs any more. */
  predicate Dead(s: System) {
    s.queue.closed && s.queue.completed && s.queue.jobs == [] && s.queue.active.None? && s.running.NoJob?
  }

  lemma {:induction false} PanicIsFinal(start: System, acts: seq<Action>)
    requires After(start, acts).Some? && !Calm(acts)
    ensures Dead(After(start, acts).value)
  {
    var before, a := acts[..|acts| - 1], acts[|acts| - 1];
    if !a.Panic? {
      assert !Calm(before) by {
        var x :| x in acts && x.Panic?;
        assert x in before + [a];
      }
      PanicIsFinal(start, before);
    }
  }

  predicate Idle(s: System) { s.queue.jobs == [] && s.running.NoJob? }

  lemma CalmAnswer(start: System, acts: seq<Action>)
    requires Started(start) && After(start, acts).Some? && Calm(acts)
    ensures var s := After(start, acts).value;
            FlushAnswer(s.queue) ==
            if !Idle(s) then None else Some(!Shut(acts) && forall c :: Clean(start, acts, c))
  {
    var s := After(start, acts).value;
    RunQueued(start, acts);
    RunShut(start, acts);
    forall c ensures Clean(start, acts, c) <==> c !in s.queue.rejected && c !in s.queue.failedWrites {
      RunRecorded(start, acts, c);
    }
    assert s.queue.rejected == map[] <==> forall c :: c !in s.queue.rejected;
    assert s.queue.failedWrites == {} <==> forall c :: c !in s.queue.failedWrites;
  }

  /** What `flush` answers, over every run: it waits while a job waits or runs; then it
      succeeds exactly when nobody closed the writer and it did not panic, and for every
      component no refusal is newer than the last job that ended Healthy and the last job
      ended Healthy. So one failure is forgiven by the next success, and by nothing else. */
  lemma FlushExact(start: System, acts: seq<Action>, t: System)
    requires Started(start) && Run(start, acts, t)
    ensures After(start, acts) == Some(t)
    ensures FlushAnswer(t.queue) ==
            if !Idle(t) then None else Some(!Shut(acts) && forall c :: Clean(start, acts, c))
  {
    RunLeadsTo(start, acts, t);
    if Calm(acts) {
      CalmAnswer(start, acts);
    } else {
      PanicIsFinal(start, acts);
      RunShut(start, acts);
    }
  }

  // ---- Submissions ----

  /** What `submit` answers, over every run: a job is accepted exactly when the writer is
      open and fewer than 32 jobs wait, or it is a cache write that takes the place of a
      waiting one. */
  lemma AcceptedExactly(start: System, acts: seq<Action>, t: System, w: Work, at: nat)
    requires Started(start) && Run(start, acts, t)
    ensures Submitted(t.queue, w, at).1 <==>
            !Shut(acts) && (|t.queue.jobs| < 32 || (Coalescible(w) && exists j :: j in t.queue.jobs && Coalescible(j.work)))
  {
    RunLeadsTo(start, acts, t);
    RunShut(start, acts);
    if Calm(acts) {
      RunQueued(start, acts);
      Room32(t.queue, w);
    } else {
      PanicIsFinal(start, acts);
    }
  }

  lemma Room32(q: QueueState, w: Work)
    requires |q.jobs| <= QUEUE_CAPACITY
    ensures |Room(q, w)| < QUEUE_CAPACITY <==>
            |q.jobs| < QUEUE_CAPACITY || (Coalescible(w) && exists j :: j in q.jobs && Coalescible(j.work))
  {
    if Coalescible(w) {
      if j :| j in q.jobs && Coalescible(j.work) {
        KeptShrinks(q.jobs, j);
      } else {
        KeptAll(q.jobs);
      }
    }
  }

  // ---- Health ----

  /** What the coordinator showed when the worker last looked. */
  function Snapshot(start: System, acts: seq<Action>): Components
    requires After(start, acts).Some?
  {
    if acts == [] then start.coordinator.components
    else
      var before := acts[..|acts| - 1];
      if acts[|acts| - 1].Finish? then After(start, before).value.coordinator.components else Snapshot(start, before)
  }

  lemma {:induction false} RunSnapshot(start: System, acts: seq<Action>)
    requires Started(start) && After(start, acts).Some? && Calm(acts)
    ensures After(start, acts).value.queue.health == Snapshot(start, acts)
  {
    if acts != [] {
      var before, a := acts[..|acts| - 1], acts[|acts| - 1];
      RunSnapshot(start, before);
      StepSnapshot(After(start, before).value, a);
    }
  }

  lemma StepSnapshot(s: System, a: Action)
    requires Enabled(s, a) && !a.Panic?
    ensures Apply(s, a).queue.health == if a.Finish? then s.coordinator.components else s.queue.health
  {
  }

  predicate Outstanding(start: System, acts: seq<Action>, c: Component)
    requires After(start, acts).Some?
  {
    Refusal(After(start, acts).value.submissions, c) > HealthyUpTo(start, acts, c)
  }

  predicate AtWork(s: System, c: Component) {
    || (exists j :: j in s.queue.jobs && Owner(j.work) == Some(c))
    || (!s.running.NoJob? && Owner(s.running.job.work) == Some(c))
  }

  /** When the latest submission for `c` was refused. */
  function RefusedAt(start: System, acts: seq<Action>, c: Component): Option<nat>
    requires After(start, acts).Some?
  {
    if acts == [] then None
    else
      var before, a := acts[..|acts| - 1], acts[|acts| - 1];
      if a.Submit? && Owner(a.work) == Some(c) && !Submitted(After(start, before).value.queue, a.work, a.at).1
      then Some(a.at) else RefusedAt(start, before, c)
  }

  lemma StepRefusedAt(s: System, a: Action, c: Component)
    requires Enabled(s, a) && !a.Panic? && c in Apply(s, a).queue.rejected
    ensures if a.Submit? && Owner(a.work) == Some(c) && !Submitted(s.queue, a.work, a.at).1
            then Apply(s, a).queue.rejected[c].1 == a.at
            else c in s.queue.rejected && Apply(s, a).queue.rejected[c] == s.queue.rejected[c]
  {
  }

  lemma {:induction false} RunRefusedAt(start: System, acts: seq<Action>, c: Component)
    requires Started(start) && After(start, acts).Some? && Calm(acts)
    ensures var q := After(start, acts).value.queue;
            c in q.rejected ==> RefusedAt(start, acts, c) == Some(q.rejected[c].1)
  {
    if acts != [] && c in After(start, acts).value.queue.rejected {
      var before, a := acts[..|acts| - 1], acts[|acts| - 1];
      RunRefusedAt(start, before, c);
      StepRefusedAt(After(start, before).value, a, c);
    }
  }

  const NOT_TAKEN := Failure(false, false, "writer queue")

  /** What `health` reports for a component, over every run without a panic: Degraded
      while a refusal is outstanding, else what the coordinator last showed; and only
      session-only durability while one is outstanding or work for it waits or runs. */
  lemma HealthExact(start: System, acts: seq<Action>, t: System, c: Component)
    requires Started(start) && Run(start, acts, t) && Calm(acts)
    ensures After(start, acts) == Some(t)
    ensures var h, shown := Reported(t.queue, c), Snapshot(start, acts).At(c);
            && h.state == (if Outstanding(start, acts, c) then Degraded else shown.state)
            && h.durability == (if Outstanding(start, acts, c) || AtWork(t, c) then SessionOnly else shown.durability)
            && h.lastSuccess == shown.lastSuccess
            && (Outstanding(start, acts, c) ==> RefusedAt(start, acts, c).Some?)
            && h.failure == if Outstanding(start, acts, c) then Some((NOT_TAKEN, RefusedAt(start, acts, c).value)) else shown.failure
  {
    RunLeadsTo(start, acts, t);
    RunRefusedAt(start, acts, c);
    RunRecorded(start, acts, c);
    RunSnapshot(start, acts);
    RunQueued(start, acts);
  }

  /** After a panic every component is reported Degraded and session-only. */
  lemma PanicIsReported(start: System, acts: seq<Action>, t: System, c: Component)
    requires Started(start) && Run(start, acts, t) && !Calm(acts)
    ensures Reported(t.queue, c).state.Degraded? && Reported(t.queue, c).durability.SessionOnly?
    ensures Reported(t.queue, c).failure.Some? && Reported(t.queue, c).failure.value.0 == NOT_TAKEN
  {
    RunLeadsTo(start, acts, t);
    PanicRefuses(start, acts, c);
  }

  lemma {:induction false} PanicRefuses(start: System, acts: seq<Action>, c: Component)
    requires After(start, acts).Some? && !Calm(acts)
    ensures c in After(start, acts).value.queue.rejected
  {
    var before, a := acts[..|acts| - 1], acts[|acts| - 1];
    if a.Panic? {
      AllRefusedCovers((0, 0), c);
    } else {
      assert !Calm(before) by {
        var x :| x in acts && x.Panic?;
        assert x in before + [a];
      }
      PanicRefuses(start, before, c);
      PanicIsFinal(start, before);
    }
  }

  // ---- What the jobs left behind ----

  predicate Runs(s: System, a: Action, c: Component) { a.Execute? && s.running.Working? && Owner(s.running.job.work) == Some(c) }

  /** The storage call was made and changed the file. */
  predicate Lands(s: System, m: Attempt) {
    s.coordinator.revalidates && m.root.None? && (m.error.None? || m.leftover)
  }

  /** What the last job that changed the file of `c` made of it. */
  function FileBy(start: System, acts: seq<Action>, c: Component): Option<Payload>
    requires After(start, acts).Some?
  {
    if acts == [] then start.disk.File(c)
    else
      var before, a := acts[..|acts| - 1], acts[|acts| - 1];
      var s := After(start, before).value;
      if Runs(s, a, c) && Lands(s, a.main)
      then if s.running.job.work.Write? then Some(s.running.job.work.payload) else None
      else FileBy(start, before, c)
  }

  /** The events the action appends to the log: its own, or that the settings were stored. */
  function LoggedBy(s: System, a: Action): seq<Payload> {
    if !a.Execute? || !s.running.Working? || a.skipped then []
    else
      var w := s.running.job.work;
      if w.Record? && Lands(s, a.main) then [w.event]
      else if w.Write? && w.component.Settings? && Lands(s, a.main) && a.main.error.None? && Lands(s, a.event)
      then ["settings persisted"]
      else []
  }

  function LogBy(start: System, acts: seq<Action>): seq<Payload>
    requires After(start, acts).Some?
  {
    if acts == [] then start.disk.log
    else
      var before := acts[..|acts| - 1];
      LogBy(start, before) + LoggedBy(After(start, before).value, acts[|acts| - 1])
  }

  /** How the jobs for `c` went, the last one deciding. */
  function TruthBy(start: System, acts: seq<Action>, c: Component): Truth
    requires After(start, acts).Some?
  {
    if acts == [] then start.truth.At(c)
    else
      var before, a := acts[..|acts| - 1], acts[|acts| - 1];
      var s, t := After(start, before).value, TruthBy(start, before, c);
      if !Runs(s, a, c) || !start.coordinator.revalidates then t
      else if a.main.root.Some? || a.main.error.Some? then Truth(false, SessionOnly, t.lastSuccess)
      else if s.running.job.work.Remove? then Truth(true, NotApplicable, t.lastSuccess)
      else Truth(true, Durable, Some(s.running.job.at))
  }

  lemma RootKindKept(k: CoordinatorState, op: Operation)
    ensures Performed(k, op).revalidates == k.revalidates
  {
  }

  lemma RunKeepsKind(s: System, job: Job, m: Attempt, e: Attempt, skipped: bool)
    ensures Ran(s, job, m, e, skipped).coordinator.revalidates == s.coordinator.revalidates
    ensures Owner(job.work).Some? ==> RanMain(s, job, m, skipped).coordinator.revalidates == s.coordinator.revalidates
  {
    if Owner(job.work).Some? {
      RootKindKept(s.coordinator, MainOperation(job, m, skipped));
      RootKindKept(RanMain(s, job, m, skipped).coordinator, EventOperation(job, e, skipped));
    }
  }

  lemma StepStores(s: System, a: Action, c: Component)
    requires Enabled(s, a) && !a.Panic? && Tracked(c)
    requires s.running.Working? ==> Submittable(s.running.job.work)
    ensures Apply(s, a).disk.File(c) ==
            if Runs(s, a, c) && Lands(s, a.main) then FileAfter(s.running.job.work, None) else s.disk.File(c)
    ensures Apply(s, a).disk.log == s.disk.log + LoggedBy(s, a)
  {
    if a.Execute? { RunKeepsKind(s, s.running.job, a.main, a.event, a.skipped); }
  }

  lemma StepTruth(s: System, a: Action, c: Component)
    requires Enabled(s, a) && !a.Panic? && Tracked(c)
    ensures Apply(s, a).coordinator.revalidates == s.coordinator.revalidates
    ensures var t := s.truth.At(c);
            Apply(s, a).truth.At(c) ==
            if !Runs(s, a, c) || !s.coordinator.revalidates then t
            else if a.main.root.Some? || a.main.error.Some? then Truth(false, SessionOnly, t.lastSuccess)
            else if s.running.job.work.Remove? then Truth(true, NotApplicable, t.lastSuccess)
            else Truth(true, Durable, Some(s.running.job.at))
  {
    if a.Execute? { RunKeepsKind(s, s.running.job, a.main, a.event, a.skipped); }
  }

  /** Over every run without a panic: each file is what the last job that changed it made
      of it, a failed job that left nothing behind changing nothing; and the log grew by
      the recorded events and the notes of stored settings, in order. */
  lemma {:induction false} FilesExact(start: System, acts: seq<Action>, c: Component)
    requires Started(start) && After(start, acts).Some? && Calm(acts) && Tracked(c)
    ensures After(start, acts).value.disk.File(c) == FileBy(start, acts, c)
    ensures After(start, acts).value.disk.log == LogBy(start, acts)
  {
    if acts != [] {
      var before := acts[..|acts| - 1];
      FilesExact(start, before, c);
      RunQueued(start, before);
      StepStores(After(start, before).value, acts[|acts| - 1], c);
    }
  }

  lemma {:induction false} RunTruth(start: System, acts: seq<Action>, c: Component)
    requires Started(start) && After(start, acts).Some? && Calm(acts) && Tracked(c)
    ensures After(start, acts).value.coordinator.revalidates == start.coordinator.revalidates
    ensures After(start, acts).value.truth.At(c) == TruthBy(start, acts, c)
  {
    if acts != [] {
      RunTruth(start, acts[..|acts| - 1], c);
      StepTruth(After(start, acts[..|acts| - 1]).value, acts[|acts| - 1], c);
    }
  }

  /** What the coordinator says about a file while the root is up, over every run without
      a panic: stored durably at the time of the last write that worked, nothing
      applicable after a removal, session-only after a failure. */
  lemma StoredHealthExact(start: System, acts: seq<Action>, c: Component)
    requires Started(start) && After(start, acts).Some? && Calm(acts) && Tracked(c)
    ensures var k, t := After(start, acts).value.coordinator, TruthBy(start, acts, c);
            k.rootFailure.None? ==>
              && k.components.At(c).state == (if t.ok then Healthy else Degraded)
              && k.components.At(c).durability == t.durability && k.components.At(c).lastSuccess == t.lastSuccess
  {
    RunTruth(start, acts, c);
    RunQueued(start, acts);
  }
}
