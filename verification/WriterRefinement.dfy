/** With storage that works, the coalescing queue is a plain queue: nobody can tell
    from the stored files which cache writes were skipped. */
module WriterRefinement {
  import opened Basics
  import opened PersistenceCoordinator
  import opened WriterQueue
  import opened BackgroundWriter

  /** Everything a job leaves behind when storage works. */
  function Effect(d: Contents, w: Work): Contents {
    var stored := Stores(d, w);
    if w.Write? && w.component.Settings? then Stores(stored, Record(SETTINGS_PERSISTED)) else stored
  }

  /** The plain queue: every piece of work, in order. */
  function InOrder(d: Contents, works: seq<Work>): Contents {
    if works == [] then d else Effect(InOrder(d, works[..|works| - 1]), works[|works| - 1])
  }

  function Works(jobs: seq<Job>): seq<Work> { seq(|jobs|, i requires 0 <= i < |jobs| => jobs[i].work) }

  function AcceptedWorks(subs: seq<Submission>): seq<Work> {
    if subs == [] then []
    else
      var last := subs[|subs| - 1];
      AcceptedWorks(subs[..|subs| - 1]) + (if last.accepted then [last.work] else [])
  }

  /** What is still to run: the job in the worker's hands, then the queue. */
  function Ahead(s: System): seq<Work> {
    InHand(s) + Works(s.queue.jobs)
  }

  function InHand(s: System): seq<Work> { if s.running.Working? then [s.running.job.work] else [] }

  predicate Fine(m: Attempt) { m.root.None? && m.error.None? }

  predicate Smooth(a: Action) {
    !a.Panic? && (a.Execute? ==> Fine(a.main) && Fine(a.event) && !a.skipped)
  }

  lemma {:induction false} InOrderAppend(d: Contents, a: seq<Work>, b: seq<Work>)
    ensures InOrder(d, a + b) == InOrder(InOrder(d, a), b)
  {
    if b == [] {
      assert a + b == a;
    } else {
      InOrderAppend(d, a, b[..|b| - 1]);
      assert (a + b)[..|a + b| - 1] == a + b[..|b| - 1];
    }
  }

  lemma InOrderOne(d: Contents, w: Work)
    ensures InOrder(d, [w]) == Effect(d, w)
  {
  }

  predicate SameButCache(a: Contents, b: Contents) { a.settings == b.settings && a.log == b.log }

  lemma EffectBlindToCache(a: Contents, b: Contents, w: Work)
    requires SameButCache(a, b)
    ensures SameButCache(Effect(a, w), Effect(b, w))
    ensures Coalescible(w) ==> SameButCache(a, Effect(b, w))
  {
  }

  lemma InOrderFirst(d: Contents, w: Work, rest: seq<Work>)
    ensures InOrder(d, [w] + rest) == InOrder(Effect(d, w), rest)
  {
    InOrderAppend(d, [w], rest);
    InOrderOne(d, w);
  }

  lemma WorksCons(jobs: seq<Job>)
    requires jobs != []
    ensures Works(jobs) == [jobs[0].work] + Works(jobs[1..])
  {
  }

  /** Dropping cache writes changes nothing but the cache file. */
  lemma {:induction false} KeptDiffersInCache(a: Contents, b: Contents, jobs: seq<Job>)
    requires SameButCache(a, b)
    ensures SameButCache(InOrder(a, Works(Kept(jobs))), InOrder(b, Works(jobs)))
    decreases |jobs|
  {
    if jobs != [] {
      var first, rest := jobs[0].work, jobs[1..];
      WorksCons(jobs);
      InOrderFirst(b, first, Works(rest));
      EffectBlindToCache(a, b, first);
      if Coalescible(first) {
        KeptDiffersInCache(a, Effect(b, first), rest);
      } else {
        WorksCons(Kept(jobs));
        assert Kept(jobs)[1..] == Kept(rest);
        InOrderFirst(a, first, Works(Kept(rest)));
        KeptDiffersInCache(Effect(a, first), Effect(b, first), rest);
      }
    }
  }

  /** The queue and the plain queue agree on what will finally be stored. */
  predicate Agree(s: System, start: Contents) {
    InOrder(s.disk, Ahead(s)) == InOrder(start, AcceptedWorks(s.submissions))
  }

  lemma AcceptedAppend(subs: seq<Submission>, x: Submission)
    ensures AcceptedWorks(subs + [x]) == AcceptedWorks(subs) + (if x.accepted then [x.work] else [])
  {
  }

  /** Appending one work to what is ahead is one more effect at the end. */
  lemma OneMoreAhead(d: Contents, hand: seq<Work>, room: seq<Work>, w: Work)
    ensures InOrder(d, hand + (room + [w])) == Effect(InOrder(InOrder(d, hand), room), w)
  {
    assert hand + (room + [w]) == hand + room + [w];
    InOrderAppend(d, hand + room, [w]);
    InOrderAppend(d, hand, room);
    InOrderOne(InOrder(d, hand + room), w);
  }

  /** An accepted submission: the works dropped for it only wrote the cache it writes. */
  lemma AcceptedAgrees(d: Contents, hand: seq<Work>, jobs: seq<Job>, w: Work, plain: Contents)
    requires InOrder(InOrder(d, hand), Works(jobs)) == plain
    ensures var room := if Coalescible(w) then Kept(jobs) else jobs;
            Effect(InOrder(InOrder(d, hand), Works(room)), w) == Effect(plain, w)
  {
    if Coalescible(w) {
      var c := InOrder(d, hand);
      KeptDiffersInCache(c, c, jobs);
    }
  }

  lemma OneMoreAgrees(d: Contents, hand: seq<Work>, jobs: seq<Job>, w: Work, start: Contents, plain: seq<Work>)
    requires InOrder(d, hand + Works(jobs)) == InOrder(start, plain)
    ensures var room := if Coalescible(w) then Kept(jobs) else jobs;
            InOrder(d, hand + (Works(room) + [w])) == InOrder(start, plain + [w])
  {
    InOrderAppend(d, hand, Works(jobs));
    AcceptedAgrees(d, hand, jobs, w, InOrder(start, plain));
    OneMoreAhead(d, hand, Works(if Coalescible(w) then Kept(jobs) else jobs), w);
    InOrderAppend(start, plain, [w]);
    InOrderOne(InOrder(start, plain), w);
  }

  lemma AheadAfterSubmit(s: System, w: Work, at: nat)
    requires Submitted(s.queue, w, at).1
    ensures var t := AfterSubmit(s, w, at);
            && t.disk == s.disk && t.submissions == s.submissions + [Submission(w, true)]
            && Ahead(t) == InHand(s) + (Works(Room(s.queue, w)) + [w])
  {
    var t := AfterSubmit(s, w, at);
    assert t.queue.jobs == Room(s.queue, w) + [Job(s.queue.generation + 1, at, w)];
    assert Works(t.queue.jobs) == Works(Room(s.queue, w)) + [w];
  }

  lemma SubmitAccepted(s: System, w: Work, at: nat, start: Contents)
    requires Agree(s, start) && Submitted(s.queue, w, at).1
    ensures Agree(AfterSubmit(s, w, at), start)
  {
    AheadAfterSubmit(s, w, at);
    AcceptedAppend(s.submissions, Submission(w, true));
    OneMoreAgrees(s.disk, InHand(s), s.queue.jobs, w, start, AcceptedWorks(s.submissions));
  }

  lemma SubmitAgrees(s: System, w: Work, at: nat, start: Contents)
    requires Queued(s) && Agree(s, start) && Submittable(w)
    ensures Agree(AfterSubmit(s, w, at), start)
  {
    if Submitted(s.queue, w, at).1 {
      SubmitAccepted(s, w, at, start);
    } else {
      RefusalDropsNothing(s.queue, w, at);
      AcceptedAppend(s.submissions, Submission(w, false));
      assert AcceptedWorks(s.submissions) + [] == AcceptedWorks(s.submissions);
    }
  }

  lemma ExecuteAgrees(s: System, m: Attempt, e: Attempt, start: Contents)
    requires Knows(s.coordinator, s.truth) && s.coordinator.revalidates
    requires Agree(s, start) && s.running.Working? && Submittable(s.running.job.work)
    requires Fine(m) && Fine(e)
    ensures Agree(Ran(s, s.running.job, m, e, false), start)
  {
    var w := s.running.job.work;
    var t := Ran(s, s.running.job, m, e, false);
    assert t.disk == Effect(s.disk, w);
    InOrderAppend(s.disk, [w], Works(s.queue.jobs));
    InOrderOne(s.disk, w);
    assert Ahead(t) == Works(s.queue.jobs);
  }

  lemma TakeAgrees(s: System, start: Contents)
    requires Agree(s, start) && s.running.NoJob? && s.queue.jobs != []
    ensures Agree(AfterTake(s), start)
  {
    assert Ahead(AfterTake(s)) == Ahead(s);
  }

  lemma FinishAgrees(s: System, start: Contents)
    requires Agree(s, start) && s.running.Done?
    ensures Agree(AfterFinish(s), start)
  {
    assert Ahead(AfterFinish(s)) == Ahead(s);
  }

  lemma CloseAgrees(s: System, start: Contents)
    requires Agree(s, start)
    ensures Agree(AfterClose(s), start)
  {
    assert Ahead(AfterClose(s)) == Ahead(s);
  }

  lemma RunRevalidates(s: System, job: Job, m: Attempt, e: Attempt, skipped: bool)
    requires s.coordinator.revalidates && Knows(s.coordinator, s.truth)
    ensures Ran(s, job, m, e, skipped).coordinator.revalidates
  {
    if Owner(job.work).Some? {
      TellIsTruth(s, MainOperation(job, m, skipped));
      TellIsTruth(RanMain(s, job, m, skipped), EventOperation(job, e, skipped));
    }
  }

  lemma StepAgrees(s: System, a: Action, start: Contents)
    requires Knows(s.coordinator, s.truth) && s.coordinator.revalidates && Queued(s)
    requires Agree(s, start) && Enabled(s, a) && Smooth(a)
    ensures Agree(Apply(s, a), start) && Apply(s, a).coordinator.revalidates
  {
    match a
    case Submit(w, at) => SubmitAgrees(s, w, at, start);
    case Take => TakeAgrees(s, start);
    case Execute(m, e, _) =>
      WorkSubmittable(s);
      RunRevalidates(s, s.running.job, m, e, false);
      ExecuteAgrees(s, m, e, start);
    case Finish => FinishAgrees(s, start);
    case Close => CloseAgrees(s, start);
  }

  lemma {:induction false} RunAgrees(s: System, acts: seq<Action>, t: System, start: Contents)
    requires Knows(s.coordinator, s.truth) && s.coordinator.revalidates && Queued(s) && Agree(s, start)
    requires Run(s, acts, t) && forall a :: a in acts ==> Smooth(a)
    ensures Agree(t, start)
    decreases |acts|
  {
    if acts != [] {
      StepAgrees(s, acts[0], start);
      QueuedKept(s, acts[0]);
      RunAgrees(Apply(s, acts[0]), acts[1..], t, start);
    }
  }

  /** Whenever the queue is empty and the worker idle, the files hold exactly what
      executing every accepted job in submission order would have stored. */
  lemma CoalescingIsInvisible(s: System, acts: seq<Action>, t: System)
    requires Started(s) && s.coordinator.revalidates && Run(s, acts, t)
    requires forall a :: a in acts ==> Smooth(a)
    requires t.queue.jobs == [] && t.running.NoJob?
    ensures t.disk == InOrder(s.disk, AcceptedWorks(t.submissions))
  {
    assert Ahead(s) == [];
    RunAgrees(s, acts, t, s.disk);
    assert Ahead(t) == [];
  }

  // ---- A flush fails only for a reason ----

  predicate Unblemished(s: System) {
    && s.queue.rejected == map[] && s.queue.failedWrites == {} && !s.queue.closed
    && (s.running.Done? && Owner(s.running.job.work).Some? ==>
          s.coordinator.components.At(Owner(s.running.job.work).value).state.Healthy?)
  }

  lemma ExecuteSucceeds(s: System, m: Attempt, e: Attempt)
    requires Knows(s.coordinator, s.truth) && s.coordinator.revalidates && s.running.Working?
    requires Fine(m) && Fine(e) && Owner(s.running.job.work).Some?
    ensures var t := Ran(s, s.running.job, m, e, false);
            t.coordinator.components.At(Owner(s.running.job.work).value).state.Healthy?
  {
    var job := s.running.job;
    var op := MainOperation(job, m, false);
    TellIsTruth(s, op);
    var main := PerformIn(s, op);
    TellIsTruth(main, EventOperation(job, e, false));
  }

  lemma StepUnblemished(s: System, a: Action)
    requires Knows(s.coordinator, s.truth) && s.coordinator.revalidates && Unblemished(s)
    requires Enabled(s, a) && Smooth(a) && !a.Close?
    requires a.Submit? ==> Submitted(s.queue, a.work, a.at).1
    ensures Unblemished(Apply(s, a))
  {
    if a.Execute? && Owner(s.running.job.work).Some? {
      ExecuteSucceeds(s, a.main, a.event);
    }
  }

  predicate AllAccepted(subs: seq<Submission>) { forall i :: 0 <= i < |subs| ==> subs[i].accepted }

  lemma {:induction false} SubmissionsOnlyGrow(s: System, acts: seq<Action>, t: System)
    requires Run(s, acts, t)
    ensures s.submissions <= t.submissions
    decreases |acts|
  {
    if acts != [] {
      SubmissionsOnlyGrow(Apply(s, acts[0]), acts[1..], t);
    }
  }

  lemma {:induction false} RunUnblemished(s: System, acts: seq<Action>, t: System)
    requires Knows(s.coordinator, s.truth) && s.coordinator.revalidates && Queued(s) && Unblemished(s)
    requires Run(s, acts, t) && (forall a :: a in acts ==> Smooth(a) && !a.Close?) && AllAccepted(t.submissions)
    ensures Unblemished(t)
    decreases |acts|
  {
    if acts != [] {
      var a := acts[0];
      var next := Apply(s, a);
      if a.Submit? {
        SubmissionsOnlyGrow(next, acts[1..], t);
        assert next.submissions[|s.submissions|] == t.submissions[|s.submissions|];
      }
      StepUnblemished(s, a);
      QueuedKept(s, a);
      RunUnblemished(next, acts[1..], t);
    }
  }

  /** While storage works, nothing is refused and nobody closes the writer, a flush
      never fails: it waits, and then succeeds. */
  lemma WorkingWriterFlushes(s: System, acts: seq<Action>, t: System)
    requires Started(s) && s.coordinator.revalidates && Run(s, acts, t)
    requires forall a :: a in acts ==> Smooth(a) && !a.Close?
    requires AllAccepted(t.submissions)
    ensures FlushAnswer(t.queue) != Some(false)
  {
    RunUnblemished(s, acts, t);
  }

  // ---- What executing in order leaves ----

  /** The events a piece of work puts in the diagnostics log. */
  function EventsOf(w: Work): seq<Payload> {
    match w
    case Record(e) => [e]
    case Write(c, _) => if c.Settings? then ["settings persisted"] else []
    case _ => []
  }

  function AllEvents(works: seq<Work>): seq<Payload> {
    if works == [] then [] else AllEvents(works[..|works| - 1]) + EventsOf(works[|works| - 1])
  }

  /** The last write or removal of a component's file, if any. */
  function LastFor(works: seq<Work>, c: Component): Option<Work> {
    if works == [] then None
    else
      var w := works[|works| - 1];
      if (w.Write? || w.Remove?) && w.component == c then Some(w) else LastFor(works[..|works| - 1], c)
  }

  /** Executing works in order leaves each file as its last write or removal says, and the
      log with all their events after what it held. */
  lemma {:induction false} InOrderExact(d: Contents, works: seq<Work>, c: Component)
    requires Tracked(c) && forall w :: w in works ==> Submittable(w)
    ensures InOrder(d, works).log == d.log + AllEvents(works)
    ensures var last := LastFor(works, c);
            InOrder(d, works).File(c) ==
            if last.None? then d.File(c) else if last.value.Write? then Some(last.value.payload) else None
  {
    if works != [] {
      InOrderExact(d, works[..|works| - 1], c);
      assert Submittable(works[|works| - 1]);
    }
  }
}
