/** The opt-in desktop recorder (desktop_probe.rs): callers enter observations under
    a lock, one worker writes them, and at the deadline it closes admission under the
    same lock, drains what was accepted and writes a footer. */
module DesktopProbe {
  import opened Basics

  const MAX_EVENTS: nat := 4096
  const QUEUE_CAPACITY: nat := 256

  /** Durations are `None` when they are not finite. */
  datatype Observation =
    | Publication(publicationSeq: nat, ageMs: Option<real>, processCount: nat, intervalMs: nat)
    | Interaction(durationMs: Option<real>)

  datatype Row = Row(elapsedMs: real, observation: Observation, enhanced: bool)

  datatype Answer = Ignored | Accepted | Invalid | Busy

  datatype Footer = Footer(rejected: nat, writeFailed: bool)

  predicate Within(x: Option<real>, high: real) { x.Some? && 0.0 <= x.value <= high }

  predicate Valid(o: Observation) {
    match o
    case Publication(seqNo, age, count, interval) =>
      seqNo > 0 && Within(age, 3_600_000.0) && count <= 1_000_000 && 500 <= interval <= 5_000
    case Interaction(duration) => Within(duration, 60_000.0)
  }

  /** What callers and worker share, and what the worker counts. */
  datatype Live = Live(admitting: bool, queue: seq<Row>, rejected: nat, events: nat, writeFailed: bool, written: seq<Row>)

  /** `record`: `before` and `inside` are the two looks at the clock. */
  function Recorded(l: Live, row: Row, before: bool, inside: bool): (Live, Answer) {
    if !before || !l.admitting || !inside then (l, Ignored)
    else if !Valid(row.observation) then (l.(rejected := l.rejected + 1), Invalid)
    else if |l.queue| >= QUEUE_CAPACITY then (l.(rejected := l.rejected + 1), Busy)
    else (l.(queue := l.queue + [row]), Accepted)
  }

  /** The worker takes one row; `works` is the fate of the write. */
  function Handled(l: Live, works: bool): Live
    requires l.queue != []
  {
    var taken := l.(queue := l.queue[1..], events := l.events + 1);
    if l.events + 1 > MAX_EVENTS then taken.(rejected := l.rejected + 1)
    else if works then taken.(written := l.written + [l.queue[0]])
    else taken.(writeFailed := true)
  }

  function Over(n: nat): nat { if n > MAX_EVENTS then n - MAX_EVENTS else 0 }

  class Recorder {
    var admitting: bool
    var queue: seq<Row>
    var rejected: nat
    var events: nat
    var writeFailed: bool
    var written: seq<Row>

    function View(): Live
      reads this
    {
      Live(admitting, queue, rejected, events, writeFailed, written)
    }

    constructor ()
      ensures View() == Live(true, [], 0, 0, false, [])
    {
      admitting, queue, rejected, events, writeFailed, written := true, [], 0, 0, false, [];
    }

    method Record(row: Row, before: bool, inside: bool) returns (answer: Answer)
      modifies this
      ensures (View(), answer) == Recorded(old(View()), row, before, inside)
    {
      if !before { return Ignored; }
      if !admitting { return Ignored; }
      if !inside { return Ignored; }
      if !Valid(row.observation) {
        rejected := rejected + 1;
        return Invalid;
      }
      if |queue| >= QUEUE_CAPACITY {
        rejected := rejected + 1;
        return Busy;
      }
      queue := queue + [row];
      return Accepted;
    }

    method Handle(works: bool) returns (ok: bool)
      requires queue != []
      modifies this
      ensures View() == Handled(old(View()), works)
      ensures ok == (old(events) >= MAX_EVENTS || works)
    {
      var row := queue[0];
      queue := queue[1..];
      events := events + 1;
      if events > MAX_EVENTS {
        rejected := rejected + 1;
        return true;
      }
      if works { written := written + [row]; } else { writeFailed := true; }
      return works;
    }

    /** Close, drain, footer: nothing that was accepted is left or forgotten. */
    method Finish(works: nat -> bool) returns (footer: Footer)
      modifies this
      ensures !admitting && queue == [] && events == old(events) + |old(queue)|
      ensures rejected + Over(old(events)) == old(rejected) + Over(events)
      ensures footer == Footer(rejected, writeFailed)
      ensures !writeFailed ==>
                !old(writeFailed) && written == old(written) + old(queue)[..|old(queue)| - (Over(events) - Over(old(events)))]
      ensures writeFailed ==>
                old(writeFailed) || exists n :: old(events) < n <= events && n <= MAX_EVENTS && !works(n)
    {
      admitting := false;
      ghost var total := queue;
      ghost var n := 0;
      while queue != []
        invariant n <= |total| && queue == total[n..] && events == old(events) + n
        invariant rejected + Over(old(events)) == old(rejected) + Over(events) && !admitting
        invariant Over(events) - Over(old(events)) <= n
        invariant !writeFailed ==> !old(writeFailed) && written == old(written) + total[..n - (Over(events) - Over(old(events)))]
        invariant writeFailed ==> old(writeFailed) || exists m :: old(events) < m <= events && m <= MAX_EVENTS && !works(m)
        decreases |queue|
      {
        if events < MAX_EVENTS { assert total[..n + 1] == total[..n] + [total[n]]; }
        var ok := Handle(works(events + 1));
        n := n + 1;
      }
      return Footer(rejected, writeFailed);
    }
  }

  // ---- Interleaved callers and worker ----

  datatype Phase = Receiving | Closing | Draining | Done(footer: Footer)

  /** `accepted` and `refused` record what the callers were told, `lost` the rows whose
      write failed. */
  datatype State = State(live: Live, phase: Phase, accepted: seq<Row>, refused: nat, lost: seq<Row>)

  datatype Action =
    | Record(row: Row, before: bool, inside: bool)
    | Receive(works: bool)
    | Deadline
    | Close
    | Drain(works: bool)
    | WriteFooter

  const START := State(Live(true, [], 0, 0, false, []), Receiving, [], 0, [])

  function Take(s: State, works: bool): State
    requires s.live.queue != []
  {
    s.(live := Handled(s.live, works),
       lost := if s.live.events < MAX_EVENTS && !works then s.lost + [s.live.queue[0]] else s.lost)
  }

  function Step(s: State, a: Action): State {
    match a
    case Record(row, before, inside) =>
      var (live, answer) := Recorded(s.live, row, before, inside);
      s.(live := live,
         accepted := if answer.Accepted? then s.accepted + [row] else s.accepted,
         refused := if answer.Invalid? || answer.Busy? then s.refused + 1 else s.refused)
    case Receive(works) =>
      if !s.phase.Receiving? || s.live.queue == [] then s
      else
        var next := Take(s, works);
        if s.live.events < MAX_EVENTS && !works then next.(phase := Closing) else next
    case Deadline => if s.phase.Receiving? then s.(phase := Closing) else s
    case Close => if s.phase.Closing? then s.(phase := Draining, live := s.live.(admitting := false)) else s
    case Drain(works) => if !s.phase.Draining? || s.live.queue == [] then s else Take(s, works)
    case WriteFooter =>
      if s.phase.Draining? && s.live.queue == [] then s.(phase := Done(Footer(s.live.rejected, s.live.writeFailed)))
      else s
  }

  function Run(s: State, actions: seq<Action>): State {
    if actions == [] then s else Step(Run(s, actions[..|actions| - 1]), actions[|actions| - 1])
  }

  function Least(a: nat, b: nat): nat { if a < b then a else b }

  /** The rows the worker tried to write. */
  ghost function Attempted(s: State): seq<Row>
    requires s.live.events <= |s.accepted|
  {
    s.accepted[..Least(s.live.events, MAX_EVENTS)]
  }

  ghost predicate Inv(s: State) {
    && (s.live.admitting <==> s.phase.Receiving? || s.phase.Closing?)
    && |s.live.queue| <= QUEUE_CAPACITY
    && s.live.events <= |s.accepted| && s.live.queue == s.accepted[s.live.events..]
    && s.live.rejected == s.refused + Over(s.live.events)
    && (s.phase.Done? ==> s.live.queue == [] && s.phase.footer == Footer(s.live.rejected, s.live.writeFailed))
  }

  /** Every row the worker tried is written or lost, and losing one is remembered. */
  ghost predicate Wrote(attempted: seq<Row>, written: seq<Row>, lost: seq<Row>, failed: bool) {
    && multiset(attempted) == multiset(written) + multiset(lost)
    && (failed <==> lost != [])
    && (lost == [] ==> written == attempted)
  }

  ghost predicate WritesInv(s: State)
    requires s.live.events <= |s.accepted|
  {
    Wrote(Attempted(s), s.live.written, s.lost, s.live.writeFailed)
  }

  lemma RowWritten(attempted: seq<Row>, written: seq<Row>, lost: seq<Row>, failed: bool, row: Row)
    requires Wrote(attempted, written, lost, failed)
    ensures Wrote(attempted + [row], written + [row], lost, failed)
  {
  }

  lemma RowLost(attempted: seq<Row>, written: seq<Row>, lost: seq<Row>, failed: bool, row: Row)
    requires Wrote(attempted, written, lost, failed)
    ensures Wrote(attempted + [row], written, lost + [row], true)
  {
  }

  /** The attempts are all accepted rows up to the limit. */
  lemma NextAttempt(accepted: seq<Row>, n: nat)
    requires n < |accepted|
    ensures accepted[..Least(n + 1, MAX_EVENTS)] ==
            if n < MAX_EVENTS then accepted[..Least(n, MAX_EVENTS)] + [accepted[n]] else accepted[..Least(n, MAX_EVENTS)]
  {
  }

  lemma TakeKeepsWrites(s: State, works: bool)
    requires s.live.queue != [] && s.live.events < |s.accepted| && s.live.queue[0] == s.accepted[s.live.events]
    requires WritesInv(s)
    ensures WritesInv(Take(s, works))
  {
    var row := s.live.queue[0];
    NextAttempt(s.accepted, s.live.events);
    if s.live.events < MAX_EVENTS {
      if works {
        RowWritten(Attempted(s), s.live.written, s.lost, s.live.writeFailed, row);
      } else {
        RowLost(Attempted(s), s.live.written, s.lost, s.live.writeFailed, row);
      }
    }
  }

  lemma TakeKeepsInv(s: State, works: bool)
    requires Inv(s) && s.live.queue != [] && !s.phase.Done?
    ensures Inv(Take(s, works))
  {
    assert s.live.queue[1..] == s.accepted[s.live.events + 1..];
  }

  lemma RecordKeepsInv(s: State, row: Row, before: bool, inside: bool)
    requires Inv(s)
    ensures Inv(Step(s, Record(row, before, inside)))
  {
    assert s.live.queue + [row] == (s.accepted + [row])[s.live.events..];
  }

  /** The step is the worker taking a row. */
  predicate Takes(s: State, a: Action) {
    s.live.queue != [] && ((a.Receive? && s.phase.Receiving?) || (a.Drain? && s.phase.Draining?))
  }

  lemma TakenState(s: State, a: Action)
    requires Takes(s, a)
    ensures var t := Take(s, a.works); Step(s, a) == t || (a.Receive? && Step(s, a) == t.(phase := Closing))
  {
  }

  lemma StepKeepsInv(s: State, a: Action)
    requires Inv(s)
    ensures Inv(Step(s, a))
  {
    if Takes(s, a) {
      TakenState(s, a);
      TakeKeepsInv(s, a.works);
    } else if a.Record? {
      RecordKeepsInv(s, a.row, a.before, a.inside);
    }
  }

  /** Steps of the others leave the attempts and their outcomes alone. */
  lemma NoTake(s: State, a: Action)
    requires !Takes(s, a)
    ensures var t := Step(s, a);
            && s.accepted <= t.accepted && t.lost == s.lost && t.live.events == s.live.events
            && t.live.written == s.live.written && t.live.writeFailed == s.live.writeFailed
  {
  }

  lemma StepKeepsWrites(s: State, a: Action)
    requires Inv(s) && WritesInv(s)
    ensures Step(s, a).live.events <= |Step(s, a).accepted| && WritesInv(Step(s, a))
  {
    if Takes(s, a) {
      TakeKeepsWrites(s, a.works);
      TakenState(s, a);
    } else {
      NoTake(s, a);
      assert Attempted(Step(s, a)) == Attempted(s);
    }
  }

  lemma {:induction false} RunKeepsInv(actions: seq<Action>)
    ensures Inv(Run(START, actions)) && WritesInv(Run(START, actions))
  {
    if actions != [] {
      var before := Run(START, actions[..|actions| - 1]);
      RunKeepsInv(actions[..|actions| - 1]);
      StepKeepsInv(before, actions[|actions| - 1]);
      StepKeepsWrites(before, actions[|actions| - 1]);
    }
  }

  /** The footer is exact: every accepted observation is written, rejected for exceeding
      the limit, or covered by the failure flag; and its count is the number of callers
      refused plus the number beyond the limit. */
  lemma FooterExact(actions: seq<Action>)
    requires Run(START, actions).phase.Done?
    ensures var s := Run(START, actions);
            var kept := Least(|s.accepted|, MAX_EVENTS);
            && multiset(s.accepted[..kept]) == multiset(s.live.written) + multiset(s.lost)
            && s.phase.footer.rejected == s.refused + (|s.accepted| - kept)
            && (s.phase.footer.writeFailed <==> s.lost != [])
            && (!s.phase.footer.writeFailed ==> s.live.written == s.accepted[..kept])
  {
    RunKeepsInv(actions);
    DoneExact(Run(START, actions));
  }

  lemma DoneExact(s: State)
    requires Inv(s) && WritesInv(s) && s.phase.Done?
    ensures var kept := Least(|s.accepted|, MAX_EVENTS);
            && multiset(s.accepted[..kept]) == multiset(s.live.written) + multiset(s.lost)
            && s.phase.footer.rejected == s.refused + (|s.accepted| - kept)
            && (s.phase.footer.writeFailed <==> s.lost != [])
            && (!s.phase.footer.writeFailed ==> s.live.written == s.accepted[..kept])
  {
  }

  /** Once the footer's count is read, no call is accepted or rejected any more. */
  lemma {:induction false} NothingAfterFooter(actions: seq<Action>, more: seq<Action>)
    requires Run(START, actions).phase.Done?
    ensures Run(START, actions + more) == Run(START, actions)
  {
    RunKeepsInv(actions);
    if more == [] {
      assert actions + more == actions;
    } else {
      var init := more[..|more| - 1];
      NothingAfterFooter(actions, init);
      assert (actions + more)[..|actions + more| - 1] == actions + init;
    }
  }

  // ---- Which answer a caller gets ----

  /** The actions that closed admission: the deadline or a failed write, then the close. */
  ghost predicate ClosedBy(actions: seq<Action>) {
    exists i: nat :: ClosedAt(actions, i)
  }

  predicate ClosedAt(actions: seq<Action>, i: nat) {
    i < |actions| && actions[i].Close? && Run(START, actions[..i]).phase.Closing?
  }

  /** How many rows the worker has taken. */
  function TakenBy(actions: seq<Action>): nat {
    if actions == [] then 0
    else
      var before := actions[..|actions| - 1];
      TakenBy(before) + if Takes(Run(START, before), actions[|actions| - 1]) then 1 else 0
  }

  /** How many calls were told their observation is accepted. */
  function AcceptedBy(actions: seq<Action>): nat {
    if actions == [] then 0
    else
      var before, a := actions[..|actions| - 1], actions[|actions| - 1];
      AcceptedBy(before) + if a.Record? && AnswerTo(before, a).Accepted? then 1 else 0
  }

  function AnswerTo(actions: seq<Action>, a: Action): Answer
    requires a.Record?
  {
    Recorded(Run(START, actions).live, a.row, a.before, a.inside).1
  }

  lemma StepAdmission(s: State, a: Action)
    requires Inv(s)
    ensures var t := Step(s, a);
            && (t.live.admitting <==> s.live.admitting && !(a.Close? && s.phase.Closing?))
            && t.live.events == s.live.events + (if Takes(s, a) then 1 else 0)
            && |t.accepted| == |s.accepted| +
               (if a.Record? && Recorded(s.live, a.row, a.before, a.inside).1.Accepted? then 1 else 0)
  {
  }

  lemma ClosedSnoc(before: seq<Action>, a: Action)
    ensures ClosedBy(before + [a]) <==> ClosedBy(before) || (a.Close? && Run(START, before).phase.Closing?)
  {
    var actions, n := before + [a], |before|;
    assert actions[..n] == before && actions[n] == a;
    assert forall i :: 0 <= i < n ==> actions[..i] == before[..i] && actions[i] == before[i];
    if i: nat :| ClosedAt(actions, i) {
      if i < n { assert ClosedAt(before, i); }
    }
    if i: nat :| ClosedAt(before, i) {
      assert ClosedAt(actions, i);
    } else if a.Close? && Run(START, before).phase.Closing? {
      assert ClosedAt(actions, n);
    }
  }

  lemma {:induction false} AdmissionTracked(actions: seq<Action>)
    ensures var s := Run(START, actions);
            && (s.live.admitting <==> !ClosedBy(actions))
            && s.live.events == TakenBy(actions) && |s.accepted| == AcceptedBy(actions)
  {
    if actions != [] {
      var before, a := actions[..|actions| - 1], actions[|actions| - 1];
      AdmissionTracked(before);
      RunKeepsInv(before);
      StepAdmission(Run(START, before), a);
      ClosedSnoc(before, a);
      assert actions == before + [a];
    }
  }

  /** What `record` answers, over every run: nothing happens if either look at the clock
      was too late or admission has been closed; otherwise an invalid observation is
      rejected, a valid one is busy exactly when 256 accepted rows wait for the worker,
      and else accepted. */
  lemma AnswerExact(actions: seq<Action>, row: Row, before: bool, inside: bool)
    ensures AcceptedBy(actions) >= TakenBy(actions)
    ensures AnswerTo(actions, Record(row, before, inside)) ==
            if !before || !inside || ClosedBy(actions) then Ignored
            else if !Valid(row.observation) then Invalid
            else if AcceptedBy(actions) - TakenBy(actions) >= 256 then Busy
            else Accepted
  {
    AdmissionTracked(actions);
    RunKeepsInv(actions);
  }

  // ---- When the worker stops receiving ----

  /** The worker's own receiving ends: at the deadline, or when a write fails. */
  predicate StopsReceiving(s: State, a: Action) {
    a.Deadline? || (a.Receive? && Takes(s, a) && s.live.events < 4096 && !a.works)
  }

  predicate StoppedAt(actions: seq<Action>, i: nat) {
    i < |actions| && StopsReceiving(Run(START, actions[..i]), actions[i])
  }

  lemma StoppedSnoc(before: seq<Action>, a: Action)
    ensures (exists i: nat :: StoppedAt(before + [a], i)) <==>
            (exists i: nat :: StoppedAt(before, i)) || StopsReceiving(Run(START, before), a)
  {
    var actions, n := before + [a], |before|;
    assert actions[..n] == before && actions[n] == a;
    assert forall i :: 0 <= i < n ==> actions[..i] == before[..i] && actions[i] == before[i];
    if i: nat :| StoppedAt(actions, i) {
      if i < n { assert StoppedAt(before, i); }
    }
    if i: nat :| StoppedAt(before, i) {
      assert StoppedAt(actions, i);
    } else if StopsReceiving(Run(START, before), a) {
      assert StoppedAt(actions, n);
    }
  }

  lemma StepReceives(s: State, a: Action)
    ensures Step(s, a).phase.Receiving? <==> s.phase.Receiving? && !StopsReceiving(s, a)
  {
  }

  /** Over every run the worker receives until the first deadline or failed write, and
      from then on only closes, drains and writes the footer. */
  lemma {:induction false} ReceivingExact(actions: seq<Action>)
    ensures Run(START, actions).phase.Receiving? <==> !exists i: nat :: StoppedAt(actions, i)
  {
    if actions != [] {
      var before, a := actions[..|actions| - 1], actions[|actions| - 1];
      ReceivingExact(before);
      StepReceives(Run(START, before), a);
      StoppedSnoc(before, a);
      assert actions == before + [a];
    }
  }
}
