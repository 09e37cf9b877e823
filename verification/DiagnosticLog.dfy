/** The bounded diagnostics log (persistence.rs): one live file and one backup, a
    breaker that stops writing after a storage failure, and the coordinator's own
    suppression while the storage root is down. */
module DiagnosticLog {
  import opened Basics
  import opened PersistenceCoordinator

  type Bytes = string

  /** A fault and whether its operation is one that opens the breaker. */
  datatype Fault = Fault(failure: Failure, opensBreaker: bool)

  datatype RotateFault = NothingMoved(fault: Fault) | MovedAnyway(fault: Fault)

  /** Everything the file system may do wrong during one call; an append that fails
      may leave the first `kept` bytes of the event behind. */
  datatype Faults = Faults(
    root: Option<Fault>,
    unserializable: Option<Failure>,
    length: Option<Fault>,
    rotate: Option<RotateFault>,
    append: Option<(Fault, nat)>)

  datatype Policy = Policy(maxFileBytes: nat, maxEventBytes: nat)

  datatype Outcome = Written | Suppressed | FailedWith(failure: Failure)

  datatype LogState = LogState(live: Option<Bytes>, backup: Option<Bytes>, breaker: bool, suppressed: nat)

  function Size(file: Option<Bytes>): nat { if file.Some? then |file.value| else 0 }

  function Text(file: Option<Bytes>): Bytes { if file.Some? then file.value else [] }

  function Limit(p: Policy): nat { if p.maxEventBytes < p.maxFileBytes then p.maxEventBytes else p.maxFileBytes }

  function Line(event: Bytes): Bytes { event + ['\n'] }

  function Break(s: LogState, f: Fault): (LogState, Outcome) {
    (s.(breaker := s.breaker || f.opensBreaker), FailedWith(f.failure))
  }

  function Appended(s: LogState, line: Bytes, x: Faults): (LogState, Outcome) {
    if x.append.None? then (s.(live := Some(Text(s.live) + line)), Written)
    else
      var (fault, kept) := x.append.value;
      var n := if kept < |line| then kept else |line|;
      Break(s.(live := if s.live.None? && n == 0 then None else Some(Text(s.live) + line[..n])), fault)
  }

  /** `UserStorageCoordinator::record_diagnostic`. */
  function Recorded(s: LogState, p: Policy, event: Bytes, x: Faults): (LogState, Outcome) {
    var line := Line(event);
    if s.breaker then (s.(suppressed := s.suppressed + 1), Suppressed)
    else if x.root.Some? then Break(s, x.root.value)
    else if x.unserializable.Some? then (s, FailedWith(x.unserializable.value))
    else if |line| > Limit(p) then (s, FailedWith(Failure(false, false, "diagnostic event too large")))
    else if x.length.Some? then Break(s, x.length.value)
    else if s.live.Some? && Size(s.live) + |line| > p.maxFileBytes then
      var moved := s.(live := None, backup := s.live);
      if x.rotate.None? then Appended(moved, line, x)
      else if x.rotate.value.NothingMoved? then Break(s, x.rotate.value.fault)
      else Break(moved, x.rotate.value.fault)
    else Appended(s, line, x)
  }

  class Log {
    const policy: Policy
    var live: Option<Bytes>
    var backup: Option<Bytes>
    var breaker: bool
    var suppressed: nat

    ghost function State(): LogState
      reads this
    {
      LogState(live, backup, breaker, suppressed)
    }

    constructor (policy: Policy, live: Option<Bytes>, backup: Option<Bytes>)
      ensures this.policy == policy && State() == LogState(live, backup, false, 0)
    {
      this.policy, this.live, this.backup := policy, live, backup;
      breaker, suppressed := false, 0;
    }

    method Fail(f: Fault) returns (outcome: Outcome)
      modifies this`breaker
      ensures (State(), outcome) == Break(old(State()), f)
    {
      breaker := breaker || f.opensBreaker;
      outcome := FailedWith(f.failure);
    }

    method Append(line: Bytes, x: Faults) returns (outcome: Outcome)
      modifies this
      ensures (State(), outcome) == Appended(old(State()), line, x)
    {
      if x.append.None? {
        live := Some(Text(live) + line);
        return Written;
      }
      var (fault, kept) := x.append.value;
      var n := if kept < |line| then kept else |line|;
      if live.Some? || n > 0 {
        live := Some(Text(live) + line[..n]);
      }
      outcome := Fail(fault);
    }

    method Record(event: Bytes, x: Faults) returns (outcome: Outcome)
      modifies this
      ensures (State(), outcome) == Recorded(old(State()), policy, event, x)
    {
      if breaker {
        suppressed := suppressed + 1;
        return Suppressed;
      }
      var line := Line(event);
      if x.root.Some? {
        outcome := Fail(x.root.value);
        return;
      }
      if x.unserializable.Some? {
        return FailedWith(x.unserializable.value);
      }
      if |line| > Limit(policy) {
        return FailedWith(Failure(false, false, "diagnostic event too large"));
      }
      if x.length.Some? {
        outcome := Fail(x.length.value);
        return;
      }
      if live.Some? && Size(live) + |line| > policy.maxFileBytes {
        if x.rotate.Some? && x.rotate.value.NothingMoved? {
          outcome := Fail(x.rotate.value.fault);
          return;
        }
        backup := live;
        live := None;
        if x.rotate.Some? {
          outcome := Fail(x.rotate.value.fault);
          return;
        }
      }
      outcome := Append(line, x);
    }

    method Retry()
      modifies this`breaker
      ensures !breaker
    {
      breaker := false;
    }
  }

  // ---- Over whole runs, through the coordinator ----

  datatype System = System(coordinator: CoordinatorState, log: LogState)

  /** Coordinator calls: diagnostics, their retry, and everything else. */
  datatype Call =
    | Diagnostic(event: Bytes, now: nat, root: Option<Failure>, faults: Faults, rootAfter: Option<Failure>)
    | Retry
    | Other(operation: Operation)

  function ResultOf(outcome: Outcome): StorageResult {
    match outcome
    case Written => Stored(Durable, true)
    case Suppressed => Skipped
    case FailedWith(f) => NotStored(f)
  }

  /** `RuntimePersistenceCoordinator::record_diagnostic`. */
  function Diagnosed(s: System, p: Policy, call: Call): (System, Outcome)
    requires call.Diagnostic?
  {
    var r := Revalidated(s.coordinator, Diagnostics, call.now, call.root);
    if r.rootFailure.Some? then
      if r.reported then (s.(coordinator := r.(suppressed := r.suppressed + 1)), Suppressed)
      else (s.(coordinator := r.(reported := true)), FailedWith(r.rootFailure.value))
    else
      var (log, outcome) := Recorded(s.log, p, call.event, call.faults);
      (System(Performed(s.coordinator,
                        Operation(Diagnostics, call.now, call.root, ResultOf(outcome), call.rootAfter)), log),
       outcome)
  }

  function AfterCall(s: System, p: Policy, call: Call): System {
    match call
    case Diagnostic(_, _, _, _, _) => Diagnosed(s, p, call).0
    case Retry => if s.coordinator.rootFailure.None? then s.(log := s.log.(breaker := false)) else s
    case Other(op) => s.(coordinator := Performed(s.coordinator, op))
  }

  function AfterCalls(s: System, p: Policy, calls: seq<Call>): System {
    if calls == [] then s
    else AfterCall(AfterCalls(s, p, calls[..|calls| - 1]), p, calls[|calls| - 1])
  }

  /** The bytes one `Recorded` call added to the log files. */
  function AddedTo(s: LogState, p: Policy, event: Bytes, x: Faults): Bytes {
    var line := Line(event);
    if s.breaker || x.root.Some? || x.unserializable.Some? || |line| > Limit(p) || x.length.Some?
       || (Rotates(s, p, line) && x.rotate.Some?) then []
    else if x.append.None? then line
    else line[..if x.append.value.1 < |line| then x.append.value.1 else |line|]
  }

  function AddedBy(s: System, p: Policy, call: Call): Bytes {
    if call.Diagnostic? && Revalidated(s.coordinator, Diagnostics, call.now, call.root).rootFailure.None?
    then AddedTo(s.log, p, call.event, call.faults)
    else []
  }

  predicate Rotates(s: LogState, p: Policy, line: Bytes) {
    s.live.Some? && Size(s.live) + |line| > p.maxFileBytes
  }

  /** Everything ever written to the log: what it held at the start, then the bytes
      of each call. */
  function Stream(s: System, p: Policy, calls: seq<Call>): Bytes {
    if calls == [] then Text(s.log.backup) + Text(s.log.live)
    else
      var before := calls[..|calls| - 1];
      Stream(s, p, before) + AddedBy(AfterCalls(s, p, before), p, calls[|calls| - 1])
  }

  predicate Suffix(a: Bytes, b: Bytes) { |a| <= |b| && b[|b| - |a|..] == a }

  predicate InBounds(s: LogState, p: Policy) {
    Size(s.live) <= p.maxFileBytes && Size(s.backup) <= p.maxFileBytes
  }

  lemma SuffixExtends(a: Bytes, b: Bytes, x: Bytes)
    requires Suffix(a, b)
    ensures Suffix(a + x, b + x)
  {
  }

  lemma SuffixDrops(a: Bytes, c: Bytes, b: Bytes)
    requires Suffix(a + c, b)
    ensures Suffix(c, b)
  {
  }

  lemma AppendKeepsLog(s: LogState, line: Bytes, x: Faults)
    ensures var t := Appended(s, line, x).0;
            var added := if x.append.None? then line
                         else line[..if x.append.value.1 < |line| then x.append.value.1 else |line|];
            t.backup == s.backup && Text(t.live) == Text(s.live) + added
  {
  }

  /** One call either keeps the backup and extends the live text, or moves the live
      text to the backup and starts a new live file. */
  lemma RecordShape(s: LogState, p: Policy, event: Bytes, x: Faults)
    requires InBounds(s, p)
    ensures var t := Recorded(s, p, event, x).0; var added := AddedTo(s, p, event, x);
            && InBounds(t, p)
            && ((t.backup == s.backup && Text(t.live) == Text(s.live) + added)
                || (t.backup == s.live && Text(t.live) == added))
  {
    var moved := s.(live := None, backup := s.live);
    AppendKeepsLog(s, Line(event), x);
    AppendKeepsLog(moved, Line(event), x);
    assert Text(s.live) + [] == Text(s.live);
  }

  lemma RecordKeepsLog(s: LogState, p: Policy, event: Bytes, x: Faults, stream: Bytes)
    requires InBounds(s, p) && Suffix(Text(s.backup) + Text(s.live), stream)
    ensures var t := Recorded(s, p, event, x).0;
            InBounds(t, p) && Suffix(Text(t.backup) + Text(t.live), stream + AddedTo(s, p, event, x))
  {
    var t := Recorded(s, p, event, x).0;
    var added := AddedTo(s, p, event, x);
    RecordShape(s, p, event, x);
    if t.backup == s.backup && Text(t.live) == Text(s.live) + added {
      SuffixExtends(Text(s.backup) + Text(s.live), stream, added);
      assert (Text(s.backup) + Text(s.live)) + added == Text(t.backup) + Text(t.live);
    } else {
      SuffixDrops(Text(s.backup), Text(s.live), stream);
      SuffixExtends(Text(s.live), stream, added);
    }
  }

  lemma CallKeepsLog(s: System, p: Policy, call: Call, stream: Bytes)
    requires InBounds(s.log, p) && Suffix(Text(s.log.backup) + Text(s.log.live), stream)
    ensures var t := AfterCall(s, p, call);
            InBounds(t.log, p) && Suffix(Text(t.log.backup) + Text(t.log.live), stream + AddedBy(s, p, call))
  {
    assert stream + [] == stream;
    if call.Diagnostic? {
      RecordKeepsLog(s.log, p, call.event, call.faults, stream);
    }
  }

  /** From an in-bounds start, through any faults, partial writes and outages: both
      files stay within the size limit, and the backup followed by the live file is
      the tail of everything written. */
  lemma {:induction false} LogIsBoundedTail(s: System, p: Policy, calls: seq<Call>)
    requires InBounds(s.log, p)
    ensures var t := AfterCalls(s, p, calls);
            InBounds(t.log, p) && Suffix(Text(t.log.backup) + Text(t.log.live), Stream(s, p, calls))
  {
    if calls != [] {
      var before := calls[..|calls| - 1];
      LogIsBoundedTail(s, p, before);
      CallKeepsLog(AfterCalls(s, p, before), p, calls[|calls| - 1], Stream(s, p, before));
    }
  }

  // ---- Which outcome a call has ----

  /** The storage fault the call runs into, taking root, length, rotation and append in
      turn; an event that cannot be serialized or is too large meets only the first. */
  function MetFault(s: LogState, p: Policy, event: Bytes, x: Faults): Option<Fault> {
    if s.breaker then None
    else if x.root.Some? then x.root
    else if x.unserializable.Some? || |event| + 1 > p.maxEventBytes || |event| + 1 > p.maxFileBytes then None
    else if x.length.Some? then x.length
    else if Size(s.live) + |event| + 1 > p.maxFileBytes && s.live.Some? && x.rotate.Some? then Some(x.rotate.value.fault)
    else if x.append.Some? then Some(x.append.value.0)
    else None
  }

  predicate Recordable(p: Policy, event: Bytes, x: Faults) {
    x.unserializable.None? && |event| + 1 <= p.maxEventBytes && |event| + 1 <= p.maxFileBytes
  }

  /** One recording: suppressed exactly while the breaker is open; written exactly when no
      fault is met and the event is serializable and small enough, and then the live file
      ends with the event and a newline; a fault that opens the breaker leaves it open. */
  lemma RecordingExact(s: LogState, p: Policy, event: Bytes, x: Faults)
    ensures var (t, outcome) := Recorded(s, p, event, x);
            && (outcome.Suppressed? <==> s.breaker)
            && (outcome.Written? <==> !s.breaker && Recordable(p, event, x) && MetFault(s, p, event, x).None?)
            && (outcome.Written? ==>
                  if s.live.Some? && Size(s.live) + |event| + 1 > p.maxFileBytes
                  then t.live == Some(event + ['\n']) && t.backup == s.live
                  else t.live == Some(Text(s.live) + event + ['\n']) && t.backup == s.backup)
            && (outcome.FailedWith? && MetFault(s, p, event, x).Some? ==>
                  outcome.failure == MetFault(s, p, event, x).value.failure)
            && (t.breaker <==> s.breaker || (MetFault(s, p, event, x).Some? && MetFault(s, p, event, x).value.opensBreaker))
  {
    assert Text(None) + Line(event) == event + ['\n'];
    assert Text(s.live) + Line(event) == Text(s.live) + event + ['\n'];
  }

  /** The call meets, with the root up, a fault that opens the breaker. */
  predicate Opens(s: System, p: Policy, call: Call) {
    && call.Diagnostic? && Revalidated(s.coordinator, Diagnostics, call.now, call.root).rootFailure.None?
    && MetFault(s.log, p, call.event, call.faults).Some? && MetFault(s.log, p, call.event, call.faults).value.opensBreaker
  }

  predicate Recloses(s: System, call: Call) { call.Retry? && s.coordinator.rootFailure.None? }

  /** For each call of the run, whether `f` holds of it and the state it met. */
  function Flags(s: System, p: Policy, calls: seq<Call>, f: (System, Call) -> bool): (r: seq<bool>)
    ensures |r| == |calls|
  {
    if calls == [] then []
    else
      var before := calls[..|calls| - 1];
      Flags(s, p, before, f) + [f(AfterCalls(s, p, before), calls[|calls| - 1])]
  }

  /** Some call met a fault that opens the breaker, and no retry with the root up since. */
  ghost predicate OpenSince(s: System, p: Policy, calls: seq<Call>) {
    Outstanding(Flags(s, p, calls, (t, c) => Opens(t, p, c)), Flags(s, p, calls, Recloses))
  }

  lemma CallBreaks(s: System, p: Policy, call: Call)
    ensures AfterCall(s, p, call).log.breaker <==> Opens(s, p, call) || (s.log.breaker && !Recloses(s, call))
  {
    if call.Diagnostic? { RecordingExact(s.log, p, call.event, call.faults); }
  }

  /** Over every run from a closed breaker: it is open exactly when some call met a fault
      that opens it and no retry with the root up came after. */
  lemma {:induction false} BreakerExact(s: System, p: Policy, calls: seq<Call>)
    requires !s.log.breaker
    ensures AfterCalls(s, p, calls).log.breaker <==> OpenSince(s, p, calls)
  {
    if calls != [] {
      var before, call := calls[..|calls| - 1], calls[|calls| - 1];
      BreakerExact(s, p, before);
      var t := AfterCalls(s, p, before);
      CallBreaks(t, p, call);
      OutstandingStep(Flags(s, p, before, (t, c) => Opens(t, p, c)), Flags(s, p, before, Recloses), Opens(t, p, call), Recloses(t, call));
    }
  }

  /** What a call adds to the stream: the event and a newline when it answers written, a
      beginning of that when the append failed, and otherwise nothing. */
  lemma WrittenIsStreamed(s: System, p: Policy, call: Call)
    requires call.Diagnostic?
    ensures var added, outcome := AddedBy(s, p, call), Diagnosed(s, p, call).1;
            && (outcome.Written? ==> added == call.event + ['\n'])
            && (outcome.Suppressed? ==> added == [])
            && added <= call.event + ['\n']
  {
  }

  // ---- Diagnostics during an outage ----

  /** The call finds the root down. */
  predicate FindsDown(s: System, call: Call) {
    call.Diagnostic? && Revalidated(s.coordinator, Diagnostics, call.now, call.root).rootFailure.Some?
  }

  /** The call looks at the root first and finds it up. */
  predicate FindsUp(s: System, call: Call) {
    match call
    case Diagnostic(_, now, root, _, _) => Revalidated(s.coordinator, Diagnostics, now, root).rootFailure.None?
    case Other(op) => Revalidated(s.coordinator, op.component, op.now, op.root).rootFailure.None?
    case Retry => false
  }

  /** Some diagnostic found the root down, and no call since has found it up. */
  ghost predicate DownSince(s: System, p: Policy, calls: seq<Call>) {
    Outstanding(Flags(s, p, calls, FindsDown), Flags(s, p, calls, FindsUp))
  }

  predicate QuietWhenUp(s: System) { s.coordinator.rootFailure.None? ==> !s.coordinator.reported }

  lemma CallReports(s: System, p: Policy, call: Call)
    requires QuietWhenUp(s)
    ensures QuietWhenUp(AfterCall(s, p, call))
    ensures var t := AfterCall(s, p, call);
            t.coordinator.reported <==> FindsDown(s, call) || (s.coordinator.reported && !FindsUp(s, call))
  {
  }

  lemma {:induction false} ReportedExact(s: System, p: Policy, calls: seq<Call>)
    requires !s.coordinator.reported
    ensures QuietWhenUp(AfterCalls(s, p, calls))
    ensures AfterCalls(s, p, calls).coordinator.reported <==> DownSince(s, p, calls)
  {
    if calls != [] {
      var before, call := calls[..|calls| - 1], calls[|calls| - 1];
      ReportedExact(s, p, before);
      var t := AfterCalls(s, p, before);
      CallReports(t, p, call);
      OutstandingStep(Flags(s, p, before, FindsDown), Flags(s, p, before, FindsUp), FindsDown(t, call), FindsUp(t, call));
    }
  }

  /** While the root is down a diagnostic is answered with the root's failure the first
      time in the outage, and suppressed every time after; the log is not touched. */
  lemma OutageReportedOnce(s: System, p: Policy, calls: seq<Call>, call: Call)
    requires !s.coordinator.reported && FindsDown(AfterCalls(s, p, calls), call)
    ensures var t := AfterCalls(s, p, calls);
            var (u, outcome) := Diagnosed(t, p, call);
            && u.log == t.log
            && (if DownSince(s, p, calls) then outcome.Suppressed?
                else outcome == FailedWith(u.coordinator.rootFailure.value))
  {
    ReportedExact(s, p, calls);
    StillReported(AfterCalls(s, p, calls), call);
  }

  lemma StillReported(s: System, call: Call)
    requires QuietWhenUp(s) && FindsDown(s, call)
    ensures Revalidated(s.coordinator, Diagnostics, call.now, call.root).reported == s.coordinator.reported
  {
  }

  datatype Tally = Tally(written: nat, failed: nat, suppressed: nat)

  function Tallied(s: System, p: Policy, calls: seq<Call>): Tally {
    if calls == [] then Tally(0, 0, 0)
    else
      var before, call := calls[..|calls| - 1], calls[|calls| - 1];
      var t := Tallied(s, p, before);
      if !call.Diagnostic? then t
      else match Diagnosed(AfterCalls(s, p, before), p, call).1
        case Written => t.(written := t.written + 1)
        case Suppressed => t.(suppressed := t.suppressed + 1)
        case FailedWith(_) => t.(failed := t.failed + 1)
  }

  lemma OneCallCounted(s: System, p: Policy, call: Call)
    ensures var t := AfterCall(s, p, call);
            t.log.suppressed + t.coordinator.suppressed ==
            s.log.suppressed + s.coordinator.suppressed +
            if call.Diagnostic? && Diagnosed(s, p, call).1.Suppressed? then 1 else 0
  {
  }

  /** The suppressed count that `health` reports is exactly the number of calls that
      answered "suppressed"; no other call moves either counter. */
  lemma {:induction false} SuppressedCountIsExact(s: System, p: Policy, calls: seq<Call>)
    ensures var t := AfterCalls(s, p, calls);
            t.log.suppressed + t.coordinator.suppressed ==
            s.log.suppressed + s.coordinator.suppressed + Tallied(s, p, calls).suppressed
  {
    if calls != [] {
      SuppressedCountIsExact(s, p, calls[..|calls| - 1]);
      OneCallCounted(AfterCalls(s, p, calls[..|calls| - 1]), p, calls[|calls| - 1]);
    }
  }

  /** After a storage failure that opens the breaker, nothing is written until a
      retry finds the root up. */
  lemma {:induction false} BreakerHolds(s: System, p: Policy, calls: seq<Call>)
    requires s.log.breaker
    requires forall i :: 0 <= i < |calls| && calls[i].Retry? ==>
               AfterCalls(s, p, calls[..i]).coordinator.rootFailure.Some?
    ensures var t := AfterCalls(s, p, calls);
            t.log.breaker && t.log.live == s.log.live && t.log.backup == s.log.backup
    ensures Tallied(s, p, calls).written == 0
  {
    if calls != [] {
      var before := calls[..|calls| - 1];
      assert forall i :: 0 <= i < |before| ==> before[..i] == calls[..i] && before[i] == calls[i];
      BreakerHolds(s, p, before);
      assert before == calls[..|calls| - 1];
    }
  }

  /** What a diagnostic's answer leaves in the reported health when its root check
      passes: Healthy and durable as of now if it was written, no change beyond the
      recovery if it was suppressed, and Degraded with that failure if it failed. */
  lemma AnswerShowsInHealth(s: System, p: Policy, call: Call)
    requires call.Diagnostic? && call.root.None? && Coherent(s.coordinator)
    ensures var (t, outcome) := Diagnosed(s, p, call);
            var up := if s.coordinator.rootFailure.Some? then Recovered(s.coordinator, call.now) else s.coordinator;
            var h := t.coordinator.components.At(Diagnostics);
            match outcome
            case Written => h == ComponentHealth(Healthy, Durable, Some(call.now), None) && t.coordinator.rootFailure.None?
            case Suppressed => t.coordinator == up
            case FailedWith(f) =>
              !f.aboutRoot && call.rootAfter.None? ==>
                h == ComponentHealth(Degraded, SessionOnly, up.components.At(Diagnostics).lastSuccess, Some((f, call.now)))
  {
  }
}
