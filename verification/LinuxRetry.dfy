/** The retry budget of the Linux network monitor (linux_network.rs). Starting a
    monitor and sampling it are choices of the environment. */
module LinuxRetry {
  import opened Basics

  const RETRY_DELAY: nat := 30_000
  const MAX_START_ATTEMPTS: nat := 3

  datatype State =
    | Ready(attempts: nat)
    | Failed(attempts: nat, retryAt: Option<int>)

  /** What the running monitor answers, and whether a start would succeed. */
  datatype MonitorSample = Published | Quiet | Broken

  datatype Answer = Rates | Held | Failing

  /** One call of `sample`. */
  datatype Call = Call(now: int, monitor: MonitorSample, starts: bool)

  function AfterAttempt(attempts: nat, now: int): State {
    var n := if attempts < MAX_START_ATTEMPTS then attempts else MAX_START_ATTEMPTS;
    Failed(n, if n < MAX_START_ATTEMPTS then Some(now + RETRY_DELAY) else None)
  }

  function Created(started: bool, now: int): State {
    if started then Ready(1) else AfterAttempt(1, now)
  }

  predicate RetryDue(s: State, now: int) {
    s.Failed? && s.retryAt.Some? && now >= s.retryAt.value
  }

  /** The new state, the answer, and whether a start was attempted. */
  function Sampled(s: State, c: Call): (State, Answer, bool) {
    if s.Ready? && c.monitor.Published? then (Ready(0), Rates, false)
    else if s.Ready? && c.monitor.Quiet? then (s, Held, false)
    else
      var f := if s.Ready? then AfterAttempt(if s.attempts == 0 then 1 else s.attempts, c.now) else s;
      if !RetryDue(f, c.now) then (f, Failing, false)
      else if c.starts then (Ready(f.attempts + 1), Held, true)
      else (AfterAttempt(f.attempts + 1, c.now), Failing, true)
  }

  class Monitor {
    var state: State

    constructor (started: bool, now: int)
      ensures state == Created(started, now)
    {
      state := if started then Ready(1) else AfterAttempt(1, now);
    }

    method RetryFailed(now: int, starts: bool) returns (answer: Answer, ghost attempted: bool)
      requires state.Failed?
      modifies this
      ensures (state, answer, attempted) ==
              if !RetryDue(old(state), now) then (old(state), Failing, false)
              else if starts then (Ready(old(state).attempts + 1), Held, true)
              else (AfterAttempt(old(state).attempts + 1, now), Failing, true)
    {
      if !RetryDue(state, now) {
        return Failing, false;
      }
      var attempt := state.attempts + 1;
      if starts {
        state := Ready(attempt);
        return Held, true;
      }
      state := AfterAttempt(attempt, now);
      return Failing, true;
    }

    method Sample(c: Call) returns (answer: Answer, ghost attempted: bool)
      modifies this
      ensures (state, answer, attempted) == Sampled(old(state), c)
    {
      if state.Ready? {
        match c.monitor {
          case Published =>
            state := Ready(0);
            return Rates, false;
          case Quiet =>
            return Held, false;
          case Broken =>
            state := AfterAttempt(if state.attempts == 0 then 1 else state.attempts, c.now);
        }
      }
      answer, attempted := RetryFailed(c.now, c.starts);
    }
  }

  // ---- Over whole runs ----

  function After(s: State, calls: seq<Call>): State {
    if calls == [] then s else Sampled(After(s, calls[..|calls| - 1]), calls[|calls| - 1]).0
  }

  /** Start attempts since the monitor last published rates, counting `base` before
      the first call. */
  function StartsSincePublished(s: State, base: nat, calls: seq<Call>): nat {
    if calls == [] then base
    else
      var before := StartsSincePublished(s, base, calls[..|calls| - 1]);
      var (_, answer, attempted) := Sampled(After(s, calls[..|calls| - 1]), calls[|calls| - 1]);
      if answer.Rates? then 0 else before + (if attempted then 1 else 0)
  }

  predicate Budgeted(s: State, starts: nat) {
    && starts <= s.attempts <= MAX_START_ATTEMPTS
    && (s.Failed? ==> s.attempts > 0 && (s.retryAt.None? <==> s.attempts == MAX_START_ATTEMPTS))
  }

  /** Between two published samples the monitor is started at most three times; from
      creation the first start counts as one of them. */
  lemma {:induction false} StartsAreBudgeted(started: bool, now: int, calls: seq<Call>)
    ensures var s := Created(started, now);
            Budgeted(After(s, calls), StartsSincePublished(s, 1, calls)) && StartsSincePublished(s, 1, calls) <= MAX_START_ATTEMPTS
  {
    if calls != [] {
      StartsAreBudgeted(started, now, calls[..|calls| - 1]);
    }
  }

  predicate Exhausted(s: State) { s.Failed? && s.retryAt.None? }

  /** Once the budget is spent it stays spent: every later call fails without a start. */
  lemma {:induction false} ExhaustionIsFinal(s: State, calls: seq<Call>)
    requires Exhausted(s)
    ensures After(s, calls) == s && StartsSincePublished(s, 0, calls) == 0
  {
    if calls != [] {
      ExhaustionIsFinal(s, calls[..|calls| - 1]);
    }
  }

  /** After a failure at time `since`, no start happens for at least the retry delay. */
  lemma {:induction false} StartsAreSpaced(attempts: nat, since: int, calls: seq<Call>)
    requires forall c :: c in calls ==> since <= c.now < since + RETRY_DELAY
    ensures After(AfterAttempt(attempts, since), calls) == AfterAttempt(attempts, since)
    ensures StartsSincePublished(AfterAttempt(attempts, since), 0, calls) == 0
  {
    if calls != [] {
      StartsAreSpaced(attempts, since, calls[..|calls| - 1]);
    }
  }

  // ---- Exactly when a start is attempted ----

  /** What a call does to the monitor. */
  datatype Happening = Nothing | RatesCame | Broke | StartWorked | StartFailed

  function Happened(s: State, c: Call): Happening {
    var (_, answer, attempted) := Sampled(s, c);
    if attempted then if c.starts then StartWorked else StartFailed
    else if answer.Rates? then RatesCame
    else if s.Ready? && c.monitor.Broken? then Broke
    else Nothing
  }

  /** When the monitor last failed without having been started again since. */
  function DownSince(started: bool, now: int, calls: seq<Call>): Option<int> {
    if calls == [] then if started then None else Some(now)
    else
      var before, c := calls[..|calls| - 1], calls[|calls| - 1];
      match Happened(After(Created(started, now), before), c)
      case Broke => Some(c.now)
      case StartFailed => Some(c.now)
      case StartWorked => None
      case _ => DownSince(started, now, before)
  }

  /** How much of the budget is used up: rates give all of it back, a failure right after
      them takes one, and so does every start. */
  function Spent(started: bool, now: int, calls: seq<Call>): nat {
    if calls == [] then 1
    else
      var before, c := calls[..|calls| - 1], calls[|calls| - 1];
      var sofar := Spent(started, now, before);
      match Happened(After(Created(started, now), before), c)
      case RatesCame => 0
      case Broke => if sofar == 0 then 1 else sofar
      case StartWorked => sofar + 1
      case StartFailed => sofar + 1
      case Nothing => sofar
  }

  /** The state is what the run's budget and its last failure say. */
  predicate Tracks(s: State, spent: nat, down: Option<int>) {
    && spent <= MAX_START_ATTEMPTS && s.attempts == spent
    && (s.Ready? <==> down.None?)
    && (s.Failed? ==> spent > 0 && s.retryAt == if spent < MAX_START_ATTEMPTS then Some(down.value + RETRY_DELAY) else None)
  }

  lemma CallTracked(s: State, spent: nat, down: Option<int>, c: Call)
    requires Tracks(s, spent, down)
    ensures var t := Sampled(s, c).0;
            match Happened(s, c)
            case RatesCame => Tracks(t, 0, down)
            case Broke => Tracks(t, if spent == 0 then 1 else spent, Some(c.now))
            case StartWorked => Tracks(t, spent + 1, None)
            case StartFailed => Tracks(t, spent + 1, Some(c.now))
            case Nothing => Tracks(t, spent, down)
  {
  }

  lemma {:induction false} RunTracked(started: bool, now: int, calls: seq<Call>)
    ensures Tracks(After(Created(started, now), calls), Spent(started, now, calls), DownSince(started, now, calls))
  {
    if calls != [] {
      var s, before := Created(started, now), calls[..|calls| - 1];
      RunTracked(started, now, before);
      CallTracked(After(s, before), Spent(started, now, before), DownSince(started, now, before), calls[|calls| - 1]);
    }
  }

  /** Over every run, a call attempts a start exactly when the monitor has been down for
      the retry delay and the budget of three is not used up; it hands out rates exactly
      when a running monitor has some, holds while a running one has none or was just
      started, and fails otherwise. */
  lemma CallExact(started: bool, now: int, calls: seq<Call>, c: Call)
    ensures var down, spent := DownSince(started, now, calls), Spent(started, now, calls);
            var (_, answer, attempted) := Sampled(After(Created(started, now), calls), c);
            && (attempted <==> down.Some? && c.now >= down.value + 30_000 && spent < 3)
            && (answer.Rates? <==> down.None? && c.monitor.Published?)
            && (answer.Held? <==> (down.None? && c.monitor.Quiet?) || (attempted && c.starts))
  {
    RunTracked(started, now, calls);
  }
}
