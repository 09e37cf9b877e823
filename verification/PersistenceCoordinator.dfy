/** The current-user persistence coordinator (persistence.rs): per-component
    health, masked while the storage root fails and restored once it verifies
    again. Root checks and storage results are inputs. */
module PersistenceCoordinator {
  import opened Basics

  datatype Component = Settings | WarmCache | Diagnostics
  datatype HealthState = Healthy | Degraded | Unavailable
  datatype Durability = NotApplicable | Durable | SessionOnly
  datatype Permission = Verified | Invalid | Unverifiable

  /** A storage failure: `aboutRoot` when it names the root directory and a
      create or permission step, `unverifiable` when its code is
      "verification unavailable". */
  datatype Failure = Failure(aboutRoot: bool, unverifiable: bool, summary: string)

  datatype ComponentHealth = ComponentHealth(
    state: HealthState,
    durability: Durability,
    lastSuccess: Option<nat>,
    failure: Option<(Failure, nat)>)

  /** One value per component: the source's maps always hold all three. */
  datatype PerComponent<T> = PerComponent(settings: T, cache: T, diagnostics: T) {
    function At(c: Component): T {
      match c
      case Settings => settings
      case WarmCache => cache
      case Diagnostics => diagnostics
    }

    function With(c: Component, value: T): (r: PerComponent<T>)
      ensures forall x :: r.At(x) == if x == c then value else At(x)
    {
      match c
      case Settings => this.(settings := value)
      case WarmCache => this.(cache := value)
      case Diagnostics => this.(diagnostics := value)
    }
  }

  type Components = PerComponent<ComponentHealth>

  const FRESH_COMPONENT := ComponentHealth(Healthy, NotApplicable, None, None)
  const FRESH := PerComponent(FRESH_COMPONENT, FRESH_COMPONENT, FRESH_COMPONENT)

  datatype CoordinatorState = CoordinatorState(
    permission: Permission,
    components: Components,
    rootFailure: Option<Failure>,
    before: Option<Components>,
    attempted: set<Component>,
    revalidates: bool,
    reported: bool,
    suppressed: nat)

  /** What the storage layer did with one operation. `stamped` results set the
      last-success time; `Skipped` is a diagnostic held back by its breaker. */
  datatype StorageResult =
    | Stored(durability: Durability, stamped: bool)
    | NotStored(failure: Failure)
    | Skipped

  /** One coordinator operation with everything the environment decides: the root
      check before it, the storage result, and the root check after a failure. */
  datatype Operation = Operation(
    component: Component,
    now: nat,
    root: Option<Failure>,
    result: StorageResult,
    rootAfter: Option<Failure>)

  // ---- The effect of each step ----

  function Masked(h: ComponentHealth, f: Failure, now: nat): ComponentHealth {
    h.(state := if f.unverifiable then Unavailable else Degraded,
       durability := SessionOnly,
       failure := Some((f, now)))
  }

  function AllMasked(cs: Components, f: Failure, now: nat): Components {
    PerComponent(Masked(cs.settings, f, now), Masked(cs.cache, f, now), Masked(cs.diagnostics, f, now))
  }

  function RootFailed(s: CoordinatorState, f: Failure, now: nat): CoordinatorState {
    s.(before := if s.rootFailure.None? then Some(s.components) else s.before,
       reported := s.rootFailure.Some? && s.reported,
       permission := if f.unverifiable then Unverifiable else Invalid,
       rootFailure := Some(f),
       components := AllMasked(s.components, f, now))
  }

  function Demoted(h: ComponentHealth, f: Failure, now: nat): ComponentHealth {
    h.(state := Degraded, durability := SessionOnly, failure := Some((f, now)))
  }

  function AllDemoted(cs: Components, which: set<Component>, f: Failure, now: nat): Components {
    PerComponent(if Settings in which then Demoted(cs.settings, f, now) else cs.settings,
                 if WarmCache in which then Demoted(cs.cache, f, now) else cs.cache,
                 if Diagnostics in which then Demoted(cs.diagnostics, f, now) else cs.diagnostics)
  }

  function Recovered(s: CoordinatorState, now: nat): CoordinatorState
    requires s.rootFailure.Some?
  {
    var base := if s.before.Some? then s.before.value else s.components;
    s.(permission := Verified,
       rootFailure := None,
       reported := false,
       before := None,
       attempted := {},
       components := AllDemoted(base, s.attempted, s.rootFailure.value, now))
  }

  /** The state `revalidate_root` leaves; it reports an error exactly when the
      root is then down. */
  function Revalidated(s: CoordinatorState, c: Component, now: nat, root: Option<Failure>): CoordinatorState {
    if !s.revalidates then s.(attempted := s.attempted + {c})
    else if root.Some? then
      var down := RootFailed(s, root.value, now);
      down.(attempted := s.attempted + {c})
    else if s.rootFailure.Some? then Recovered(s, now)
    else s
  }

  function Succeeded(s: CoordinatorState, c: Component, d: Durability, last: Option<nat>): CoordinatorState {
    var h := s.components.At(c);
    s.(components := s.components.With(c,
         ComponentHealth(Healthy, d, if last.Some? then last else h.lastSuccess, None)))
  }

  function OperationFailed(s: CoordinatorState, c: Component, f: Failure, now: nat, rootAfter: Option<Failure>)
    : CoordinatorState
  {
    if f.aboutRoot then
      var down := RootFailed(s, f, now);
      down.(attempted := s.attempted + {c})
    else if s.revalidates && rootAfter.Some? then
      var down := RootFailed(s, rootAfter.value, now);
      down.(attempted := s.attempted + {c})
    else
      var h := s.components.At(c);
      s.(components := s.components.With(c,
           ComponentHealth(if s.permission.Unverifiable? then Unavailable else Degraded,
                           SessionOnly, h.lastSuccess, Some((f, now)))))
  }

  /** A whole load, write, remove or diagnostic call. */
  function Performed(s: CoordinatorState, op: Operation): CoordinatorState {
    var r := Revalidated(s, op.component, op.now, op.root);
    if r.rootFailure.Some? then r
    else match op.result
      case Stored(d, stamped) => Succeeded(r, op.component, d, if stamped then Some(op.now) else None)
      case NotStored(f) => OperationFailed(r, op.component, f, op.now, op.rootAfter)
      case Skipped => r
  }

  const OPENED := CoordinatorState(Verified, FRESH, None, None, {}, true, false, 0)

  /** `new`: the first root check may already fail. */
  function Opened(root: Option<Failure>, now: nat): CoordinatorState {
    if root.Some? then RootFailed(OPENED, root.value, now) else OPENED
  }

  /** The coordinator of a user whose root cannot even be resolved. */
  function Unresolved(f: Failure, now: nat): CoordinatorState {
    var h := ComponentHealth(Unavailable, SessionOnly, None, Some((f, now)));
    CoordinatorState(Unverifiable, PerComponent(h, h, h), Some(f), None, {}, false, false, 0)
  }

  // ---- The coordinator as the program updates it ----

  class Coordinator {
    var permission: Permission
    var components: Components
    var rootFailure: Option<Failure>
    var before: Option<Components>
    var attempted: set<Component>
    var revalidates: bool
    var reported: bool
    var suppressed: nat

    ghost function State(): CoordinatorState
      reads this
    {
      CoordinatorState(permission, components, rootFailure, before, attempted, revalidates, reported, suppressed)
    }

    constructor (root: Option<Failure>, now: nat)
      ensures State() == Opened(root, now)
    {
      permission, components, rootFailure, before := Verified, FRESH, None, None;
      attempted, revalidates, reported, suppressed := {}, true, false, 0;
      new;
      if root.Some? {
        RecordRootFailure(root.value, now);
      }
    }

    method RecordRootFailure(f: Failure, now: nat)
      modifies this
      ensures State() == RootFailed(old(State()), f, now)
    {
      if rootFailure.None? {
        before := Some(components);
        reported := false;
      }
      permission := if f.unverifiable then Unverifiable else Invalid;
      rootFailure := Some(f);
      components := components.With(Settings, Masked(components.settings, f, now));
      components := components.With(WarmCache, Masked(components.cache, f, now));
      components := components.With(Diagnostics, Masked(components.diagnostics, f, now));
    }

    method RevalidateRoot(c: Component, now: nat, root: Option<Failure>) returns (error: Option<Failure>)
      requires !revalidates ==> rootFailure.Some?
      modifies this
      ensures State() == Revalidated(old(State()), c, now, root)
      ensures error.Some? == rootFailure.Some?
    {
      if !revalidates {
        attempted := attempted + {c};
        return rootFailure;
      }
      if root.Some? {
        RecordRootFailure(root.value, now);
        attempted := attempted + {c};
        return root;
      }
      if rootFailure.Some? {
        Recover(now);
      }
      return None;
    }

    /** The root is back: the saved health returns, and what was attempted meanwhile
        is demoted. */
    method Recover(now: nat)
      requires rootFailure.Some?
      modifies this
      ensures State() == Recovered(old(State()), now)
    {
      var f := rootFailure.value;
      rootFailure, permission, reported := None, Verified, false;
      if before.Some? {
        components := before.value;
        before := None;
      }
      ghost var base := components;
      while attempted != {}
        invariant attempted <= old(attempted)
        invariant components == AllDemoted(base, old(attempted) - attempted, f, now)
        invariant rootFailure.None? && permission.Verified? && !reported && before.None?
        invariant revalidates == old(revalidates) && suppressed == old(suppressed)
        decreases attempted
      {
        var x :| x in attempted;
        components := components.With(x, Demoted(components.At(x), f, now));
        attempted := attempted - {x};
      }
    }

    method RecordSuccess(c: Component, d: Durability, last: Option<nat>)
      modifies this
      ensures State() == Succeeded(old(State()), c, d, last)
    {
      var h := components.At(c);
      components := components.With(c,
        ComponentHealth(Healthy, d, if last.Some? then last else h.lastSuccess, None));
    }

    method RecordOperationFailure(c: Component, f: Failure, now: nat, rootAfter: Option<Failure>)
      modifies this
      ensures State() == OperationFailed(old(State()), c, f, now, rootAfter)
    {
      if f.aboutRoot {
        RecordRootFailure(f, now);
        attempted := attempted + {c};
        return;
      }
      if revalidates && rootAfter.Some? {
        RecordRootFailure(rootAfter.value, now);
        attempted := attempted + {c};
        return;
      }
      components := components.With(c,
        ComponentHealth(if permission.Unverifiable? then Unavailable else Degraded,
                        SessionOnly, components.At(c).lastSuccess, Some((f, now))));
    }

    /** `load_json`, `write_json`, `remove` and the recording half of
        `record_diagnostic`, which differ only in the storage call they make. */
    method Perform(op: Operation) returns (ok: bool)
      requires !revalidates ==> rootFailure.Some?
      modifies this
      ensures State() == Performed(old(State()), op)
      ensures ok == (Revalidated(old(State()), op.component, op.now, op.root).rootFailure.None? && op.result.Stored?)
    {
      var error := RevalidateRoot(op.component, op.now, op.root);
      if error.Some? {
        return false;
      }
      match op.result {
        case Stored(d, stamped) =>
          RecordSuccess(op.component, d, if stamped then Some(op.now) else None);
        case NotStored(f) =>
          RecordOperationFailure(op.component, f, op.now, op.rootAfter);
        case Skipped =>
      }
      return op.result.Stored?;
    }
  }

  // ---- The reference: each component judged by its own operations alone ----

  datatype Truth = Truth(ok: bool, durability: Durability, lastSuccess: Option<nat>)

  const UNTOUCHED := Truth(true, NotApplicable, None)

  function TruthAfter(t: Truth, c: Component, op: Operation): Truth {
    if op.component != c then t
    else if op.root.Some? || op.result.NotStored? then Truth(false, SessionOnly, t.lastSuccess)
    else if op.result.Skipped? then t
    else Truth(true, op.result.durability, if op.result.stamped then Some(op.now) else t.lastSuccess)
  }

  function TruthOf(ops: seq<Operation>, c: Component): Truth {
    if ops == [] then UNTOUCHED else TruthAfter(TruthOf(ops[..|ops| - 1], c), c, ops[|ops| - 1])
  }

  /** How the latest look at the root failed, if it did. */
  function RootFailure(opening: Option<Failure>, ops: seq<Operation>): Option<Failure> {
    if ops == [] then opening
    else
      var op := ops[|ops| - 1];
      if op.root.Some? then op.root
      else if !op.result.NotStored? then None
      else if op.result.failure.aboutRoot then Some(op.result.failure)
      else op.rootAfter
  }

  function DownState(f: Failure): HealthState { if f.unverifiable then Unavailable else Degraded }

  function After(s: CoordinatorState, ops: seq<Operation>): CoordinatorState {
    if ops == [] then s else Performed(After(s, ops[..|ops| - 1]), ops[|ops| - 1])
  }

  predicate Shows(h: ComponentHealth, t: Truth) {
    && h.state == (if t.ok then Healthy else Degraded)
    && h.durability == t.durability && h.lastSuccess == t.lastSuccess
    && (h.failure.None? <==> t.ok)
  }

  /** How the coordinator stores the truth about one component. */
  predicate Holds(s: CoordinatorState, c: Component, t: Truth) {
    if s.rootFailure.None? then Shows(s.components.At(c), t)
    else
      && s.components.At(c).state == DownState(s.rootFailure.value) && s.components.At(c).durability.SessionOnly?
      && s.components.At(c).failure.Some? && s.components.At(c).lastSuccess == t.lastSuccess
      && s.before.Some?
      && (if c in s.attempted
          then t == Truth(false, SessionOnly, s.before.value.At(c).lastSuccess)
          else Shows(s.before.value.At(c), t))
  }

  predicate Coherent(s: CoordinatorState) {
    && s.revalidates
    && s.permission == (if s.rootFailure.None? then Verified
                        else if s.rootFailure.value.unverifiable then Unverifiable else Invalid)
    && (s.rootFailure.None? ==> s.before.None? && s.attempted == {})
  }

  function Broken(t: Truth): Truth { Truth(false, SessionOnly, t.lastSuccess) }

  lemma MaskingKeepsTruth(s: CoordinatorState, f: Failure, now: nat, who: Component, c: Component, t: Truth)
    requires Coherent(s) && Holds(s, c, t)
    ensures var down := RootFailed(s, f, now).(attempted := s.attempted + {who});
            Coherent(down) && Holds(down, c, if who == c then Broken(t) else t)
  {
  }

  lemma RecoveryKeepsTruth(s: CoordinatorState, now: nat, c: Component, t: Truth)
    requires Coherent(s) && Holds(s, c, t) && s.rootFailure.Some?
    ensures Coherent(Recovered(s, now)) && Holds(Recovered(s, now), c, t)
  {
  }

  lemma RecoversFirst(s: CoordinatorState, op: Operation)
    requires s.revalidates && s.rootFailure.Some? && op.root.None?
    ensures Performed(s, op) == Performed(Recovered(s, op.now), op)
  {
  }

  /** With the root up when the operation starts. */
  lemma StoringKeepsTruth(s: CoordinatorState, op: Operation, c: Component, t: Truth)
    requires Coherent(s) && Holds(s, c, t) && s.rootFailure.None? && op.root.None?
    ensures Coherent(Performed(s, op)) && Holds(Performed(s, op), c, TruthAfter(t, c, op))
    ensures Performed(s, op).rootFailure == RootFailure(None, [op])
  {
    if op.result.NotStored? {
      var f := op.result.failure;
      if f.aboutRoot {
        MaskingKeepsTruth(s, f, op.now, op.component, c, t);
      } else if op.rootAfter.Some? {
        MaskingKeepsTruth(s, op.rootAfter.value, op.now, op.component, c, t);
      }
    }
  }

  lemma OperationKeepsTruth(s: CoordinatorState, op: Operation, c: Component, t: Truth)
    requires Coherent(s) && Holds(s, c, t)
    ensures Coherent(Performed(s, op)) && Holds(Performed(s, op), c, TruthAfter(t, c, op))
    ensures Performed(s, op).rootFailure == RootFailure(None, [op])
  {
    if op.root.Some? {
      MaskingKeepsTruth(s, op.root.value, op.now, op.component, c, t);
    } else if s.rootFailure.Some? {
      RecoveryKeepsTruth(s, op.now, c, t);
      RecoversFirst(s, op);
      StoringKeepsTruth(Recovered(s, op.now), op, c, t);
    } else {
      StoringKeepsTruth(s, op, c, t);
    }
  }

  /** Over every run: a component reads Healthy exactly when the root is up and its
      own latest attempted operation succeeded, Degraded when that failed, and during an
      outage Unavailable or Degraded as the root's failure says; with the root up its
      durability and last success are those of its own operations, and during an outage
      it claims session-only durability and keeps its last success. */
  lemma {:induction false} HealthIsTruthful(opening: Option<Failure>, openedAt: nat, ops: seq<Operation>, c: Component)
    ensures var s := After(Opened(opening, openedAt), ops);
            var t := TruthOf(ops, c);
            && Coherent(s) && Holds(s, c, t)
            && s.rootFailure == RootFailure(opening, ops)
            && s.components.At(c).state ==
               (if s.rootFailure.Some? then DownState(s.rootFailure.value) else if t.ok then Healthy else Degraded)
  {
    if ops != [] {
      var before, op := ops[..|ops| - 1], ops[|ops| - 1];
      HealthIsTruthful(opening, openedAt, before, c);
      OperationKeepsTruth(After(Opened(opening, openedAt), before), op, c, TruthOf(before, c));
    }
  }

  // ---- Which failure a component shows ----

  /** The components asked for in the current outage. */
  function Touched(opening: Option<Failure>, ops: seq<Operation>): set<Component> {
    if ops == [] || RootFailure(opening, ops).None? then {}
    else
      var op := ops[|ops| - 1];
      (if op.root.None? then {} else Touched(opening, ops[..|ops| - 1])) + {op.component}
  }

  /** The failure `c` would show if the root were up: that of its own last operation, or
      of the outage in which it was last asked for, dated by the end of that outage. */
  function OwnFailure(opening: Option<Failure>, ops: seq<Operation>, c: Component): Option<(Failure, nat)> {
    if ops == [] then None
    else
      var before, op := ops[..|ops| - 1], ops[|ops| - 1];
      if op.root.Some? then OwnFailure(opening, before, c)
      else if RootFailure(opening, ops).None? && op.component == c && op.result.Stored? then None
      else if RootFailure(opening, ops).None? && op.component == c && op.result.NotStored? then Some((op.result.failure, op.now))
      else if c in Touched(opening, before) then Some((RootFailure(opening, before).value, op.now))
      else OwnFailure(opening, before, c)
  }

  function LatestLook(openedAt: nat, ops: seq<Operation>): nat { if ops == [] then openedAt else ops[|ops| - 1].now }

  /** How the coordinator stores them. */
  predicate Dated(s: CoordinatorState, c: Component, root: Option<Failure>, touched: set<Component>,
                  own: Option<(Failure, nat)>, look: nat)
  {
    && s.revalidates && s.rootFailure == root && s.attempted == touched
    && (root.Some? ==> s.before.Some? && s.before.value.At(c).failure == own)
    && s.components.At(c).failure == if root.Some? then Some((root.value, look)) else own
  }

  lemma MaskingDated(s: CoordinatorState, f: Failure, now: nat, who: Component, c: Component, root: Option<Failure>,
                     touched: set<Component>, own: Option<(Failure, nat)>, look: nat)
    requires Dated(s, c, root, touched, own, look)
    ensures Dated(RootFailed(s, f, now).(attempted := s.attempted + {who}), c, Some(f), touched + {who}, own, now)
  {
  }

  lemma RecoveryDated(s: CoordinatorState, now: nat, c: Component, root: Option<Failure>, touched: set<Component>,
                      own: Option<(Failure, nat)>, look: nat)
    requires Dated(s, c, root, touched, own, look) && root.Some?
    ensures Dated(Recovered(s, now), c, None, {}, if c in touched then Some((root.value, now)) else own, now)
  {
  }

  /** With the root up when the operation starts. */
  lemma OperationDated(s: CoordinatorState, op: Operation, c: Component, own: Option<(Failure, nat)>, look: nat)
    requires Dated(s, c, None, {}, own, look) && op.root.None?
    ensures var root, mine := RootFailure(None, [op]), op.component == c;
            Dated(Performed(s, op), c, root, if root.Some? then {op.component} else {},
                  if root.None? && mine && op.result.Stored? then None
                  else if root.None? && mine && op.result.NotStored? then Some((op.result.failure, op.now))
                  else own, op.now)
  {
    if op.result.NotStored? {
      var f := op.result.failure;
      if f.aboutRoot {
        MaskingDated(s, f, op.now, op.component, c, None, {}, own, look);
      } else if op.rootAfter.Some? {
        MaskingDated(s, op.rootAfter.value, op.now, op.component, c, None, {}, own, look);
      }
    }
  }

  lemma {:induction false} RunDated(opening: Option<Failure>, openedAt: nat, ops: seq<Operation>, c: Component)
    ensures Dated(After(Opened(opening, openedAt), ops), c, RootFailure(opening, ops), Touched(opening, ops),
                  OwnFailure(opening, ops, c), LatestLook(openedAt, ops))
  {
    if ops != [] {
      var before, op := ops[..|ops| - 1], ops[|ops| - 1];
      RunDated(opening, openedAt, before, c);
      var s, root := After(Opened(opening, openedAt), before), RootFailure(opening, before);
      var touched, own, look := Touched(opening, before), OwnFailure(opening, before, c), LatestLook(openedAt, before);
      if op.root.Some? {
        MaskingDated(s, op.root.value, op.now, op.component, c, root, touched, own, look);
      } else if root.Some? {
        RecoveryDated(s, op.now, c, root, touched, own, look);
        RecoversFirst(s, op);
        OperationDated(Recovered(s, op.now), op, c, if c in touched then Some((root.value, op.now)) else own, op.now);
      } else {
        OperationDated(s, op, c, own, look);
      }
    }
  }

  /** Over every run, the failure a component shows, with its time: during an outage the
      root's latest failure and the time of the latest look at it, and else its own. */
  lemma FailureExact(opening: Option<Failure>, openedAt: nat, ops: seq<Operation>, c: Component)
    ensures var root := RootFailure(opening, ops);
            After(Opened(opening, openedAt), ops).components.At(c).failure ==
            if root.Some? then Some((root.value, LatestLook(openedAt, ops))) else OwnFailure(opening, ops, c)
  {
    RunDated(opening, openedAt, ops, c);
  }

  /** An unresolved root stays down and nothing is ever Healthy. */
  lemma {:induction false} UnresolvedStaysDown(f: Failure, now: nat, ops: seq<Operation>, c: Component)
    ensures var s := After(Unresolved(f, now), ops);
            && !s.revalidates && s.rootFailure == Some(f) && s.permission.Unverifiable?
            && s.components.At(c) == ComponentHealth(Unavailable, SessionOnly, None, Some((f, now)))
  {
    if ops != [] {
      UnresolvedStaysDown(f, now, ops[..|ops| - 1], c);
    }
  }

  // ---- The overall state ----

  function Worst(a: HealthState, b: HealthState): HealthState {
    if a.Unavailable? || b.Unavailable? then Unavailable
    else if a.Degraded? || b.Degraded? then Degraded
    else Healthy
  }

  function Weigh(sofar: HealthState, h: ComponentHealth): HealthState {
    if h.durability.NotApplicable? then sofar else Worst(sofar, h.state)
  }

  /** The summary state of `health`: components with nothing stored are left out. */
  function Overall(s: CoordinatorState): HealthState {
    var root := match s.permission
      case Verified => Healthy
      case Invalid => Degraded
      case Unverifiable => Unavailable;
    Weigh(Weigh(Weigh(root, s.components.settings), s.components.cache), s.components.diagnostics)
  }

  /** Leaving them out hides nothing: the summary is what the root's failure says while
      it is down, and else Healthy exactly when no component's latest attempt failed. */
  lemma OverallIsTruthful(opening: Option<Failure>, openedAt: nat, ops: seq<Operation>)
    ensures var root := RootFailure(opening, ops);
            Overall(After(Opened(opening, openedAt), ops)) ==
            if root.Some? then DownState(root.value) else if forall c :: TruthOf(ops, c).ok then Healthy else Degraded
  {
    HealthIsTruthful(opening, openedAt, ops, Settings);
    HealthIsTruthful(opening, openedAt, ops, WarmCache);
    HealthIsTruthful(opening, openedAt, ops, Diagnostics);
    FailedIsSessionOnly(ops, Settings);
    FailedIsSessionOnly(ops, WarmCache);
    FailedIsSessionOnly(ops, Diagnostics);
    forall c | TruthOf(ops, Settings).ok && TruthOf(ops, WarmCache).ok && TruthOf(ops, Diagnostics).ok
      ensures TruthOf(ops, c).ok
    {
      match c case Settings => case WarmCache => case Diagnostics =>
    }
  }

  lemma {:induction false} FailedIsSessionOnly(ops: seq<Operation>, c: Component)
    ensures !TruthOf(ops, c).ok ==> TruthOf(ops, c).durability.SessionOnly?
  {
    if ops != [] {
      FailedIsSessionOnly(ops[..|ops| - 1], c);
    }
  }
}
