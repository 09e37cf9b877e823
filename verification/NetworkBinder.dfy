/** Binding of observed network rates to process generations (network_attribution.rs).
    Hash maps are visited in an arbitrary order. */
module NetworkBinder {
  import opened Basics

  const MAX_U64: nat := 0xffff_ffff_ffff_ffff

  /** A process row; `pid` is `None` when its text is not a number. */
  datatype ProcessSample = ProcessSample(pid: Option<nat>, startTimeMs: nat)

  datatype Generation = Generation(pid: nat, startTimeMs: nat)

  datatype Observed = Observed(pid: nat, platform: Option<nat>)

  datatype Rates = Rates(received: nat, transmitted: nat)

  const NO_RATES := Rates(0, 0)

  datatype Bound = Bound(rates: map<Generation, Rates>, proven: set<Generation>)

  function BoundRates(b: Bound, g: Generation): Rates {
    if g in b.rates then b.rates[g] else NO_RATES
  }

  function FromProcess(p: ProcessSample): Option<Generation> {
    if p.pid.Some? && p.startTimeMs > 0 then Some(Generation(p.pid.value, p.startTimeMs)) else None
  }

  /** `process_generations_by_pid`: the last row of a process id wins. */
  function GenerationsByPid(ps: seq<ProcessSample>): (m: map<nat, Generation>)
    ensures forall pid :: pid in m ==> m[pid].pid == pid
  {
    if ps == [] then map[]
    else
      var m, g := GenerationsByPid(ps[..|ps| - 1]), FromProcess(ps[|ps| - 1]);
      if g.None? then m else m[g.value.pid := g.value]
  }

  // ---- What was observed about one process id ----

  function Platforms(observed: map<Observed, Rates>, pid: nat): set<nat> {
    set o | o in observed && o.pid == pid && o.platform.Some? :: o.platform.value
  }

  function Plus(a: Rates, b: Rates): Rates { Rates(a.received + b.received, a.transmitted + b.transmitted) }

  function Clip(n: nat): nat { if n < MAX_U64 then n else MAX_U64 }

  function Clipped(r: Rates): Rates { Rates(Clip(r.received), Clip(r.transmitted)) }

  /** The exact sum over a hash map, whatever the order. */
  ghost function Sum(observed: map<Observed, Rates>): Rates
    decreases |observed|
  {
    if observed == map[] then NO_RATES
    else
      var o :| o in observed;
      Plus(Sum(observed - {o}), observed[o])
  }

  ghost function Of(observed: map<Observed, Rates>, pid: nat): map<Observed, Rates> {
    map o | o in observed && o.pid == pid :: observed[o]
  }

  lemma PlusRegroups(a: Rates, b: Rates, c: Rates)
    ensures Plus(Plus(a, b), c) == Plus(Plus(a, c), b) == Plus(a, Plus(b, c))
  {
  }

  lemma {:induction false} SumWithout(observed: map<Observed, Rates>, o: Observed)
    requires o in observed
    ensures Sum(observed) == Plus(Sum(observed - {o}), observed[o])
    decreases |observed|
  {
    var x :| x in observed && Sum(observed) == Plus(Sum(observed - {x}), observed[x]);
    if x != o {
      var noX, noO := observed - {x}, observed - {o};
      SumWithout(noX, o);
      SumWithout(noO, x);
      assert noX - {o} == noO - {x};
      assert Sum(noX) == Plus(Sum(noX - {o}), observed[o]);
      assert Sum(noO) == Plus(Sum(noX - {o}), observed[x]);
      PlusRegroups(Sum(noX - {o}), observed[o], observed[x]);
    }
  }

  lemma SumWith(observed: map<Observed, Rates>, o: Observed, r: Rates)
    requires o !in observed
    ensures Sum(observed[o := r]) == Plus(Sum(observed), r)
  {
    SumWithout(observed[o := r], o);
    assert observed[o := r] - {o} == observed;
  }

  // ---- Grouping by process id ----

  type Group = seq<(Observed, Rates)>

  ghost function GroupSum(g: Group): Rates {
    if g == [] then NO_RATES else Plus(GroupSum(g[..|g| - 1]), g[|g| - 1].1)
  }

  function GroupPlatforms(g: Group): set<nat> {
    set e | e in g && e.0.platform.Some? :: e.0.platform.value
  }

  function At(groups: map<nat, Group>, pid: nat): Group {
    if pid in groups then groups[pid] else []
  }

  /** The group holds what was observed for the process id. */
  ghost predicate Complete(g: Group, observed: map<Observed, Rates>, pid: nat) {
    GroupSum(g) == Sum(Of(observed, pid)) && GroupPlatforms(g) == Platforms(observed, pid)
  }

  ghost predicate Groups(groups: map<nat, Group>, observed: map<Observed, Rates>) {
    forall pid :: Complete(At(groups, pid), observed, pid)
  }

  lemma GroupStep(groups: map<nat, Group>, done: map<Observed, Rates>, o: Observed, r: Rates)
    requires Groups(groups, done) && o !in done
    ensures Groups(groups[o.pid := At(groups, o.pid) + [(o, r)]], done[o := r])
  {
    var next := groups[o.pid := At(groups, o.pid) + [(o, r)]];
    forall pid
      ensures Complete(At(next, pid), done[o := r], pid)
    {
      assert Complete(At(groups, pid), done, pid);
      if pid == o.pid {
        CompleteWith(At(groups, pid), done, o, r);
      } else {
        CompleteWithout(At(groups, pid), done, o, r, pid);
      }
    }
  }

  lemma CompleteWith(g: Group, done: map<Observed, Rates>, o: Observed, r: Rates)
    requires Complete(g, done, o.pid) && o !in done
    ensures Complete(g + [(o, r)], done[o := r], o.pid)
  {
    assert Of(done[o := r], o.pid) == Of(done, o.pid)[o := r];
    SumWith(Of(done, o.pid), o, r);
    assert (g + [(o, r)])[..|g|] == g;
    GroupPlatformsSnoc(g, (o, r));
    PlatformsWith(done, o, r);
  }

  lemma CompleteWithout(g: Group, done: map<Observed, Rates>, o: Observed, r: Rates, pid: nat)
    requires Complete(g, done, pid) && pid != o.pid
    ensures Complete(g, done[o := r], pid)
  {
    assert Of(done[o := r], pid) == Of(done, pid);
    assert Platforms(done[o := r], pid) == Platforms(done, pid);
  }

  function PlatformSet(o: Observed): set<nat> { if o.platform.Some? then {o.platform.value} else {} }

  lemma GroupPlatformsSnoc(g: Group, e: (Observed, Rates))
    ensures GroupPlatforms(g + [e]) == GroupPlatforms(g) + PlatformSet(e.0)
  {
  }

  lemma PlatformsWith(done: map<Observed, Rates>, o: Observed, r: Rates)
    ensures Platforms(done[o := r], o.pid) == Platforms(done, o.pid) + PlatformSet(o)
  {
  }

  method GroupByPid(observed: map<Observed, Rates>) returns (groups: map<nat, Group>)
    ensures Groups(groups, observed)
  {
    groups := map[];
    var left := observed.Keys;
    ghost var done: map<Observed, Rates> := map[];
    assert forall pid :: Of(done, pid) == map[];
    while left != {}
      invariant left <= observed.Keys && done == observed - left
      invariant Groups(groups, done)
      decreases left
    {
      var o :| o in left;
      GroupStep(groups, done, o, observed[o]);
      groups := groups[o.pid := At(groups, o.pid) + [(o, observed[o])]];
      left := left - {o};
      done := done[o := observed[o]];
    }
    assert done == observed;
  }

  /** The saturating fold gives the exact sum, cut off at the end. */
  method FoldRates(group: Group) returns (total: Rates)
    ensures total == Clipped(GroupSum(group))
  {
    total := NO_RATES;
    for n := 0 to |group|
      invariant total == Clipped(GroupSum(group[..n]))
    {
      assert group[..n + 1][..n] == group[..n];
      total := Rates(Clip(total.received + group[n].1.received), Clip(total.transmitted + group[n].1.transmitted));
    }
    assert group[..|group|] == group;
  }

  // ---- One bind ----

  /** What the binder keeps from one call to the next. */
  datatype Memory = Memory(generations: map<nat, Generation>, platforms: map<nat, nat>)

  const NOTHING := Memory(map[], map[])

  function Lookup<V>(m: map<nat, V>, k: nat): Option<V> { if k in m then Some(m[k]) else None }

  /** The platform generation seen, if there is exactly one. */
  ghost function OnlyPlatform(observed: map<Observed, Rates>, pid: nat): Option<nat> {
    if exists x: nat :: Platforms(observed, pid) == {x} then
      var x: nat :| Platforms(observed, pid) == {x};
      Some(x)
    else None
  }

  /** The runtime generation is the remembered one, and so is the platform generation
      where any was seen. */
  ghost predicate Stable(mem: Memory, observed: map<Observed, Rates>, g: Generation) {
    && Lookup(mem.generations, g.pid) == Some(g)
    && (|| Platforms(observed, g.pid) == {}
        || (OnlyPlatform(observed, g.pid).Some? && Lookup(mem.platforms, g.pid) == OnlyPlatform(observed, g.pid)))
  }

  /** The platform generation to remember: the only one seen, or the old one. */
  ghost function Remembered(mem: Memory, observed: map<Observed, Rates>, pid: nat): Option<nat> {
    if Platforms(observed, pid) == {} then Lookup(mem.platforms, pid) else OnlyPlatform(observed, pid)
  }

  ghost function Credit(mem: Memory, observed: map<Observed, Rates>, g: Generation): Option<Rates> {
    if Stable(mem, observed, g) then Some(Clipped(Sum(Of(observed, g.pid)))) else None
  }

  ghost function AfterBind(mem: Memory, ps: seq<ProcessSample>, observed: map<Observed, Rates>): Memory {
    var current := GenerationsByPid(ps);
    Memory(current,
           map pid | pid in current && Remembered(mem, observed, pid).Some? :: Remembered(mem, observed, pid).value)
  }

  /** Proven generations are the current, stable ones; they get the exact sum of what
      was observed for their process id, the others nothing. */
  ghost predicate Binds(mem: Memory, current: map<nat, Generation>, observed: map<Observed, Rates>, b: Bound) {
    forall g :: CreditOf(b, g) == if Lookup(current, g.pid) == Some(g) then Credit(mem, observed, g) else None
  }

  function CreditOf(b: Bound, g: Generation): Option<Rates> {
    if g in b.proven then Some(BoundRates(b, g)) else None
  }

  /** Nothing is credited outside the proven generations. */
  ghost predicate Tidy(b: Bound) { forall g :: g in b.rates ==> g in b.proven }

  lemma Single(s: set<nat>, x: nat)
    requires x in s && |s| <= 1
    ensures s == {x}
  {
    assert |s - {x}| == |s| - 1;
  }

  lemma OnlyExact(observed: map<Observed, Rates>, pid: nat)
    ensures |Platforms(observed, pid)| > 1 ==> OnlyPlatform(observed, pid).None?
    ensures forall x: nat :: Platforms(observed, pid) == {x} ==> OnlyPlatform(observed, pid) == Some(x)
  {
  }

  /** The body of the loop over the current generations: the platform generation to
      remember, and the rates if the generation is proven. */
  method BindOne(mem: Memory, g: Generation, group: Group, ghost observed: map<Observed, Rates>)
    returns (platform: Option<nat>, rates: Option<Rates>)
    requires Complete(group, observed, g.pid)
    ensures platform == Remembered(mem, observed, g.pid) && rates == Credit(mem, observed, g)
  {
    var runtimeStable := g.pid in mem.generations && mem.generations[g.pid] == g;
    var distinct := GroupPlatforms(group);
    OnlyExact(observed, g.pid);
    if |distinct| > 1 { return None, None; }
    var platformStable := true;
    platform := None;
    if distinct != {} {
      var x :| x in distinct;
      Single(distinct, x);
      platform := Some(x);
      platformStable := g.pid in mem.platforms && mem.platforms[g.pid] == x;
    } else if g.pid in mem.platforms {
      platform := Some(mem.platforms[g.pid]);
    }
    if !runtimeStable || !platformStable { return platform, None; }
    var total := FoldRates(group);
    return platform, Some(total);
  }

  class Binder {
    var previousByPid: map<nat, Generation>
    var previousPlatformByPid: map<nat, nat>

    function Kept(): Memory
      reads this
    {
      Memory(previousByPid, previousPlatformByPid)
    }

    constructor ()
      ensures Kept() == NOTHING
    {
      previousByPid, previousPlatformByPid := map[], map[];
    }

    method Clear()
      modifies this
      ensures Kept() == NOTHING
    {
      previousByPid, previousPlatformByPid := map[], map[];
    }

    method Observe(ps: seq<ProcessSample>)
      modifies this
      ensures Kept() == Memory(GenerationsByPid(ps), map[])
    {
      var current := CurrentByPid(ps);
      previousByPid, previousPlatformByPid := current, map[];
    }

    method Bind(ps: seq<ProcessSample>, observed: map<Observed, Rates>) returns (b: Bound)
      modifies this
      ensures Kept() == AfterBind(old(Kept()), ps, observed)
      ensures Binds(old(Kept()), GenerationsByPid(ps), observed, b) && Tidy(b)
    {
      var current := CurrentByPid(ps);
      var next: map<nat, nat>;
      b, next := BindAll(Kept(), current, observed);
      KeptExactly(Kept(), ps, observed, next);
      previousByPid, previousPlatformByPid := current, next;
    }
  }

  lemma KeptExactly(mem: Memory, ps: seq<ProcessSample>, observed: map<Observed, Rates>, next: map<nat, nat>)
    requires PlatformsKept(mem, GenerationsByPid(ps), observed, next)
    ensures next == AfterBind(mem, ps, observed).platforms
  {
  }

  ghost predicate PlatformsKept(mem: Memory, current: map<nat, Generation>, observed: map<Observed, Rates>, next: map<nat, nat>) {
    forall pid :: Lookup(next, pid) == if pid in current then Remembered(mem, observed, pid) else None
  }

  /** The loop of `bind` over the current generations. */
  method BindAll(mem: Memory, current: map<nat, Generation>, observed: map<Observed, Rates>)
    returns (b: Bound, next: map<nat, nat>)
    requires forall pid :: pid in current ==> current[pid].pid == pid
    ensures PlatformsKept(mem, current, observed, next)
    ensures Binds(mem, current, observed, b) && Tidy(b)
  {
    var groups := GroupByPid(observed);
    b, next := Bound(map[], {}), map[];
    var left := current.Keys;
    ghost var done: map<nat, Generation> := map[];
    while left != {}
      invariant left <= current.Keys && done.Keys == current.Keys - left
      invariant forall pid :: pid in done ==> done[pid] == current[pid]
      invariant PlatformsKept(mem, done, observed, next)
      invariant Binds(mem, done, observed, b) && Tidy(b)
      decreases left
    {
      var pid :| pid in left;
      b, next := BindNext(mem, groups, current[pid], b, next, done, observed);
      left := left - {pid};
      done := done[pid := current[pid]];
    }
    assert done == current;
  }

  /** One round of that loop. */
  method BindNext(mem: Memory, groups: map<nat, Group>, g: Generation, before: Bound, platforms: map<nat, nat>,
                  ghost done: map<nat, Generation>, ghost observed: map<Observed, Rates>)
    returns (b: Bound, next: map<nat, nat>)
    requires Groups(groups, observed) && g.pid !in done
    requires PlatformsKept(mem, done, observed, platforms) && Binds(mem, done, observed, before) && Tidy(before)
    ensures PlatformsKept(mem, done[g.pid := g], observed, next)
    ensures Binds(mem, done[g.pid := g], observed, b) && Tidy(b)
  {
    assert Complete(At(groups, g.pid), observed, g.pid);
    var platform, rates := BindOne(mem, g, At(groups, g.pid), observed);
    BindStep(mem, done, observed, before, g);
    PlatformStep(mem, done, observed, platforms, g);
    next := if platform.Some? then platforms[g.pid := platform.value] else platforms;
    b := if rates.Some? then Credited(before, g, rates.value) else before;
  }

  lemma PlatformStep(mem: Memory, done: map<nat, Generation>, observed: map<Observed, Rates>, platforms: map<nat, nat>,
                     g: Generation)
    requires PlatformsKept(mem, done, observed, platforms) && g.pid !in done
    ensures var x := Remembered(mem, observed, g.pid);
            PlatformsKept(mem, done[g.pid := g], observed, if x.Some? then platforms[g.pid := x.value] else platforms)
  {
  }

  function Credited(b: Bound, g: Generation, rates: Rates): Bound {
    Bound(if rates != NO_RATES then b.rates[g := rates] else b.rates, b.proven + {g})
  }

  lemma BindStep(mem: Memory, current: map<nat, Generation>, observed: map<Observed, Rates>, b: Bound, g: Generation)
    requires Binds(mem, current, observed, b) && Tidy(b) && g.pid !in current
    ensures var c := Credit(mem, observed, g);
            var next := if c.Some? then Credited(b, g, c.value) else b;
            Binds(mem, current[g.pid := g], observed, next) && Tidy(next)
  {
  }

  method CurrentByPid(ps: seq<ProcessSample>) returns (m: map<nat, Generation>)
    ensures m == GenerationsByPid(ps)
  {
    m := map[];
    for n := 0 to |ps|
      invariant m == GenerationsByPid(ps[..n])
    {
      assert ps[..n + 1][..n] == ps[..n];
      var g := FromProcess(ps[n]);
      if g.Some? { m := m[g.value.pid := g.value]; }
    }
    assert ps[..|ps|] == ps;
  }

  // ---- Results over every run ----

  datatype Op =
    | Cleared
    | Observing(ps: seq<ProcessSample>)
    | Binding(ps: seq<ProcessSample>, observed: map<Observed, Rates>)

  ghost function After(ops: seq<Op>): Memory {
    if ops == [] then NOTHING
    else
      match ops[|ops| - 1]
      case Cleared => NOTHING
      case Observing(ps) => Memory(GenerationsByPid(ps), map[])
      case Binding(ps, observed) => AfterBind(After(ops[..|ops| - 1]), ps, observed)
  }

  /** The operation saw exactly this generation of the process. */
  predicate Saw(op: Op, g: Generation) {
    !op.Cleared? && Lookup(GenerationsByPid(op.ps), g.pid) == Some(g)
  }

  /** A bind with the process present and `seen` as its platform generations. */
  predicate BoundWith(op: Op, pid: nat, seen: set<nat>) {
    op.Binding? && pid in GenerationsByPid(op.ps) && Platforms(op.observed, pid) == seen
  }

  /** Some bind saw `x` alone for this process, and every operation since was a bind
      with the process present and no platform generation seen. */
  ghost predicate RecordedLast(ops: seq<Op>, pid: nat, x: nat) {
    exists k :: 0 <= k < |ops| && BoundWith(ops[k], pid, {x}) && forall j :: k < j < |ops| ==> BoundWith(ops[j], pid, {})
  }

  lemma BindPlatform(mem: Memory, op: Op, pid: nat, x: nat)
    requires op.Binding?
    ensures Lookup(AfterBind(mem, op.ps, op.observed).platforms, pid) == Some(x) <==>
            BoundWith(op, pid, {x}) || (BoundWith(op, pid, {}) && Lookup(mem.platforms, pid) == Some(x))
  {
  }

  lemma {:induction false} PlatformMemory(ops: seq<Op>, pid: nat, x: nat)
    ensures Lookup(After(ops).platforms, pid) == Some(x) <==> RecordedLast(ops, pid, x)
  {
    if ops != [] {
      var init, last := ops[..|ops| - 1], ops[|ops| - 1];
      PlatformMemory(init, pid, x);
      RecordedStep(init, last, pid, x);
      assert ops == init + [last];
      if last.Binding? {
        BindPlatform(After(init), last, pid, x);
      }
    }
  }

  lemma RecordedStep(init: seq<Op>, last: Op, pid: nat, x: nat)
    ensures RecordedLast(init + [last], pid, x) <==>
            BoundWith(last, pid, {x}) || (BoundWith(last, pid, {}) && RecordedLast(init, pid, x))
  {
    var ops := init + [last];
    if RecordedLast(ops, pid, x) {
      var k :| 0 <= k < |ops| && BoundWith(ops[k], pid, {x}) && forall j :: k < j < |ops| ==> BoundWith(ops[j], pid, {});
      if k < |init| {
        assert BoundWith(ops[|init|], pid, {});
        assert forall j :: k < j < |init| ==> init[j] == ops[j] && BoundWith(ops[j], pid, {});
        assert BoundWith(init[k], pid, {x});
      }
    }
    if BoundWith(last, pid, {x}) {
      assert BoundWith(ops[|init|], pid, {x});
    } else if BoundWith(last, pid, {}) && RecordedLast(init, pid, x) {
      var k :| 0 <= k < |init| && BoundWith(init[k], pid, {x}) && forall j :: k < j < |init| ==> BoundWith(init[j], pid, {});
      assert BoundWith(ops[k], pid, {x});
      assert forall j :: k < j < |ops| ==> BoundWith(ops[j], pid, {});
    }
  }

  lemma GenerationMemory(ops: seq<Op>, g: Generation)
    ensures Lookup(After(ops).generations, g.pid) == Some(g) <==> ops != [] && Saw(ops[|ops| - 1], g)
  {
  }

  /** After any run, the next bind proves a generation exactly when it is current, the
      operation just before saw the same one, and any platform generation seen now is
      unique and the one last recorded for that process. */
  lemma ProvenExactly(ops: seq<Op>, ps: seq<ProcessSample>, observed: map<Observed, Rates>, b: Bound, g: Generation)
    requires Binds(After(ops), GenerationsByPid(ps), observed, b)
    ensures g in b.proven <==>
            && Lookup(GenerationsByPid(ps), g.pid) == Some(g)
            && ops != [] && Saw(ops[|ops| - 1], g)
            && (|| Platforms(observed, g.pid) == {}
                || exists x: nat :: Platforms(observed, g.pid) == {x} && RecordedLast(ops, g.pid, x))
  {
    GenerationMemory(ops, g);
    OnlyExact(observed, g.pid);
    assert g in b.proven <==> CreditOf(b, g).Some?;
    var only := OnlyPlatform(observed, g.pid);
    if only.Some? {
      PlatformMemory(ops, g.pid, only.value);
    }
  }

  // ---- No observation is credited twice ----

  ghost function NotOf(observed: map<Observed, Rates>, pid: nat): map<Observed, Rates> {
    map o | o in observed && o.pid != pid :: observed[o]
  }

  lemma OfWithout(observed: map<Observed, Rates>, o: Observed)
    requires o in observed
    ensures o in Of(observed, o.pid) && Of(observed, o.pid)[o] == observed[o]
    ensures Of(observed, o.pid) - {o} == Of(observed - {o}, o.pid)
    ensures NotOf(observed, o.pid) == NotOf(observed - {o}, o.pid)
  {
  }

  lemma NotOfWithout(observed: map<Observed, Rates>, o: Observed, pid: nat)
    requires o in observed && o.pid != pid
    ensures o in NotOf(observed, pid) && NotOf(observed, pid)[o] == observed[o]
    ensures NotOf(observed, pid) - {o} == NotOf(observed - {o}, pid)
    ensures Of(observed, pid) == Of(observed - {o}, pid)
  {
  }

  lemma NoParts(pid: nat)
    ensures Sum(map[]) == PartsSum(map[], pid)
  {
    assert Of(map[], pid) == map[] && NotOf(map[], pid) == map[];
  }

  /** The two parts of a map, added up. */
  ghost function PartsSum(observed: map<Observed, Rates>, pid: nat): Rates {
    Plus(Sum(Of(observed, pid)), Sum(NotOf(observed, pid)))
  }

  lemma {:induction false} SumSplits(observed: map<Observed, Rates>, pid: nat)
    ensures Sum(observed) == PartsSum(observed, pid)
    decreases observed.Keys
  {
    if o :| o in observed {
      SumSplits(observed - {o}, pid);
      SplitStep(observed, o, pid);
    } else {
      assert observed == map[];
      NoParts(pid);
    }
  }

  lemma SplitStep(observed: map<Observed, Rates>, o: Observed, pid: nat)
    requires o in observed && Sum(observed - {o}) == PartsSum(observed - {o}, pid)
    ensures Sum(observed) == PartsSum(observed, pid)
  {
    SumWithout(observed, o);
    if o.pid == pid {
      SplitOf(observed, o);
    } else {
      SplitNotOf(observed, o, pid);
    }
  }

  lemma SplitOf(observed: map<Observed, Rates>, o: Observed)
    requires o in observed
    ensures PartsSum(observed, o.pid) == Plus(PartsSum(observed - {o}, o.pid), observed[o])
  {
    OfWithout(observed, o);
    SumWithout(Of(observed, o.pid), o);
    PlusRegroups(Sum(Of(observed - {o}, o.pid)), observed[o], Sum(NotOf(observed, o.pid)));
  }

  lemma SplitNotOf(observed: map<Observed, Rates>, o: Observed, pid: nat)
    requires o in observed && o.pid != pid
    ensures PartsSum(observed, pid) == Plus(PartsSum(observed - {o}, pid), observed[o])
  {
    NotOfWithout(observed, o, pid);
    SumWithout(NotOf(observed, pid), o);
    PlusRegroups(Sum(Of(observed, pid)), Sum(NotOf(observed - {o}, pid)), observed[o]);
  }

  ghost function Credits(b: Bound, gs: set<Generation>): Rates {
    if gs == {} then NO_RATES
    else
      var g :| g in gs;
      Plus(Credits(b, gs - {g}), BoundRates(b, g))
  }

  ghost predicate AtMost(a: Rates, b: Rates) { a.received <= b.received && a.transmitted <= b.transmitted }

  /** Generations of different processes, each with no more than was observed for it. */
  ghost predicate Covered(b: Bound, gs: set<Generation>, observed: map<Observed, Rates>) {
    && (forall g, h :: g in gs && h in gs && g.pid == h.pid ==> g == h)
    && (forall g :: g in gs ==> AtMost(BoundRates(b, g), Sum(Of(observed, g.pid))))
  }

  lemma CoveredWithout(b: Bound, gs: set<Generation>, observed: map<Observed, Rates>, g: Generation)
    requires Covered(b, gs, observed) && g in gs
    ensures Covered(b, gs - {g}, NotOf(observed, g.pid))
  {
    forall h | h in gs - {g}
      ensures AtMost(BoundRates(b, h), Sum(Of(NotOf(observed, g.pid), h.pid)))
    {
      assert h.pid != g.pid;
      assert Of(NotOf(observed, g.pid), h.pid) == Of(observed, h.pid);
    }
  }

  lemma {:induction false} CreditsCovered(b: Bound, gs: set<Generation>, observed: map<Observed, Rates>)
    requires Covered(b, gs, observed)
    ensures AtMost(Credits(b, gs), Sum(observed))
    decreases gs
  {
    if gs != {} {
      var g :| g in gs && Credits(b, gs) == Plus(Credits(b, gs - {g}), BoundRates(b, g));
      CoveredWithout(b, gs, observed, g);
      CreditsCovered(b, gs - {g}, NotOf(observed, g.pid));
      SumSplits(observed, g.pid);
      AtMostPlus(Credits(b, gs - {g}), Sum(NotOf(observed, g.pid)), BoundRates(b, g), Sum(Of(observed, g.pid)));
    }
  }

  lemma AtMostPlus(a: Rates, b: Rates, c: Rates, d: Rates)
    requires AtMost(a, b) && AtMost(c, d)
    ensures AtMost(Plus(a, c), Plus(d, b))
  {
  }

  /** The rates handed out by one bind never add up to more than what was observed:
      no observation is credited to two generations. */
  lemma CreditedOnce(mem: Memory, ps: seq<ProcessSample>, observed: map<Observed, Rates>, b: Bound)
    requires Binds(mem, GenerationsByPid(ps), observed, b)
    ensures forall g, h :: g in b.proven && h in b.proven && g.pid == h.pid ==> g == h
    ensures AtMost(Credits(b, b.proven), Sum(observed))
  {
    forall g | g in b.proven
      ensures Lookup(GenerationsByPid(ps), g.pid) == Some(g)
      ensures AtMost(BoundRates(b, g), Sum(Of(observed, g.pid)))
    {
      assert CreditOf(b, g).Some?;
    }
    CreditsCovered(b, b.proven, observed);
  }

  // ---- Which row counts for a process id ----

  /** Row `i` is the last usable row of the process id, and says `g`. */
  predicate LastRow(ps: seq<ProcessSample>, i: nat, g: Generation) {
    && i < |ps| && ps[i].pid == Some(g.pid) && ps[i].startTimeMs == g.startTimeMs > 0
    && forall j :: i < j < |ps| ==> ps[j].pid != Some(g.pid) || ps[j].startTimeMs == 0
  }

  /** The current generation of a process id is the one its last usable row says: a row
      with a numeric id and a start time. */
  lemma {:induction false} LastRowWins(ps: seq<ProcessSample>, g: Generation)
    ensures Lookup(GenerationsByPid(ps), g.pid) == Some(g) <==> exists i: nat :: LastRow(ps, i, g)
  {
    if ps != [] {
      var init, last := ps[..|ps| - 1], ps[|ps| - 1];
      LastRowWins(init, g);
      if i: nat :| LastRow(ps, i, g) {
        if i < |init| { assert LastRow(init, i, g); }
      }
      if FromProcess(last).Some? && FromProcess(last).value.pid == g.pid {
        if FromProcess(last).value == g { assert LastRow(ps, |init|, g); }
      } else if i: nat :| LastRow(init, i, g) {
        assert LastRow(ps, i, g);
      }
    }
  }
}
