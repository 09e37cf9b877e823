/** Atomic replacement of a file (atomic_json.rs): temporaries named from a counter
    the whole process shares, exclusive creation, rename, directory sync and cleanup.
    First one call on its own, then any number of interleaved calls in any number of
    processes, each of which can die at any step. */
module AtomicWrite {
  import opened Basics

  type Bytes = seq<bv8>

  const MAX_NAMES: nat := 128

  /** `<name>.<process>.<sequence>.tmp` */
  datatype Temp = Temp(process: nat, sequence: nat)

  datatype Outcome = Written | NotCommitted | DurabilityUncertain

  type Files = map<Temp, Bytes>

  /** What the system calls of one call answer. Each is true for success; `openError`
      marks the attempts that fail for another reason than an existing file. */
  datatype Answers = Answers(parent: bool, openError: nat -> bool, prepare: bool, written: bool, kept: nat,
                             synced: bool, renamed: bool, directorySynced: bool, removed: bool)

  // ---- One call on its own ----

  /** One of the next 128 names is free and no attempt up to it fails otherwise. */
  ghost predicate Creatable(files: Files, process: nat, sequence: nat, openError: nat -> bool) {
    exists n :: sequence <= n < sequence + MAX_NAMES && Temp(process, n) !in files
                && forall j :: 0 <= j <= n - sequence ==> !openError(j)
  }

  class Volume {
    const process: nat
    var sequence: nat
    var files: Files
    var target: Option<Bytes>

    constructor (process: nat, sequence: nat, files: Files, target: Option<Bytes>)
      ensures this.process == process && this.sequence == sequence && this.files == files && this.target == target
    {
      this.process, this.sequence, this.files, this.target := process, sequence, files, target;
    }

    /** `create_temp_file`: the first free one of the next 128 names, created empty. */
    method CreateTemp(openError: nat -> bool) returns (r: Option<Temp>)
      modifies this`sequence, this`files
      ensures old(sequence) < sequence <= old(sequence) + MAX_NAMES
      ensures forall n :: old(sequence) <= n < sequence - 1 ==> Temp(process, n) in old(files)
      ensures r.Some? <==> Creatable(old(files), process, old(sequence), openError)
      ensures r.Some? ==>
                && r.value == Temp(process, sequence - 1)
                && r.value !in old(files)
                && files == old(files)[r.value := []]
      ensures r.None? ==> files == old(files)
    {
      for attempt := 0 to MAX_NAMES
        invariant sequence == old(sequence) + attempt && files == old(files)
        invariant forall n :: old(sequence) <= n < sequence ==> Temp(process, n) in old(files)
        invariant forall j :: 0 <= j < attempt ==> !openError(j)
      {
        var temp := Temp(process, sequence);
        sequence := sequence + 1;
        if openError(attempt) { return None; }
        assert temp == Temp(process, old(sequence) + attempt);
        if temp !in files {
          files := files[temp := []];
          return Some(temp);
        }
      }
      return None;
    }

    /** `write_bytes_atomic_with_temp_and_replacer`: the target holds the payload exactly
        when the rename went through, and the answer says so; at most its own
        temporary is left behind, and only when removing it failed. */
    method Write(payload: Bytes, a: Answers) returns (outcome: Outcome)
      modifies this
      ensures outcome.NotCommitted? ==> target == old(target)
      ensures !outcome.NotCommitted? ==> target == Some(payload) && files == old(files)
      ensures outcome.NotCommitted? <==>
              !(a.parent && Creatable(old(files), process, old(sequence), a.openError)
                && a.prepare && a.written && a.synced && a.renamed)
      ensures !outcome.NotCommitted? ==> (outcome.Written? <==> a.directorySynced)
      ensures files == old(files) ||
              (!a.removed && exists t :: t !in old(files) && files.Keys == old(files).Keys + {t} && files - {t} == old(files))
    {
      if !a.parent { return NotCommitted; }
      var created := CreateTemp(a.openError);
      if created.None? { return NotCommitted; }
      var temp := created.value;
      assert files - {temp} == old(files);
      if !a.prepare {
        Remove(temp, a.removed);
        return NotCommitted;
      }
      files := files[temp := if a.written || a.kept > |payload| then payload else payload[..a.kept]];
      assert files - {temp} == old(files);
      if !a.written || !a.synced || !a.renamed {
        Remove(temp, a.removed);
        return NotCommitted;
      }
      target := Some(files[temp]);
      files := files - {temp};
      if !a.directorySynced {
        Remove(temp, a.removed);
        return DurabilityUncertain;
      }
      return Written;
    }

    /** Cleanup whose own failure is ignored. */
    method Remove(temp: Temp, works: bool)
      modifies this`files
      ensures files == if works then old(files) - {temp} else old(files)
    {
      if works { files := files - {temp}; }
    }
  }

  // ---- Interleaved calls ----

  datatype Phase =
    | Starting
    | Trying(failed: nat)
    | Named(failed: nat, temp: Temp)
    | Writing(temp: Temp, count: nat)
    | Flushed(temp: Temp)
    | Renamed(temp: Temp)
    | Removing(temp: Temp, outcome: Outcome)
    | Finished(outcome: Outcome)

  datatype Writer = Writer(process: nat, life: nat, payload: Bytes, phase: Phase)

  /** `life` counts how often a process id has died, `counter` its current process's
      temporary counter, `installed` the writers that renamed, in order. */
  datatype State = State(writers: seq<Writer>, life: map<nat, nat>, counter: map<nat, nat>,
                         files: Files, target: Option<Bytes>, installed: seq<nat>)

  datatype Action =
    | Call(process: nat, payload: Bytes)
    | Act(writer: nat, ok: bool, amount: nat)
    | Die(process: nat)

  function Get(m: map<nat, nat>, k: nat): nat { if k in m then m[k] else 0 }

  predicate Alive(s: State, w: Writer) { w.life == Get(s.life, w.process) }

  function Start(files: Files, target: Option<Bytes>): State {
    State([], map[], map[], files, target, [])
  }

  /** The writer's next phase. */
  function NextPhase(s: State, w: Writer, ok: bool, amount: nat): Phase {
    match w.phase
    case Starting => if ok then Trying(0) else Finished(NotCommitted)
    case Trying(n) => Named(n, Temp(w.process, Get(s.counter, w.process)))
    case Named(n, temp) =>
      if !ok then Finished(NotCommitted)
      else if temp !in s.files then Writing(temp, 0)
      else if n + 1 < MAX_NAMES then Trying(n + 1)
      else Finished(NotCommitted)
    case Writing(temp, count) =>
      if !ok then Removing(temp, NotCommitted)
      else if count >= |w.payload| then Flushed(temp)
      else Writing(temp, if count + 1 + amount < |w.payload| then count + 1 + amount else |w.payload|)
    case Flushed(temp) => if ok && temp in s.files then Renamed(temp) else Removing(temp, NotCommitted)
    case Renamed(temp) => if ok then Finished(Written) else Removing(temp, DurabilityUncertain)
    case Removing(_, outcome) => Finished(outcome)
    case Finished(_) => w.phase
  }

  function NextFiles(s: State, w: Writer, ok: bool, amount: nat): Files {
    var next := NextPhase(s, w, ok, amount);
    match w.phase
    case Named(_, temp) => if next.Writing? then s.files[temp := []] else s.files
    case Writing(temp, _) =>
      if next.Writing? && next.count <= |w.payload| then s.files[temp := w.payload[..next.count]] else s.files
    case Flushed(temp) => if next.Renamed? then s.files - {temp} else s.files
    case Removing(temp, _) => if ok then s.files - {temp} else s.files
    case _ => s.files
  }

  function Step(s: State, a: Action): State {
    match a
    case Call(process, payload) =>
      s.(writers := s.writers + [Writer(process, Get(s.life, process), payload, Starting)])
    case Die(process) =>
      s.(life := s.life[process := Get(s.life, process) + 1], counter := s.counter[process := 0])
    case Act(id, ok, amount) =>
      if id >= |s.writers| || !Alive(s, s.writers[id]) then s
      else
        var w := s.writers[id];
        var next := NextPhase(s, w, ok, amount);
        var renames := w.phase.Flushed? && next.Renamed?;
        s.(writers := s.writers[id := w.(phase := next)],
           counter := if w.phase.Trying? then s.counter[w.process := Get(s.counter, w.process) + 1] else s.counter,
           files := NextFiles(s, w, ok, amount),
           target := if renames && w.phase.temp in s.files then Some(s.files[w.phase.temp]) else s.target,
           installed := if renames then s.installed + [id] else s.installed)
  }

  function Run(s: State, actions: seq<Action>): State {
    if actions == [] then s else Step(Run(s, actions[..|actions| - 1]), actions[|actions| - 1])
  }

  // ---- Invariants ----

  predicate HasName(w: Writer) { w.phase.Named? || w.phase.Writing? || w.phase.Flushed? || w.phase.Renamed? || w.phase.Removing? }

  /** The writer created its temporary and has not renamed it. */
  predicate Owns(w: Writer) {
    w.phase.Writing? || w.phase.Flushed? || (w.phase.Removing? && w.phase.outcome.NotCommitted?)
  }

  predicate Committed(w: Writer) {
    || w.phase.Renamed?
    || (w.phase.Removing? && !w.phase.outcome.NotCommitted?)
    || (w.phase.Finished? && !w.phase.outcome.NotCommitted?)
  }

  /** A live writer's name comes from its process's counter. */
  ghost predicate NameIssued(s: State, w: Writer) {
    Alive(s, w) && HasName(w) ==> w.phase.temp.process == w.process && w.phase.temp.sequence < Get(s.counter, w.process)
  }

  ghost predicate NamesIssued(s: State) {
    forall i :: 0 <= i < |s.writers| ==> NameIssued(s, s.writers[i])
  }

  ghost predicate Apart(s: State, v: Writer, w: Writer) {
    Alive(s, v) && Alive(s, w) && HasName(v) && HasName(w) ==> v.phase.temp != w.phase.temp
  }

  ghost predicate NamesApart(s: State) {
    forall i, j :: 0 <= i < j < |s.writers| ==> Apart(s, s.writers[i], s.writers[j])
  }

  /** The owner's file holds what it has written; a renamed file is gone. */
  ghost predicate FileRight(s: State, stale: Files, w: Writer) {
    Alive(s, w) ==>
      && (Owns(w) ==> w.phase.temp in s.files && w.phase.temp !in stale)
      && (w.phase.Writing? ==> w.phase.count <= |w.payload| && s.files[w.phase.temp] == w.payload[..w.phase.count])
      && (w.phase.Flushed? ==> s.files[w.phase.temp] == w.payload)
      && (w.phase.Renamed? || (w.phase.Removing? && !w.phase.outcome.NotCommitted?) ==> w.phase.temp !in s.files)
  }

  ghost predicate FilesRight(s: State, stale: Files) {
    forall i :: 0 <= i < |s.writers| ==> FileRight(s, stale, s.writers[i])
  }

  ghost predicate StaleKept(s: State, stale: Files) {
    forall t :: t in stale ==> t in s.files && s.files[t] == stale[t]
  }

  ghost predicate OutcomesSane(s: State) {
    forall i :: 0 <= i < |s.writers| ==> OutcomeSane(s.writers[i])
  }

  predicate OutcomeSane(w: Writer) {
    w.phase.Removing? ==> !w.phase.outcome.Written?
  }

  /** The target is the payload of the last writer that renamed. */
  ghost predicate TargetWhole(s: State, initial: Option<Bytes>) {
    && (forall k :: 0 <= k < |s.installed| ==> s.installed[k] < |s.writers|)
    && s.target == (if s.installed == [] then initial
                    else Some(s.writers[s.installed[|s.installed| - 1]].payload))
  }

  /** The writers that renamed are those whose phase says so, each once. */
  ghost predicate InstalledExact(s: State) {
    && (forall i :: 0 <= i < |s.writers| ==> (i in s.installed <==> Committed(s.writers[i])))
    && (forall j, k :: 0 <= j < k < |s.installed| ==> s.installed[j] != s.installed[k])
    && (forall k :: 0 <= k < |s.installed| ==> s.installed[k] < |s.writers|)
  }

  // ---- Every step keeps them ----

  lemma NameOrigin(s: State, w: Writer, ok: bool, amount: nat)
    ensures var v := w.(phase := NextPhase(s, w, ok, amount));
            HasName(v) ==> || (HasName(w) && v.phase.temp == w.phase.temp)
                           || (w.phase.Trying? && v.phase.temp == Temp(w.process, Get(s.counter, w.process)))
  {
  }

  lemma ActKeepsIssued(s: State, id: nat, ok: bool, amount: nat)
    requires NamesIssued(s) && id < |s.writers| && Alive(s, s.writers[id])
    ensures NamesIssued(Step(s, Act(id, ok, amount)))
  {
    var next := Step(s, Act(id, ok, amount));
    forall i | 0 <= i < |next.writers|
      ensures NameIssued(next, next.writers[i])
    {
      assert NameIssued(s, s.writers[i]);
      NameOrigin(s, s.writers[id], ok, amount);
    }
  }

  lemma ActKeepsApart(s: State, id: nat, ok: bool, amount: nat)
    requires NamesIssued(s) && NamesApart(s) && id < |s.writers| && Alive(s, s.writers[id])
    ensures NamesApart(Step(s, Act(id, ok, amount)))
  {
    var next := Step(s, Act(id, ok, amount));
    NameOrigin(s, s.writers[id], ok, amount);
    forall i, j | 0 <= i < j < |next.writers|
      ensures Apart(next, next.writers[i], next.writers[j])
    {
      assert NameIssued(s, s.writers[i]) && NameIssued(s, s.writers[j]);
      assert Apart(s, s.writers[i], s.writers[j]);
    }
  }

  /** The acting writer's own file after its step. */
  lemma ActOwnFile(s: State, stale: Files, w: Writer, ok: bool, amount: nat, next: State)
    requires FileRight(s, stale, w) && Alive(s, w) && OutcomeSane(w) && StaleKept(s, stale)
    requires next.files == NextFiles(s, w, ok, amount) && next.life == s.life
    ensures FileRight(next, stale, w.(phase := NextPhase(s, w, ok, amount)))
    ensures OutcomeSane(w.(phase := NextPhase(s, w, ok, amount)))
  {
    if w.phase.Writing? && w.phase.count >= |w.payload| {
      assert w.payload[..w.phase.count] == w.payload;
    }
  }

  lemma OtherKeepsFile(s: State, stale: Files, v: Writer, w: Writer, ok: bool, amount: nat, next: State)
    requires FileRight(s, stale, v) && Apart(s, v, w) && Alive(s, w)
    requires next.files == NextFiles(s, w, ok, amount) && next.life == s.life
    ensures FileRight(next, stale, v)
  {
  }

  lemma ActKeepsFiles(s: State, stale: Files, id: nat, ok: bool, amount: nat)
    requires NamesApart(s) && FilesRight(s, stale) && StaleKept(s, stale) && OutcomesSane(s)
    requires id < |s.writers| && Alive(s, s.writers[id])
    ensures FilesRight(Step(s, Act(id, ok, amount)), stale) && OutcomesSane(Step(s, Act(id, ok, amount)))
  {
    var next := Step(s, Act(id, ok, amount));
    var w := s.writers[id];
    assert FileRight(s, stale, w) && OutcomeSane(w);
    ActOwnFile(s, stale, w, ok, amount, next);
    forall i | 0 <= i < |next.writers|
      ensures FileRight(next, stale, next.writers[i]) && OutcomeSane(next.writers[i])
    {
      assert FileRight(s, stale, s.writers[i]) && OutcomeSane(s.writers[i]);
      if i != id {
        assert Apart(s, s.writers[i], w) by {
          if i < id { assert Apart(s, s.writers[i], s.writers[id]); } else { assert Apart(s, s.writers[id], s.writers[i]); }
        }
        OtherKeepsFile(s, stale, s.writers[i], w, ok, amount, next);
      }
    }
  }

  lemma ActKeepsStale(s: State, stale: Files, id: nat, ok: bool, amount: nat)
    requires FilesRight(s, stale) && StaleKept(s, stale) && OutcomesSane(s)
    requires id < |s.writers| && Alive(s, s.writers[id])
    ensures StaleKept(Step(s, Act(id, ok, amount)), stale)
  {
  }

  lemma ActKeepsTarget(s: State, initial: Option<Bytes>, stale: Files, id: nat, ok: bool, amount: nat)
    requires TargetWhole(s, initial) && FilesRight(s, stale) && id < |s.writers| && Alive(s, s.writers[id])
    ensures TargetWhole(Step(s, Act(id, ok, amount)), initial)
  {
    assert FileRight(s, stale, s.writers[id]);
  }

  lemma CommitOnce(s: State, w: Writer, ok: bool, amount: nat)
    requires OutcomeSane(w)
    ensures var next := NextPhase(s, w, ok, amount);
            Committed(w.(phase := next)) <==> Committed(w) || (w.phase.Flushed? && next.Renamed?)
    ensures w.phase.Flushed? ==> !Committed(w)
  {
  }

  lemma ActKeepsInstalled(s: State, id: nat, ok: bool, amount: nat)
    requires InstalledExact(s) && OutcomesSane(s) && id < |s.writers| && Alive(s, s.writers[id])
    ensures InstalledExact(Step(s, Act(id, ok, amount)))
  {
    var next := Step(s, Act(id, ok, amount));
    assert OutcomeSane(s.writers[id]);
    CommitOnce(s, s.writers[id], ok, amount);
    assert forall i :: i in s.installed + [id] <==> i in s.installed || i == id;
    forall i | 0 <= i < |next.writers|
      ensures i in next.installed <==> Committed(next.writers[i])
    {
      assert i in s.installed <==> Committed(s.writers[i]);
    }
  }

  ghost predicate Inv(s: State, stale: Files, initial: Option<Bytes>) {
    && NamesIssued(s) && NamesApart(s)
    && FilesRight(s, stale) && StaleKept(s, stale) && OutcomesSane(s)
    && TargetWhole(s, initial) && InstalledExact(s)
  }

  lemma CallKeeps(s: State, stale: Files, initial: Option<Bytes>, process: nat, payload: Bytes)
    requires Inv(s, stale, initial)
    ensures Inv(Step(s, Call(process, payload)), stale, initial)
  {
    var next := Step(s, Call(process, payload));
    forall i | 0 <= i < |next.writers|
      ensures NameIssued(next, next.writers[i]) && FileRight(next, stale, next.writers[i]) && OutcomeSane(next.writers[i])
    {
      if i < |s.writers| {
        assert NameIssued(s, s.writers[i]) && FileRight(s, stale, s.writers[i]) && OutcomeSane(s.writers[i]);
      }
    }
    forall i, j | 0 <= i < j < |next.writers|
      ensures Apart(next, next.writers[i], next.writers[j])
    {
      if j < |s.writers| {
        assert Apart(s, s.writers[i], s.writers[j]);
      }
    }
    assert |s.writers| !in s.installed;
  }

  lemma DeathKeeps(s: State, stale: Files, initial: Option<Bytes>, process: nat)
    requires Inv(s, stale, initial) && LivesPast(s)
    ensures Inv(Step(s, Die(process)), stale, initial)
  {
    var next := Step(s, Die(process));
    forall i | 0 <= i < |next.writers|
      ensures Alive(next, next.writers[i]) ==> Alive(s, s.writers[i]) && s.writers[i].process != process
      ensures NameIssued(next, next.writers[i]) && FileRight(next, stale, next.writers[i])
    {
      assert NameIssued(s, s.writers[i]) && FileRight(s, stale, s.writers[i]);
      assert s.writers[i].life <= Get(s.life, s.writers[i].process);
    }
    forall i, j | 0 <= i < j < |next.writers|
      ensures Apart(next, next.writers[i], next.writers[j])
    {
      assert Apart(s, s.writers[i], s.writers[j]);
      assert Alive(next, next.writers[i]) ==> Alive(s, s.writers[i]);
      assert Alive(next, next.writers[j]) ==> Alive(s, s.writers[j]);
    }
  }

  /** No writer belongs to a process that has yet to start. */
  ghost predicate LivesPast(s: State) {
    forall i :: 0 <= i < |s.writers| ==> s.writers[i].life <= Get(s.life, s.writers[i].process)
  }

  lemma KeepsLivesPast(s: State, a: Action)
    requires LivesPast(s)
    ensures LivesPast(Step(s, a))
  {
  }

  lemma StepKeepsInv(s: State, stale: Files, initial: Option<Bytes>, a: Action)
    requires Inv(s, stale, initial) && LivesPast(s)
    ensures Inv(Step(s, a), stale, initial) && LivesPast(Step(s, a))
  {
    KeepsLivesPast(s, a);
    match a
    case Call(process, payload) => CallKeeps(s, stale, initial, process, payload);
    case Die(process) => DeathKeeps(s, stale, initial, process);
    case Act(id, ok, amount) =>
      if id < |s.writers| && Alive(s, s.writers[id]) {
        ActKeeps(s, stale, initial, id, ok, amount);
      }
  }

  lemma ActKeeps(s: State, stale: Files, initial: Option<Bytes>, id: nat, ok: bool, amount: nat)
    requires Inv(s, stale, initial) && id < |s.writers| && Alive(s, s.writers[id])
    ensures Inv(Step(s, Act(id, ok, amount)), stale, initial)
  {
    ActKeepsIssued(s, id, ok, amount);
    ActKeepsApart(s, id, ok, amount);
    ActKeepsFiles(s, stale, id, ok, amount);
    ActKeepsStale(s, stale, id, ok, amount);
    ActKeepsTarget(s, initial, stale, id, ok, amount);
    ActKeepsInstalled(s, id, ok, amount);
  }

  lemma {:induction false} RunKeepsInv(stale: Files, initial: Option<Bytes>, actions: seq<Action>)
    ensures Inv(Run(Start(stale, initial), actions), stale, initial)
    ensures LivesPast(Run(Start(stale, initial), actions))
  {
    if actions != [] {
      RunKeepsInv(stale, initial, actions[..|actions| - 1]);
      StepKeepsInv(Run(Start(stale, initial), actions[..|actions| - 1]), stale, initial, actions[|actions| - 1]);
    }
  }

  // ---- Results over every run ----

  /** Wherever the run stops, the target holds its initial bytes or one complete
      payload: that of the last writer that renamed. */
  lemma TargetIsWhole(stale: Files, initial: Option<Bytes>, actions: seq<Action>)
    ensures var s := Run(Start(stale, initial), actions);
            || (s.target == initial && forall i :: 0 <= i < |s.writers| ==> !Committed(s.writers[i]))
            || (exists i :: 0 <= i < |s.writers| && Committed(s.writers[i]) && s.target == Some(s.writers[i].payload))
  {
    var s := Run(Start(stale, initial), actions);
    RunKeepsInv(stale, initial, actions);
    if s.installed != [] {
      var last := s.installed[|s.installed| - 1];
      assert last in s.installed && Committed(s.writers[last]);
    }
  }

  /** Two live writers never hold the same temporary, each finds in its own exactly
      what it wrote, and the files that were there before stay as they were. */
  lemma TemporariesNotShared(stale: Files, initial: Option<Bytes>, actions: seq<Action>, i: nat, j: nat)
    requires i < |Run(Start(stale, initial), actions).writers| && j < |Run(Start(stale, initial), actions).writers|
    ensures var s := Run(Start(stale, initial), actions);
            var v, w := s.writers[i], s.writers[j];
            && (i != j && Alive(s, v) && Alive(s, w) && HasName(v) && HasName(w) ==> v.phase.temp != w.phase.temp)
            && (Alive(s, v) && v.phase.Writing? ==>
                  && v.phase.temp in s.files && v.phase.count <= |v.payload|
                  && s.files[v.phase.temp] == v.payload[..v.phase.count])
            && (forall t :: t in stale ==> t in s.files && s.files[t] == stale[t])
  {
    var s := Run(Start(stale, initial), actions);
    RunKeepsInv(stale, initial, actions);
    assert FileRight(s, stale, s.writers[i]);
    if i < j {
      assert Apart(s, s.writers[i], s.writers[j]);
    } else if j < i {
      assert Apart(s, s.writers[j], s.writers[i]);
    }
  }

  lemma {:induction false} InstalledGrows(s: State, actions: seq<Action>, n: nat)
    requires n <= |actions|
    ensures Run(s, actions[..n]).installed <= Run(s, actions).installed
    decreases |actions|
  {
    if n == |actions| {
      assert actions[..n] == actions;
    } else {
      var init := actions[..|actions| - 1];
      InstalledGrows(s, init, n);
      assert init[..n] == actions[..n];
    }
  }

  lemma InstallStep(s: State, a: Action)
    ensures Step(s, a).installed == s.installed ==> Step(s, a).target == s.target
    ensures Step(s, a).installed == s.installed || (a.Act? && Step(s, a).installed == s.installed + [a.writer])
    ensures a.Act? && Step(s, a).installed != s.installed ==>
              a.writer < |s.writers| && s.writers[a.writer].phase.Flushed? && Alive(s, s.writers[a.writer])
              && s.writers[a.writer].phase.temp in s.files
              && Step(s, a).target == Some(s.files[s.writers[a.writer].phase.temp])
  {
  }

  lemma PrefixHolds(a: seq<nat>, i: nat, b: seq<nat>)
    ensures a + [i] <= b ==> i in b
  {
    if a + [i] <= b {
      assert b[|a|] == (a + [i])[|a|] == i;
    }
  }

  lemma InstallsPayload(s: State, stale: Files, a: Action, i: nat)
    requires FilesRight(s, stale) && i in Step(s, a).installed && i !in s.installed
    ensures a.Act? && a.writer == i < |Step(s, a).writers| && Step(s, a).target == Some(Step(s, a).writers[i].payload)
  {
  }

  /** A call that answered NotCommitted never changed the target, at any of its steps. */
  lemma NotCommittedIsTrue(stale: Files, initial: Option<Bytes>, actions: seq<Action>, i: nat, n: nat)
    requires i < |Run(Start(stale, initial), actions).writers| && n < |actions|
    requires Run(Start(stale, initial), actions).writers[i].phase == Finished(NotCommitted)
    requires actions[n].Act? && actions[n].writer == i
    ensures Run(Start(stale, initial), actions[..n + 1]).target == Run(Start(stale, initial), actions[..n]).target
  {
    var s0 := Start(stale, initial);
    var before := Run(s0, actions[..n]);
    RunKeepsInv(stale, initial, actions);
    InstalledGrows(s0, actions, n + 1);
    assert actions[..n + 1][..n] == actions[..n];
    InstallStep(before, actions[n]);
    assert i !in Run(s0, actions).installed;
    PrefixHolds(before.installed, i, Run(s0, actions).installed);
  }

  /** A call that answered Ok, or that durability is uncertain, put exactly its payload
      in place at one of its steps. */
  lemma CommittedIsTrue(stale: Files, initial: Option<Bytes>, actions: seq<Action>, i: nat) returns (n: nat)
    requires i < |Run(Start(stale, initial), actions).writers|
    requires Run(Start(stale, initial), actions).writers[i].phase in {Finished(Written), Finished(DurabilityUncertain)}
    ensures n < |actions| && actions[n].Act? && actions[n].writer == i
    ensures Run(Start(stale, initial), actions[..n + 1]).target ==
            Some(Run(Start(stale, initial), actions).writers[i].payload)
  {
    RunKeepsInv(stale, initial, actions);
    assert i in Run(Start(stale, initial), actions).installed;
    n := InstalledSomewhere(stale, initial, actions, i);
  }

  /** The payload writer `i` has in the run is what `target` shows. */
  predicate Shows(target: Option<Bytes>, s: State, i: nat) {
    i < |s.writers| && target == Some(s.writers[i].payload)
  }

  lemma {:induction false} InstalledSomewhere(stale: Files, initial: Option<Bytes>, actions: seq<Action>, i: nat)
    returns (n: nat)
    requires i in Run(Start(stale, initial), actions).installed
    ensures n < |actions| && actions[n].Act? && actions[n].writer == i
    ensures Shows(Run(Start(stale, initial), actions[..n + 1]).target, Run(Start(stale, initial), actions), i)
  {
    var s0 := Start(stale, initial);
    var init, last := actions[..|actions| - 1], actions[|actions| - 1];
    var before := Run(s0, init);
    if i in before.installed {
      n := InstalledSomewhere(stale, initial, init, i);
      assert init[..n + 1] == actions[..n + 1];
      StillShows(Run(s0, actions[..n + 1]).target, before, last, i);
    } else {
      n := |actions| - 1;
      assert actions[..n + 1] == actions;
      RunFiles(stale, initial, init);
      InstallsPayload(before, stale, last, i);
    }
  }

  lemma StillShows(target: Option<Bytes>, s: State, a: Action, i: nat)
    requires Shows(target, s, i)
    ensures Shows(target, Step(s, a), i)
  {
    PayloadKept(s, a, i);
  }

  lemma PayloadKept(s: State, a: Action, i: nat)
    requires i < |s.writers|
    ensures i < |Step(s, a).writers| && Step(s, a).writers[i].payload == s.writers[i].payload
  {
  }

  lemma RunFiles(stale: Files, initial: Option<Bytes>, actions: seq<Action>)
    ensures FilesRight(Run(Start(stale, initial), actions), stale)
  {
    RunKeepsInv(stale, initial, actions);
  }

  // ---- Nothing is left behind ----

  /** No process died, and every removal that was tried worked. */
  predicate Undisturbed(s: State, actions: seq<Action>) {
    actions == [] ||
    (var before, a := actions[..|actions| - 1], actions[|actions| - 1];
     Undisturbed(s, before) && Tidy(Run(s, before), a))
  }

  predicate Tidy(s: State, a: Action) {
    !a.Die? && (a.Act? && a.writer < |s.writers| && s.writers[a.writer].phase.Removing? ==> a.ok)
  }

  predicate OwnedBy(s: State, t: Temp, i: nat) {
    i < |s.writers| && Owns(s.writers[i]) && s.writers[i].phase.temp == t
  }

  /** Every file is an old one or some writer's own temporary, and everyone is alive. */
  ghost predicate AllOwned(s: State, stale: Files) {
    && (forall t :: t in s.files ==> t in stale || exists i :: OwnedBy(s, t, i))
    && (forall i :: 0 <= i < |s.writers| ==> Alive(s, s.writers[i]))
  }

  lemma ActKeepsOwned(s: State, stale: Files, id: nat, ok: bool, amount: nat)
    requires AllOwned(s, stale) && OutcomesSane(s) && Tidy(s, Act(id, ok, amount))
    ensures AllOwned(Step(s, Act(id, ok, amount)), stale)
  {
    var next := Step(s, Act(id, ok, amount));
    if id < |s.writers| {
      assert OutcomeSane(s.writers[id]);
      forall t | t in next.files && t !in stale
        ensures exists i :: OwnedBy(next, t, i)
      {
        if t in s.files {
          var i :| OwnedBy(s, t, i);
          assert OwnedBy(next, t, i);
        } else {
          assert OwnedBy(next, t, id);
        }
      }
    }
  }

  lemma TidyStep(s: State, stale: Files, a: Action)
    requires AllOwned(s, stale) && OutcomesSane(s) && Tidy(s, a)
    ensures AllOwned(Step(s, a), stale)
  {
    if a.Act? {
      ActKeepsOwned(s, stale, a.writer, a.ok, a.amount);
    } else {
      var next := Step(s, a);
      forall t | t in next.files && t !in stale
        ensures exists i :: OwnedBy(next, t, i)
      {
        var i :| OwnedBy(s, t, i);
        assert OwnedBy(next, t, i);
      }
    }
  }

  lemma {:induction false} RunOwned(stale: Files, initial: Option<Bytes>, actions: seq<Action>)
    requires Undisturbed(Start(stale, initial), actions)
    ensures AllOwned(Run(Start(stale, initial), actions), stale)
  {
    if actions != [] {
      var before := actions[..|actions| - 1];
      RunOwned(stale, initial, before);
      RunKeepsInv(stale, initial, before);
      TidyStep(Run(Start(stale, initial), before), stale, actions[|actions| - 1]);
    }
  }

  /** When no process died, no removal failed and every call has returned, the directory
      holds exactly the files it held before. */
  lemma NoLeftovers(stale: Files, initial: Option<Bytes>, actions: seq<Action>)
    requires Undisturbed(Start(stale, initial), actions)
    requires forall w :: w in Run(Start(stale, initial), actions).writers ==> w.phase.Finished?
    ensures Run(Start(stale, initial), actions).files == stale
  {
    var s := Run(Start(stale, initial), actions);
    RunOwned(stale, initial, actions);
    RunKeepsInv(stale, initial, actions);
    assert forall i :: 0 <= i < |s.writers| ==> s.writers[i] in s.writers;
    assert forall t, i :: !OwnedBy(s, t, i);
  }

  // ---- Why a call did not simply succeed ----

  /** This step of writer `i` is where its call goes wrong, with this outcome. */
  predicate GoesWrong(s: State, a: Action, i: nat, outcome: Outcome) {
    && a.Act? && a.writer == i && i < |s.writers| && Alive(s, s.writers[i])
    && var phase := s.writers[i].phase;
       match outcome
       case Written => false
       case NotCommitted =>
         || (!a.ok && (phase.Starting? || phase.Named? || phase.Writing? || phase.Flushed?))
         || (a.ok && phase.Named? && phase.temp in s.files && phase.failed + 1 >= 128)
       case DurabilityUncertain => !a.ok && phase.Renamed?
  }

  predicate WrongAt(start: State, actions: seq<Action>, n: nat, i: nat, outcome: Outcome) {
    n < |actions| && GoesWrong(Run(start, actions[..n]), actions[n], i, outcome)
  }

  ghost predicate WentWrong(start: State, actions: seq<Action>, i: nat, outcome: Outcome) {
    exists n: nat :: WrongAt(start, actions, n, i, outcome)
  }

  lemma StillWrong(start: State, actions: seq<Action>, a: Action, i: nat, outcome: Outcome)
    requires WentWrong(start, actions, i, outcome)
    ensures WentWrong(start, actions + [a], i, outcome)
  {
    var n: nat :| WrongAt(start, actions, n, i, outcome);
    assert (actions + [a])[..n] == actions[..n];
    assert WrongAt(start, actions + [a], n, i, outcome);
  }

  lemma JustWrong(start: State, actions: seq<Action>, a: Action, i: nat, outcome: Outcome)
    requires GoesWrong(Run(start, actions), a, i, outcome)
    ensures WentWrong(start, actions + [a], i, outcome)
  {
    assert (actions + [a])[..|actions|] == actions;
    assert WrongAt(start, actions + [a], |actions|, i, outcome);
  }

  /** The outcome a writer has, or is cleaning up for. */
  predicate Heads(w: Writer, outcome: Outcome) {
    (w.phase.Removing? || w.phase.Finished?) && w.phase.outcome == outcome
  }

  lemma HeadsFrom(s: State, stale: Files, a: Action, i: nat, outcome: Outcome)
    requires FilesRight(s, stale) && i < |Step(s, a).writers| && Heads(Step(s, a).writers[i], outcome) && !outcome.Written?
    ensures (i < |s.writers| && Heads(s.writers[i], outcome)) || GoesWrong(s, a, i, outcome)
  {
    if i < |s.writers| {
      assert FileRight(s, stale, s.writers[i]);
    }
  }

  lemma {:induction false} RunExplained(stale: Files, initial: Option<Bytes>, actions: seq<Action>, i: nat, outcome: Outcome)
    requires i < |Run(Start(stale, initial), actions).writers| && !outcome.Written?
    requires Heads(Run(Start(stale, initial), actions).writers[i], outcome)
    ensures WentWrong(Start(stale, initial), actions, i, outcome)
  {
    var s0 := Start(stale, initial);
    var before, a := actions[..|actions| - 1], actions[|actions| - 1];
    var s := Run(s0, before);
    RunFiles(stale, initial, before);
    HeadsFrom(s, stale, a, i, outcome);
    assert actions == before + [a];
    if GoesWrong(s, a, i, outcome) {
      JustWrong(s0, before, a, i, outcome);
    } else {
      RunExplained(stale, initial, before, i, outcome);
      StillWrong(s0, before, a, i, outcome);
    }
  }

  /** A call answers NotCommitted only if one of its own system calls failed, or 128 names
      in a row were taken; and that durability is uncertain only if its directory sync
      failed after the rename. With nothing going wrong it can only answer Ok. */
  lemma OutcomeIsExplained(stale: Files, initial: Option<Bytes>, actions: seq<Action>, i: nat)
    requires i < |Run(Start(stale, initial), actions).writers|
    requires Run(Start(stale, initial), actions).writers[i].phase.Finished?
    ensures var outcome := Run(Start(stale, initial), actions).writers[i].phase.outcome;
            outcome.Written? || WentWrong(Start(stale, initial), actions, i, outcome)
  {
    var outcome := Run(Start(stale, initial), actions).writers[i].phase.outcome;
    if !outcome.Written? {
      RunExplained(stale, initial, actions, i, outcome);
    }
  }

  /** How many more steps a call can take. */
  function StepsLeft(w: Writer): nat {
    var rest := |w.payload| + 5;
    match w.phase
    case Starting => 2 * MAX_NAMES + rest + 1
    case Trying(n) => 2 * (if n < MAX_NAMES then MAX_NAMES - n else 0) + rest
    case Named(n, _) => 2 * (if n < MAX_NAMES then MAX_NAMES - n else 0) + rest - 1
    case Writing(_, count) => (if count < |w.payload| then |w.payload| - count else 0) + 4
    case Flushed(_) => 3
    case Renamed(_) => 2
    case Removing(_, _) => 1
    case Finished(_) => 0
  }

  predicate Counts(w: Writer) { (w.phase.Trying? || w.phase.Named?) ==> w.phase.failed < MAX_NAMES }

  /** Every step of a live call brings it nearer its end: it returns after at most
      262 steps more than its payload has bytes. */
  lemma CallReturns(s: State, i: nat, ok: bool, amount: nat)
    requires i < |s.writers| && Alive(s, s.writers[i]) && !s.writers[i].phase.Finished? && Counts(s.writers[i])
    ensures var w := Step(s, Act(i, ok, amount)).writers[i];
            Counts(w) && StepsLeft(w) < StepsLeft(s.writers[i]) <= |s.writers[i].payload| + 262
  {
  }

  // ---- Exactly which answer a call gives ----

  lemma HeadsOn(s: State, a: Action, i: nat, outcome: Outcome)
    requires i < |s.writers| && Heads(s.writers[i], outcome)
    ensures i < |Step(s, a).writers| && Heads(Step(s, a).writers[i], outcome)
  {
  }

  lemma WrongHeads(s: State, a: Action, i: nat, outcome: Outcome)
    requires GoesWrong(s, a, i, outcome)
    ensures i < |Step(s, a).writers| && Heads(Step(s, a).writers[i], outcome)
  {
  }

  lemma {:induction false} WrongDecides(start: State, actions: seq<Action>, n: nat, i: nat, outcome: Outcome)
    requires WrongAt(start, actions, n, i, outcome)
    ensures i < |Run(start, actions).writers| && Heads(Run(start, actions).writers[i], outcome)
    decreases |actions|
  {
    var before, a := actions[..|actions| - 1], actions[|actions| - 1];
    if n == |actions| - 1 {
      WrongHeads(Run(start, before), a, i, outcome);
    } else {
      assert before[..n] == actions[..n] && before[n] == actions[n];
      WrongDecides(start, before, n, i, outcome);
      HeadsOn(Run(start, before), a, i, outcome);
    }
  }

  /** A call that has returned answers each failure exactly when one of its own steps went
      wrong in that way, and Ok exactly when none did. */
  lemma OutcomeExact(stale: Files, initial: Option<Bytes>, actions: seq<Action>, i: nat, outcome: Outcome)
    requires i < |Run(Start(stale, initial), actions).writers|
    requires Run(Start(stale, initial), actions).writers[i].phase.Finished?
    ensures WentWrong(Start(stale, initial), actions, i, outcome) <==>
            Run(Start(stale, initial), actions).writers[i].phase.outcome == outcome && !outcome.Written?
  {
    var start := Start(stale, initial);
    if n: nat :| WrongAt(start, actions, n, i, outcome) {
      WrongDecides(start, actions, n, i, outcome);
    }
    OutcomeIsExplained(stale, initial, actions, i);
  }
}
