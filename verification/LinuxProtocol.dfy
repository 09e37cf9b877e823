/** The bpftrace line protocol (linux_network.rs): a staged assembler that accepts
    numbered intervals with checked counts and totals. Lines are already split into
    typed fields here; `LinuxText` connects them to characters. Error texts are
    dropped: any violation is one error. */
module LinuxProtocol {
  import opened Basics

  const MAX_U32: nat := 0xffff_ffff
  const MAX_U64: nat := 0xffff_ffff_ffff_ffff
  const PROTOCOL_VERSION: nat := 2

  datatype Direction = Rx | Tx

  datatype Line =
    | Header(version: nat)
    | Begin(direction: Direction, epoch: nat)
    | Entry(direction: Direction, epoch: nat, pid: nat, bytes: nat)
    | End(direction: Direction, epoch: nat, count: nat, total: nat, stale: nat, overflow: nat)
    | Marker(epoch: nat)

  datatype Stage =
    | AwaitingHeader
    | AwaitingRxBegin
    | ReadingRx
    | AwaitingTxBegin
    | ReadingTx
    | AwaitingMarker

  datatype Pending = Pending(rx: map<nat, nat>, tx: map<nat, nat>)

  const NOTHING := Pending(map[], map[])

  datatype Assembler = Assembler(epoch: nat, stage: Stage, count: nat, total: nat, pending: Pending)

  const FRESH := Assembler(1, AwaitingHeader, 0, 0, NOTHING)

  function Before(d: Direction): Stage { if d.Rx? then AwaitingRxBegin else AwaitingTxBegin }

  function Inside(d: Direction): Stage { if d.Rx? then ReadingRx else ReadingTx }

  function Past(d: Direction): Stage { if d.Rx? then AwaitingTxBegin else AwaitingMarker }

  function Counts(p: Pending, d: Direction): map<nat, nat> { if d.Rx? then p.rx else p.tx }

  function Noting(p: Pending, d: Direction, pid: nat, bytes: nat): Pending {
    if d.Rx? then p.(rx := p.rx[pid := bytes]) else p.(tx := p.tx[pid := bytes])
  }

  predicate Acceptable(a: Assembler, l: Line) {
    match l
    case Header(v) => a.stage.AwaitingHeader? && v == PROTOCOL_VERSION
    case Begin(d, e) => a.stage == Before(d) && e == a.epoch
    case Entry(d, e, pid, bytes) =>
      && a.stage == Inside(d) && e == a.epoch && pid !in Counts(a.pending, d)
      && a.count + 1 <= MAX_U64 && a.total + bytes <= MAX_U64
    case End(d, e, count, total, stale, overflow) =>
      && a.stage == Inside(d) && e == a.epoch
      && count == a.count && total == a.total && stale == 0 && overflow == 0
    case Marker(e) => a.stage.AwaitingMarker? && e == a.epoch && a.epoch + 1 <= MAX_U64
  }

  function Advanced(a: Assembler, l: Line): Assembler {
    match l
    case Header(_) => a.(stage := AwaitingRxBegin)
    case Begin(d, _) => if d.Rx? then a.(stage := ReadingRx, count := 0, total := 0) else a.(stage := ReadingTx)
    case Entry(d, _, pid, bytes) =>
      a.(pending := Noting(a.pending, d, pid, bytes), count := a.count + 1, total := a.total + bytes)
    case End(d, _, _, _, _, _) => a.(stage := Past(d), count := 0, total := 0)
    case Marker(_) => a.(epoch := a.epoch + 1, stage := AwaitingRxBegin, pending := NOTHING)
  }

  class ProtocolAssembler {
    var epoch: nat
    var stage: Stage
    var count: nat
    var total: nat
    var pending: Pending

    ghost function State(): Assembler
      reads this
    {
      Assembler(epoch, stage, count, total, pending)
    }

    constructor ()
      ensures State() == FRESH
    {
      epoch, stage, count, total, pending := 1, AwaitingHeader, 0, 0, NOTHING;
    }

    method AddSectionEntry(bytes: nat) returns (ok: bool)
      modifies this`count, this`total
      ensures ok == (old(count) + 1 <= MAX_U64 && old(total) + bytes <= MAX_U64)
      ensures ok ==> count == old(count) + 1 && total == old(total) + bytes
    {
      if count + 1 > MAX_U64 {
        return false;
      }
      count := count + 1;
      if total + bytes > MAX_U64 {
        return false;
      }
      total := total + bytes;
      return true;
    }

    /** After an error the reader never ingests another line, so the half-updated
        state it leaves is not specified. */
    method Ingest(l: Line) returns (r: Result<Option<Pending>, ()>)
      modifies this
      ensures r.Ok? == Acceptable(old(State()), l)
      ensures r.Ok? ==> State() == Advanced(old(State()), l)
      ensures r.Ok? ==> r.value == if l.Marker? then Some(old(pending)) else None
    {
      match l {
        case Header(v) =>
          if stage != AwaitingHeader || v != PROTOCOL_VERSION {
            return Err(());
          }
          stage := AwaitingRxBegin;
        case Begin(d, e) =>
          if stage != Before(d) || e != epoch {
            return Err(());
          }
          stage := Inside(d);
          if d.Rx? {
            count, total := 0, 0;
          }
        case Entry(d, e, pid, bytes) =>
          if stage != Inside(d) || e != epoch {
            return Err(());
          }
          var duplicate := pid in Counts(pending, d);
          pending := Noting(pending, d, pid, bytes);
          if duplicate {
            return Err(());
          }
          var ok := AddSectionEntry(bytes);
          if !ok {
            return Err(());
          }
        case End(d, e, c, t, stale, overflow) =>
          if stage != Inside(d) || e != epoch || c != count || t != total || stale != 0 || overflow != 0 {
            return Err(());
          }
          stage := Past(d);
          count, total := 0, 0;
        case Marker(e) =>
          if stage != AwaitingMarker || e != epoch || epoch + 1 > MAX_U64 {
            return Err(());
          }
          epoch := epoch + 1;
          stage := AwaitingRxBegin;
          var completed := pending;
          pending := NOTHING;
          return Ok(Some(completed));
      }
      return Ok(None);
    }
  }

  // ---- Whole outputs ----

  /** The assembler after a sequence of accepted lines and the intervals completed,
      or `None` if some line is refused. */
  function Feed(a: Assembler, lines: seq<Line>): Option<(Assembler, seq<Pending>)> {
    if lines == [] then Some((a, []))
    else
      var before, l := Feed(a, lines[..|lines| - 1]), lines[|lines| - 1];
      if before.None? || !Acceptable(before.value.0, l) then None
      else
        var (b, done) := before.value;
        Some((Advanced(b, l), if l.Marker? then done + [b.pending] else done))
  }

  datatype Count = Count(pid: nat, bytes: nat)

  /** One interval as it appears in the output. */
  datatype Interval = Interval(rx: seq<Count>, tx: seq<Count>)

  function MapOf(cs: seq<Count>): map<nat, nat> {
    if cs == [] then map[] else MapOf(cs[..|cs| - 1])[cs[|cs| - 1].pid := cs[|cs| - 1].bytes]
  }

  function Sum(cs: seq<Count>): nat {
    if cs == [] then 0 else Sum(cs[..|cs| - 1]) + cs[|cs| - 1].bytes
  }

  predicate Distinct(cs: seq<Count>) {
    forall i, j :: 0 <= i < j < |cs| ==> cs[i].pid != cs[j].pid
  }

  predicate WellFormed(cs: seq<Count>) { Distinct(cs) && Sum(cs) <= MAX_U64 && |cs| <= MAX_U64 }

  predicate WellFormedInterval(i: Interval) { WellFormed(i.rx) && WellFormed(i.tx) }

  function EntryLines(d: Direction, epoch: nat, cs: seq<Count>): seq<Line> {
    seq(|cs|, i requires 0 <= i < |cs| => Entry(d, epoch, cs[i].pid, cs[i].bytes))
  }

  function SectionLines(d: Direction, epoch: nat, cs: seq<Count>): seq<Line> {
    [Begin(d, epoch)] + EntryLines(d, epoch, cs) + [End(d, epoch, |cs|, Sum(cs), 0, 0)]
  }

  function IntervalLines(epoch: nat, i: Interval): seq<Line> {
    SectionLines(Rx, epoch, i.rx) + SectionLines(Tx, epoch, i.tx) + [Marker(epoch)]
  }

  /** The header, then intervals numbered 1, 2, 3, ... */
  function Transcript(intervals: seq<Interval>): seq<Line> {
    if intervals == [] then [Header(PROTOCOL_VERSION)]
    else Transcript(intervals[..|intervals| - 1]) + IntervalLines(|intervals|, intervals[|intervals| - 1])
  }

  /** The lines of an interval that has got as far as `stage`. */
  function PartialLines(stage: Stage, epoch: nat, i: Interval): seq<Line> {
    match stage
    case ReadingRx => [Begin(Rx, epoch)] + EntryLines(Rx, epoch, i.rx)
    case AwaitingTxBegin => SectionLines(Rx, epoch, i.rx)
    case ReadingTx => SectionLines(Rx, epoch, i.rx) + ([Begin(Tx, epoch)] + EntryLines(Tx, epoch, i.tx))
    case AwaitingMarker => SectionLines(Rx, epoch, i.rx) + SectionLines(Tx, epoch, i.tx)
    case _ => []
  }

  function PendingOf(i: Interval): Pending { Pending(MapOf(i.rx), MapOf(i.tx)) }

  lemma {:induction false} FeedAppend(a: Assembler, xs: seq<Line>, ys: seq<Line>)
    ensures Feed(a, xs + ys) ==
            if Feed(a, xs).None? then None
            else
              var (b, done) := Feed(a, xs).value;
              var rest := Feed(b, ys);
              if rest.None? then None else Some((rest.value.0, done + rest.value.1))
  {
    if ys == [] {
      assert xs + ys == xs;
      assert Feed(a, xs).Some? ==> Feed(a, xs).value.1 + [] == Feed(a, xs).value.1;
    } else {
      var init, l := ys[..|ys| - 1], ys[|ys| - 1];
      FeedAppend(a, xs, init);
      assert (xs + ys)[..|xs + ys| - 1] == xs + init;
      if Feed(a, xs).Some? && Feed(Feed(a, xs).value.0, init).Some? {
        var (b, done) := Feed(a, xs).value;
        var (c, more) := Feed(b, init).value;
        assert (done + more) + [c.pending] == done + (more + [c.pending]);
      }
    }
  }

  lemma FeedOne(a: Assembler, l: Line)
    requires Acceptable(a, l)
    ensures Feed(a, [l]) == Some((Advanced(a, l), if l.Marker? then [a.pending] else []))
  {
    assert Feed(a, [l][..0]) == Some((a, []));
    assert [] + [a.pending] == [a.pending];
  }

  // ---- Completeness: everything printed is accepted and read back ----

  lemma {:induction false} MapOfKeys(cs: seq<Count>, pid: nat)
    ensures pid in MapOf(cs) <==> exists i :: 0 <= i < |cs| && cs[i].pid == pid
  {
    if cs != [] {
      MapOfKeys(cs[..|cs| - 1], pid);
      assert cs[|cs| - 1].pid == pid ==> pid in MapOf(cs);
    }
  }

  lemma PrefixWellFormed(cs: seq<Count>)
    requires WellFormed(cs) && cs != []
    ensures var init, last := cs[..|cs| - 1], cs[|cs| - 1];
            WellFormed(init) && last.pid !in MapOf(init) && Sum(init) + last.bytes <= MAX_U64
  {
    MapOfKeys(cs[..|cs| - 1], cs[|cs| - 1].pid);
  }

  function WithCounts(p: Pending, d: Direction, m: map<nat, nat>): Pending {
    if d.Rx? then p.(rx := m) else p.(tx := m)
  }

  lemma {:induction false} EntriesAccepted(a: Assembler, d: Direction, cs: seq<Count>)
    requires WellFormed(cs) && a.stage == Inside(d) && a.count == 0 && a.total == 0
    requires Counts(a.pending, d) == map[]
    ensures Feed(a, EntryLines(d, a.epoch, cs)) ==
            Some((a.(count := |cs|, total := Sum(cs), pending := WithCounts(a.pending, d, MapOf(cs))), []))
  {
    if cs != [] {
      var init := cs[..|cs| - 1];
      PrefixWellFormed(cs);
      EntriesAccepted(a, d, init);
      assert EntryLines(d, a.epoch, cs)[..|cs| - 1] == EntryLines(d, a.epoch, init);
    }
  }

  lemma SectionAccepted(a: Assembler, d: Direction, cs: seq<Count>)
    requires WellFormed(cs) && a.stage == Before(d) && a.count == 0 && a.total == 0
    requires Counts(a.pending, d) == map[]
    ensures Feed(a, SectionLines(d, a.epoch, cs)) ==
            Some((a.(stage := Past(d), pending := WithCounts(a.pending, d, MapOf(cs))), []))
  {
    var begin, entries := Begin(d, a.epoch), EntryLines(d, a.epoch, cs);
    var end := End(d, a.epoch, |cs|, Sum(cs), 0, 0);
    FeedOne(a, begin);
    var b := Advanced(a, begin);
    EntriesAccepted(b, d, cs);
    FeedAppend(a, [begin], entries);
    var c := b.(count := |cs|, total := Sum(cs), pending := WithCounts(a.pending, d, MapOf(cs)));
    FeedOne(c, end);
    FeedAppend(a, [begin] + entries, [end]);
  }

  /** Printing any well-formed interval for the expected epoch and feeding the lines
      back yields exactly its maps. */
  lemma PrintedIntervalReadBack(a: Assembler, i: Interval)
    requires WellFormedInterval(i) && a.stage.AwaitingRxBegin? && a.count == 0 && a.total == 0
    requires a.pending == NOTHING && a.epoch + 1 <= MAX_U64
    ensures Feed(a, IntervalLines(a.epoch, i)) == Some((a.(epoch := a.epoch + 1), [PendingOf(i)]))
  {
    var c := a.(stage := AwaitingMarker, pending := PendingOf(i));
    TwoSections(a, i);
    OneMoreLine(a, SectionLines(Rx, a.epoch, i.rx) + SectionLines(Tx, a.epoch, i.tx), c, Marker(a.epoch));
  }

  lemma TwoSections(a: Assembler, i: Interval)
    requires WellFormedInterval(i) && a.stage.AwaitingRxBegin? && a.count == 0 && a.total == 0 && a.pending == NOTHING
    ensures Feed(a, SectionLines(Rx, a.epoch, i.rx) + SectionLines(Tx, a.epoch, i.tx)) ==
            Some((a.(stage := AwaitingMarker, pending := PendingOf(i)), []))
  {
    var b := a.(stage := AwaitingTxBegin, pending := Pending(MapOf(i.rx), map[]));
    SectionAccepted(a, Rx, i.rx);
    SectionAccepted(b, Tx, i.tx);
    Chained(a, SectionLines(Rx, a.epoch, i.rx), b, SectionLines(Tx, a.epoch, i.tx),
            a.(stage := AwaitingMarker, pending := PendingOf(i)));
  }

  /** Two runs of lines that complete no interval, one after the other. */
  lemma Chained(a: Assembler, xs: seq<Line>, b: Assembler, ys: seq<Line>, c: Assembler)
    requires Feed(a, xs) == Some((b, [])) && Feed(b, ys) == Some((c, []))
    ensures Feed(a, xs + ys) == Some((c, []))
  {
    FeedAppend(a, xs, ys);
  }

  lemma OneMoreLine(a: Assembler, xs: seq<Line>, b: Assembler, l: Line)
    requires Feed(a, xs) == Some((b, [])) && Acceptable(b, l) && l.Marker?
    ensures Feed(a, xs + [l]) == Some((Advanced(b, l), [b.pending]))
  {
    assert (xs + [l])[..|xs|] == xs;
    var none: seq<Pending> := [];
    assert none + [b.pending] == [b.pending];
  }

  function AllPending(intervals: seq<Interval>): seq<Pending> {
    seq(|intervals|, k requires 0 <= k < |intervals| => PendingOf(intervals[k]))
  }

  /** A whole well-formed transcript is accepted, interval by interval. */
  lemma {:induction false} TranscriptReadBack(intervals: seq<Interval>)
    requires |intervals| < MAX_U64 && forall k :: 0 <= k < |intervals| ==> WellFormedInterval(intervals[k])
    ensures Feed(FRESH, Transcript(intervals)) ==
            Some((Assembler(|intervals| + 1, AwaitingRxBegin, 0, 0, NOTHING), AllPending(intervals)))
  {
    if intervals == [] {
      FeedOne(FRESH, Header(PROTOCOL_VERSION));
    } else {
      var init, last := intervals[..|intervals| - 1], intervals[|intervals| - 1];
      TranscriptReadBack(init);
      PrintedIntervalReadBack(Assembler(|intervals|, AwaitingRxBegin, 0, 0, NOTHING), last);
      FeedAppend(FRESH, Transcript(init), IntervalLines(|intervals|, last));
      assert AllPending(intervals) == AllPending(init) + [PendingOf(last)];
    }
  }

  // ---- Soundness: nothing else is accepted ----

  /** The assembler is inside the interval after `n` complete ones, with this much of
      it read. */
  predicate ReadSoFar(a: Assembler, n: nat, tail: Interval) {
    && a.epoch == n + 1 <= MAX_U64 && a.pending == PendingOf(tail) && WellFormedInterval(tail)
    && (a.stage.AwaitingRxBegin? ==> tail.rx == [])
    && (a.stage.AwaitingRxBegin? || a.stage.ReadingRx? || a.stage.AwaitingTxBegin? ==> tail.tx == [])
    && a.count == (if a.stage.ReadingRx? then |tail.rx| else if a.stage.ReadingTx? then |tail.tx| else 0)
    && a.total == (if a.stage.ReadingRx? then Sum(tail.rx) else if a.stage.ReadingTx? then Sum(tail.tx) else 0)
  }

  /** What the accepted lines so far must have been. */
  predicate Explains(a: Assembler, done: seq<Pending>, lines: seq<Line>, intervals: seq<Interval>, tail: Interval) {
    if a.stage.AwaitingHeader? then lines == [] && done == [] && intervals == [] && tail == Interval([], []) && a == FRESH
    else
      && lines == Transcript(intervals) + PartialLines(a.stage, |intervals| + 1, tail)
      && done == AllPending(intervals)
      && (forall k :: 0 <= k < |intervals| ==> WellFormedInterval(intervals[k]))
      && ReadSoFar(a, |intervals|, tail)
  }

  function Extended(i: Interval, d: Direction, c: Count): Interval {
    if d.Rx? then i.(rx := i.rx + [c]) else i.(tx := i.tx + [c])
  }

  lemma DistinctAppended(cs: seq<Count>, c: Count)
    requires Distinct(cs) && forall i :: 0 <= i < |cs| ==> cs[i].pid != c.pid
    ensures Distinct(cs + [c])
  {
  }

  lemma CountAppended(cs: seq<Count>, c: Count)
    requires WellFormed(cs) && c.pid !in MapOf(cs) && |cs| + 1 <= MAX_U64 && Sum(cs) + c.bytes <= MAX_U64
    ensures WellFormed(cs + [c])
    ensures MapOf(cs + [c]) == MapOf(cs)[c.pid := c.bytes] && Sum(cs + [c]) == Sum(cs) + c.bytes
  {
    assert (cs + [c])[..|cs|] == cs;
    forall i | 0 <= i < |cs| ensures cs[i].pid != c.pid { MapOfKeys(cs, cs[i].pid); }
    DistinctAppended(cs, c);
  }

  lemma PartialAppended(d: Direction, epoch: nat, i: Interval, c: Count)
    ensures PartialLines(Inside(d), epoch, Extended(i, d, c)) ==
            PartialLines(Inside(d), epoch, i) + [Entry(d, epoch, c.pid, c.bytes)]
  {
  }

  lemma EntryRead(a: Assembler, n: nat, tail: Interval, l: Line)
    requires ReadSoFar(a, n, tail) && Acceptable(a, l) && l.Entry?
    ensures ReadSoFar(Advanced(a, l), n, Extended(tail, l.direction, Count(l.pid, l.bytes)))
  {
    CountAppended(if l.direction.Rx? then tail.rx else tail.tx, Count(l.pid, l.bytes));
  }

  lemma EntryExplained(a: Assembler, done: seq<Pending>, lines: seq<Line>, intervals: seq<Interval>, tail: Interval, l: Line)
    requires Explains(a, done, lines, intervals, tail) && Acceptable(a, l) && l.Entry?
    ensures Explains(Advanced(a, l), done, lines + [l], intervals, Extended(tail, l.direction, Count(l.pid, l.bytes)))
  {
    EntryRead(a, |intervals|, tail, l);
    PartialAppended(l.direction, a.epoch, tail, Count(l.pid, l.bytes));
    Regrouped(Transcript(intervals), PartialLines(a.stage, a.epoch, tail), l);
  }

  lemma Regrouped(xs: seq<Line>, ys: seq<Line>, l: Line)
    ensures (xs + ys) + [l] == xs + (ys + [l])
  {
  }

  lemma BoundaryRead(a: Assembler, n: nat, tail: Interval, l: Line)
    requires ReadSoFar(a, n, tail) && Acceptable(a, l) && (l.Begin? || l.End?)
    ensures ReadSoFar(Advanced(a, l), n, tail)
    ensures PartialLines(Advanced(a, l).stage, a.epoch, tail) == PartialLines(a.stage, a.epoch, tail) + [l]
  {
  }

  lemma BoundaryExplained(a: Assembler, done: seq<Pending>, lines: seq<Line>, intervals: seq<Interval>, tail: Interval, l: Line)
    requires Explains(a, done, lines, intervals, tail) && Acceptable(a, l) && (l.Begin? || l.End?)
    ensures Explains(Advanced(a, l), done, lines + [l], intervals, tail)
  {
    BoundaryRead(a, |intervals|, tail, l);
    Regrouped(Transcript(intervals), PartialLines(a.stage, a.epoch, tail), l);
  }

  lemma MarkerExplained(a: Assembler, done: seq<Pending>, lines: seq<Line>, intervals: seq<Interval>, tail: Interval, l: Line)
    requires Explains(a, done, lines, intervals, tail) && Acceptable(a, l) && l.Marker?
    ensures Explains(Advanced(a, l), done + [a.pending], lines + [l], intervals + [tail], Interval([], []))
  {
    var all := intervals + [tail];
    assert all[..|intervals|] == intervals;
    assert Transcript(all) == Transcript(intervals) + IntervalLines(|intervals| + 1, tail);
    assert AllPending(all) == AllPending(intervals) + [PendingOf(tail)];
  }

  lemma LineExplained(a: Assembler, done: seq<Pending>, lines: seq<Line>, intervals: seq<Interval>, tail: Interval, l: Line)
    returns (more: seq<Interval>, rest: Interval)
    requires Explains(a, done, lines, intervals, tail) && Acceptable(a, l)
    ensures Explains(Advanced(a, l), if l.Marker? then done + [a.pending] else done, lines + [l], more, rest)
  {
    more, rest := intervals, tail;
    match l {
      case Header(_) =>
      case Begin(_, _) => BoundaryExplained(a, done, lines, intervals, tail, l);
      case End(_, _, _, _, _, _) => BoundaryExplained(a, done, lines, intervals, tail, l);
      case Entry(d, _, pid, bytes) =>
        EntryExplained(a, done, lines, intervals, tail, l);
        rest := Extended(tail, d, Count(pid, bytes));
      case Marker(_) =>
        MarkerExplained(a, done, lines, intervals, tail, l);
        more, rest := intervals + [tail], Interval([], []);
    }
  }

  /** Any accepted sequence of lines is the header followed by well-formed intervals
      numbered 1, 2, 3, ..., fewer than 2^64 - 1 of them, and a partial one; the
      completed maps are theirs. */
  lemma {:induction false} OnlyTranscriptsAccepted(lines: seq<Line>) returns (intervals: seq<Interval>, tail: Interval)
    requires Feed(FRESH, lines).Some?
    ensures var (a, done) := Feed(FRESH, lines).value; Explains(a, done, lines, intervals, tail)
  {
    if lines == [] {
      return [], Interval([], []);
    }
    var init, l := lines[..|lines| - 1], lines[|lines| - 1];
    assert lines == init + [l];
    intervals, tail := OnlyTranscriptsAccepted(init);
    var (a, done) := Feed(FRESH, init).value;
    intervals, tail := LineExplained(a, done, init, intervals, tail, l);
  }

  lemma PartialIsPrefix(stage: Stage, epoch: nat, i: Interval)
    ensures var partial, whole := PartialLines(stage, epoch, i), SectionLines(Rx, epoch, i.rx) + SectionLines(Tx, epoch, i.tx);
            |partial| <= |whole| && partial == whole[..|partial|]
  {
  }

  lemma PrefixAccepted(start: seq<Line>, whole: seq<Line>, partial: seq<Line>)
    requires Feed(FRESH, start + whole).Some?
    requires |partial| <= |whole| && partial == whole[..|partial|]
    ensures Feed(FRESH, start + partial).Some?
  {
    var rest := whole[|partial|..];
    assert start + whole == (start + partial) + rest;
    FeedAppend(FRESH, start + partial, rest);
  }

  lemma WholeAccepted(intervals: seq<Interval>, tail: Interval)
    requires |intervals| < MAX_U64 && WellFormedInterval(tail)
    requires forall k :: 0 <= k < |intervals| ==> WellFormedInterval(intervals[k])
    ensures var n := |intervals| + 1;
            Feed(FRESH, Transcript(intervals) + (SectionLines(Rx, n, tail.rx) + SectionLines(Tx, n, tail.tx))).Some?
  {
    var n := |intervals| + 1;
    var a := Assembler(n, AwaitingRxBegin, 0, 0, NOTHING);
    TranscriptReadBack(intervals);
    TwoSections(a, tail);
    Joins(FRESH, Transcript(intervals), a, AllPending(intervals), SectionLines(Rx, n, tail.rx) + SectionLines(Tx, n, tail.tx));
  }

  lemma Joins(a: Assembler, xs: seq<Line>, b: Assembler, done: seq<Pending>, ys: seq<Line>)
    requires Feed(a, xs) == Some((b, done)) && Feed(b, ys).Some?
    ensures Feed(a, xs + ys).Some?
  {
    FeedAppend(a, xs, ys);
  }

  /** Conversely every such sequence is accepted, whatever stage it stops in. */
  lemma TranscriptsAccepted(intervals: seq<Interval>, tail: Interval, stage: Stage)
    requires |intervals| < MAX_U64 && WellFormedInterval(tail)
    requires forall k :: 0 <= k < |intervals| ==> WellFormedInterval(intervals[k])
    ensures Feed(FRESH, Transcript(intervals) + PartialLines(stage, |intervals| + 1, tail)).Some?
  {
    WholeAccepted(intervals, tail);
    PartialIsPrefix(stage, |intervals| + 1, tail);
    var n := |intervals| + 1;
    PrefixAccepted(Transcript(intervals), SectionLines(Rx, n, tail.rx) + SectionLines(Tx, n, tail.tx), PartialLines(stage, n, tail));
  }
}
