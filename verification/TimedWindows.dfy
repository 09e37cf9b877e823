/** Sliding windows over timed samples (collector_engine.rs): pushed at the back,
    pruned only at the front. Under a non-decreasing clock that is the same as
    filtering the whole history by age. */
module TimedWindows {

  type Sample<V> = (int, V)

  /** `saturating_duration_since`. */
  function Age(now: int, at: int): nat {
    if now < at then 0 else now - at
  }

  /** What front pruning keeps. */
  function PruneFront<V>(s: seq<Sample<V>>, now: int, window: nat): seq<Sample<V>> {
    if s != [] && Age(now, s[0].0) > window then PruneFront(s[1..], now, window) else s
  }

  /** The reference: every sample from no earlier than `now - window`, wherever it is. */
  function Recent<V>(s: seq<Sample<V>>, now: int, window: nat): seq<Sample<V>> {
    if s == [] then []
    else if s[0].0 < now - window then Recent(s[1..], now, window)
    else [s[0]] + Recent(s[1..], now, window)
  }

  function Total(s: seq<Sample<nat>>): nat {
    if s == [] then 0 else s[0].1 + Total(s[1..])
  }

  function Values<V>(s: seq<Sample<V>>): seq<V> {
    seq(|s|, i requires 0 <= i < |s| => s[i].1)
  }

  class TimedWindow<V> {
    const window: nat
    var values: seq<Sample<V>>

    constructor (window: nat)
      ensures this.window == window && values == []
    {
      this.window := window;
      values := [];
    }

    method Prune(now: int)
      modifies this
      ensures values == PruneFront(old(values), now, window)
    {
      while values != [] && Age(now, values[0].0) > window
        invariant PruneFront(values, now, window) == PruneFront(old(values), now, window)
        decreases |values|
      {
        values := values[1..];
      }
    }

    method AddAt(at: int, value: V)
      modifies this
      ensures values == PruneFront(old(values) + [(at, value)], at, window)
    {
      values := values + [(at, value)];
      Prune(at);
    }
  }

  method CountAt(w: TimedWindow<nat>, now: int) returns (total: nat)
    modifies w
    ensures w.values == PruneFront(old(w.values), now, w.window)
    ensures total == Total(w.values)
  {
    w.Prune(now);
    total := 0;
    for i := 0 to |w.values|
      invariant total + Total(w.values[i..]) == Total(w.values)
    {
      total := total + w.values[i].1;
    }
  }

  // ---- Over a whole run ----

  datatype WindowOp<V> = Add(at: int, value: V) | Read(at: int)

  function AfterOp<V>(s: seq<Sample<V>>, op: WindowOp<V>, window: nat): seq<Sample<V>> {
    match op
    case Add(at, v) => PruneFront(s + [(at, v)], at, window)
    case Read(at) => PruneFront(s, at, window)
  }

  function AfterOps<V>(ops: seq<WindowOp<V>>, window: nat): seq<Sample<V>> {
    if ops == [] then [] else AfterOp(AfterOps(ops[..|ops| - 1], window), ops[|ops| - 1], window)
  }

  function History<V>(ops: seq<WindowOp<V>>): seq<Sample<V>> {
    if ops == [] then []
    else
      var last := ops[|ops| - 1];
      History(ops[..|ops| - 1]) + (if last.Add? then [(last.at, last.value)] else [])
  }

  predicate Monotone<V>(ops: seq<WindowOp<V>>) {
    forall i, j :: 0 <= i < j < |ops| ==> ops[i].at <= ops[j].at
  }

  predicate Ordered<V>(s: seq<Sample<V>>) {
    forall i, j :: 0 <= i < j < |s| ==> s[i].0 <= s[j].0
  }

  lemma {:induction false} RecentAppend<V>(s: seq<Sample<V>>, x: Sample<V>, now: int, window: nat)
    ensures Recent(s + [x], now, window) == Recent(s, now, window) + Recent([x], now, window)
  {
    if s != [] {
      RecentAppend(s[1..], x, now, window);
      assert (s + [x])[1..] == s[1..] + [x];
    } else {
      assert s + [x] == [x];
    }
  }

  /** Filtering twice at growing times is filtering once at the later time. */
  lemma {:induction false} RecentTwice<V>(s: seq<Sample<V>>, now: int, later: int, window: nat)
    requires now <= later
    ensures Recent(Recent(s, now, window), later, window) == Recent(s, later, window)
  {
    if s != [] {
      RecentTwice(s[1..], now, later, window);
      var r := Recent(s[1..], now, window);
      if Age(now, s[0].0) <= window {
        assert Recent(s, now, window) == [s[0]] + r;
        assert ([s[0]] + r)[1..] == r;
      }
    }
  }

  lemma {:induction false} AllRecent<V>(s: seq<Sample<V>>, now: int, window: nat)
    requires forall x :: x in s ==> Age(now, x.0) <= window
    ensures Recent(s, now, window) == s
  {
    if s != [] {
      AllRecent(s[1..], now, window);
    }
  }

  lemma {:induction false} PruneIsFilter<V>(s: seq<Sample<V>>, now: int, window: nat)
    requires Ordered(s)
    ensures PruneFront(s, now, window) == Recent(s, now, window)
  {
    if s != [] && Age(now, s[0].0) > window {
      PruneIsFilter(s[1..], now, window);
    } else {
      AllRecent(s, now, window);
    }
  }

  lemma {:induction false} RecentMembers<V>(s: seq<Sample<V>>, now: int, window: nat)
    ensures forall x :: x in Recent(s, now, window) ==> x in s && Age(now, x.0) <= window
    ensures Ordered(s) ==> Ordered(Recent(s, now, window))
  {
    if s != [] {
      RecentMembers(s[1..], now, window);
      if Ordered(s) {
        var r := Recent(s[1..], now, window);
        assert forall x :: x in r ==> s[0].0 <= x.0;
        assert Ordered([s[0]] + r);
      }
    }
  }

  lemma {:induction false} HistoryOrdered<V>(ops: seq<WindowOp<V>>)
    requires Monotone(ops)
    ensures Ordered(History(ops))
    ensures forall x :: x in History(ops) ==> ops != [] && x.0 <= ops[|ops| - 1].at
  {
    if ops != [] {
      HistoryOrdered(ops[..|ops| - 1]);
    }
  }

  lemma AddIsFiltered<V>(h: seq<Sample<V>>, s: seq<Sample<V>>, x: Sample<V>, window: nat)
    requires Ordered(s) && (forall y :: y in s ==> y.0 <= x.0)
    requires Recent(s, x.0, window) == Recent(h, x.0, window)
    ensures PruneFront(s + [x], x.0, window) == Recent(h + [x], x.0, window)
  {
    PruneIsFilter(s + [x], x.0, window);
    RecentAppend(s, x, x.0, window);
    RecentAppend(h, x, x.0, window);
  }

  /** The pruned window holds exactly the in-window part of everything ever added. */
  lemma {:induction false} WindowIsFilteredHistory<V>(ops: seq<WindowOp<V>>, window: nat)
    requires ops != [] && Monotone(ops)
    ensures AfterOps(ops, window) == Recent(History(ops), ops[|ops| - 1].at, window)
  {
    var n := |ops| - 1;
    var before, op := ops[..n], ops[n];
    HistoryOrdered(before);
    var h, s := History(before), AfterOps(before, window);
    if n > 0 {
      WindowIsFilteredHistory(before, window);
      RecentMembers(h, before[n - 1].at, window);
      RecentTwice(h, before[n - 1].at, op.at, window);
    }
    if op.Add? {
      AddIsFiltered(h, s, (op.at, op.value), window);
    } else {
      PruneIsFilter(s, op.at, window);
      assert h + [] == h;
    }
  }

  lemma {:induction false} RecentTotalBounded(s: seq<Sample<nat>>, now: int, window: nat)
    ensures Total(Recent(s, now, window)) <= Total(s)
  {
    if s != [] {
      RecentTotalBounded(s[1..], now, window);
      var r := Recent(s[1..], now, window);
      assert ([s[0]] + r)[1..] == r;
    }
  }

  // ---- The 95th percentile ----

  function Insert(x: int, s: seq<int>): seq<int> {
    if s == [] || x <= s[0] then [x] + s else [s[0]] + Insert(x, s[1..])
  }

  function Sort(s: seq<int>): seq<int> {
    if s == [] then [] else Insert(s[0], Sort(s[1..]))
  }

  predicate Sorted(s: seq<int>) {
    forall i, j :: 0 <= i < j < |s| ==> s[i] <= s[j]
  }

  function CountAtMost(s: seq<int>, v: int): nat {
    if s == [] then 0 else (if s[0] <= v then 1 else 0) + CountAtMost(s[1..], v)
  }

  /** One less than the ceiling of 0.95 n. */
  function P95Index(n: nat): nat
    requires n > 0
  {
    (19 * n + 19) / 20 - 1
  }

  lemma {:induction false} InsertGrows(x: int, s: seq<int>)
    ensures |Insert(x, s)| == |s| + 1
  {
    if s != [] && x > s[0] {
      InsertGrows(x, s[1..]);
    }
  }

  lemma {:induction false} SortSize(s: seq<int>)
    ensures |Sort(s)| == |s|
  {
    if s != [] {
      SortSize(s[1..]);
      InsertGrows(s[0], Sort(s[1..]));
    }
  }

  /** The reported percentile of a window's values. */
  function P95Of(values: seq<int>): int {
    if values == [] then 0
    else
      SortSize(values);
      Sort(values)[P95Index(|values|)]
  }

  method P95At(w: TimedWindow<int>, now: int) returns (p95: int)
    modifies w
    ensures w.values == PruneFront(old(w.values), now, w.window)
    ensures p95 == P95Of(Values(w.values))
    ensures w.values == [] ==> p95 == 0
    ensures w.values != [] ==> IsP95(Values(w.values), p95)
  {
    w.Prune(now);
    if w.values == [] {
      return 0;
    }
    var values := Values(w.values);
    var sorted := Sort(values);
    SortSorts(values);
    p95 := sorted[P95Index(|values|)];
    NearestRank(values);
  }

  /** `v` is the nearest-rank 95th percentile of `s`: one of its values, not
      exceeded by at least 95% of them, and the least value of which that is so. */
  predicate IsP95(s: seq<int>, v: int) {
    && v in s
    && 20 * CountAtMost(s, v) >= 19 * |s|
    && 20 * CountAtMost(s, v - 1) < 19 * |s|
  }

  lemma {:induction false} InsertPermutes(x: int, s: seq<int>)
    ensures multiset(Insert(x, s)) == multiset{x} + multiset(s)
  {
    if s != [] && x > s[0] {
      InsertPermutes(x, s[1..]);
      assert s == [s[0]] + s[1..];
    }
  }

  lemma ConsSorted(x: int, t: seq<int>)
    requires Sorted(t) && forall i :: 0 <= i < |t| ==> x <= t[i]
    ensures Sorted([x] + t)
  {
  }

  lemma {:induction false} InsertSorts(x: int, s: seq<int>)
    requires Sorted(s)
    ensures Sorted(Insert(x, s))
  {
    if s != [] && x > s[0] {
      var t := Insert(x, s[1..]);
      InsertSorts(x, s[1..]);
      InsertPermutes(x, s[1..]);
      forall i | 0 <= i < |t| ensures s[0] <= t[i] {
        assert t[i] in multiset(t);
        assert t[i] == x || t[i] in s[1..];
      }
      ConsSorted(s[0], t);
    }
  }

  lemma {:induction false} InsertCounts(x: int, s: seq<int>, v: int)
    ensures CountAtMost(Insert(x, s), v) == CountAtMost(s, v) + (if x <= v then 1 else 0)
  {
    if s == [] || x <= s[0] {
      assert ([x] + s)[1..] == s;
    } else {
      InsertCounts(x, s[1..], v);
      assert Insert(x, s)[1..] == Insert(x, s[1..]);
    }
  }

  lemma {:induction false} SortSorts(s: seq<int>)
    ensures Sorted(Sort(s)) && multiset(Sort(s)) == multiset(s) && |Sort(s)| == |s|
  {
    if s != [] {
      SortSorts(s[1..]);
      InsertSorts(s[0], Sort(s[1..]));
      InsertPermutes(s[0], Sort(s[1..]));
      assert s == [s[0]] + s[1..];
      assert |multiset(Sort(s))| == |Sort(s)|;
    }
  }

  lemma {:induction false} SortCounts(s: seq<int>, v: int)
    ensures CountAtMost(Sort(s), v) == CountAtMost(s, v)
  {
    if s != [] {
      SortCounts(s[1..], v);
      InsertCounts(s[0], Sort(s[1..]), v);
    }
  }

  lemma {:induction false} SortedCounts(s: seq<int>, k: nat, v: int)
    requires Sorted(s) && k < |s|
    ensures s[k] <= v ==> CountAtMost(s, v) >= k + 1
    ensures s[k] > v ==> CountAtMost(s, v) <= k
  {
    if k > 0 {
      SortedCounts(s[1..], k - 1, v);
    } else if s[0] > v {
      NoneAtMost(s, v);
    }
  }

  lemma {:induction false} NoneAtMost(s: seq<int>, v: int)
    requires forall i :: 0 <= i < |s| ==> s[i] > v
    ensures CountAtMost(s, v) == 0
  {
    if s != [] {
      NoneAtMost(s[1..], v);
    }
  }

  /** The value at the rank, in a sorted copy with the same counts. */
  lemma RankedValue(values: seq<int>, s: seq<int>, k: nat)
    requires Sorted(s) && |s| == |values| && k < |s| && k == P95Index(|s|) && multiset(s) == multiset(values)
    requires CountAtMost(s, s[k]) == CountAtMost(values, s[k])
    requires CountAtMost(s, s[k] - 1) == CountAtMost(values, s[k] - 1)
    ensures IsP95(values, s[k])
  {
    SortedCounts(s, k, s[k]);
    SortedCounts(s, k, s[k] - 1);
    assert s[k] in multiset(s);
  }

  lemma NearestRank(values: seq<int>)
    requires values != []
    ensures |Sort(values)| == |values| && IsP95(values, Sort(values)[P95Index(|values|)])
  {
    var s, k := Sort(values), P95Index(|values|);
    SortSorts(values);
    SortCounts(values, s[k]);
    SortCounts(values, s[k] - 1);
    RankedValue(values, s, k);
  }
}
