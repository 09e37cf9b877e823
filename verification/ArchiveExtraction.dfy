/** Extraction of the updater archive (extract-macos-updater-archive.py) into a fresh
    tree. A file system is a function that says which names it takes for the same:
    case-preserving, case-folding and normalizing ones are all covered. */
module ArchiveExtraction {
  import opened Basics
  import opened ArchivePaths
  import opened ArchivePreflight

  const COPY_CHUNK_BYTES: nat := 1024 * 1024
  const DIRECTORY_MODE: nat := 448 // rwx for the owner only

  type Bytes = seq<bv8>

  datatype Node = Dir(mode: nat) | Plain(data: Bytes, mode: nat)

  type Tree = map<Path, Node>

  /** A member as the second pass over the snapshot serves it. */
  datatype Served = Served(member: Member, data: Bytes)

  function Entry(fs: string -> string, p: Path): Path {
    seq(|p|, i requires 0 <= i < |p| => fs(p[i]))
  }

  /** The owner may look names up in a directory of this mode. */
  predicate Searchable(mode: nat) { mode / 64 % 2 == 1 }

  /** `mkdir(parents=True, exist_ok=True)`: missing parents get the default mode. */
  function MakeDirs(fs: string -> string, tree: Tree, p: Path, mode: nat, parentMode: nat): Option<Tree> {
    if p == [] then Some(tree)
    else if Entry(fs, p) in tree then if tree[Entry(fs, p)].Dir? then Some(tree) else None
    else
      var above := MakeDirs(fs, tree, Parent(p), parentMode, parentMode);
      if above.None? then None else Some(above.value[Entry(fs, p) := Dir(mode)])
  }

  /** `chmod`: every directory on the way must let the owner through. */
  function ChangeMode(fs: string -> string, tree: Tree, p: Path, mode: nat): Option<Tree> {
    if Entry(fs, p) !in tree then None
    else if exists k :: 0 < k < |p| && Blocked(tree, Entry(fs, p[..k])) then None
    else
      var node := tree[Entry(fs, p)];
      Some(tree[Entry(fs, p) := if node.Dir? then Dir(mode) else node.(mode := mode)])
  }

  predicate Blocked(tree: Tree, e: Path) {
    e !in tree || tree[e].Plain? || !Searchable(tree[e].mode)
  }

  /** `verify_member`. */
  predicate Matches(m: Member, r: Record) {
    && CheckedParts(m.name) == Some(r.parts)
    && m.name == r.name
    && MemberKind(m.entry) == Some(r.kind)
    && m.size == r.size
    && m.mode % 0x200 == r.mode
  }

  predicate ServedOk(s: Served, r: Record) {
    Matches(s.member, r) && (r.kind.File? ==> |s.data| == r.size)
  }

  /** The second pass repeats the first, and every file has its declared size. */
  predicate SecondPass(rs: seq<Record>, again: seq<Served>) {
    |again| == |rs| && forall i :: 0 <= i < |rs| ==> ServedOk(again[i], rs[i])
  }

  // ---- What extraction must produce ----

  ghost function EntriesOf(fs: string -> string, paths: set<Path>): set<Path> {
    set p | p in paths :: Entry(fs, p)
  }

  ghost predicate FilesDone(fs: string -> string, rs: seq<Record>, again: seq<Served>, n: nat, tree: Tree)
    requires n <= |rs| && n <= |again|
  {
    forall i :: 0 <= i < n && rs[i].kind.File? ==>
      Entry(fs, rs[i].parts) in tree && tree[Entry(fs, rs[i].parts)] == Plain(again[i].data, rs[i].mode)
  }

  /** Exactly the archive's paths; every file with its bytes and mode; every listed
      directory with its mode; every other directory open to its owner. */
  ghost predicate Faithful(fs: string -> string, rs: seq<Record>, again: seq<Served>, tree: Tree)
    requires |again| == |rs|
  {
    && tree.Keys == EntriesOf(fs, DirPaths(rs) + FilePaths(rs))
    && FilesDone(fs, rs, again, |rs|, tree)
    && (forall i :: 0 <= i < |rs| && rs[i].kind.Directory? ==>
          Entry(fs, rs[i].parts) in tree && tree[Entry(fs, rs[i].parts)] == Dir(rs[i].mode))
    && (forall p :: p in DirPaths(rs) && p !in Listed(rs) ==> OpenDir(tree, Entry(fs, p)))
  }

  ghost predicate OpenDir(tree: Tree, e: Path) {
    e in tree && tree[e].Dir? && Searchable(tree[e].mode)
  }

  // ---- What preflight gives extraction ----

  /** The file system tells apart whatever the collision key tells apart. */
  ghost predicate Separates(t: Text, fs: string -> string) {
    forall a, b :: fs(a) == fs(b) ==> t.casefold(t.normalize(a)) == t.casefold(t.normalize(b))
  }

  ghost predicate EntriesApart(fs: string -> string, paths: set<Path>) {
    forall p, q :: p in paths && q in paths && Entry(fs, p) == Entry(fs, q) ==> p == q
  }

  ghost predicate Layout(fs: string -> string, rs: seq<Record>) {
    && DirPaths(rs) !! FilePaths(rs)
    && EntriesApart(fs, DirPaths(rs) + FilePaths(rs))
    && NoDuplicates(rs)
    && NoEmptyPath(rs)
    && Total(rs, FileWeight) <= MAX_EXPANDED_BYTES
  }

  lemma SameEntrySameKey(t: Text, fs: string -> string, p: Path, q: Path)
    requires Separates(t, fs) && Entry(fs, p) == Entry(fs, q)
    ensures Key(t, p) == Key(t, q)
  {
    assert |p| == |Entry(fs, p)| == |q|;
    forall i | 0 <= i < |p|
      ensures Key(t, p)[i] == Key(t, q)[i]
    {
      assert Entry(fs, p)[i] == fs(p[i]) && Entry(fs, q)[i] == fs(q[i]);
    }
  }

  lemma AcceptedLayout(t: Text, fs: string -> string, ms: seq<Member>, app: string)
    requires Acceptable(t, ms, app) && Separates(t, fs)
    ensures Layout(fs, Records(t, ms))
  {
    var rs := Records(t, ms);
    var paths := DirPaths(rs) + FilePaths(rs);
    forall p, q | p in paths && q in paths && Entry(fs, p) == Entry(fs, q)
      ensures p == q
    {
      SameEntrySameKey(t, fs, p, q);
    }
  }

  // ---- Making directories ----

  /** Nothing but directories, and those open, stands where a directory must be. */
  ghost predicate RoomFor(fs: string -> string, tree: Tree, dirs: set<Path>) {
    forall p :: p in dirs && Entry(fs, p) in tree ==> OpenDir(tree, Entry(fs, p))
  }

  ghost predicate Present(fs: string -> string, tree: Tree, paths: set<Path>) {
    forall p :: p in paths ==> Entry(fs, p) in tree
  }

  ghost predicate Extends(tree: Tree, bigger: Tree) {
    forall e :: e in tree ==> e in bigger && bigger[e] == tree[e]
  }

  /** Every ancestor of an entry of the tree is in the tree. */
  ghost predicate Closed(fs: string -> string, tree: Tree, dirs: set<Path>) {
    forall p :: p in dirs && Entry(fs, p) in tree ==> Present(fs, tree, Prefixes(p))
  }

  lemma {:induction false} MakeDirsWorks(fs: string -> string, tree: Tree, p: Path, mode: nat, parentMode: nat,
                                         dirs: set<Path>)
    requires Searchable(mode) && Searchable(parentMode)
    requires Prefixes(p) <= dirs && EntriesApart(fs, dirs) && RoomFor(fs, tree, dirs) && Closed(fs, tree, dirs)
    ensures MakeDirs(fs, tree, p, mode, parentMode).Some?
    ensures var made := MakeDirs(fs, tree, p, mode, parentMode).value;
            && Extends(tree, made) && RoomFor(fs, made, dirs) && Closed(fs, made, dirs)
            && made.Keys == tree.Keys + EntriesOf(fs, Prefixes(p))
  {
    if p == [] {
      assert EntriesOf(fs, {}) == {};
    } else {
      assert p in Prefixes(p);
      if Entry(fs, p) in tree {
        assert forall e :: e in EntriesOf(fs, Prefixes(p)) ==> e in tree;
      } else {
        MakeDirsWorks(fs, tree, Parent(p), parentMode, parentMode, dirs);
        var above := MakeDirs(fs, tree, Parent(p), parentMode, parentMode).value;
        AddDirectory(fs, above, p, mode, dirs);
        assert EntriesOf(fs, Prefixes(p)) == EntriesOf(fs, Prefixes(Parent(p))) + {Entry(fs, p)};
      }
    }
  }

  lemma AddDirectory(fs: string -> string, tree: Tree, p: Path, mode: nat, dirs: set<Path>)
    requires p != [] && p in dirs && Searchable(mode)
    requires EntriesApart(fs, dirs) && RoomFor(fs, tree, dirs) && Closed(fs, tree, dirs)
    requires EntriesOf(fs, Prefixes(Parent(p))) <= tree.Keys
    ensures RoomFor(fs, tree[Entry(fs, p) := Dir(mode)], dirs)
    ensures Closed(fs, tree[Entry(fs, p) := Dir(mode)], dirs)
  {
  }

  // ---- The listed directories ----

  function InsertByDepth(rs: seq<Record>, r: Record): (out: seq<Record>)
    ensures forall x :: x in out <==> x in rs || x == r
    ensures ByDepth(rs) ==> ByDepth(out)
  {
    if rs == [] then [r]
    else
      var init, last := rs[..|rs| - 1], rs[|rs| - 1];
      assert rs == init + [last];
      if |last.parts| <= |r.parts| then rs + [r]
      else
        var out := InsertByDepth(init, r);
        assert ByDepth(rs) ==> forall k :: 0 <= k < |init| ==> |init[k].parts| <= |last.parts|;
        assert ByDepth(rs) ==> forall k :: 0 <= k < |out| ==> out[k] in out && |out[k].parts| <= |last.parts|;
        out + [last]
  }

  predicate ByDepth(rs: seq<Record>) {
    forall i, j :: 0 <= i < j < |rs| ==> |rs[i].parts| <= |rs[j].parts|
  }

  /** The directory records, shallowest first. */
  function Directories(rs: seq<Record>): (out: seq<Record>)
    ensures ByDepth(out)
    ensures forall r :: r in out <==> r in rs && r.kind.Directory?
  {
    if rs == [] then []
    else
      var init, last := rs[..|rs| - 1], rs[|rs| - 1];
      assert rs == init + [last];
      if last.kind.Directory? then InsertByDepth(Directories(init), last) else Directories(init)
  }

  lemma DirsOfRecord(rs: seq<Record>, r: Record)
    requires r in rs
    ensures RecordDirs(r) <= DirPaths(rs) && RecordFiles(r) <= FilePaths(rs)
  {
  }

  lemma MakeDirsFor(fs: string -> string, rs: seq<Record>, tree: Tree, p: Path, parentMode: nat, upper: set<Path>)
    requires Layout(fs, rs) && Searchable(parentMode) && Prefixes(p) <= DirPaths(rs) <= upper
    requires RoomFor(fs, tree, DirPaths(rs)) && Closed(fs, tree, DirPaths(rs)) && tree.Keys <= EntriesOf(fs, upper)
    ensures MakeDirs(fs, tree, p, DIRECTORY_MODE, parentMode).Some?
    ensures var made := MakeDirs(fs, tree, p, DIRECTORY_MODE, parentMode).value;
            && Extends(tree, made) && RoomFor(fs, made, DirPaths(rs)) && Closed(fs, made, DirPaths(rs))
            && made.Keys <= EntriesOf(fs, upper) && Present(fs, made, Prefixes(p))
  {
    MakeDirsWorks(fs, tree, p, DIRECTORY_MODE, parentMode, DirPaths(rs));
    forall q | q in Prefixes(p)
      ensures Entry(fs, q) in EntriesOf(fs, Prefixes(p))
    {
    }
  }

  ghost predicate Listing(fs: string -> string, dirs: set<Path>, done: seq<Record>, tree: Tree) {
    && RoomFor(fs, tree, dirs) && Closed(fs, tree, dirs)
    && tree.Keys <= EntriesOf(fs, dirs)
    && forall r :: r in done ==> Present(fs, tree, RecordDirs(r))
  }

  lemma ListingStep(fs: string -> string, rs: seq<Record>, done: seq<Record>, r: Record, tree: Tree, parentMode: nat)
    requires Layout(fs, rs) && Searchable(parentMode) && r in rs && r.kind.Directory?
    requires Listing(fs, DirPaths(rs), done, tree)
    ensures MakeDirs(fs, tree, r.parts, DIRECTORY_MODE, parentMode).Some?
    ensures Listing(fs, DirPaths(rs), done + [r], MakeDirs(fs, tree, r.parts, DIRECTORY_MODE, parentMode).value)
  {
    DirsOfRecord(rs, r);
    MakeDirsFor(fs, rs, tree, r.parts, parentMode, DirPaths(rs));
    var made := MakeDirs(fs, tree, r.parts, DIRECTORY_MODE, parentMode).value;
    forall x | x in done + [r]
      ensures Present(fs, made, RecordDirs(x))
    {
      if x in done {
        assert Present(fs, tree, RecordDirs(x));
      }
    }
  }

  /** The first loop of `extract`: it cannot fail. */
  method MakeListed(fs: string -> string, rs: seq<Record>, parentMode: nat) returns (tree: Tree)
    requires Layout(fs, rs) && Searchable(parentMode)
    ensures Listing(fs, DirPaths(rs), Directories(rs), tree)
  {
    var listed := Directories(rs);
    tree := map[];
    for n := 0 to |listed|
      invariant Listing(fs, DirPaths(rs), listed[..n], tree)
    {
      ListingStep(fs, rs, listed[..n], listed[n], tree, parentMode);
      tree := MakeDirs(fs, tree, listed[n].parts, DIRECTORY_MODE, parentMode).value;
      assert listed[..n + 1] == listed[..n] + [listed[n]];
    }
    assert listed[..|listed|] == listed;
  }

  // ---- The files ----

  /** `copy_member`: whatever the sizes of the chunks the stream returns, it delivers
      the declared number of bytes or nothing. */
  method CopyMember(data: Bytes, declared: nat, budget: nat) returns (r: Option<Bytes>)
    ensures r.Some? <==> declared <= budget && |data| == declared
    ensures r.Some? ==> r.value == data
  {
    if declared > budget { return None; }
    var output: Bytes := [];
    while |output| < declared
      invariant |output| <= declared && output <= data
    {
      var asked := if declared - |output| < COPY_CHUNK_BYTES then declared - |output| else COPY_CHUNK_BYTES;
      var rest := data[|output|..];
      if rest == [] { return None; }
      var got: nat :| 0 < got <= asked && got <= |rest|;
      assert output + rest[..got] == data[..|output| + got];
      output := output + rest[..got];
    }
    if data[|output|..] != [] { return None; }
    return Some(output);
  }

  /** Create the parents, then the file itself, which must not exist yet. */
  function PlaceFile(fs: string -> string, tree: Tree, r: Record, data: Bytes, parentMode: nat): Option<Tree>
    requires r.parts != []
  {
    var made := MakeDirs(fs, tree, Parent(r.parts), DIRECTORY_MODE, parentMode);
    if made.None? || Entry(fs, r.parts) in made.value then None
    else Some(made.value[Entry(fs, r.parts) := Plain(data, r.mode)])
  }

  ghost predicate FileInv(fs: string -> string, rs: seq<Record>, again: seq<Served>, n: nat, tree: Tree)
    requires n <= |rs| && n <= |again|
  {
    && RoomFor(fs, tree, DirPaths(rs)) && Closed(fs, tree, DirPaths(rs))
    && tree.Keys <= EntriesOf(fs, DirPaths(rs) + FilePaths(rs[..n]))
    && FilesDone(fs, rs, again, n, tree)
    && (forall i :: 0 <= i < n && rs[i].kind.File? ==> Present(fs, tree, RecordDirs(rs[i])))
  }

  lemma FilePathsSplit(rs: seq<Record>, n: nat)
    requires n < |rs|
    ensures FilePaths(rs[..n + 1]) == FilePaths(rs[..n]) + RecordFiles(rs[n])
  {
    assert rs[..n + 1] == rs[..n] + [rs[n]];
    SnocFacts(rs[..n], rs[n]);
  }

  lemma {:induction false} FilePathsPrefix(rs: seq<Record>, n: nat)
    requires n < |rs| && NoDuplicates(rs)
    ensures FilePaths(rs[..n]) <= FilePaths(rs) && rs[n].parts !in FilePaths(rs[..n])
  {
    forall p | p in FilePaths(rs[..n])
      ensures p in FilePaths(rs) && p != rs[n].parts
    {
      PathsOf(rs[..n], p);
      PathsOf(rs, p);
      var r :| r in rs[..n] && p in RecordFiles(r);
      var i :| 0 <= i < n && rs[..n][i] == r;
      assert rs[i].parts == p;
      assert r in rs;
    }
  }

  /** The place of the next file is still free when its parents are there. */
  lemma PlaceIsFree(fs: string -> string, rs: seq<Record>, n: nat, tree: Tree)
    requires Layout(fs, rs) && n < |rs| && rs[n].kind.File?
    requires tree.Keys <= EntriesOf(fs, DirPaths(rs) + FilePaths(rs[..n]))
    ensures Entry(fs, rs[n].parts) !in tree
  {
    var p := rs[n].parts;
    FilePathsPrefix(rs, n);
    DirsOfRecord(rs, rs[n]);
    assert p !in DirPaths(rs) + FilePaths(rs[..n]);
    forall q | q in DirPaths(rs) + FilePaths(rs[..n])
      ensures Entry(fs, q) != Entry(fs, p)
    {
    }
  }

  lemma PlaceFileWorks(fs: string -> string, rs: seq<Record>, again: seq<Served>, n: nat, tree: Tree, parentMode: nat)
    requires Layout(fs, rs) && n < |rs| && n < |again| && rs[n].kind.File? && Searchable(parentMode)
    requires FileInv(fs, rs, again, n, tree)
    ensures rs[n].parts != []
    ensures PlaceFile(fs, tree, rs[n], again[n].data, parentMode).Some?
    ensures var placed := PlaceFile(fs, tree, rs[n], again[n].data, parentMode).value;
            FileInv(fs, rs, again, n + 1, placed) && tree.Keys <= placed.Keys
  {
    var r := rs[n];
    assert r in rs;
    DirsOfRecord(rs, r);
    MakeDirsFor(fs, rs, tree, Parent(r.parts), parentMode, DirPaths(rs) + FilePaths(rs[..n]));
    var made := MakeDirs(fs, tree, Parent(r.parts), DIRECTORY_MODE, parentMode).value;
    PlaceIsFree(fs, rs, n, made);
    KeepsFiles(fs, rs, again, n, tree, made);
    FilePlaced(fs, rs, again, n, made);
  }

  lemma KeepsFiles(fs: string -> string, rs: seq<Record>, again: seq<Served>, n: nat, tree: Tree, made: Tree)
    requires n <= |rs| && n <= |again| && FileInv(fs, rs, again, n, tree) && Extends(tree, made)
    ensures FilesDone(fs, rs, again, n, made)
    ensures forall i :: 0 <= i < n && rs[i].kind.File? ==> Present(fs, made, RecordDirs(rs[i]))
  {
  }

  lemma DirsKept(fs: string -> string, made: Tree, dirs: set<Path>, e: Path, node: Node)
    requires RoomFor(fs, made, dirs) && Closed(fs, made, dirs)
    requires e !in made && forall p :: p in dirs ==> Entry(fs, p) != e
    ensures RoomFor(fs, made[e := node], dirs) && Closed(fs, made[e := node], dirs)
  {
  }

  lemma DoneKept(fs: string -> string, rs: seq<Record>, again: seq<Served>, n: nat, made: Tree)
    requires n < |rs| && n < |again| && FilesDone(fs, rs, again, n, made) && Entry(fs, rs[n].parts) !in made
    ensures FilesDone(fs, rs, again, n + 1, made[Entry(fs, rs[n].parts) := Plain(again[n].data, rs[n].mode)])
  {
  }

  lemma FilePlaced(fs: string -> string, rs: seq<Record>, again: seq<Served>, n: nat, made: Tree)
    requires Layout(fs, rs) && n < |rs| && n < |again| && rs[n].kind.File?
    requires FileInv(fs, rs, again, n, made) && Present(fs, made, RecordDirs(rs[n]))
    requires Entry(fs, rs[n].parts) !in made
    ensures FileInv(fs, rs, again, n + 1, made[Entry(fs, rs[n].parts) := Plain(again[n].data, rs[n].mode)])
  {
    var e := Entry(fs, rs[n].parts);
    var placed := made[e := Plain(again[n].data, rs[n].mode)];
    DirsOfRecord(rs, rs[n]);
    FilePathsSplit(rs, n);
    assert forall p :: p in DirPaths(rs) ==> p != rs[n].parts && Entry(fs, p) != e;
    DirsKept(fs, made, DirPaths(rs), e, placed[e]);
    DoneKept(fs, rs, again, n, made);
    assert EntriesOf(fs, DirPaths(rs) + FilePaths(rs[..n + 1])) == EntriesOf(fs, DirPaths(rs) + FilePaths(rs[..n])) + {e};
  }

  lemma DirectorySkipped(fs: string -> string, rs: seq<Record>, again: seq<Served>, n: nat, tree: Tree)
    requires n < |rs| && n < |again| && rs[n].kind.Directory? && FileInv(fs, rs, again, n, tree)
    ensures FileInv(fs, rs, again, n + 1, tree)
  {
    FilePathsSplit(rs, n);
    assert FilePaths(rs[..n + 1]) == FilePaths(rs[..n]);
  }

  lemma {:induction false} TotalPrefix(rs: seq<Record>, n: nat, weight: Record -> nat)
    requires n <= |rs|
    ensures Total(rs[..n], weight) <= Total(rs, weight)
    decreases |rs|
  {
    if n < |rs| {
      TotalPrefix(rs[..|rs| - 1], n, weight);
      assert rs[..|rs| - 1][..n] == rs[..n];
    } else {
      assert rs[..n] == rs;
    }
  }

  lemma TotalNext(rs: seq<Record>, n: nat, weight: Record -> nat)
    requires n < |rs|
    ensures Total(rs[..n + 1], weight) == Total(rs[..n], weight) + weight(rs[n])
    ensures Total(rs[..n + 1], weight) <= Total(rs, weight)
  {
    TotalPrefix(rs, n + 1, weight);
    assert rs[..n + 1][..n] == rs[..n];
  }

  /** The second pass: it succeeds exactly when the stream repeats the records. */
  method ExtractFiles(fs: string -> string, rs: seq<Record>, again: seq<Served>, start: Tree, parentMode: nat)
    returns (r: Option<Tree>)
    requires Layout(fs, rs) && Searchable(parentMode) && Listing(fs, DirPaths(rs), Directories(rs), start)
    ensures r.Some? <==> SecondPass(rs, again)
    ensures r.Some? ==> FileInv(fs, rs, again, |rs|, r.value) && start.Keys <= r.value.Keys
  {
    var tree, remaining := start, MAX_EXPANDED_BYTES;
    NoFilesYet(fs, rs, again, start);
    for n := 0 to |rs|
      invariant n <= |again| && forall i :: 0 <= i < n ==> ServedOk(again[i], rs[i])
      invariant FileInv(fs, rs, again, n, tree) && start.Keys <= tree.Keys
      invariant remaining == MAX_EXPANDED_BYTES - Total(rs[..n], FileWeight)
    {
      if n == |again| { return None; }
      if !Matches(again[n].member, rs[n]) { return None; }
      TotalNext(rs, n, FileWeight);
      if rs[n].kind.File? {
        var copied := CopyMember(again[n].data, rs[n].size, remaining);
        if copied.None? { return None; }
        PlaceFileWorks(fs, rs, again, n, tree, parentMode);
        tree := PlaceFile(fs, tree, rs[n], copied.value, parentMode).value;
        remaining := remaining - rs[n].size;
      } else {
        DirectorySkipped(fs, rs, again, n, tree);
      }
    }
    if |again| > |rs| { return None; }
    return Some(tree);
  }

  lemma NoFilesYet(fs: string -> string, rs: seq<Record>, again: seq<Served>, start: Tree)
    requires Listing(fs, DirPaths(rs), Directories(rs), start)
    ensures FileInv(fs, rs, again, 0, start)
  {
  }

  // ---- The directory modes ----

  ghost predicate SameShape(start: Tree, tree: Tree) {
    && tree.Keys == start.Keys
    && forall e :: e in start && start[e].Plain? ==> tree[e] == start[e]
  }

  ghost predicate ModesDone(fs: string -> string, listed: seq<Record>, k: nat, tree: Tree) {
    forall j :: k <= j < |listed| ==> IsDir(tree, Entry(fs, listed[j].parts), listed[j].mode)
  }

  ghost predicate IsDir(tree: Tree, e: Path, mode: nat) {
    e in tree && tree[e] == Dir(mode)
  }

  ghost predicate RestOpen(fs: string -> string, dirs: set<Path>, listed: seq<Record>, k: nat, tree: Tree) {
    forall p :: p in dirs && !Touched(listed, k, p) ==> OpenDir(tree, Entry(fs, p))
  }

  ghost predicate Touched(listed: seq<Record>, k: nat, p: Path) {
    exists j :: k <= j < |listed| && listed[j].parts == p
  }

  lemma SamePathSameRecord(rs: seq<Record>, a: Record, b: Record)
    requires NoDuplicates(rs) && a in rs && b in rs && a.parts == b.parts
    ensures a == b
  {
  }

  lemma ListedPath(rs: seq<Record>, r: Record)
    requires NoEmptyPath(rs) && r in rs && r.kind.Directory?
    ensures r.parts in DirPaths(rs)
    ensures forall m :: 0 < m < |r.parts| ==> r.parts[..m] in DirPaths(rs)
  {
    DirsOfRecord(rs, r);
    assert r.parts in Prefixes(r.parts);
    forall m | 0 < m < |r.parts|
      ensures r.parts[..m] in DirPaths(rs)
    {
      PrefixesOf(r.parts, r.parts[..m]);
    }
  }

  lemma AncestorsOpen(fs: string -> string, dirs: set<Path>, listed: seq<Record>, k: nat, tree: Tree)
    requires k < |listed| && ByDepth(listed) && RestOpen(fs, dirs, listed, k + 1, tree)
    requires forall m :: 0 < m < |listed[k].parts| ==> listed[k].parts[..m] in dirs
    ensures forall m :: 0 < m < |listed[k].parts| ==> !Blocked(tree, Entry(fs, listed[k].parts[..m]))
  {
  }

  lemma KeepsModes(fs: string -> string, rs: seq<Record>, listed: seq<Record>, k: nat, tree: Tree)
    requires Layout(fs, rs) && k < |listed| && forall x :: x in listed ==> x in rs && x.kind.Directory?
    requires ModesDone(fs, listed, k + 1, tree)
    ensures ModesDone(fs, listed, k, tree[Entry(fs, listed[k].parts) := Dir(listed[k].mode)])
  {
    var next := tree[Entry(fs, listed[k].parts) := Dir(listed[k].mode)];
    forall j | k <= j < |listed|
      ensures IsDir(next, Entry(fs, listed[j].parts), listed[j].mode)
    {
      if listed[j].parts == listed[k].parts {
        SamePathSameRecord(rs, listed[j], listed[k]);
      } else {
        ListedPath(rs, listed[j]);
        ListedPath(rs, listed[k]);
        assert IsDir(tree, Entry(fs, listed[j].parts), listed[j].mode);
      }
    }
  }

  lemma KeepsOpen(fs: string -> string, dirs: set<Path>, listed: seq<Record>, k: nat, tree: Tree, mode: nat)
    requires EntriesApart(fs, dirs) && k < |listed| && listed[k].parts in dirs
    requires RestOpen(fs, dirs, listed, k + 1, tree)
    ensures RestOpen(fs, dirs, listed, k, tree[Entry(fs, listed[k].parts) := Dir(mode)])
  {
  }

  /** One `chmod` of the last loop: it finds its way, and changes one directory. */
  lemma ModeStep(fs: string -> string, rs: seq<Record>, listed: seq<Record>, k: nat, start: Tree, tree: Tree)
    requires Layout(fs, rs) && listed == Directories(rs) && k < |listed|
    requires RoomFor(fs, start, DirPaths(rs)) && Present(fs, start, DirPaths(rs)) && SameShape(start, tree)
    requires ModesDone(fs, listed, k + 1, tree) && RestOpen(fs, DirPaths(rs), listed, k + 1, tree)
    ensures ChangeMode(fs, tree, listed[k].parts, listed[k].mode).Some?
    ensures var next := ChangeMode(fs, tree, listed[k].parts, listed[k].mode).value;
            SameShape(start, next) && ModesDone(fs, listed, k, next) && RestOpen(fs, DirPaths(rs), listed, k, next)
  {
    var r := listed[k];
    assert r in listed;
    ListedPath(rs, r);
    AncestorsOpen(fs, DirPaths(rs), listed, k, tree);
    KeepsModes(fs, rs, listed, k, tree);
    KeepsOpen(fs, DirPaths(rs), listed, k, tree, r.mode);
    assert OpenDir(start, Entry(fs, r.parts));
    StillDir(start, tree, Entry(fs, r.parts), r.mode);
  }

  lemma StillDir(start: Tree, tree: Tree, e: Path, mode: nat)
    requires SameShape(start, tree) && OpenDir(start, e)
    ensures SameShape(start, tree[e := Dir(mode)])
  {
  }

  /** The last loop, deepest directories first: it cannot lock itself out. */
  method SetModes(fs: string -> string, rs: seq<Record>, start: Tree) returns (tree: Tree)
    requires Layout(fs, rs) && RoomFor(fs, start, DirPaths(rs)) && Present(fs, start, DirPaths(rs))
    ensures SameShape(start, tree)
    ensures ModesDone(fs, Directories(rs), 0, tree) && RestOpen(fs, DirPaths(rs), Directories(rs), 0, tree)
  {
    var listed := Directories(rs);
    tree := start;
    for k := |listed| downto 0
      invariant SameShape(start, tree) && ModesDone(fs, listed, k, tree)
      invariant RestOpen(fs, DirPaths(rs), listed, k, tree)
    {
      ModeStep(fs, rs, listed, k, start, tree);
      tree := ChangeMode(fs, tree, listed[k].parts, listed[k].mode).value;
    }
  }

  // ---- The whole run ----

  lemma DirPresent(fs: string -> string, rs: seq<Record>, start: Tree, tree: Tree, p: Path)
    requires p in DirPaths(rs) && start.Keys <= tree.Keys
    requires forall r :: r in Directories(rs) ==> Present(fs, start, RecordDirs(r))
    requires forall i :: 0 <= i < |rs| && rs[i].kind.File? ==> Present(fs, tree, RecordDirs(rs[i]))
    ensures Entry(fs, p) in tree
  {
    PathsOf(rs, p);
    var r :| r in rs && p in RecordDirs(r);
    if r.kind.Directory? {
      assert Present(fs, start, RecordDirs(r));
    }
  }

  lemma FileOf(rs: seq<Record>, p: Path) returns (i: nat)
    requires p in FilePaths(rs)
    ensures i < |rs| && rs[i].kind.File? && rs[i].parts == p
  {
    PathsOf(rs, p);
    var r :| r in rs && p in RecordFiles(r);
    i :| i < |rs| && rs[i] == r;
  }

  lemma AllPresent(fs: string -> string, rs: seq<Record>, again: seq<Served>, start: Tree, tree: Tree)
    requires |again| == |rs| && Listing(fs, DirPaths(rs), Directories(rs), start)
    requires FileInv(fs, rs, again, |rs|, tree) && start.Keys <= tree.Keys
    ensures Present(fs, tree, DirPaths(rs))
    ensures tree.Keys == EntriesOf(fs, DirPaths(rs) + FilePaths(rs))
  {
    assert rs[..|rs|] == rs;
    forall p | p in DirPaths(rs)
      ensures Entry(fs, p) in tree
    {
      DirPresent(fs, rs, start, tree, p);
    }
    forall p | p in FilePaths(rs)
      ensures Entry(fs, p) in tree
    {
      var i := FileOf(rs, p);
      assert Entry(fs, rs[i].parts) in tree;
    }
  }

  lemma Assembled(fs: string -> string, rs: seq<Record>, again: seq<Served>, files: Tree, tree: Tree)
    requires |again| == |rs| && FilesDone(fs, rs, again, |rs|, files)
    requires files.Keys == EntriesOf(fs, DirPaths(rs) + FilePaths(rs)) && SameShape(files, tree)
    requires ModesDone(fs, Directories(rs), 0, tree) && RestOpen(fs, DirPaths(rs), Directories(rs), 0, tree)
    ensures Faithful(fs, rs, again, tree)
  {
  }

  /** `extract`: the app appears exactly when the destination is new, the archive is
      acceptable and the second pass repeats the first; then the tree is the archive.
      In every other case nothing is left behind. */
  method Extract(t: Text, fs: string -> string, ms: seq<Member>, again: seq<Served>, app: string,
                 occupied: bool, parentMode: nat)
    returns (r: Option<Tree>)
    requires Separates(t, fs) && Searchable(parentMode)
    ensures r.Some? <==> !occupied && Acceptable(t, ms, app) && SecondPass(Records(t, ms), again)
    ensures r.Some? ==> Faithful(fs, Records(t, ms), again, r.value)
  {
    if occupied { return None; }
    var checked := Preflight(t, ms, app);
    if checked.None? { return None; }
    var rs := checked.value;
    AcceptedLayout(t, fs, ms, app);
    var start := MakeListed(fs, rs, parentMode);
    var files := ExtractFiles(fs, rs, again, start, parentMode);
    if files.None? { return None; }
    AllPresent(fs, rs, again, start, files.value);
    var tree := SetModes(fs, rs, files.value);
    Assembled(fs, rs, again, files.value, tree);
    return Some(tree);
  }

  /** Both passes read one snapshot, so extraction can fail only where preflight does. */
  lemma SnapshotRepeats(t: Text, ms: seq<Member>, again: seq<Served>, app: string)
    requires Acceptable(t, ms, app) && |again| == |ms|
    requires forall i :: 0 <= i < |ms| ==> again[i].member == ms[i]
    requires forall i :: 0 <= i < |ms| && ms[i].entry.RegularEntry? ==> |again[i].data| == ms[i].size
    ensures SecondPass(Records(t, ms), again)
  {
    var rs := Records(t, ms);
    forall i | 0 <= i < |rs|
      ensures ServedOk(again[i], rs[i])
    {
      RecordAt(t, ms, i);
    }
  }

  /** The second pass matches a record exactly when it repeats the name, the kind, the
      size and the permission bits the first pass read. */
  lemma MatchesExactly(t: Text, m: Member, first: Member)
    requires MemberOk(t, first)
    ensures Matches(m, RecordOf(t, first)) <==>
            && m.name == first.name && MemberKind(m.entry) == MemberKind(first.entry)
            && m.size == first.size && m.mode % 512 == first.mode % 512
  {
  }

  /** Whatever the tree and the record, placing a file never replaces anything. */
  lemma NothingOverwritten(fs: string -> string, tree: Tree, r: Record, data: Bytes, parentMode: nat)
    requires r.parts != [] && PlaceFile(fs, tree, r, data, parentMode).Some?
    ensures Extends(tree, PlaceFile(fs, tree, r, data, parentMode).value) && Entry(fs, r.parts) !in tree
  {
    MakeDirsExtends(fs, tree, Parent(r.parts), DIRECTORY_MODE, parentMode);
  }

  lemma {:induction false} MakeDirsExtends(fs: string -> string, tree: Tree, p: Path, mode: nat, parentMode: nat)
    requires MakeDirs(fs, tree, p, mode, parentMode).Some?
    ensures Extends(tree, MakeDirs(fs, tree, p, mode, parentMode).value)
  {
    if p != [] && Entry(fs, p) !in tree {
      MakeDirsExtends(fs, tree, Parent(p), parentMode, parentMode);
    }
  }
}
