/** The preflight pass over the updater archive (extract-macos-updater-archive.py):
    one walk with a dictionary of canonical prefixes, proved equal to a predicate that
    does not depend on the order of the members. */
module ArchivePreflight {
  import opened Basics
  import opened ArchivePaths

  const MAX_MEMBER_COUNT: nat := 50_000
  const MAX_PATH_BOOKKEEPING_BYTES: nat := 32 * 1024 * 1024
  const MAX_CANONICAL_PREFIXES: nat := 100_000
  const MAX_FILE_BYTES: nat := 256 * 1024 * 1024
  const MAX_EXPANDED_BYTES: nat := 1024 * 1024 * 1024

  datatype Kind = Directory | File

  datatype EntryType = DirectoryEntry | RegularEntry | SymbolicLink | HardLink | DeviceEntry | OtherEntry

  datatype Member = Member(name: string, entry: EntryType, size: int, mode: nat)

  datatype Record = Record(name: string, parts: Path, kind: Kind, size: nat, mode: nat)

  /** The two library functions on text: NFD normalization and case folding. */
  datatype Text = Text(normalize: string -> string, casefold: string -> string)

  function Key(t: Text, p: Path): Path {
    seq(|p|, i requires 0 <= i < |p| => t.casefold(t.normalize(p[i])))
  }

  function MemberKind(e: EntryType): Option<Kind> {
    match e
    case DirectoryEntry => Some(Directory)
    case RegularEntry => Some(File)
    case _ => None
  }

  predicate IsAppName(t: Text, part: string) {
    var s := t.casefold(part);
    |s| >= 4 && s[|s| - 4..] == ".app"
  }

  predicate NestedApp(t: Text, parts: Path) {
    exists i :: 0 < i < |parts| && IsAppName(t, parts[i])
  }

  /** What one member must satisfy on its own. */
  predicate MemberOk(t: Text, m: Member) {
    && CheckedParts(m.name).Some?
    && !NestedApp(t, CheckedParts(m.name).value)
    && MemberKind(m.entry).Some?
    && m.size >= 0
    && (MemberKind(m.entry) == Some(File) ==> m.size <= MAX_FILE_BYTES)
  }

  function RecordOf(t: Text, m: Member): (r: Record)
    requires MemberOk(t, m)
  {
    Record(m.name, CheckedParts(m.name).value, MemberKind(m.entry).value, m.size, m.mode % 0x200)
  }

  predicate AllOk(t: Text, ms: seq<Member>) {
    forall i :: 0 <= i < |ms| ==> MemberOk(t, ms[i])
  }

  function Records(t: Text, ms: seq<Member>): (rs: seq<Record>)
    requires AllOk(t, ms)
    ensures |rs| == |ms|
  {
    if ms == [] then [] else Records(t, ms[..|ms| - 1]) + [RecordOf(t, ms[|ms| - 1])]
  }

  lemma {:induction false} RecordAt(t: Text, ms: seq<Member>, i: nat)
    requires AllOk(t, ms) && i < |ms|
    ensures Records(t, ms)[i] == RecordOf(t, ms[i])
  {
    if i < |ms| - 1 {
      RecordAt(t, ms[..|ms| - 1], i);
    }
  }

  // ---- The declarative predicate ----

  /** Every nonempty prefix of a path, itself included. */
  function Prefixes(p: Path): (s: set<Path>) {
    if p == [] then {} else Prefixes(p[..|p| - 1]) + {p}
  }

  function Parent(p: Path): Path
    requires p != []
  {
    p[..|p| - 1]
  }

  /** The paths a record needs as directories. */
  function RecordDirs(r: Record): set<Path> {
    if r.kind.Directory? || r.parts == [] then Prefixes(r.parts) else Prefixes(Parent(r.parts))
  }

  function RecordFiles(r: Record): set<Path> {
    if r.kind.File? then {r.parts} else {}
  }

  function DirPaths(rs: seq<Record>): set<Path> {
    if rs == [] then {} else DirPaths(rs[..|rs| - 1]) + RecordDirs(rs[|rs| - 1])
  }

  function FilePaths(rs: seq<Record>): set<Path> {
    if rs == [] then {} else FilePaths(rs[..|rs| - 1]) + RecordFiles(rs[|rs| - 1])
  }

  function Listed(rs: seq<Record>): set<Path> {
    set r | r in rs :: r.parts
  }

  function KeysOf(t: Text, s: set<Path>): set<Path> {
    set p | p in s :: Key(t, p)
  }

  /** No two of these paths would be the same file system entry. */
  ghost predicate Apart(t: Text, paths: set<Path>) {
    forall p, q :: p in paths && q in paths && Key(t, p) == Key(t, q) ==> p == q
  }

  /** No path is both a file and a directory, no two paths share a key, and there are
      not too many of them. */
  ghost predicate Fits(t: Text, dirs: set<Path>, files: set<Path>) {
    && dirs !! files
    && Apart(t, dirs + files)
    && |KeysOf(t, dirs + files)| <= MAX_CANONICAL_PREFIXES
  }

  function Total(rs: seq<Record>, weight: Record -> nat): nat {
    if rs == [] then 0 else Total(rs[..|rs| - 1], weight) + weight(rs[|rs| - 1])
  }

  function PathWeight(r: Record): nat { Utf8Length(r.name) }

  function FileWeight(r: Record): nat { if r.kind.File? then r.size else 0 }

  ghost predicate NoDuplicates(rs: seq<Record>) {
    forall i, j :: 0 <= i < j < |rs| ==> rs[i].parts != rs[j].parts
  }

  /** What every prefix of an acceptable archive satisfies too. */
  ghost predicate Bounded(t: Text, rs: seq<Record>) {
    && |rs| <= MAX_MEMBER_COUNT
    && Total(rs, PathWeight) <= MAX_PATH_BOOKKEEPING_BYTES
    && Total(rs, FileWeight) <= MAX_EXPANDED_BYTES
    && NoDuplicates(rs)
    && Fits(t, DirPaths(rs), FilePaths(rs))
  }

  predicate SingleRoot(rs: seq<Record>, app: string) {
    && rs != []
    && (forall i :: 0 <= i < |rs| ==> rs[i].parts != [] && rs[i].parts[0] == app)
    && (forall i :: 0 <= i < |rs| ==> rs[i].kind.File? ==> rs[i].parts != [app])
  }

  ghost predicate Acceptable(t: Text, ms: seq<Member>, app: string) {
    && AllOk(t, ms)
    && Bounded(t, Records(t, ms))
    && SingleRoot(Records(t, ms), app)
  }

  // ---- Facts about the sets ----

  lemma {:induction false} SubsetSize<T>(a: set<T>, b: set<T>)
    requires a <= b
    ensures |a| <= |b|
  {
    assert b == a + (b - a);
    assert |b| == |a| + |b - a|;
  }

  lemma FitsShrinks(t: Text, d1: set<Path>, f1: set<Path>, d2: set<Path>, f2: set<Path>)
    requires Fits(t, d2, f2) && d1 <= d2 && f1 <= f2
    ensures Fits(t, d1, f1)
  {
    assert KeysOf(t, d1 + f1) <= KeysOf(t, d2 + f2);
    SubsetSize(KeysOf(t, d1 + f1), KeysOf(t, d2 + f2));
  }

  lemma {:induction false} PrefixesOf(p: Path, q: Path)
    ensures q in Prefixes(p) <==> q != [] && q <= p
  {
    if p != [] {
      PrefixesOf(p[..|p| - 1], q);
      if q <= p && q != p {
        assert q == p[..|q|] == p[..|p| - 1][..|q|];
      }
    }
  }

  lemma {:induction false} PathsOf(rs: seq<Record>, p: Path)
    ensures p in DirPaths(rs) <==> exists r :: r in rs && p in RecordDirs(r)
    ensures p in FilePaths(rs) <==> exists r :: r in rs && p in RecordFiles(r)
  {
    if rs != [] {
      var init, last := rs[..|rs| - 1], rs[|rs| - 1];
      PathsOf(init, p);
      assert rs == init + [last];
      assert forall r :: r in rs <==> r in init || r == last;
    }
  }

  lemma {:induction false} BoundedPrefix(t: Text, rs: seq<Record>, n: nat)
    requires n <= |rs| && Bounded(t, rs)
    ensures Bounded(t, rs[..n])
    decreases |rs|
  {
    if n == |rs| {
      assert rs[..n] == rs;
    } else {
      var init := rs[..|rs| - 1];
      FitsShrinks(t, DirPaths(init), FilePaths(init), DirPaths(rs), FilePaths(rs));
      BoundedPrefix(t, init, n);
      assert init[..n] == rs[..n];
    }
  }

  // ---- The dictionary ----

  datatype Slot = Slot(path: Path, kind: Kind, explicit: bool)

  /** The dictionary holds exactly these paths, each under its key. */
  ghost predicate Represents(t: Text, dict: map<Path, Slot>, dirs: set<Path>, files: set<Path>, listed: set<Path>) {
    && Fits(t, dirs, files)
    && listed <= dirs + files
    && Holds(t, dict, dirs + files, files, listed)
  }

  ghost predicate Holds(t: Text, dict: map<Path, Slot>, paths: set<Path>, files: set<Path>, listed: set<Path>) {
    && dict.Keys == KeysOf(t, paths)
    && forall p :: p in paths ==> dict[Key(t, p)] == Slot(p, if p in files then File else Directory, p in listed)
  }

  /** One round of the prefix loop: the new dictionary, or a refusal. */
  function Enter(t: Text, dict: map<Path, Slot>, p: Path, kind: Kind, explicit: bool): Option<map<Path, Slot>> {
    var key := Key(t, p);
    if key !in dict then
      if |dict| >= MAX_CANONICAL_PREFIXES then None else Some(dict[key := Slot(p, kind, explicit)])
    else if dict[key].kind != kind || dict[key].path != p || (explicit && dict[key].explicit) then None
    else if explicit then Some(dict[key := Slot(p, kind, true)])
    else Some(dict)
  }

  ghost function AddDir(dirs: set<Path>, p: Path, kind: Kind): set<Path> { if kind.Directory? then dirs + {p} else dirs }

  ghost function AddFile(files: set<Path>, p: Path, kind: Kind): set<Path> { if kind.File? then files + {p} else files }

  ghost function AddListed(listed: set<Path>, p: Path, explicit: bool): set<Path> { if explicit then listed + {p} else listed }

  lemma EnterExact(t: Text, dict: map<Path, Slot>, p: Path, kind: Kind, explicit: bool,
                   dirs: set<Path>, files: set<Path>, listed: set<Path>)
    requires Represents(t, dict, dirs, files, listed)
    ensures Enter(t, dict, p, kind, explicit).Some? <==>
            Fits(t, AddDir(dirs, p, kind), AddFile(files, p, kind)) && !(explicit && p in listed)
    ensures Enter(t, dict, p, kind, explicit).Some? ==>
              Represents(t, Enter(t, dict, p, kind, explicit).value,
                         AddDir(dirs, p, kind), AddFile(files, p, kind), AddListed(listed, p, explicit))
  {
    if Key(t, p) in dict {
      KnownKey(t, dict, p, kind, explicit, dirs, files, listed);
    } else {
      NewKey(t, dict, p, kind, explicit, dirs, files, listed);
    }
  }

  lemma KeysAdd(t: Text, paths: set<Path>, p: Path)
    ensures KeysOf(t, paths + {p}) == KeysOf(t, paths) + {Key(t, p)}
  {
  }

  lemma ApartAdd(t: Text, paths: set<Path>, p: Path)
    requires Apart(t, paths) && Key(t, p) !in KeysOf(t, paths)
    ensures Apart(t, paths + {p}) && p !in paths
  {
  }

  lemma HoldsAdd(t: Text, dict: map<Path, Slot>, paths: set<Path>, files: set<Path>, listed: set<Path>,
                 p: Path, kind: Kind, explicit: bool)
    requires Holds(t, dict, paths, files, listed) && Key(t, p) !in dict
    requires listed <= paths && files <= paths && p !in paths
    ensures Holds(t, dict[Key(t, p) := Slot(p, kind, explicit)],
                  paths + {p}, AddFile(files, p, kind), AddListed(listed, p, explicit))
  {
  }

  lemma NewKey(t: Text, dict: map<Path, Slot>, p: Path, kind: Kind, explicit: bool,
               dirs: set<Path>, files: set<Path>, listed: set<Path>)
    requires Represents(t, dict, dirs, files, listed) && Key(t, p) !in dict
    ensures p !in dirs + files
    ensures Fits(t, AddDir(dirs, p, kind), AddFile(files, p, kind)) <==> |dict| < MAX_CANONICAL_PREFIXES
    ensures Fits(t, AddDir(dirs, p, kind), AddFile(files, p, kind)) ==>
              Represents(t, dict[Key(t, p) := Slot(p, kind, explicit)],
                         AddDir(dirs, p, kind), AddFile(files, p, kind), AddListed(listed, p, explicit))
  {
    var paths := dirs + files;
    assert AddDir(dirs, p, kind) + AddFile(files, p, kind) == paths + {p};
    ApartAdd(t, paths, p);
    KeysAdd(t, paths, p);
    HoldsAdd(t, dict, paths, files, listed, p, kind, explicit);
    assert |dict| == |dict.Keys|;
  }

  lemma KnownKey(t: Text, dict: map<Path, Slot>, p: Path, kind: Kind, explicit: bool,
                 dirs: set<Path>, files: set<Path>, listed: set<Path>)
    requires Represents(t, dict, dirs, files, listed) && Key(t, p) in dict
    ensures Enter(t, dict, p, kind, explicit).Some? <==>
            Fits(t, AddDir(dirs, p, kind), AddFile(files, p, kind)) && !(explicit && p in listed)
    ensures Enter(t, dict, p, kind, explicit).Some? ==>
              Represents(t, Enter(t, dict, p, kind, explicit).value,
                         AddDir(dirs, p, kind), AddFile(files, p, kind), AddListed(listed, p, explicit))
  {
    var key := Key(t, p);
    var d, f := AddDir(dirs, p, kind), AddFile(files, p, kind);
    var q :| q in dirs + files && Key(t, q) == key;
    assert p in d + f && q in d + f;
    assert dict[key] == Slot(q, if q in files then File else Directory, q in listed);
    if q != p {
      assert !Apart(t, d + f);
    } else if dict[key].kind != kind {
      assert p in d && p in f;
    } else {
      assert d == dirs && f == files;
      if explicit && p !in listed {
        Relisted(t, dict, p, kind, dirs, files, listed);
      }
    }
  }

  lemma Relisted(t: Text, dict: map<Path, Slot>, p: Path, kind: Kind,
                 dirs: set<Path>, files: set<Path>, listed: set<Path>)
    requires Represents(t, dict, dirs, files, listed) && p in (if kind.Directory? then dirs else files)
    ensures Represents(t, dict[Key(t, p) := Slot(p, kind, true)], dirs, files, listed + {p})
  {
    var paths := dirs + files;
    assert p in paths && Key(t, p) in dict;
    assert dict[Key(t, p) := Slot(p, kind, true)].Keys == dict.Keys;
    forall q | q in paths
      ensures Key(t, q) == Key(t, p) ==> q == p
    {
    }
  }

  /** The prefix loop for one member: it passes exactly when the archive's sets stay
      consistent with this member added and the member is not listed already. */
  method EnterMember(t: Text, dict: map<Path, Slot>, rec: Record,
                     ghost dirs: set<Path>, ghost files: set<Path>, ghost listed: set<Path>)
    returns (r: Option<map<Path, Slot>>)
    requires rec.parts != []
    requires Represents(t, dict, dirs, files, listed)
    ensures r.Some? <==> Fits(t, dirs + RecordDirs(rec), files + RecordFiles(rec)) && rec.parts !in listed
    ensures r.Some? ==> Represents(t, r.value, dirs + RecordDirs(rec), files + RecordFiles(rec), listed + {rec.parts})
  {
    var current := dict;
    var length := 1;
    assert dirs + Prefixes(rec.parts[..0]) == dirs;
    while length < |rec.parts|
      invariant 1 <= length <= |rec.parts|
      invariant Represents(t, current, dirs + Prefixes(rec.parts[..length - 1]), files, listed)
    {
      PrefixStep(t, current, rec, length, dirs, files, listed);
      var next := Enter(t, current, rec.parts[..length], Directory, false);
      if next.None? { return None; }
      current := next.value;
      length := length + 1;
    }
    LastStep(t, current, rec, dirs, files, listed);
    r := Enter(t, current, rec.parts, rec.kind, true);
  }

  lemma PrefixStep(t: Text, dict: map<Path, Slot>, rec: Record, length: nat,
                   dirs: set<Path>, files: set<Path>, listed: set<Path>)
    requires 1 <= length < |rec.parts|
    requires Represents(t, dict, dirs + Prefixes(rec.parts[..length - 1]), files, listed)
    ensures var next := Enter(t, dict, rec.parts[..length], Directory, false);
            if next.Some? then Represents(t, next.value, dirs + Prefixes(rec.parts[..length]), files, listed)
            else !Fits(t, dirs + RecordDirs(rec), files + RecordFiles(rec))
  {
    var prefix, before := rec.parts[..length], dirs + Prefixes(rec.parts[..length - 1]);
    PrefixesGrow(rec.parts, length, dirs);
    EnterExact(t, dict, prefix, Directory, false, before, files, listed);
    if Enter(t, dict, prefix, Directory, false).None? {
      PrefixSpoils(t, rec, length, dirs, files);
    }
  }

  lemma PrefixesGrow(p: Path, length: nat, dirs: set<Path>)
    requires 1 <= length <= |p|
    ensures dirs + Prefixes(p[..length - 1]) + {p[..length]} == dirs + Prefixes(p[..length])
  {
    assert p[..length][..length - 1] == p[..length - 1];
  }

  lemma LastStep(t: Text, dict: map<Path, Slot>, rec: Record, dirs: set<Path>, files: set<Path>, listed: set<Path>)
    requires rec.parts != []
    requires Represents(t, dict, dirs + Prefixes(Parent(rec.parts)), files, listed)
    ensures var next := Enter(t, dict, rec.parts, rec.kind, true);
            && (next.Some? <==> Fits(t, dirs + RecordDirs(rec), files + RecordFiles(rec)) && rec.parts !in listed)
            && (next.Some? ==> Represents(t, next.value, dirs + RecordDirs(rec), files + RecordFiles(rec), listed + {rec.parts}))
  {
    var before := dirs + Prefixes(Parent(rec.parts));
    EnterExact(t, dict, rec.parts, rec.kind, true, before, files, listed);
    assert AddDir(before, rec.parts, rec.kind) == dirs + RecordDirs(rec);
    assert AddFile(files, rec.parts, rec.kind) == files + RecordFiles(rec);
  }

  lemma PrefixGrows(rec: Record, length: nat)
    requires 0 < length < |rec.parts|
    ensures Prefixes(rec.parts[..length]) <= RecordDirs(rec)
  {
    forall q | q in Prefixes(rec.parts[..length])
      ensures q in RecordDirs(rec)
    {
      PrefixesOf(rec.parts[..length], q);
      PrefixesOf(rec.parts, q);
      PrefixesOf(Parent(rec.parts), q);
      assert q == rec.parts[..|q|] == Parent(rec.parts)[..|q|];
    }
  }

  lemma PrefixSpoils(t: Text, rec: Record, length: nat, dirs: set<Path>, files: set<Path>)
    requires 0 < length < |rec.parts| && !Fits(t, dirs + Prefixes(rec.parts[..length]), files)
    ensures !Fits(t, dirs + RecordDirs(rec), files + RecordFiles(rec))
  {
    PrefixGrows(rec, length);
    if Fits(t, dirs + RecordDirs(rec), files + RecordFiles(rec)) {
      FitsShrinks(t, dirs + Prefixes(rec.parts[..length]), files, dirs + RecordDirs(rec), files + RecordFiles(rec));
    }
  }

  lemma SnocFacts(rs: seq<Record>, r: Record)
    ensures DirPaths(rs + [r]) == DirPaths(rs) + RecordDirs(r)
    ensures FilePaths(rs + [r]) == FilePaths(rs) + RecordFiles(r)
    ensures Listed(rs + [r]) == Listed(rs) + {r.parts}
  {
  }

  lemma TotalSnoc(rs: seq<Record>, r: Record, weight: Record -> nat)
    ensures Total(rs + [r], weight) == Total(rs, weight) + weight(r)
  {
  }

  lemma NoDuplicatesSnoc(rs: seq<Record>, r: Record)
    ensures NoDuplicates(rs + [r]) <==> NoDuplicates(rs) && r.parts !in Listed(rs)
  {
    var all := rs + [r];
    if r.parts in Listed(rs) {
      var x :| x in rs && x.parts == r.parts;
      var i :| 0 <= i < |rs| && rs[i] == x;
      assert all[i].parts == all[|rs|].parts;
    } else if NoDuplicates(rs) {
      forall i, j | 0 <= i < j < |all|
        ensures all[i].parts != all[j].parts
      {
        assert all[i] in rs;
      }
    }
    if NoDuplicates(all) {
      forall i, j | 0 <= i < j < |rs|
        ensures rs[i].parts != rs[j].parts
      {
        assert all[i] == rs[i] && all[j] == rs[j];
      }
    }
  }

  lemma BoundedSnoc(t: Text, rs: seq<Record>, r: Record)
    requires Bounded(t, rs)
    ensures Bounded(t, rs + [r]) <==>
            && |rs| < MAX_MEMBER_COUNT
            && Total(rs, PathWeight) + PathWeight(r) <= MAX_PATH_BOOKKEEPING_BYTES
            && Total(rs, FileWeight) + FileWeight(r) <= MAX_EXPANDED_BYTES
            && Fits(t, DirPaths(rs) + RecordDirs(r), FilePaths(rs) + RecordFiles(r))
            && r.parts !in Listed(rs)
  {
    SnocFacts(rs, r);
    TotalSnoc(rs, r, PathWeight);
    TotalSnoc(rs, r, FileWeight);
    NoDuplicatesSnoc(rs, r);
  }

  lemma RecordsSnoc(t: Text, ms: seq<Member>, n: nat)
    requires n < |ms| && AllOk(t, ms[..n]) && MemberOk(t, ms[n])
    ensures AllOk(t, ms[..n + 1]) && Records(t, ms[..n + 1]) == Records(t, ms[..n]) + [RecordOf(t, ms[n])]
  {
    assert ms[..n + 1][..n] == ms[..n];
  }

  lemma RecordsPrefix(t: Text, ms: seq<Member>, n: nat)
    requires n <= |ms| && AllOk(t, ms)
    ensures AllOk(t, ms[..n]) && Records(t, ms[..n]) == Records(t, ms)[..n]
  {
    forall i | 0 <= i < n
      ensures Records(t, ms[..n])[i] == Records(t, ms)[i]
    {
      RecordAt(t, ms[..n], i);
      RecordAt(t, ms, i);
    }
  }

  /** A member that breaks the rules on top of those before it spoils the archive. */
  lemma RefusedHere(t: Text, ms: seq<Member>, n: nat)
    requires n < |ms| && AllOk(t, ms[..n])
    requires MemberOk(t, ms[n]) ==> !Bounded(t, Records(t, ms[..n]) + [RecordOf(t, ms[n])])
    ensures !(AllOk(t, ms) && Bounded(t, Records(t, ms)))
  {
    if AllOk(t, ms) && Bounded(t, Records(t, ms)) {
      RecordsPrefix(t, ms, n + 1);
      RecordsSnoc(t, ms, n);
      BoundedPrefix(t, Records(t, ms), n + 1);
    }
  }

  /** The rules checked before the prefix loop: the member's own, and the running
      totals of members, path bytes and expanded bytes. */
  method CheckMember(t: Text, m: Member, count: nat, bookkeeping: nat, expanded: nat) returns (r: Option<Record>)
    requires expanded <= MAX_EXPANDED_BYTES
    ensures r.Some? <==>
            && count < MAX_MEMBER_COUNT
            && MemberOk(t, m)
            && bookkeeping + PathWeight(RecordOf(t, m)) <= MAX_PATH_BOOKKEEPING_BYTES
            && expanded + FileWeight(RecordOf(t, m)) <= MAX_EXPANDED_BYTES
    ensures r.Some? ==> r.value == RecordOf(t, m) && r.value.parts != []
  {
    if count >= MAX_MEMBER_COUNT { return None; }
    var checked := CheckedParts(m.name);
    if checked.None? { return None; }
    var parts := checked.value;
    if bookkeeping + Utf8Length(m.name) > MAX_PATH_BOOKKEEPING_BYTES { return None; }
    if NestedApp(t, parts) { return None; }
    var kind := MemberKind(m.entry);
    if kind.None? || m.size < 0 { return None; }
    if kind == Some(File) && (m.size > MAX_FILE_BYTES || m.size > MAX_EXPANDED_BYTES - expanded) { return None; }
    return Some(Record(m.name, parts, kind.value, m.size, m.mode % 0x200));
  }

  ghost predicate Loaded(t: Text, dict: map<Path, Slot>, rs: seq<Record>) {
    Represents(t, dict, DirPaths(rs), FilePaths(rs), Listed(rs))
  }

  /** One round of the member loop. */
  method AdmitMember(t: Text, dict: map<Path, Slot>, m: Member, records: seq<Record>, bookkeeping: nat, expanded: nat)
    returns (r: Option<(Record, map<Path, Slot>)>)
    requires Bounded(t, records) && Loaded(t, dict, records)
    requires expanded == Total(records, FileWeight) && bookkeeping == Total(records, PathWeight)
    ensures r.Some? <==> MemberOk(t, m) && Bounded(t, records + [RecordOf(t, m)])
    ensures r.Some? ==>
              r.value.0 == RecordOf(t, m) && r.value.0.parts != [] && Loaded(t, r.value.1, records + [r.value.0])
  {
    var checked := CheckMember(t, m, |records|, bookkeeping, expanded);
    if MemberOk(t, m) {
      BoundedSnoc(t, records, RecordOf(t, m));
    }
    if checked.None? { return None; }
    var rec := checked.value;
    SnocFacts(records, rec);
    var next := EnterMember(t, dict, rec, DirPaths(records), FilePaths(records), Listed(records));
    if next.None? { return None; }
    return Some((rec, next.value));
  }

  /** What the member loop carries from one member to the next. */
  datatype Progress = Progress(records: seq<Record>, dict: map<Path, Slot>, roots: set<string>,
                               bookkeeping: nat, expanded: nat)

  ghost predicate Scanned(t: Text, ms: seq<Member>, s: Progress) {
    && AllOk(t, ms) && s.records == Records(t, ms)
    && Bounded(t, s.records) && Loaded(t, s.dict, s.records)
    && Totals(s)
  }

  /** One round of the member loop, or a refusal. */
  method ScanMember(t: Text, ms: seq<Member>, n: nat, s: Progress) returns (r: Option<Progress>)
    requires n < |ms| && Scanned(t, ms[..n], s)
    ensures r.Some? ==> Scanned(t, ms[..n + 1], r.value)
    ensures r.None? ==> !(AllOk(t, ms) && Bounded(t, Records(t, ms)))
  {
    var admitted := AdmitMember(t, s.dict, ms[n], s.records, s.bookkeeping, s.expanded);
    if admitted.None? {
      RefusedHere(t, ms, n);
      return None;
    }
    RecordsSnoc(t, ms, n);
    TotalsKept(s, admitted.value.0);
    return Some(With(s, admitted.value.0, admitted.value.1));
  }

  function With(s: Progress, rec: Record, dict: map<Path, Slot>): Progress
    requires rec.parts != []
  {
    Progress(s.records + [rec], dict, s.roots + {rec.parts[0]},
             s.bookkeeping + PathWeight(rec), s.expanded + FileWeight(rec))
  }

  ghost predicate Totals(s: Progress) {
    && s.expanded == Total(s.records, FileWeight) && s.bookkeeping == Total(s.records, PathWeight)
    && NoEmptyPath(s.records) && s.roots == Roots(s.records)
  }

  lemma TotalsKept(s: Progress, rec: Record)
    requires Totals(s) && rec.parts != []
    ensures forall dict :: Totals(With(s, rec, dict))
  {
    TotalSnoc(s.records, rec, PathWeight);
    TotalSnoc(s.records, rec, FileWeight);
    RootsSnoc(s.records, rec);
  }

  /** The member loop: it runs through exactly when every member is valid and the
      archive as a whole stays within the limits and consistent. */
  method Scan(t: Text, ms: seq<Member>) returns (r: Option<Progress>)
    ensures r.Some? <==> AllOk(t, ms) && Bounded(t, Records(t, ms))
    ensures r.Some? ==> Scanned(t, ms, r.value)
  {
    var s := Progress([], map[], {}, 0, 0);
    EmptyLoaded(t);
    for n := 0 to |ms|
      invariant Scanned(t, ms[..n], s)
    {
      var next := ScanMember(t, ms, n, s);
      if next.None? { return None; }
      s := next.value;
    }
    assert ms[..|ms|] == ms;
    return Some(s);
  }

  /** `preflight`: accepts exactly the acceptable archives and returns their records. */
  method Preflight(t: Text, ms: seq<Member>, app: string) returns (r: Option<seq<Record>>)
    ensures r.Some? <==> Acceptable(t, ms, app)
    ensures r.Some? ==> r.value == Records(t, ms)
  {
    var scanned := Scan(t, ms);
    if scanned.None? { return None; }
    var s := scanned.value;
    var rooted := CheckRoot(t, s.dict, s.records, s.roots, app);
    return if rooted then Some(s.records) else None;
  }

  /** The test after the loop. */
  method CheckRoot(t: Text, dict: map<Path, Slot>, ghost records: seq<Record>, roots: set<string>, app: string)
    returns (ok: bool)
    requires Loaded(t, dict, records)
    requires NoEmptyPath(records) && roots == Roots(records)
    ensures ok == SingleRoot(records, app)
  {
    RootsDecide(records, app);
    if roots != {app} { return false; }
    RootSlot(t, dict, records, app);
    return dict[Key(t, [app])].kind == Directory;
  }

  lemma EmptyLoaded(t: Text)
    ensures Bounded(t, []) && Loaded(t, map[], [])
  {
  }

  lemma RootsSnoc(rs: seq<Record>, r: Record)
    requires r.parts != [] && NoEmptyPath(rs)
    ensures NoEmptyPath(rs + [r])
    ensures Roots(rs + [r]) == Roots(rs) + {r.parts[0]}
  {
  }

  ghost predicate NoEmptyPath(rs: seq<Record>) {
    forall x :: x in rs ==> x.parts != []
  }

  ghost function Roots(rs: seq<Record>): set<string>
    requires NoEmptyPath(rs)
  {
    set x | x in rs :: x.parts[0]
  }

  lemma RootSlot(t: Text, dict: map<Path, Slot>, rs: seq<Record>, app: string)
    requires Loaded(t, dict, rs) && [app] in DirPaths(rs) + FilePaths(rs)
    ensures Key(t, [app]) in dict
    ensures dict[Key(t, [app])].kind.Directory? <==> [app] !in FilePaths(rs)
  {
  }

  lemma RootsDecide(rs: seq<Record>, app: string)
    requires NoEmptyPath(rs)
    ensures SingleRoot(rs, app) <==> Roots(rs) == {app} && [app] !in FilePaths(rs)
    ensures Roots(rs) == {app} ==> [app] in DirPaths(rs) + FilePaths(rs)
  {
    var roots := Roots(rs);
    PathsOf(rs, [app]);
    if roots == {app} {
      assert app in roots;
      var x :| x in rs && x.parts[0] == app;
      RootClaimed(x, app);
      forall y | y in rs
        ensures y.parts[0] == app
      {
        assert y.parts[0] in roots;
      }
    }
    if SingleRoot(rs, app) {
      assert rs[0] in rs && rs[0].parts[0] == app;
      assert roots == {app};
    }
  }

  lemma RootClaimed(x: Record, app: string)
    requires x.parts != [] && x.parts[0] == app
    ensures [app] in RecordDirs(x) + RecordFiles(x)
  {
    assert [app] <= x.parts;
    PrefixesOf(x.parts, [app]);
    PrefixesOf(Parent(x.parts), [app]);
  }

  // ---- Acceptance does not depend on the order of the members ----

  lemma Without<T>(b: seq<T>, x: T, a: seq<T>) returns (j: nat)
    requires multiset(a + [x]) == multiset(b)
    ensures j < |b| && b[j] == x && multiset(b[..j] + b[j + 1..]) == multiset(a)
  {
    assert x in multiset(b);
    j :| j < |b| && b[j] == x;
    Extracted(b, j);
    assert multiset(b[..j] + b[j + 1..]) == multiset(b) - multiset{x} == multiset(a);
  }

  lemma Extracted<T>(b: seq<T>, j: nat)
    requires j < |b|
    ensures multiset(b) == multiset(b[..j] + b[j + 1..]) + multiset{b[j]}
  {
    assert b == b[..j] + [b[j]] + b[j + 1..];
  }

  lemma {:induction false} TotalWithout(b: seq<Record>, j: nat, weight: Record -> nat)
    requires j < |b|
    ensures Total(b, weight) == Total(b[..j] + b[j + 1..], weight) + weight(b[j])
  {
    var init, last := b[..|b| - 1], b[|b| - 1];
    if j < |b| - 1 {
      TotalWithout(init, j, weight);
      assert b[..j] + b[j + 1..] == init[..j] + init[j + 1..] + [last];
      TotalSnoc(init[..j] + init[j + 1..], last, weight);
    } else {
      assert b[..j] + b[j + 1..] == init;
    }
  }

  lemma {:induction false} TotalPermuted(a: seq<Record>, b: seq<Record>, weight: Record -> nat)
    requires multiset(a) == multiset(b)
    ensures Total(a, weight) == Total(b, weight)
  {
    if a != [] {
      var init, last := a[..|a| - 1], a[|a| - 1];
      assert a == init + [last];
      var j := Without(b, last, init);
      TotalPermuted(init, b[..j] + b[j + 1..], weight);
      TotalWithout(b, j, weight);
    } else {
      assert |multiset(b)| == 0;
    }
  }

  lemma {:induction false} RecordsPermuted(t: Text, a: seq<Member>, b: seq<Member>)
    requires AllOk(t, a) && AllOk(t, b) && multiset(a) == multiset(b)
    ensures multiset(Records(t, a)) == multiset(Records(t, b))
  {
    if a != [] {
      var init, last := a[..|a| - 1], a[|a| - 1];
      assert a == init + [last];
      var j := Without(b, last, init);
      var rest := b[..j] + b[j + 1..];
      assert AllOk(t, rest);
      RecordsPermuted(t, init, rest);
      RecordsWithout(t, b, j);
      Extracted(Records(t, b), j);
      RecordAt(t, b, j);
    } else {
      assert |multiset(b)| == 0;
    }
  }

  lemma RecordsWithout(t: Text, b: seq<Member>, j: nat)
    requires j < |b| && AllOk(t, b) && AllOk(t, b[..j] + b[j + 1..])
    ensures Records(t, b[..j] + b[j + 1..]) == Records(t, b)[..j] + Records(t, b)[j + 1..]
  {
    var rest := b[..j] + b[j + 1..];
    forall i | 0 <= i < |rest|
      ensures Records(t, rest)[i] == (Records(t, b)[..j] + Records(t, b)[j + 1..])[i]
    {
      RecordAt(t, rest, i);
      RecordAt(t, b, if i < j then i else i + 1);
    }
  }

  /** A sequence without duplicates is as long as its set of paths. */
  lemma {:induction false} NoDuplicatesSize(rs: seq<Record>)
    ensures |Listed(rs)| <= |rs|
    ensures NoDuplicates(rs) <==> |Listed(rs)| == |rs|
  {
    if rs != [] {
      var init, last := rs[..|rs| - 1], rs[|rs| - 1];
      assert rs == init + [last];
      NoDuplicatesSize(init);
      NoDuplicatesSnoc(init, last);
      SnocFacts(init, last);
    }
  }

  lemma SameMembers(a: seq<Record>, b: seq<Record>)
    requires multiset(a) == multiset(b)
    ensures |a| == |b| && Listed(a) == Listed(b)
    ensures DirPaths(a) == DirPaths(b) && FilePaths(a) == FilePaths(b)
  {
    assert |a| == |multiset(a)| == |multiset(b)| == |b|;
    assert forall r :: r in a <==> r in multiset(a);
    assert forall r :: r in b <==> r in multiset(b);
    forall p
      ensures p in DirPaths(a) <==> p in DirPaths(b)
      ensures p in FilePaths(a) <==> p in FilePaths(b)
    {
      PathsOf(a, p);
      PathsOf(b, p);
    }
  }

  /** Shuffling the members changes no verdict. */
  lemma OrderIrrelevant(t: Text, a: seq<Member>, b: seq<Member>, app: string)
    requires multiset(a) == multiset(b)
    ensures Acceptable(t, a, app) <==> Acceptable(t, b, app)
  {
    if Acceptable(t, a, app) { Reordered(t, a, b, app); }
    if Acceptable(t, b, app) { Reordered(t, b, a, app); }
  }

  lemma Reordered(t: Text, a: seq<Member>, b: seq<Member>, app: string)
    requires multiset(a) == multiset(b) && Acceptable(t, a, app)
    ensures Acceptable(t, b, app)
  {
    forall i | 0 <= i < |b|
      ensures MemberOk(t, b[i])
    {
      assert b[i] in multiset(a);
    }
    RecordsPermuted(t, a, b);
    ReorderedRecords(t, Records(t, a), Records(t, b), app);
  }

  lemma ReorderedRecords(t: Text, a: seq<Record>, b: seq<Record>, app: string)
    requires multiset(a) == multiset(b) && Bounded(t, a) && SingleRoot(a, app)
    ensures Bounded(t, b) && SingleRoot(b, app)
  {
    SameMembers(a, b);
    TotalPermuted(a, b, PathWeight);
    TotalPermuted(a, b, FileWeight);
    NoDuplicatesSize(a);
    NoDuplicatesSize(b);
    forall i | 0 <= i < |b|
      ensures b[i] in a
    {
      assert b[i] in multiset(b);
    }
  }

  // ---- What a member may be ----

  predicate EndsInApp(s: string) { |s| >= 4 && s[|s| - 4] == '.' && s[|s| - 3] == 'a' && s[|s| - 2] == 'p' && s[|s| - 1] == 'p' }

  /** A member passes on its own exactly when its name spells a plain path none of whose
      later components ends in ".app" whatever the case, it is a directory or a regular
      file and no link or device, and its size is declared, within 256 MiB for a file. */
  lemma MemberOkExactly(t: Text, m: Member)
    ensures MemberOk(t, m) <==>
            && (exists parts :: Spells(m.name, parts) && forall k :: 0 < k < |parts| ==> !EndsInApp(t.casefold(parts[k])))
            && (m.entry.DirectoryEntry? || m.entry.RegularEntry?)
            && m.size >= 0 && (m.entry.RegularEntry? ==> m.size <= 268_435_456)
  {
    forall parts ensures CheckedParts(m.name) == Some(parts) <==> Spells(m.name, parts) { CheckedPartsExact(m.name, parts); }
    forall part ensures IsAppName(t, part) <==> EndsInApp(t.casefold(part)) {
      var s := t.casefold(part);
      if |s| >= 4 { assert s[|s| - 4..] == [s[|s| - 4], s[|s| - 3], s[|s| - 2], s[|s| - 1]]; }
    }
  }
}
