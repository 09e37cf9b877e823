/** The path rules of the updater archive (extract-macos-updater-archive.py): which
    member names are canonical, and how they fall into components. */
module ArchivePaths {
  import opened Basics

  type Path = seq<string>

  const MAX_PATH_DEPTH: nat := 64
  const MAX_PATH_BYTES: nat := 4_096

  function Utf8Length(s: string): nat {
    if s == [] then 0
    else
      var n := s[0] as int;
      (if n < 0x80 then 1 else if n < 0x800 then 2 else if n < 0x1_0000 then 3 else 4) + Utf8Length(s[1..])
  }

  /** `rstrip("/")`. */
  function Stripped(name: string): string {
    if name != [] && name[|name| - 1] == '/' then Stripped(name[..|name| - 1]) else name
  }

  /** `split("/")`: always at least one component. */
  function Split(name: string): (parts: Path)
    ensures parts != []
  {
    if name == [] then [[]]
    else
      var rest := Split(name[1..]);
      if name[0] == '/' then [[]] + rest else [[name[0]] + rest[0]] + rest[1..]
  }

  predicate CanonicalPart(part: string) {
    part != "" && part != "." && part != ".."
  }

  /** `checked_parts`. */
  function CheckedParts(name: string): Option<Path> {
    if name == [] || name[0] == '/' then None
    else if '\\' in name then None
    else if Utf8Length(name) > MAX_PATH_BYTES then None
    else
      var parts := Split(Stripped(name));
      if exists i :: 0 <= i < |parts| && !CanonicalPart(parts[i]) then None
      else if |parts| > MAX_PATH_DEPTH then None
      else Some(parts)
  }

  // ---- What the names that pass look like ----

  function Joined(parts: Path): string
    requires parts != []
  {
    if |parts| == 1 then parts[0] else parts[0] + ['/'] + Joined(parts[1..])
  }

  function Slashes(n: nat): string { seq(n, _ => '/') }

  predicate PlainPart(part: string) {
    part != "" && part != "." && part != ".." && '/' !in part && '\\' !in part
  }

  predicate PlainPath(parts: Path) {
    parts != [] && |parts| <= MAX_PATH_DEPTH && forall i :: 0 <= i < |parts| ==> PlainPart(parts[i])
  }

  /** The name is its components written with single slashes between them, followed
      by any number of slashes. */
  ghost predicate Spells(name: string, parts: Path) {
    && PlainPath(parts)
    && Utf8Length(name) <= MAX_PATH_BYTES
    && exists n: nat :: name == Joined(parts) + Slashes(n)
  }

  lemma {:induction false} StrippedShape(name: string) returns (n: nat)
    ensures name == Stripped(name) + Slashes(n)
    ensures Stripped(name) != [] ==> Stripped(name)[|Stripped(name)| - 1] != '/'
  {
    n := 0;
    if name != [] && name[|name| - 1] == '/' {
      n := StrippedShape(name[..|name| - 1]);
      assert Slashes(n) + ['/'] == Slashes(n + 1);
      assert name == name[..|name| - 1] + ['/'];
      n := n + 1;
    }
  }

  lemma {:induction false} StrippedUndoes(s: string, n: nat)
    requires s != [] && s[|s| - 1] != '/'
    ensures Stripped(s + Slashes(n)) == s
  {
    var name := s + Slashes(n);
    if n > 0 {
      assert name[..|name| - 1] == s + Slashes(n - 1);
      StrippedUndoes(s, n - 1);
    } else {
      assert name == s;
    }
  }

  lemma JoinedPrepend(c: char, rest: Path)
    requires rest != []
    ensures Joined([[c] + rest[0]] + rest[1..]) == [c] + Joined(rest)
  {
  }

  lemma {:induction false} SplitJoins(name: string)
    ensures Joined(Split(name)) == name
  {
    if name != [] {
      SplitJoins(name[1..]);
      var rest := Split(name[1..]);
      if name[0] == '/' {
        assert Split(name)[1..] == rest;
        assert name == [] + ['/'] + name[1..];
      } else {
        JoinedPrepend(name[0], rest);
        assert name == [name[0]] + name[1..];
      }
    }
  }

  lemma {:induction false} SplitSeparates(name: string)
    ensures forall i :: 0 <= i < |Split(name)| ==> '/' !in Split(name)[i]
  {
    if name != [] {
      SplitSeparates(name[1..]);
    }
  }

  lemma {:induction false} SplitPart(part: string, tail: string)
    requires '/' !in part
    ensures Split(part + tail) == [part + Split(tail)[0]] + Split(tail)[1..]
  {
    if part == [] {
      assert part + tail == tail;
      assert part + Split(tail)[0] == Split(tail)[0];
    } else {
      assert (part + tail)[1..] == part[1..] + tail;
      SplitPart(part[1..], tail);
      var rest := Split(part[1..] + tail);
      assert part[0] in part && (part + tail)[0] == part[0];
      assert [part[0]] + rest[0] == part + Split(tail)[0];
      assert rest[1..] == Split(tail)[1..];
    }
  }

  lemma {:induction false} SplitUndoes(parts: Path)
    requires parts != [] && forall i :: 0 <= i < |parts| ==> '/' !in parts[i]
    ensures Split(Joined(parts)) == parts
  {
    if |parts| == 1 {
      assert parts[0] + [] == parts[0];
      SplitPart(parts[0], []);
    } else {
      SplitUndoes(parts[1..]);
      var tail := ['/'] + Joined(parts[1..]);
      assert tail[1..] == Joined(parts[1..]);
      assert Joined(parts) == parts[0] + tail;
      SplitPart(parts[0], tail);
      assert parts[0] + [] == parts[0];
    }
  }

  lemma {:induction false} JoinedChars(parts: Path, c: char)
    requires parts != [] && c != '/'
    ensures c in Joined(parts) <==> exists i :: 0 <= i < |parts| && c in parts[i]
  {
    if |parts| > 1 {
      JoinedChars(parts[1..], c);
      assert forall i :: 0 < i < |parts| ==> parts[i] == parts[1..][i - 1];
    }
  }

  lemma {:induction false} JoinedEnds(parts: Path)
    requires parts != [] && forall i :: 0 <= i < |parts| ==> PlainPart(parts[i])
    ensures Joined(parts) != [] && Joined(parts)[0] != '/' && Joined(parts)[|Joined(parts)| - 1] != '/'
  {
    assert PlainPart(parts[0]);
    if |parts| > 1 {
      JoinedEnds(parts[1..]);
    }
  }

  /** `checked_parts` is the inverse of writing a path down: it answers `parts`
      exactly for the spellings of `parts`, and refuses every other name. */
  lemma CheckedPartsExact(name: string, parts: Path)
    ensures CheckedParts(name) == Some(parts) <==> Spells(name, parts)
  {
    if CheckedParts(name) == Some(parts) {
      AcceptedIsSpelling(name, parts);
    }
    if Spells(name, parts) {
      SpellingIsAccepted(name, parts);
    }
  }

  lemma AcceptedIsSpelling(name: string, parts: Path)
    requires CheckedParts(name) == Some(parts)
    ensures Spells(name, parts)
  {
    var n := StrippedShape(name);
    SplitJoins(Stripped(name));
    SplitSeparates(Stripped(name));
    JoinedChars(parts, '\\');
    forall i | 0 <= i < |parts|
      ensures PlainPart(parts[i])
    {
      assert CanonicalPart(parts[i]);
    }
    assert name == Joined(parts) + Slashes(n);
  }

  lemma SpellingIsAccepted(name: string, parts: Path)
    requires Spells(name, parts)
    ensures CheckedParts(name) == Some(parts)
  {
    var n: nat :| name == Joined(parts) + Slashes(n);
    JoinedEnds(parts);
    StrippedUndoes(Joined(parts), n);
    forall i | 0 <= i < |parts|
      ensures '/' !in parts[i] && CanonicalPart(parts[i])
    {
      assert PlainPart(parts[i]);
    }
    SplitUndoes(parts);
    JoinedChars(parts, '\\');
  }
}
