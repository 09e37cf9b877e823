/** The characters of the bpftrace protocol (linux_network.rs): splitting a line on
    white space, parsing unsigned numbers as Rust does, and telling the line kinds
    apart. */
module LinuxText {
  import opened Basics
  import opened LinuxProtocol

  datatype Kind = HeaderKind | BeginKind(d: Direction) | EntryKind(d: Direction) | EndKind(d: Direction) | MarkerKind

  function Keyword(k: Kind): string {
    match k
    case HeaderKind => "BATCAVE_NETWORK_PROTOCOL"
    case MarkerKind => "BATCAVE_NETWORK_INTERVAL"
    case BeginKind(d) => if d.Rx? then "BATCAVE_NETWORK_RX_BEGIN" else "BATCAVE_NETWORK_TX_BEGIN"
    case EntryKind(d) => if d.Rx? then "BATCAVE_NETWORK_RX" else "BATCAVE_NETWORK_TX"
    case EndKind(d) => if d.Rx? then "BATCAVE_NETWORK_RX_END" else "BATCAVE_NETWORK_TX_END"
  }

  function KindOf(word: string): Option<Kind> {
    if word == Keyword(HeaderKind) then Some(HeaderKind)
    else if word == Keyword(BeginKind(Rx)) then Some(BeginKind(Rx))
    else if word == Keyword(EntryKind(Rx)) then Some(EntryKind(Rx))
    else if word == Keyword(EndKind(Rx)) then Some(EndKind(Rx))
    else if word == Keyword(BeginKind(Tx)) then Some(BeginKind(Tx))
    else if word == Keyword(EntryKind(Tx)) then Some(EntryKind(Tx))
    else if word == Keyword(EndKind(Tx)) then Some(EndKind(Tx))
    else if word == Keyword(MarkerKind) then Some(MarkerKind)
    else None
  }

  /** The Unicode White_Space property. */
  predicate IsSpace(c: char) {
    var n := c as int;
    || 0x09 <= n <= 0x0d || n == 0x20 || n == 0x85 || n == 0xa0 || n == 0x1680
    || 0x2000 <= n <= 0x200a || n == 0x2028 || n == 0x2029 || n == 0x202f || n == 0x205f || n == 0x3000
  }

  /** `split_whitespace`: `word` holds the characters since the last space. */
  function SplitFrom(line: string, word: string): seq<string> {
    if line == [] then if word == [] then [] else [word]
    else if IsSpace(line[0]) then (if word == [] then [] else [word]) + SplitFrom(line[1..], [])
    else SplitFrom(line[1..], word + [line[0]])
  }

  function Fields(line: string): seq<string> { SplitFrom(line, []) }

  predicate IsDigit(c: char) { '0' <= c <= '9' }

  predicate AllDigits(s: string) { forall i :: 0 <= i < |s| ==> IsDigit(s[i]) }

  function DigitsValue(s: string): nat
    requires AllDigits(s)
  {
    if s == [] then 0
    else
      assert IsDigit(s[|s| - 1]);
      10 * DigitsValue(s[..|s| - 1]) + (s[|s| - 1] as int - '0' as int)
  }

  /** `str::parse` for an unsigned integer: an optional plus sign, at least one digit,
      nothing else, and no overflow. */
  function ParseUnsigned(s: string, max: nat): Option<nat> {
    var digits := if s != [] && s[0] == '+' then s[1..] else s;
    if digits == [] || !AllDigits(digits) then None
    else
      var v := DigitsValue(digits);
      if v <= max then Some(v) else None
  }

  function Decimal(n: nat): (s: string)
    ensures s != [] && AllDigits(s)
  {
    var last := (('0' as int) + n % 10) as char;
    if n < 10 then [last] else Decimal(n / 10) + [last]
  }

  /** The typed line a field list stands for, or `None` for one the assembler must
      refuse whatever its stage. */
  function Decode(fields: seq<string>): Option<Line> {
    if fields == [] || KindOf(fields[0]).None? then None else DecodeAs(KindOf(fields[0]).value, fields)
  }

  function DecodeAs(k: Kind, fields: seq<string>): Option<Line> {
    match k
    case HeaderKind =>
      if |fields| != 2 || ParseUnsigned(fields[1], MAX_U64).None? then None
      else Some(Header(ParseUnsigned(fields[1], MAX_U64).value))
    case MarkerKind =>
      if |fields| != 2 || ParseUnsigned(fields[1], MAX_U64).None? then None
      else Some(Marker(ParseUnsigned(fields[1], MAX_U64).value))
    case BeginKind(d) => DecodeBegin(d, fields)
    case EntryKind(d) => DecodeEntry(d, fields)
    case EndKind(d) => DecodeEnd(d, fields)
  }

  function DecodeBegin(d: Direction, fields: seq<string>): Option<Line> {
    if |fields| != 2 || ParseUnsigned(fields[1], MAX_U64).None? then None
    else Some(Begin(d, ParseUnsigned(fields[1], MAX_U64).value))
  }

  function DecodeEntry(d: Direction, fields: seq<string>): Option<Line> {
    if |fields| != 4 then None
    else
      var epoch, pid, bytes :=
        ParseUnsigned(fields[1], MAX_U64), ParseUnsigned(fields[2], MAX_U32), ParseUnsigned(fields[3], MAX_U64);
      if epoch.None? || pid.None? || bytes.None? then None
      else Some(Entry(d, epoch.value, pid.value, bytes.value))
  }

  function DecodeEnd(d: Direction, fields: seq<string>): Option<Line> {
    if |fields| != 6 then None
    else
      var epoch, count, total := ParseUnsigned(fields[1], MAX_U64), ParseUnsigned(fields[2], MAX_U64), ParseUnsigned(fields[3], MAX_U64);
      var stale, overflow := ParseUnsigned(fields[4], MAX_U64), ParseUnsigned(fields[5], MAX_U64);
      if epoch.None? || count.None? || total.None? || stale.None? || overflow.None? then None
      else Some(End(d, epoch.value, count.value, total.value, stale.value, overflow.value))
  }

  // ---- Printing ----

  function Encode(l: Line): seq<string> {
    match l
    case Header(v) => [Keyword(HeaderKind), Decimal(v)]
    case Begin(d, e) => [Keyword(BeginKind(d)), Decimal(e)]
    case Entry(d, e, pid, bytes) =>
      [Keyword(EntryKind(d)), Decimal(e), Decimal(pid), Decimal(bytes)]
    case End(d, e, count, total, stale, overflow) =>
      [Keyword(EndKind(d)), Decimal(e), Decimal(count), Decimal(total), Decimal(stale), Decimal(overflow)]
    case Marker(e) => [Keyword(MarkerKind), Decimal(e)]
  }

  function Joined(fields: seq<string>): string {
    if fields == [] then []
    else if |fields| == 1 then fields[0]
    else fields[0] + [' '] + Joined(fields[1..])
  }

  function Print(l: Line): string { Joined(Encode(l)) }

  predicate Printable(l: Line) {
    match l
    case Header(v) => v <= MAX_U64
    case Begin(_, e) => e <= MAX_U64
    case Entry(_, e, pid, bytes) => e <= MAX_U64 && pid <= MAX_U32 && bytes <= MAX_U64
    case End(_, e, count, total, stale, overflow) =>
      e <= MAX_U64 && count <= MAX_U64 && total <= MAX_U64 && stale <= MAX_U64 && overflow <= MAX_U64
    case Marker(e) => e <= MAX_U64
  }

  // ---- Round trips ----

  lemma {:induction false} DecimalValue(n: nat)
    ensures DigitsValue(Decimal(n)) == n
  {
    var s := Decimal(n);
    if n >= 10 {
      DecimalValue(n / 10);
      assert s[..|s| - 1] == Decimal(n / 10);
    } else {
      assert s[..0] == [];
    }
  }

  lemma DecimalParses(n: nat, max: nat)
    requires n <= max
    ensures ParseUnsigned(Decimal(n), max) == Some(n)
  {
    DecimalValue(n);
    assert IsDigit(Decimal(n)[0]);
  }

  predicate IsWord(w: string) { w != [] && forall i :: 0 <= i < |w| ==> !IsSpace(w[i]) }

  lemma {:induction false} SplitWord(w: string, rest: string, sofar: string)
    requires forall i :: 0 <= i < |w| ==> !IsSpace(w[i])
    ensures SplitFrom(w + rest, sofar) == SplitFrom(rest, sofar + w)
    decreases |w|
  {
    if w == [] {
      assert w + rest == rest && sofar + w == sofar;
    } else {
      assert (w + rest)[1..] == w[1..] + rest;
      SplitWord(w[1..], rest, sofar + [w[0]]);
      assert (sofar + [w[0]]) + w[1..] == sofar + w;
    }
  }

  lemma {:induction false} FieldsJoined(fields: seq<string>)
    requires forall i :: 0 <= i < |fields| ==> IsWord(fields[i])
    ensures Fields(Joined(fields)) == fields
  {
    if |fields| == 1 {
      SplitWord(fields[0], [], []);
      assert fields[0] + [] == fields[0] && [] + fields[0] == fields[0];
      assert fields == [fields[0]];
    } else if |fields| > 1 {
      var rest := [' '] + Joined(fields[1..]);
      assert Joined(fields) == fields[0] + rest;
      SplitWord(fields[0], rest, []);
      assert [] + fields[0] == fields[0];
      assert rest[1..] == Joined(fields[1..]);
      FieldsJoined(fields[1..]);
      assert fields == [fields[0]] + fields[1..];
    }
  }

  lemma KeywordKnown(k: Kind)
    ensures KindOf(Keyword(k)) == Some(k)
  {
    var w := Keyword(k);
    match k
    case HeaderKind =>
    case MarkerKind => assert w[16] == 'I';
    case BeginKind(d) => assert w[16] == if d.Rx? then 'R' else 'T';
    case EntryKind(d) => assert w[16] == if d.Rx? then 'R' else 'T';
    case EndKind(d) => assert w[16] == if d.Rx? then 'R' else 'T';
  }

  lemma KeywordIsWord(k: Kind)
    ensures IsWord(Keyword(k))
  {
    var w := Keyword(k);
    forall i | 0 <= i < |w| ensures !IsSpace(w[i]) {
      assert w[i] == '_' || 'A' <= w[i] <= 'Z';
    }
  }

  lemma DecimalIsWord(n: nat)
    ensures IsWord(Decimal(n))
  {
  }

  lemma EncodedAreWords(l: Line)
    ensures forall i :: 0 <= i < |Encode(l)| ==> IsWord(Encode(l)[i])
  {
    forall k { KeywordIsWord(k); }
    forall n { DecimalIsWord(n); }
  }

  lemma EntryDecodes(d: Direction, e: nat, pid: nat, bytes: nat)
    requires Printable(Entry(d, e, pid, bytes))
    ensures DecodeEntry(d, Encode(Entry(d, e, pid, bytes))) == Some(Entry(d, e, pid, bytes))
  {
    DecimalParses(e, MAX_U64);
    DecimalParses(pid, MAX_U32);
    DecimalParses(bytes, MAX_U64);
  }

  lemma EndDecodes(d: Direction, e: nat, count: nat, total: nat, stale: nat, overflow: nat)
    requires Printable(End(d, e, count, total, stale, overflow))
    ensures DecodeEnd(d, Encode(End(d, e, count, total, stale, overflow))) == Some(End(d, e, count, total, stale, overflow))
  {
    DecimalParses(e, MAX_U64);
    DecimalParses(count, MAX_U64);
    DecimalParses(total, MAX_U64);
    DecimalParses(stale, MAX_U64);
    DecimalParses(overflow, MAX_U64);
  }

  lemma EncodedDecodes(l: Line)
    requires Printable(l)
    ensures Decode(Encode(l)) == Some(l)
  {
    match l
    case Header(v) =>
      KeywordKnown(HeaderKind);
      DecimalParses(v, MAX_U64);
    case Begin(d, e) =>
      KeywordKnown(BeginKind(d));
      DecimalParses(e, MAX_U64);
    case Entry(d, e, pid, bytes) =>
      KeywordKnown(EntryKind(d));
      EntryDecodes(d, e, pid, bytes);
    case End(d, e, count, total, stale, overflow) =>
      KeywordKnown(EndKind(d));
      EndDecodes(d, e, count, total, stale, overflow);
    case Marker(e) =>
      KeywordKnown(MarkerKind);
      DecimalParses(e, MAX_U64);
  }

  /** Every printable line is read back exactly as it was printed. */
  lemma LineRoundTrip(l: Line)
    requires Printable(l)
    ensures Decode(Fields(Print(l))) == Some(l)
  {
    EncodedAreWords(l);
    FieldsJoined(Encode(l));
    EncodedDecodes(l);
  }

  // ---- Nothing else is read ----

  /** The text is a decimal numeral for `v`, with an optional plus sign, within range. */
  predicate Numeral(s: string, v: nat, max: nat) {
    var digits := if s != [] && s[0] == '+' then s[1..] else s;
    |digits| > 0 && AllDigits(digits) && DigitsValue(digits) == v <= max
  }

  lemma ParseExact(s: string, v: nat, max: nat)
    ensures ParseUnsigned(s, max) == Some(v) <==> Numeral(s, v, max)
  {
  }

  /** The fields after the keyword are numerals for the numbers of the line, and nothing
      more. */
  predicate SaysNumbers(fields: seq<string>, l: Line) {
    match l
    case Header(v) => |fields| == 2 && Numeral(fields[1], v, MAX_U64)
    case Marker(e) => |fields| == 2 && Numeral(fields[1], e, MAX_U64)
    case Begin(_, e) => |fields| == 2 && Numeral(fields[1], e, MAX_U64)
    case Entry(_, e, pid, bytes) =>
      && |fields| == 4 && Numeral(fields[1], e, MAX_U64)
      && Numeral(fields[2], pid, MAX_U32) && Numeral(fields[3], bytes, MAX_U64)
    case End(_, e, count, total, stale, overflow) =>
      && |fields| == 6 && Numeral(fields[1], e, MAX_U64)
      && Numeral(fields[2], count, MAX_U64) && Numeral(fields[3], total, MAX_U64)
      && Numeral(fields[4], stale, MAX_U64) && Numeral(fields[5], overflow, MAX_U64)
  }

  /** The fields say exactly this line. */
  predicate Says(fields: seq<string>, l: Line) {
    fields != [] && fields[0] == Keyword(KindFor(l)) && SaysNumbers(fields, l)
  }

  function KindFor(l: Line): Kind {
    match l
    case Header(_) => HeaderKind
    case Marker(_) => MarkerKind
    case Begin(d, _) => BeginKind(d)
    case Entry(d, _, _, _) => EntryKind(d)
    case End(d, _, _, _, _, _) => EndKind(d)
  }

  lemma KindExact(word: string, k: Kind)
    ensures KindOf(word) == Some(k) <==> word == Keyword(k)
  {
    KeywordKnown(k);
  }

  lemma EntryExact(d: Direction, fields: seq<string>, l: Line)
    ensures DecodeEntry(d, fields) == Some(l) <==>
            && l.Entry? && l.direction == d && |fields| == 4 && Numeral(fields[1], l.epoch, MAX_U64)
            && Numeral(fields[2], l.pid, MAX_U32) && Numeral(fields[3], l.bytes, MAX_U64)
  {
    if |fields| == 4 && l.Entry? {
      ParseExact(fields[1], l.epoch, MAX_U64);
      ParseExact(fields[2], l.pid, MAX_U32);
      ParseExact(fields[3], l.bytes, MAX_U64);
    }
  }

  lemma EndExact(d: Direction, fields: seq<string>, l: Line)
    ensures DecodeEnd(d, fields) == Some(l) <==>
            && l.End? && l.direction == d && |fields| == 6 && Numeral(fields[1], l.epoch, MAX_U64)
            && Numeral(fields[2], l.count, MAX_U64) && Numeral(fields[3], l.total, MAX_U64)
            && Numeral(fields[4], l.stale, MAX_U64) && Numeral(fields[5], l.overflow, MAX_U64)
  {
    if |fields| == 6 && l.End? {
      ParseExact(fields[1], l.epoch, MAX_U64);
      ParseExact(fields[2], l.count, MAX_U64);
      ParseExact(fields[3], l.total, MAX_U64);
      ParseExact(fields[4], l.stale, MAX_U64);
      ParseExact(fields[5], l.overflow, MAX_U64);
    }
  }

  lemma DecodeAsExact(k: Kind, fields: seq<string>, l: Line)
    ensures DecodeAs(k, fields) == Some(l) <==> k == KindFor(l) && SaysNumbers(fields, l)
  {
    match l
    case Entry(d, _, _, _) => EntryExact(d, fields, l);
    case End(d, _, _, _, _, _) => EndExact(d, fields, l);
    case Header(v) => if |fields| == 2 { ParseExact(fields[1], v, MAX_U64); }
    case Marker(e) => if |fields| == 2 { ParseExact(fields[1], e, MAX_U64); }
    case Begin(_, e) => if |fields| == 2 { ParseExact(fields[1], e, MAX_U64); }
  }

  /** A list of fields is read as a line exactly when it says that line. */
  lemma DecodeExact(fields: seq<string>, l: Line)
    ensures Decode(fields) == Some(l) <==> Says(fields, l)
  {
    if fields != [] {
      KindExact(fields[0], KindFor(l));
      if KindOf(fields[0]).Some? {
        DecodeAsExact(KindOf(fields[0]).value, fields, l);
      }
    }
  }

  /** Splitting on white space: white space separates, and what has none is one field. */
  lemma FieldsLaws(a: string, c: char, b: string)
    requires IsSpace(c)
    ensures Fields(a + [c] + b) == Fields(a) + Fields(b)
    ensures (forall i :: 0 <= i < |a| ==> !IsSpace(a[i])) ==> Fields(a) == if a == [] then [] else [a]
  {
    SplitAt(a, [], c, b);
    if forall i :: 0 <= i < |a| ==> !IsSpace(a[i]) {
      SplitWord(a, [], []);
      assert a + [] == a && [] + a == a;
    }
  }

  lemma {:induction false} SplitAt(a: string, word: string, c: char, b: string)
    requires IsSpace(c)
    ensures SplitFrom(a + [c] + b, word) == SplitFrom(a, word) + Fields(b)
  {
    var line := a + [c] + b;
    if a == [] {
      assert line[1..] == b;
    } else {
      assert line[0] == a[0] && line[1..] == a[1..] + [c] + b;
      if IsSpace(a[0]) {
        SplitAt(a[1..], [], c, b);
        assert SplitFrom(a, word) == (if word == [] then [] else [word]) + SplitFrom(a[1..], []);
      } else {
        SplitAt(a[1..], word + [a[0]], c, b);
      }
    }
  }
}
