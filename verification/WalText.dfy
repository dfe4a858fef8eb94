/**
 The text of the write-ahead log: how records are printed, and how recovery parses a line with
 std::getline on '|', std::stoull and std::stoi.
 */
module WalText {
  import opened Basics
  import opened Sequences
  import opened WalReplay

  const SUBSTITUTE: char := 1 as char   // stands for '|' inside the data field
  const NEWLINE: char := '\n'

  // ---------------------------------------------------------------- numbers

  predicate IsDigit(c: char) { '0' <= c <= '9' }

  function DigitValue(c: char): nat
    requires IsDigit(c)
  {
    c as nat - '0' as nat
  }

  function Decimal(n: nat): (s: string)
    ensures s != [] && forall i :: 0 <= i < |s| ==> IsDigit(s[i])
  {
    var last := [('0' as nat + n % 10) as char];
    if n < 10 then last else Decimal(n / 10) + last
  }

  function Value(s: string): nat
    requires forall i :: 0 <= i < |s| ==> IsDigit(s[i])
  {
    if s == [] then 0 else 10 * Value(s[..|s| - 1]) + DigitValue(s[|s| - 1])
  }

  lemma {:induction false} DecimalValue(n: nat)
    ensures Value(Decimal(n)) == n
  {
    var s := Decimal(n);
    if n < 10 {
      assert s[..0] == [];
    } else {
      DecimalValue(n / 10);
      assert s[..|s| - 1] == Decimal(n / 10);
    }
  }

  /** Length of the longest prefix of digits. */
  function DigitRun(s: string): (k: nat)
    ensures k <= |s| && (forall i :: 0 <= i < k ==> IsDigit(s[i])) && (k < |s| ==> !IsDigit(s[k]))
  {
    if s == [] || !IsDigit(s[0]) then 0 else 1 + DigitRun(s[1..])
  }

  predicate IsSpace(c: char) { c in {' ', '\t', '\n', '\r', 11 as char, 12 as char} }

  function SkipSpace(s: string): string { if s != [] && IsSpace(s[0]) then SkipSpace(s[1..]) else s }

  datatype Number = NotANumber | Number(negative: bool, magnitude: nat)

  /** White space, an optional sign, then digits; whatever follows is ignored. */
  function ScanNumber(s: string): Number
  {
    var body := SkipSpace(s);
    var signed := body != [] && (body[0] == '-' || body[0] == '+');
    var digits := if signed then body[1..] else body;
    var k := DigitRun(digits);
    if k == 0 then NotANumber else Number(signed && body[0] == '-', Value(digits[..k]))
  }

  /** std::stoull: fails on no digits or overflow; a minus sign negates modulo 2^64. */
  function Stoull(s: string): Maybe<nat>
  {
    var v := ScanNumber(s);
    if v == NotANumber || v.magnitude >= WORD then None
    else Some(if v.negative && v.magnitude > 0 then WORD - v.magnitude else v.magnitude)
  }

  /** std::stoi: fails on no digits or beyond 32 bits. */
  function Stoi(s: string): Maybe<int>
  {
    var v := ScanNumber(s);
    if v == NotANumber then None
    else
      var i: int := if v.negative then 0 - v.magnitude else v.magnitude;
      if -0x8000_0000 <= i < 0x8000_0000 then Some(i) else None
  }

  lemma ScanDecimal(n: nat)
    ensures ScanNumber(Decimal(n)) == Number(false, n)
  {
    var s := Decimal(n);
    DecimalValue(n);
    assert IsDigit(s[0]);
    assert SkipSpace(s) == s;
    assert s[..|s|] == s;
  }

  lemma NumbersRoundTrip(n: nat)
    ensures n < WORD ==> Stoull(Decimal(n)) == Some(n)
    ensures n < 256 ==> Stoi(Decimal(n)) == Some(n)
  {
    ScanDecimal(n);
  }

  // ---------------------------------------------------------------- fields and lines

  /** Position of the first c in s, or |s|. */
  function Find(s: string, c: char): (k: nat)
    ensures k <= |s| && (forall i :: 0 <= i < k ==> s[i] != c) && (k < |s| ==> s[k] == c)
  {
    if s == [] || s[0] == c then 0 else 1 + Find(s[1..], c)
  }

  lemma FindAfter(s: string, t: string, c: char)
    requires c !in s
    ensures Find(s + [c] + t, c) == |s|
    ensures (s + [c] + t)[..|s|] == s && (s + [c] + t)[|s| + 1..] == t
    ensures Find(s, c) == |s|
  {
    var u, k := s + [c] + t, Find(s + [c] + t, c);
    assert u[|s|] == c && forall i :: 0 <= i < |s| ==> u[i] == s[i];
  }

  /** std::getline on a string stream: fails when nothing is left. */
  datatype Field = NoField | Field(text: string, rest: string)

  function GetField(s: string): Field
  {
    var k := Find(s, '|');
    if s == [] then NoField else if k < |s| then Field(s[..k], s[k + 1..]) else Field(s, "")
  }

  lemma FieldOf(s: string, t: string)
    requires '|' !in s
    ensures GetField(s + "|" + t) == Field(s, t)
    ensures s != [] ==> GetField(s) == Field(s, "")
  {
    FindAfter(s, t, '|');
  }

  /** The lines of a file as std::getline reads them. */
  function Lines(text: string): seq<string>
    decreases |text|
  {
    if text == [] then []
    else var k := Find(text, NEWLINE);
         if k < |text| then [text[..k]] + Lines(text[k + 1..]) else [text]
  }

  // ---------------------------------------------------------------- escaping

  function Replace(s: string, from: char, to: char): (r: string)
    ensures |r| == |s| && forall i :: 0 <= i < |s| ==> r[i] == if s[i] == from then to else s[i]
  {
    seq(|s|, i requires 0 <= i < |s| => if s[i] == from then to else s[i])
  }

  function Escape(s: string): string { Replace(s, '|', SUBSTITUTE) }

  function Unescape(s: string): string { Replace(s, SUBSTITUTE, '|') }

  /** The data survives exactly when it does not contain the substitute character itself. */
  lemma EscapeRoundTripIff(s: string)
    ensures Unescape(Escape(s)) == s <==> SUBSTITUTE !in s
  {
    var u := Unescape(Escape(s));
    assert forall i :: 0 <= i < |s| ==> u[i] == if s[i] == SUBSTITUTE then '|' else s[i];
    if SUBSTITUTE in s {
      var i :| 0 <= i < |s| && s[i] == SUBSTITUTE;
      assert u[i] != s[i];
    }
  }

  // ---------------------------------------------------------------- printing and parsing

  /** A record line without its newline. */
  function Print(r: Record): string
  {
    match r
    case P(n, e) => "P" + "|" + PendingText(n, e)
    case D(n) => "D" + "|" + Decimal(n)
  }

  function PendingText(n: nat, e: Entry): string
  {
    Decimal(e.kind) + "|" + (Decimal(e.session) + "|" + (Decimal(n) + "|" + Escape(e.data)))
  }

  function PrintLog(log: seq<Record>): string
  {
    if log == [] then [] else Print(log[0]) + [NEWLINE] + PrintLog(log[1..])
  }

  /** The part of a pending line behind its status. */
  function ParsePending(s: string): Maybe<Record>
  {
    var kind := GetField(s);
    if kind == NoField then None else
    var session := GetField(kind.rest);
    if session == NoField then None else
    var number := GetField(session.rest);
    if number == NoField then None
    else PendingOf(kind.text, session.text, number.text, number.rest)
  }

  function PendingOf(kind: string, session: string, number: string, data: string): Maybe<Record>
  {
    var n, k, c := Stoull(number), Stoi(kind), Stoull(session);
    if n == None || k == None || c == None then None
    else Some(P(n.value, Entry(k.value % 256, c.value, Unescape(data))))
  }

  function ParseDone(s: string): Maybe<Record>
  {
    var number := GetField(s);
    if number == NoField then None else
    var n := Stoull(number.text);
    if n == None then None else Some(D(n.value))
  }

  /** One line of the log; anything malformed is skipped. */
  function ParseLine(line: string): Maybe<Record>
  {
    var status := GetField(line);
    if status == NoField then None
    else if status.text == "P" then ParsePending(status.rest)
    else if status.text == "D" then ParseDone(status.rest)
    else None
  }

  function ParseLines(lines: seq<string>): seq<Record>
  {
    if lines == [] then []
    else var r := ParseLine(lines[0]);
         (if r == None then [] else [r.value]) + ParseLines(lines[1..])
  }

  /** Values that fit their C++ types, and data the format can carry. */
  predicate Printable(r: Record)
  {
    r.number < WORD &&
    (r.P? ==> r.entry.kind < 256 && r.entry.session < WORD && NEWLINE !in r.entry.data && SUBSTITUTE !in r.entry.data)
  }

  lemma DecimalHasNo(n: nat, c: char)
    requires !IsDigit(c)
    ensures c !in Decimal(n)
  {
  }

  lemma PendingFields(kind: string, session: string, number: string, data: string)
    requires '|' !in kind && '|' !in session && '|' !in number
    ensures ParsePending(kind + "|" + (session + "|" + (number + "|" + data))) == PendingOf(kind, session, number, data)
  {
    FieldOf(kind, session + "|" + (number + "|" + data));
    FieldOf(session, number + "|" + data);
    FieldOf(number, data);
  }

  lemma PendingParts(kind: string, session: string, number: string, data: string, n: nat, e: Entry)
    requires Stoi(kind) == Some(e.kind) && Stoull(session) == Some(e.session) && Stoull(number) == Some(n)
    requires Unescape(data) == e.data && e.kind < 256
    ensures PendingOf(kind, session, number, data) == Some(P(n, e))
  {
  }

  lemma PendingValues(n: nat, e: Entry)
    requires Printable(P(n, e))
    ensures PendingOf(Decimal(e.kind), Decimal(e.session), Decimal(n), Escape(e.data)) == Some(P(n, e))
  {
    NumbersRoundTrip(e.kind);
    NumbersRoundTrip(e.session);
    NumbersRoundTrip(n);
    EscapeRoundTripIff(e.data);
    PendingParts(Decimal(e.kind), Decimal(e.session), Decimal(n), Escape(e.data), n, e);
  }

  lemma PendingRoundTrip(n: nat, e: Entry)
    requires Printable(P(n, e))
    ensures ParsePending(PendingText(n, e)) == Some(P(n, e))
  {
    DecimalHasNo(e.kind, '|');
    DecimalHasNo(e.session, '|');
    DecimalHasNo(n, '|');
    PendingFields(Decimal(e.kind), Decimal(e.session), Decimal(n), Escape(e.data));
    PendingValues(n, e);
  }

  lemma DoneRoundTrip(s: string, n: nat)
    requires n < WORD && s == Decimal(n)
    ensures ParseDone(s) == Some(D(n))
  {
    DecimalHasNo(n, '|');
    NumbersRoundTrip(n);
    FieldOf(s, "");
  }

  lemma PendingLine(s: string)
    ensures ParseLine("P" + "|" + s) == ParsePending(s)
  {
    FieldOf("P", s);
  }

  lemma DoneLine(s: string)
    ensures ParseLine("D" + "|" + s) == ParseDone(s)
  {
    FieldOf("D", s);
  }

  /** Record round trip: parsing a printed line gives the record back, also when the data contains '|'. */
  lemma LineRoundTrip(r: Record)
    requires Printable(r)
    ensures ParseLine(Print(r)) == Some(r)
  {
    match r {
      case P(n, e) =>
        PendingRoundTrip(n, e);
        PendingLine(PendingText(n, e));
      case D(n) =>
        DoneRoundTrip(Decimal(n), n);
        DoneLine(Decimal(n));
    }
  }

  lemma PrintIsOneLine(r: Record)
    requires Printable(r)
    ensures NEWLINE !in Print(r)
  {
    DecimalHasNo(r.number, NEWLINE);
    if r.P? {
      DecimalHasNo(r.entry.kind, NEWLINE);
      DecimalHasNo(r.entry.session, NEWLINE);
      assert NEWLINE !in Escape(r.entry.data);
    }
  }

  lemma LinesCons(line: string, text: string)
    requires NEWLINE !in line
    ensures Lines(line + [NEWLINE] + text) == [line] + Lines(text)
  {
    FindAfter(line, text, NEWLINE);
  }

  lemma ParseLinesCons(line: string, r: Record, lines: seq<string>)
    requires ParseLine(line) == Some(r)
    ensures ParseLines([line] + lines) == [r] + ParseLines(lines)
  {
    HeadTail(line, lines);
  }

  /** Log round trip: reading back the file that was appended record by record gives the same records. */
  lemma {:induction false} LogRoundTrip(log: seq<Record>)
    requires forall i :: 0 <= i < |log| ==> Printable(log[i])
    ensures ParseLines(Lines(PrintLog(log))) == log
  {
    if log != [] {
      LogRoundTrip(log[1..]);
      PrintIsOneLine(log[0]);
      LinesCons(Print(log[0]), PrintLog(log[1..]));
      LineRoundTrip(log[0]);
      ParseLinesCons(Print(log[0]), log[0], Lines(PrintLog(log[1..])));
      assert [log[0]] + log[1..] == log;
    }
  }

  /** Appending a record to the file appends its line. */
  lemma {:induction false} PrintLogAppend(log: seq<Record>, r: Record)
    ensures PrintLog(log + [r]) == PrintLog(log) + (Print(r) + [NEWLINE])
  {
    if log == [] {
      NilUnit([r]);
      NilUnit(Print(r) + [NEWLINE]);
      assert PrintLog([]) == [];
    } else {
      PrintLogAppend(log[1..], r);
      assert (log + [r])[1..] == log[1..] + [r];
      Assoc(Print(log[0]) + [NEWLINE], PrintLog(log[1..]), Print(r) + [NEWLINE]);
    }
  }

  /** The parsing loop of recovery, line by line, on one file's text. */
  method ParseWalFile(text: string, m0: Pending) returns (m: Pending)
    ensures m == Replay(m0, ParseLines(Lines(text)))
  {
    m := m0;
    var lines := Lines(text);
    ghost var seen: seq<Record> := [];
    NilUnit(ParseLines(lines));
    assert lines[0..] == lines;
    for i := 0 to |lines|
      invariant m == Replay(m0, seen) && seen + ParseLines(lines[i..]) == ParseLines(lines)
    {
      var r := ParseLine(lines[i]);
      assert lines[i..][1..] == lines[i + 1..];
      if r == None {
        NilUnit(ParseLines(lines[i + 1..]));
      } else {
        ReplaySnoc(m0, seen, r.value);
        Assoc(seen, [r.value], ParseLines(lines[i + 1..]));
        m := Apply(m, r.value);
        seen := seen + [r.value];
      }
    }
    NilUnit(seen);
  }

  /** The lines as they stand in the file. */
  lemma LinesInTheFile()
    ensures Print(P(7, Entry(2, 42, "a|b"))) == "P|2|42|7|a" + [SUBSTITUTE] + "b"
    ensures Print(D(10)) == "D|10"
  {
    assert Decimal(2) == "2" && Decimal(42) == "42" && Decimal(7) == "7" && Decimal(10) == "10";
    assert Escape("a|b") == "a" + [SUBSTITUTE] + "b";
  }
}
