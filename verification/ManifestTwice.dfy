/**
 Why the edited script has to be listed once: a script of nine bytes, listed twice, whose first byte
 can be inverted without changing the manifest hash.  The first copy drives the two states apart and
 the second copy brings them together again.
 */
module ManifestTwice {
  import opened Basics
  import opened ManifestHash
  import opened Sequences

  /** One hash step, with what is needed to see it by adding up: the state cut behind its lowest byte, and the overflow. */
  datatype Row = Row(state: Word, high: nat, low: Char, c: Char, overflow: nat)

  predicate RowOk(r: Row, next: Word)
  {
    && r.state == Compose(r.high, r.low)
    && Compose(r.high, r.low ^ r.c) * FNV_PRIME == next + WORD * r.overflow
  }

  lemma RowHashes(r: Row, next: Word)
    requires RowOk(r, next)
    ensures HashByte(r.state, r.c) == next
  {
    ComposeParts(r.high, r.low);
    RemainderOf(next, r.overflow);
  }

  function StateAfter(rows: seq<Row>, last: Word, i: nat): Word { if i + 1 < |rows| then rows[i + 1].state else last }

  ghost predicate Trace(rows: seq<Row>, last: Word)
  {
    forall i :: 0 <= i < |rows| ==> RowOk(rows[i], StateAfter(rows, last, i))
  }

  function CharsOf(rows: seq<Row>): Text { seq(|rows|, i requires 0 <= i < |rows| => rows[i].c) }

  lemma {:induction false} TraceFolds(rows: seq<Row>, last: Word)
    requires rows != [] && Trace(rows, last)
    ensures Fold(rows[0].state, CharsOf(rows)) == last
  {
    RowHashes(rows[0], StateAfter(rows, last, 0));
    assert CharsOf(rows)[1..] == CharsOf(rows[1..]);
    if 1 < |rows| {
      forall i | 0 <= i < |rows[1..]| ensures RowOk(rows[1..][i], StateAfter(rows[1..], last, i)) {
        assert RowOk(rows[i + 1], StateAfter(rows, last, i + 1));
      }
      TraceFolds(rows[1..], last);
    }
  }

  // The rows of the two texts up to their second difference; RowOk checks each by addition.

  const PREFIX: seq<Row> :=
    [Row(0x14650fb0739d0383, 0x14650fb0739d03, 0x83, 0x6d, 87594872982),
     Row(0x44bd96d473cdad6a, 0x44bd96d473cdad, 0x6a, 0xff, 295238554856),
     Row(0x9bd4e000c67df42f, 0x9bd4e000c67df4, 0x2f, 0x70, 669291381199),
     Row(0x48ad005148063d6d, 0x48ad005148063d, 0x6d, 0xff, 312140124611)]

  const BEFORE: seq<Row> :=
    [Row(0x84351c1d629a9f16, 0x84351c1d629a9f, 0x16, 0x8f, 567826718275),
     Row(0x40de5eee8cbd30fb, 0x40de5eee8cbd30, 0xfb, 0xb0, 278608670458),
     Row(0xf70b9a5925790f71, 0xf70b9a5925790f, 0x71, 0x61, 1061051587273),
     Row(0x41c6557aacb49830, 0x41c6557aacb498, 0x30, 0x14, 282500365084),
     Row(0x789b637376de852c, 0x789b637376de85, 0x2c, 0x22, 518003061827),
     Row(0xce8f0b32fc1c16ca, 0xce8f0b32fc1c16, 0xca, 0x86, 887163139163),
     Row(0x192653a263b9e324, 0x192653a263b9e3, 0x24, 0xc8, 108017197710),
     Row(0x760408ef74de4a04, 0x760408ef74de4a, 0x04, 0x47, 506873835581),
     Row(0x672571e395b82fd9, 0x672571e395b82f, 0xd9, 0x76, 443009852484),
     Row(0xfcd034b767f9065d, 0xfcd034b767f906, 0x5d, 0xff, 1085824874773),
     Row(0x8ed035a5ac264546, 0x8ed035a5ac2645, 0x46, 0x70, 613378533022),
     Row(0xd2105e8385079ac2, 0xd2105e8385079a, 0xc2, 0xff, 902217762025),
     Row(0xf96ad67b0beb15a7, 0xf96ad67b0beb15, 0xa7, 0x8f, 1071239298227)]

  const AFTER: seq<Row> :=
    [Row(0x84351c1d629a9f16, 0x84351c1d629a9f, 0x16, 0x70, 567826718275),
     Row(0x40de2bee8cbcda52, 0x40de2bee8cbcda, 0x52, 0xb0, 278605328122),
     Row(0xf65f885924e7ee06, 0xf65f885924e7ee, 0x06, 0x61, 1058164726471),
     Row(0x8c431679b61a1905, 0x8c431679b61a19, 0x05, 0x14, 602420968100),
     Row(0x701841d06e5897e3, 0x701841d06e5897, 0xe3, 0x22, 481443303724),
     Row(0xd1cf962b8089dcf3, 0xd1cf962b8089dc, 0xf3, 0x86, 901130890469),
     Row(0xd98a0eb6a419acf, 0xd98a0eb6a419a, 0xcf, 0xc8, 58395257729),
     Row(0x5bf377058d78b9e5, 0x5bf377058d78b9, 0xe5, 0x47, 394926687785),
     Row(0xb76ce06f64236e46, 0xb76ce06f64236e, 0x46, 0x76, 787805663387),
     Row(0xd16f8d4728343b90, 0xd16f8d4728343b, 0x90, 0xff, 899519694988),
     Row(0x14c87ee950c0fd9d, 0x14c87ee950c0fd, 0x9d, 0x70, 89263106420),
     Row(0x11ad937437ef79b7, 0x11ad937437ef79, 0xb7, 0xff, 75926565973),
     Row(0xf96ad67b0beb1558, 0xf96ad67b0beb15, 0x58, 0x70, 1071239298227)]

  const FORK: Word := 0x84351c1d629a9f16
  const MEET: Word := 0xbb9f9b154074f2f8

  lemma PrefixTraced()
    ensures Trace(PREFIX, FORK)
  {
  }

  lemma BeforeTraced()
    ensures BEFORE != [] && BEFORE[0].state == FORK && Trace(BEFORE, MEET)
  {
    BeforeRows(0, 5);
    BeforeRows(5, 9);
    BeforeRows(9, 13);
  }

  lemma BeforeRows(from: nat, to: nat)
    requires (from, to) in {(0, 5), (5, 9), (9, 13)}
    ensures forall i :: from <= i < to ==> RowOk(BEFORE[i], StateAfter(BEFORE, MEET, i))
  {
  }

  lemma AfterTraced()
    ensures AFTER != [] && AFTER[0].state == FORK && Trace(AFTER, MEET)
  {
    AfterRows(0, 5);
    AfterRows(5, 9);
    AfterRows(9, 13);
  }

  lemma AfterRows(from: nat, to: nat)
    requires (from, to) in {(0, 5), (5, 9), (9, 13)}
    ensures forall i :: from <= i < to ==> RowOk(AFTER[i], StateAfter(AFTER, MEET, i))
  {
  }

  const MODULE: Text := [0x6d]
  const PATH: Text := [0x70]
  const TAIL: Text := [0xb0, 0x61, 0x14, 0x22, 0x86, 0xc8, 0x47, 0x76]
  const OLD_TEXT: Text := [0x8f] + TAIL
  const NEW_TEXT: Text := [0x70] + TAIL

  /** The text [c] + TAIL as it stands between the copies, up to the second c. */
  function Twice(c: Char): Text { [c] + TAIL + [TERMINATOR] + PATH + [TERMINATOR] + [c] }

  lemma Regroup(m: Text, t: Text, p: Text, c: Text, tail: Text)
    ensures m + t + (p + t + (c + tail + t) + (p + t + (c + tail + t) + [])) ==
            (m + t + p + t) + (c + tail + t + p + t + c) + (tail + t)
  {
  }

  /** The manifest of the twice-listed script with text [c] + TAIL, cut behind the second c. */
  lemma ManifestCut(c: Char, load: Text -> Text)
    requires load(PATH) == [c] + TAIL
    ensures Manifest(MODULE, [PATH, PATH], load) ==
            (MODULE + [TERMINATOR] + PATH + [TERMINATOR]) + Twice(c) + (TAIL + [TERMINATOR])
  {
    assert [PATH, PATH][1..] == [PATH] && [PATH][1..] == [];
    assert ScriptBytes([], load) == [];
    assert ScriptBytes([PATH], load) == PATH + [TERMINATOR] + ([c] + TAIL + [TERMINATOR]) + [];
    Regroup(MODULE, [TERMINATOR], PATH, [c], TAIL);
  }

  lemma TraceLeads(rows: seq<Row>, first: Word, chars: Text, last: Word)
    requires rows != [] && rows[0].state == first && CharsOf(rows) == chars && Trace(rows, last)
    ensures Fold(first, chars) == last
  {
    TraceFolds(rows, last);
  }

  lemma PrefixFolds()
    ensures Fold(FNV_START, MODULE + [TERMINATOR] + PATH + [TERMINATOR]) == FORK
  {
    PrefixTraced();
    TraceFolds(PREFIX, FORK);
    assert CharsOf(PREFIX) == MODULE + [TERMINATOR] + PATH + [TERMINATOR];
  }

  lemma BeforeChars()
    ensures CharsOf(BEFORE) == Twice(0x8f)
  {
    assert |CharsOf(BEFORE)| == 13;
  }

  lemma OldFolds()
    ensures Fold(FORK, Twice(0x8f)) == MEET
  {
    BeforeTraced();
    BeforeChars();
    TraceLeads(BEFORE, FORK, Twice(0x8f), MEET);
  }

  lemma AfterChars()
    ensures CharsOf(AFTER) == Twice(0x70)
  {
    assert |CharsOf(AFTER)| == 13;
  }

  lemma NewFolds()
    ensures Fold(FORK, Twice(0x70)) == MEET
  {
    AfterTraced();
    AfterChars();
    TraceLeads(AFTER, FORK, Twice(0x70), MEET);
  }

  lemma HashOfTwice(c: Char, load: Text -> Text)
    requires load(PATH) == [c] + TAIL && Fold(FORK, Twice(c)) == MEET
    ensures ManifestHashOf(MODULE, [PATH, PATH], load) == ToHexString(Fold(MEET, TAIL + [TERMINATOR]))
  {
    ManifestCut(c, load);
    PrefixFolds();
    var prefix, rest := MODULE + [TERMINATOR] + PATH + [TERMINATOR], TAIL + [TERMINATOR];
    FoldAppend(FNV_START, prefix + Twice(c), rest);
    FoldAppend(FNV_START, prefix, Twice(c));
  }

  /** Listed twice, one edited byte of a managed script can leave the manifest hash as it was. */
  lemma TwiceListedEditCanHide() returns (before: Text -> Text, after: Text -> Text)
    ensures OneByteEdit(before, after, PATH, 0) && before(PATH) == OLD_TEXT && after(PATH) == NEW_TEXT
    ensures ManifestHashOf(MODULE, [PATH, PATH], before) == ManifestHashOf(MODULE, [PATH, PATH], after)
  {
    before, after := q => OLD_TEXT, q => if q == PATH then NEW_TEXT else OLD_TEXT;
    OldFolds();
    NewFolds();
    HashOfTwice(0x8f, before);
    HashOfTwice(0x70, after);
  }
}
