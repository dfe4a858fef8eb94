/**
 The manifest hash of a SQL module: an FNV-1a style fold over the module name and, for every
 managed script, its path and its text, each closed by a 0xff byte; printed as 16 hex digits.
 States are 64-bit words, written as naturals below 2^64.
 */
module ManifestHash {
  import opened Basics
  import opened Sequences

  /** unsigned char */
  type Char = bv8

  type Text = seq<Char>

  const FNV_PRIME: nat := 1099511628211
  const FNV_START: nat := 1469598103934665603
  const TERMINATOR: Char := 0xff

  type Word = x: nat | x < WORD

  // ---------------------------------------------------------------- one hash step

  /** A word from its lowest byte and the rest. */
  function Compose(high: nat, low: Char): (h: nat)
    ensures 256 * high <= h < 256 * high + 256
  {
    256 * high + low as nat
  }

  /** The byte with value n. */
  function CharOf(n: nat): (b: Char)
    requires n < 256
    ensures b as nat == n
  {
    if n == 0 then 0 else CharOf(n - 1) + 1
  }

  lemma SameChar(a: Char, b: Char)
    requires a as nat == b as nat
    ensures a == b
  {
  }

  function Low(h: nat): Char { CharOf(h % 256) }

  lemma ComposeParts(high: nat, low: Char)
    ensures Compose(high, low) / 256 == high && Low(Compose(high, low)) == low
  {
    assert Compose(high, low) % 256 == low as nat;
    SameChar(Low(Compose(high, low)), low);
  }

  lemma PartsCompose(h: nat)
    ensures Compose(h / 256, Low(h)) == h
  {
  }

  /** Exclusive or with a byte changes the lowest byte only. */
  function XorByte(h: nat, c: Char): nat { Compose(h / 256, Low(h) ^ c) }

  lemma XorUndoes(h: nat, c: Char)
    ensures XorByte(XorByte(h, c), c) == h
  {
    ComposeParts(h / 256, Low(h) ^ c);
    XorTwice(Low(h), c);
    PartsCompose(h);
  }

  lemma XorTwice(l: Char, c: Char)
    ensures (l ^ c) ^ c == l && l ^ (l ^ c) == c
  {
  }

  lemma XorSeparates(h: nat, c: Char, c': Char)
    requires XorByte(h, c) == XorByte(h, c')
    ensures c == c'
  {
    ComposeParts(h / 256, Low(h) ^ c);
    ComposeParts(h / 256, Low(h) ^ c');
    XorTwice(Low(h), c);
    XorTwice(Low(h), c');
  }

  lemma XorStaysWord(h: Word, c: Char)
    ensures XorByte(h, c) < WORD
  {
    assert h / 256 < 0x100_0000_0000_0000;
  }

  function MulPrime(x: nat): Word { (x * FNV_PRIME) % WORD }

  const PRIME_INVERSE: nat := 14886173955864302971

  lemma InverseCancels(y: int, q: int, r: int)
    requires y * FNV_PRIME == WORD * q + r
    ensures r * PRIME_INVERSE == y + WORD * (887285111055 * y - q * PRIME_INVERSE)
  {
  }

  lemma PrimeCancels(y: int, q: int, r: int)
    requires y * PRIME_INVERSE == WORD * q + r
    ensures r * FNV_PRIME == y + WORD * (887285111055 * y - q * FNV_PRIME)
  {
  }

  lemma RemainderOf(y: int, k: int)
    requires 0 <= y < WORD
    ensures (y + WORD * k) % WORD == y
  {
  }

  /** The prime is odd, hence invertible modulo 2^64: multiplying by its inverse undoes it, before or after. */
  lemma PrimeUndoes(x: Word)
    ensures (MulPrime(x) * PRIME_INVERSE) % WORD == x
    ensures MulPrime((x * PRIME_INVERSE) % WORD) == x
  {
    var q, r := x * FNV_PRIME / WORD, MulPrime(x);
    InverseCancels(x, q, r);
    RemainderOf(x, 887285111055 * x - q * PRIME_INVERSE);
    var q', r' := x * PRIME_INVERSE / WORD, (x * PRIME_INVERSE) % WORD;
    PrimeCancels(x, q', r');
    RemainderOf(x, 887285111055 * x - q' * FNV_PRIME);
  }

  function HashByte(h: Word, c: Char): Word { MulPrime(XorByte(h, c)) }

  /** The state before the step. */
  function UnhashByte(h: Word, c: Char): nat { XorByte((h * PRIME_INVERSE) % WORD, c) }

  /** For each byte, a hash step is a bijection of the 64-bit states. */
  lemma HashByteBijective(h: Word, c: Char)
    ensures UnhashByte(HashByte(h, c), c) == h
    ensures UnhashByte(h, c) < WORD && HashByte(UnhashByte(h, c), c) == h
  {
    XorStaysWord(h, c);
    PrimeUndoes(XorByte(h, c));
    XorUndoes(h, c);
    var x := (h * PRIME_INVERSE) % WORD;
    PrimeUndoes(h);
    XorStaysWord(x, c);
    XorUndoes(x, c);
  }

  /** In each state, a hash step tells bytes apart. */
  lemma HashByteSeparates(h: Word, c: Char, c': Char)
    requires HashByte(h, c) == HashByte(h, c')
    ensures c == c'
  {
    XorStaysWord(h, c);
    XorStaysWord(h, c');
    PrimeUndoes(XorByte(h, c));
    PrimeUndoes(XorByte(h, c'));
    XorSeparates(h, c, c');
  }

  // ---------------------------------------------------------------- the fold

  function Fold(h: Word, s: Text): Word
    decreases |s|
  {
    if s == [] then h else Fold(HashByte(h, s[0]), s[1..])
  }

  lemma {:induction false} FoldAppend(h: Word, s: Text, t: Text)
    ensures Fold(h, s + t) == Fold(Fold(h, s), t)
    decreases |s|
  {
    if s == [] {
      NilUnit(t);
    } else {
      FoldAppend(HashByte(h, s[0]), s[1..], t);
      DropAppend(s, t, 1);
    }
  }

  /** Equal bytes never merge two different states. */
  lemma {:induction false} FoldInjective(h: Word, h': Word, s: Text)
    requires h != h'
    ensures Fold(h, s) != Fold(h', s)
    decreases |s|
  {
    if s != [] {
      HashByteBijective(h, s[0]);
      HashByteBijective(h', s[0]);
      FoldInjective(HashByte(h, s[0]), HashByte(h', s[0]), s[1..]);
    }
  }

  /** AppendHash: the bytes of the value, then the terminator. */
  method AppendHash(current: Word, value: Text) returns (h: Word)
    ensures h == Fold(current, value + [TERMINATOR])
  {
    h := current;
    assert value[..0] == [];
    for i := 0 to |value|
      invariant h == Fold(current, value[..i])
    {
      assert value[..i + 1] == value[..i] + [value[i]];
      FoldAppend(current, value[..i], [value[i]]);
      h := HashByte(h, value[i]);
    }
    assert value[..|value|] == value;
    FoldAppend(current, value, [TERMINATOR]);
    h := HashByte(h, TERMINATOR);
  }

  // ---------------------------------------------------------------- the manifest

  /** The bytes the hash sees for the listed scripts. */
  function ScriptBytes(paths: seq<Text>, load: Text -> Text): Text
  {
    if paths == [] then []
    else paths[0] + [TERMINATOR] + (load(paths[0]) + [TERMINATOR]) + ScriptBytes(paths[1..], load)
  }

  function Manifest(name: Text, paths: seq<Text>, load: Text -> Text): Text
  {
    name + [TERMINATOR] + ScriptBytes(paths, load)
  }

  function Pow2(n: nat): nat { if n == 0 then 1 else 2 * Pow2(n - 1) }

  lemma WordIs64Bits()
    ensures Pow2(64) == WORD
  {
    assert Pow2(8) == 256;
    assert Pow2(16) == 65536;
    assert Pow2(24) == 0x1_000000;
    assert Pow2(32) == 0x1_0000_0000;
    assert Pow2(40) == 0x1_00_0000_0000;
    assert Pow2(48) == 0x1_0000_0000_0000;
    assert Pow2(56) == 0x1_00_0000_0000_0000;
  }

  function Digit(n: nat): char
    requires n < 16
  {
    "0123456789abcdef"[n]
  }

  /** The lowest `digits` hex digits of a word, most significant first. */
  function Hex(v: nat, digits: nat): (s: string)
    ensures |s| == digits
  {
    if digits == 0 then [] else Hex(v / 16, digits - 1) + [Digit(v % 16)]
  }

  function ToHexString(v: Word): string { Hex(v, 16) }

  lemma Pow2Hex(n: nat)
    ensures Pow2(n + 4) == 16 * Pow2(n)
  {
    assert Pow2(n + 4) == 2 * Pow2(n + 3) && Pow2(n + 2) == 2 * Pow2(n + 1);
  }

  lemma {:induction false} HexInjective(v: nat, w: nat, digits: nat)
    requires Hex(v, digits) == Hex(w, digits) && v < Pow2(4 * digits) && w < Pow2(4 * digits)
    ensures v == w
    decreases digits
  {
    if digits > 0 {
      var a, b := Hex(v, digits), Hex(w, digits);
      assert a[..digits - 1] == Hex(v / 16, digits - 1) && b[..digits - 1] == Hex(w / 16, digits - 1);
      assert a[digits - 1] == Digit(v % 16) && b[digits - 1] == Digit(w % 16);
      Pow2Hex(4 * (digits - 1));
      HexInjective(v / 16, w / 16, digits - 1);
    }
  }

  function HexValue(c: char): nat
  {
    if '0' <= c <= '9' then c as nat - '0' as nat else if 'a' <= c <= 'f' then c as nat - 'a' as nat + 10 else 0
  }

  /** The number that hex digits stand for, most significant first. */
  function ReadHex(s: string): nat
  {
    if s == [] then 0 else 16 * ReadHex(s[..|s| - 1]) + HexValue(s[|s| - 1])
  }

  /** The printed digits read back as the word. */
  lemma {:induction false} HexReadsBack(v: nat, digits: nat)
    requires v < Pow2(4 * digits)
    ensures ReadHex(Hex(v, digits)) == v
    decreases digits
  {
    if digits > 0 {
      var s := Hex(v, digits);
      Pow2Hex(4 * (digits - 1));
      HexReadsBack(v / 16, digits - 1);
      DigitReadsBack(v % 16);
      assert s[..|s| - 1] == Hex(v / 16, digits - 1) && s[|s| - 1] == Digit(v % 16);
    }
  }

  lemma DigitReadsBack(n: nat)
    requires n < 16
    ensures HexValue(Digit(n)) == n
  {
  }

  /** The manifest hash is 16 digits that read back as the folded state. */
  lemma HashReadsBack(v: Word)
    ensures |ToHexString(v)| == 16 && ReadHex(ToHexString(v)) == v
  {
    WordIs64Bits();
    HexReadsBack(v, 16);
  }

  function ManifestHashOf(name: Text, paths: seq<Text>, load: Text -> Text): string
  {
    ToHexString(Fold(FNV_START, Manifest(name, paths, load)))
  }

  /** The loop over the managed scripts folds exactly the manifest bytes. */
  method ComputeManifestHash(name: Text, paths: seq<Text>, load: Text -> Text) returns (hash: string)
    ensures hash == ManifestHashOf(name, paths, load)
  {
    var h := AppendHash(FNV_START, name);
    ghost var start := h;
    assert paths[0..] == paths;
    for i := 0 to |paths|
      invariant Fold(h, ScriptBytes(paths[i..], load)) == Fold(start, ScriptBytes(paths, load))
    {
      ghost var p, t := paths[i] + [TERMINATOR], load(paths[i]) + [TERMINATOR];
      assert paths[i..][1..] == paths[i + 1..];
      FoldAppend(h, p + t, ScriptBytes(paths[i + 1..], load));
      FoldAppend(h, p, t);
      h := AppendHash(h, paths[i]);
      h := AppendHash(h, load(paths[i]));
    }
    FoldAppend(FNV_START, name + [TERMINATOR], ScriptBytes(paths, load));
    hash := ToHexString(h);
  }

  // ---------------------------------------------------------------- edits

  /** Same length, and different in position j alone. */
  ghost predicate DiffersAt(s: Text, t: Text, j: nat)
  {
    && j < |s| == |t| && s[j] != t[j]
    && forall i :: 0 <= i < |s| && i != j ==> s[i] == t[i]
  }

  lemma {:induction false} FoldSeesEdit(h: Word, s: Text, t: Text, j: nat)
    requires DiffersAt(s, t, j)
    ensures Fold(h, s) != Fold(h, t)
    decreases j
  {
    if j == 0 {
      assert s[1..] == t[1..];
      if HashByte(h, s[0]) == HashByte(h, t[0]) { HashByteSeparates(h, s[0], t[0]); }
      FoldInjective(HashByte(h, s[0]), HashByte(h, t[0]), s[1..]);
    } else {
      FoldSeesEdit(HashByte(h, s[0]), s[1..], t[1..], j - 1);
    }
  }

  lemma DiffersBehind(u: Text, s: Text, t: Text, j: nat)
    requires DiffersAt(s, t, j)
    ensures DiffersAt(u + s, u + t, |u| + j)
  {
  }

  lemma DiffersBefore(s: Text, t: Text, v: Text, j: nat)
    requires DiffersAt(s, t, j)
    ensures DiffersAt(s + v, t + v, j)
  {
  }

  /** `after` is `before` with byte j of the script at `path` replaced. */
  ghost predicate OneByteEdit(before: Text -> Text, after: Text -> Text, path: Text, j: nat)
  {
    && DiffersAt(before(path), after(path), j)
    && forall q :: q != path ==> after(q) == before(q)
  }

  lemma {:induction false} ScriptBytesUnedited(paths: seq<Text>, before: Text -> Text, after: Text -> Text,
                                               path: Text, j: nat)
    requires OneByteEdit(before, after, path, j) && path !in paths
    ensures ScriptBytes(paths, before) == ScriptBytes(paths, after)
  {
    if paths != [] { ScriptBytesUnedited(paths[1..], before, after, path, j); }
  }

  /** The edited script comes first. */
  lemma FirstEdited(paths: seq<Text>, before: Text -> Text, after: Text -> Text, j: nat)
    requires paths != [] && OneByteEdit(before, after, paths[0], j) && paths[0] !in paths[1..]
    ensures DiffersAt(ScriptBytes(paths, before), ScriptBytes(paths, after), |paths[0]| + 1 + j)
  {
    var path := paths[0];
    ScriptBytesUnedited(paths[1..], before, after, path, j);
    var u, s, t := path + [TERMINATOR], before(path) + [TERMINATOR], after(path) + [TERMINATOR];
    DiffersBefore(before(path), after(path), [TERMINATOR], j);
    DiffersBehind(u, s, t, j);
    DiffersBefore(u + s, u + t, ScriptBytes(paths[1..], before), |u| + j);
  }

  /** The edited script comes later. */
  lemma LaterEdited(paths: seq<Text>, before: Text -> Text, after: Text -> Text, k: nat)
    requires paths != [] && before(paths[0]) == after(paths[0])
    requires DiffersAt(ScriptBytes(paths[1..], before), ScriptBytes(paths[1..], after), k)
    ensures DiffersAt(ScriptBytes(paths, before), ScriptBytes(paths, after), |paths[0]| + 1 + |before(paths[0])| + 1 + k)
  {
    var u := paths[0] + [TERMINATOR] + (before(paths[0]) + [TERMINATOR]);
    DiffersBehind(u, ScriptBytes(paths[1..], before), ScriptBytes(paths[1..], after), k);
  }

  lemma {:induction false} ScriptBytesEdited(paths: seq<Text>, before: Text -> Text, after: Text -> Text,
                                             path: Text, j: nat) returns (k: nat)
    requires OneByteEdit(before, after, path, j) && multiset(paths)[path] == 1
    ensures DiffersAt(ScriptBytes(paths, before), ScriptBytes(paths, after), k)
  {
    assert path in multiset(paths);
    assert paths == [paths[0]] + paths[1..];
    if paths[0] == path {
      assert path !in multiset(paths[1..]);
      FirstEdited(paths, before, after, j);
      k := |path| + 1 + j;
    } else {
      k := ScriptBytesEdited(paths[1..], before, after, path, j);
      LaterEdited(paths, before, after, k);
      k := |paths[0]| + 1 + |before(paths[0])| + 1 + k;
    }
  }

  /** Edit detection: replacing one byte of one managed script always changes the printed hash. */
  lemma EditChangesHash(name: Text, paths: seq<Text>, before: Text -> Text, after: Text -> Text, path: Text, j: nat)
    requires OneByteEdit(before, after, path, j) && multiset(paths)[path] == 1
    ensures ManifestHashOf(name, paths, before) != ManifestHashOf(name, paths, after)
  {
    var k := ScriptBytesEdited(paths, before, after, path, j);
    var u, s, t := name + [TERMINATOR], ScriptBytes(paths, before), ScriptBytes(paths, after);
    DiffersBehind(u, s, t, k);
    FoldSeesEdit(FNV_START, u + s, u + t, |u| + k);
    HexSeparates(Fold(FNV_START, u + s), Fold(FNV_START, u + t));
  }

  lemma HexSeparates(v: Word, w: Word)
    requires v != w
    ensures ToHexString(v) != ToHexString(w)
  {
    WordIs64Bits();
    if ToHexString(v) == ToHexString(w) { HexInjective(v, w, 16); }
  }

  /** A script that is not listed does not matter. */
  lemma UnlistedEditIsInvisible(name: Text, paths: seq<Text>, before: Text -> Text, after: Text -> Text,
                                path: Text, j: nat)
    requires OneByteEdit(before, after, path, j) && path !in paths
    ensures ManifestHashOf(name, paths, before) == ManifestHashOf(name, paths, after)
  {
    ScriptBytesUnedited(paths, before, after, path, j);
  }
}
