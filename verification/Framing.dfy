/**
 Length-prefixed frames: the reference that the three stream reassemblers refine.

 A frame starts with its own total size as a little-endian 16-bit number.  `header` is the size
 of the fixed header (4 bytes between client and server, 8 between servers) and 4096 the largest
 frame; both bounds include the header.
 */
module Framing {
  import opened Basics
  import opened Sequences

  const MAX_PACKET_SIZE: nat := 4096
  const RECV_BUFFER_SIZE: nat := 8192

  /** The size field at the front of `s`. */
  function SizeField(s: Bytes): nat
    requires |s| >= 2
  {
    s[0] as nat + 256 * s[1] as nat
  }

  predicate BadHeader(s: Bytes, header: nat)
  {
    |s| >= header >= 2 && (SizeField(s) < header || SizeField(s) > MAX_PACKET_SIZE)
  }

  /** `s` starts with a complete frame. */
  predicate HasFrame(s: Bytes, header: nat)
  {
    |s| >= header >= 2 && !BadHeader(s, header) && SizeField(s) <= |s|
  }

  predicate IsFrame(f: Bytes, header: nat) { HasFrame(f, header) && |f| == SizeField(f) }

  /** The complete frames at the front of a stream, and what is left behind them. */
  datatype Split = Split(frames: seq<Bytes>, rest: Bytes)

  function SplitStream(s: Bytes, header: nat): Split
    decreases |s|
  {
    if HasFrame(s, header) then
      var n := SizeField(s);
      var tail := SplitStream(s[n..], header);
      Split([s[..n]] + tail.frames, tail.rest)
    else
      Split([], s)
  }

  /** What is known after `got` was cut off the front and `s` is still to be split. */
  function SplitAfter(got: seq<Bytes>, s: Bytes, header: nat): Split
  {
    Split(got + SplitStream(s, header).frames, SplitStream(s, header).rest)
  }

  /** Nothing cut off yet; one more frame cut off; no frame left to cut off. */
  lemma SplitAfterStart(s: Bytes, header: nat)
    ensures SplitAfter([], s, header) == SplitStream(s, header)
  {
    NilUnit(SplitStream(s, header).frames);
  }

  lemma SplitAfterFrame(got: seq<Bytes>, s: Bytes, header: nat)
    requires HasFrame(s, header)
    ensures SplitAfter(got, s, header) == SplitAfter(got + [s[..SizeField(s)]], s[SizeField(s)..], header)
  {
    Assoc(got, [s[..SizeField(s)]], SplitStream(s[SizeField(s)..], header).frames);
  }

  lemma SplitAfterLast(got: seq<Bytes>, s: Bytes, header: nat)
    requires !HasFrame(s, header)
    ensures SplitAfter(got, s, header) == Split(got, s)
  {
    NilUnit(got);
  }

  function Join(fs: seq<Bytes>): Bytes
  {
    if fs == [] then [] else fs[0] + Join(fs[1..])
  }

  /** A stream is broken when the bytes behind its complete frames start with a bad header. */
  predicate Broken(s: Bytes, header: nat) { BadHeader(SplitStream(s, header).rest, header) }

  ghost predicate AllFrames(fs: seq<Bytes>, header: nat)
  {
    forall i :: 0 <= i < |fs| ==> IsFrame(fs[i], header)
  }

  lemma FrameOfPrefix(s: Bytes, t: Bytes, header: nat)
    requires |s| >= header >= 2
    ensures SizeField(s + t) == SizeField(s)
    ensures HasFrame(s, header) ==> HasFrame(s + t, header) && IsFrame(s[..SizeField(s)], header)
    ensures BadHeader(s, header) <==> BadHeader(s + t, header)
  {
  }

  lemma JoinCons(f: Bytes, fs: seq<Bytes>)
    ensures Join([f] + fs) == f + Join(fs)
  {
    HeadTail(f, fs);
  }

  lemma FramesCons(f: Bytes, fs: seq<Bytes>, header: nat)
    requires IsFrame(f, header) && AllFrames(fs, header)
    ensures AllFrames([f] + fs, header)
  {
  }

  /** The split loses and invents nothing: it is a list of frames, and the rest starts with no frame. */
  lemma {:induction false} SplitIsPartition(s: Bytes, header: nat)
    ensures var r := SplitStream(s, header);
            Join(r.frames) + r.rest == s && AllFrames(r.frames, header) && !HasFrame(r.rest, header)
    decreases |s|
  {
    if HasFrame(s, header) {
      var n := SizeField(s);
      var f, tail := s[..n], SplitStream(s[n..], header);
      SplitIsPartition(s[n..], header);
      JoinCons(f, tail.frames);
      Assoc(f, Join(tail.frames), tail.rest);
      CutJoin(s, n);
      FrameOfPrefix(f, s[n..], header);
      FramesCons(f, tail.frames, header);
    } else {
      NilUnit(s);
    }
  }

  /** There is no other way to cut a stream into frames and a rest that starts with no frame. */
  lemma {:induction false} SplitIsUnique(fs: seq<Bytes>, rest: Bytes, header: nat)
    requires header >= 2 && AllFrames(fs, header) && !HasFrame(rest, header)
    ensures SplitStream(Join(fs) + rest, header) == Split(fs, rest)
  {
    if fs == [] {
      assert Join(fs) + rest == rest;
    } else {
      SplitIsUnique(fs[1..], rest, header);
      var tail := Join(fs[1..]) + rest;
      Assoc(fs[0], Join(fs[1..]), rest);
      FrameOfPrefix(fs[0], tail, header);
      TakeDrop(fs[0], tail);
      assert [fs[0]] + fs[1..] == fs;
    }
  }

  /** Splitting what arrived first, then splitting the rest with what arrives later, is splitting it all. */
  lemma {:induction false} SplitAppend(s: Bytes, t: Bytes, header: nat)
    requires header >= 2
    ensures var r := SplitStream(s, header);
            var u := SplitStream(r.rest + t, header);
            SplitStream(s + t, header) == Split(r.frames + u.frames, u.rest)
    decreases |s|
  {
    if HasFrame(s, header) {
      var n := SizeField(s);
      var tail := SplitStream(s[n..], header);
      SplitAppend(s[n..], t, header);
      FrameOfPrefix(s, t, header);
      DropAppend(s, t, n);
      Assoc([s[..n]], tail.frames, SplitStream(tail.rest + t, header).frames);
    } else {
      NilUnit(SplitStream(s + t, header).frames);
    }
  }

  /** Once broken, a stream never yields another frame. */
  lemma BrokenStaysBroken(s: Bytes, t: Bytes, header: nat)
    requires header >= 2 && Broken(s, header)
    ensures Broken(s + t, header) && SplitStream(s + t, header).frames == SplitStream(s, header).frames
  {
    var r := SplitStream(s, header);
    SplitAppend(s, t, header);
    FrameOfPrefix(r.rest, t, header);
    assert SplitStream(r.rest + t, header).frames == [];
    assert r.frames + [] == r.frames;
  }

  /** A prefix of frames cut off the front leaves the remaining frames unchanged. */
  lemma SplitBehind(fs: seq<Bytes>, s: Bytes, header: nat)
    requires header >= 2 && AllFrames(fs, header)
    ensures SplitStream(Join(fs) + s, header) == Split(fs + SplitStream(s, header).frames, SplitStream(s, header).rest)
  {
    var r := SplitStream(s, header);
    SplitIsPartition(s, header);
    SplitIsUnique(fs + r.frames, r.rest, header);
    JoinAppend(fs, r.frames);
    Assoc(Join(fs), Join(r.frames), r.rest);
  }

  lemma {:induction false} JoinAppend(fs: seq<Bytes>, gs: seq<Bytes>)
    ensures Join(fs + gs) == Join(fs) + Join(gs)
  {
    if fs == [] {
      NilUnit(gs);
      NilUnit(Join(gs));
    } else {
      JoinAppend(fs[1..], gs);
      assert (fs + gs)[1..] == fs[1..] + gs;
      Assoc(fs[0], Join(fs[1..]), Join(gs));
    }
  }
}
