/**
 The receive side of a session: Session::ProcessRawRecv with its accumulation buffer, read
 offset, flat batch buffer and single-packet fast path.

 `Receive` is the specification of one call on the unread bytes alone; the class is proved to
 refine it, and the chunk-independence theorem is proved about it.
 */
module SessionRecv {
  import opened Basics
  import opened Framing
  import opened Sequences

  const HEADER: nat := 4              // sizeof(PacketHeader)
  const MAX_ACCUM: nat := 4 * MAX_PACKET_SIZE

  /** What a receiver remembers: unread bytes, packets passed to OnRecv, and whether it closed. */
  datatype View = View(unread: Bytes, delivered: seq<Bytes>, closed: bool)

  function Closed(v: View): View { View([], v.delivered, true) }

  /** One call of ProcessRawRecv: all complete frames, or nothing at all and Close. */
  function Receive(v: View, data: Bytes): View
  {
    var s := v.unread + data;
    var r := SplitStream(s, HEADER);
    if |s| > MAX_ACCUM || BadHeader(r.rest, HEADER) then Closed(v)
    else View(r.rest, v.delivered + r.frames, v.closed)
  }

  // ---------------------------------------------------------------- the batch buffer

  /** A packet inside the batch buffer. */
  datatype Span = Span(offset: nat, size: nat)

  /** `spans` cuts `frames` out of `batch`. */
  ghost predicate Batched(batch: Bytes, spans: seq<Span>, frames: seq<Bytes>)
  {
    && |spans| == |frames|
    && forall i :: 0 <= i < |spans| ==>
         spans[i].offset + spans[i].size <= |batch| &&
         batch[spans[i].offset..spans[i].offset + spans[i].size] == frames[i]
  }

  lemma BatchedAppend(batch: Bytes, spans: seq<Span>, frames: seq<Bytes>, f: Bytes)
    requires Batched(batch, spans, frames)
    ensures Batched(batch + f, spans + [Span(|batch|, |f|)], frames + [f])
  {
    var batch', spans' := batch + f, spans + [Span(|batch|, |f|)];
    TakeDrop(batch, f);
    assert batch'[|batch|..|batch| + |f|] == f;
    forall i | 0 <= i < |spans|
      ensures batch'[spans[i].offset..spans[i].offset + spans[i].size] == frames[i]
    {
      assert batch'[spans[i].offset..spans[i].offset + spans[i].size] ==
             batch[spans[i].offset..spans[i].offset + spans[i].size];
    }
  }

  // ---------------------------------------------------------------- the session

  class Session {
    var accum: Bytes            // mRecvAccumBuffer
    var offset: nat             // mRecvAccumOffset
    var closed: bool
    var delivered: seq<Bytes>   // every packet passed to OnRecv, in order

    constructor ()
      ensures Valid() && ViewOf() == View([], [], false)
    {
      accum, offset, closed, delivered := [], 0, false, [];
    }

    /** Between calls: under one packet unread, nothing deliverable, and at most half the buffer consumed. */
    ghost predicate Valid()
      reads this
    {
      && offset <= |accum|
      && |accum| <= 2 * (|accum| - offset)
      && |accum| - offset < MAX_PACKET_SIZE
      && !HasFrame(accum[offset..], HEADER)
      && !BadHeader(accum[offset..], HEADER)
    }

    ghost function ViewOf(): View
      reads this
      requires offset <= |accum|
    {
      View(accum[offset..], delivered, closed)
    }

    method OnRecv(packet: Bytes)
      modifies this`delivered
      ensures delivered == old(delivered) + [packet]
    {
      delivered := delivered + [packet];
    }

    method Close()
      modifies this`accum, this`offset, this`closed
      ensures accum == [] && offset == 0 && closed
    {
      accum, offset, closed := [], 0, true;
    }

    /** The parsing loop: batches every complete frame behind the offset. */
    method ParseFrames() returns (batch: Bytes, spans: seq<Span>, bad: bool)
      requires offset <= |accum|
      modifies this`accum, this`offset
      ensures var r := SplitStream(old(accum[offset..]), HEADER);
              && Batched(batch, spans, r.frames)
              && bad == BadHeader(r.rest, HEADER)
              && (bad ==> accum == [] && offset == 0)
              && (!bad ==> accum == old(accum) && offset <= |accum| && accum[offset..] == r.rest)
    {
      batch, spans, bad := [], [], false;
      ghost var s0 := accum[offset..];
      ghost var got: seq<Bytes> := [];
      SplitAfterStart(s0, HEADER);
      while |accum| - offset >= HEADER
        invariant offset <= |accum| && accum == old(accum)
        invariant Batched(batch, spans, got)
        invariant SplitStream(s0, HEADER) == SplitAfter(got, accum[offset..], HEADER)
        decreases |accum| - offset
      {
        ghost var unread := accum[offset..];
        var size := SizeField(accum[offset..]);
        if size < HEADER || size > MAX_PACKET_SIZE {
          SplitAfterLast(got, unread, HEADER);
          accum, offset, bad := [], 0, true;
          return;
        }
        if |accum| - offset < size {
          break;
        }
        SplitAfterFrame(got, unread, HEADER);
        assert accum[offset..offset + size] == unread[..size] && accum[offset + size..] == unread[size..];
        BatchedAppend(batch, spans, got, unread[..size]);
        spans := spans + [Span(|batch|, size)];
        batch := batch + accum[offset..offset + size];
        got := got + [unread[..size]];
        offset := offset + size;
      }
      SplitAfterLast(got, accum[offset..], HEADER);
    }

    /** Clears a used-up buffer, or compacts one that is more than half consumed. */
    method Compact()
      requires offset <= |accum|
      modifies this`accum, this`offset
      ensures offset <= |accum| && accum[offset..] == old(accum[offset..])
      ensures |accum| <= 2 * (|accum| - offset)
    {
      if offset >= |accum| {
        accum, offset := [], 0;
      } else if offset > |accum| / 2 {
        accum, offset := accum[offset..], 0;
      }
    }

    /** The fast path and the general path both do what Receive says. */
    method ProcessRawRecv(data: Bytes)
      requires Valid()
      modifies this
      ensures Valid() && ViewOf() == Receive(old(ViewOf()), data)
    {
      if accum == [] && |data| >= HEADER {
        var size := SizeField(data);
        if size >= HEADER && size <= MAX_PACKET_SIZE && size == |data| {
          SingleFrame(accum[offset..], data);
          OnRecv(data);
          return;
        }
      }
      GeneralPath(data);
    }

    method GeneralPath(data: Bytes)
      requires Valid()
      modifies this
      ensures Valid() && ViewOf() == Receive(old(ViewOf()), data)
    {
      assert offset <= |accum|;  // so the defensive reset of the source is unreachable
      ghost var s := accum[offset..] + data;
      var unread := |accum| - offset;
      if unread + |data| > MAX_ACCUM {
        Close();
        return;
      }
      DropAppend(accum, data, offset);
      accum := accum + data;
      var batch, spans, bad := ParseFrames();
      if bad {
        Close();
        return;
      }
      SplitIsPartition(s, HEADER);
      Compact();
      Dispatch(batch, spans, SplitStream(s, HEADER).frames);
    }

    method Dispatch(batch: Bytes, spans: seq<Span>, ghost frames: seq<Bytes>)
      requires Batched(batch, spans, frames)
      modifies this`delivered
      ensures delivered == old(delivered) + frames
    {
      for i := 0 to |spans|
        invariant delivered == old(delivered) + frames[..i]
      {
        OnRecv(batch[spans[i].offset..spans[i].offset + spans[i].size]);
        assert frames[..i + 1] == frames[..i] + [frames[i]];
        Assoc(old(delivered), frames[..i], [frames[i]]);
      }
      assert frames[..|spans|] == frames;
    }

    /** The queued receive task: a closed session's scope is cancelled and skips it. */
    method RecvTask(data: Bytes)
      requires Valid()
      modifies this
      ensures Valid() && ViewOf() == Step(old(ViewOf()), data)
    {
      if !closed { ProcessRawRecv(data); }
    }
  }

  lemma SingleFrame(none: Bytes, data: Bytes)
    requires none == [] && IsFrame(data, HEADER)
    ensures SplitStream(none + data, HEADER) == Split([data], [])
  {
    NilUnit(data);
    SplitIsUnique([data], [], HEADER);
    NilUnit(Join([data]));
    assert Join([data]) == data + [];
  }

  // ---------------------------------------------------------------- every stream, every cut

  function Step(v: View, data: Bytes): View { if v.closed then v else Receive(v, data) }

  function ReceiveAll(v: View, chunks: seq<Bytes>): View
  {
    if chunks == [] then v else Step(ReceiveAll(v, chunks[..|chunks| - 1]), chunks[|chunks| - 1])
  }

  const FRESH := View([], [], false)

  ghost predicate ChunksFit(chunks: seq<Bytes>)
  {
    forall i :: 0 <= i < |chunks| ==> |chunks[i]| <= RECV_BUFFER_SIZE
  }

  /** The memory bound: with chunks of the receive buffer's size the overflow guard never fires. */
  lemma GuardNeverFires(v: View, data: Bytes)
    requires !HasFrame(v.unread, HEADER) && !BadHeader(v.unread, HEADER) && |data| <= RECV_BUFFER_SIZE
    ensures |v.unread| < MAX_PACKET_SIZE && |v.unread + data| <= MAX_ACCUM
  {
  }

  /** A call keeps the session open exactly when the buffer has room for its chunk and no bad header comes up. */
  lemma ClosesIff(v: View, data: Bytes)
    requires !v.closed
    ensures Receive(v, data).closed <==> |v.unread| + |data| > 16384 || Broken(v.unread + data, HEADER)
    ensures Receive(v, data).closed ==> Receive(v, data).delivered == v.delivered
  {
  }

  lemma JoinSnoc(chunks: seq<Bytes>, c: Bytes)
    ensures Join(chunks + [c]) == Join(chunks) + c
  {
    JoinAppend(chunks, [c]);
    JoinCons(c, []);
    NilUnit(c);
    NilUnit([c]);
  }

  /** After any cut of an unbroken stream the receiver holds exactly the split of the whole stream. */
  lemma {:induction false} OpenMeansSplit(chunks: seq<Bytes>)
    requires ChunksFit(chunks)
    ensures var v := ReceiveAll(FRESH, chunks);
            var r := SplitStream(Join(chunks), HEADER);
            && v.closed == Broken(Join(chunks), HEADER)
            && v.delivered <= r.frames
            && (!v.closed ==> v == View(r.rest, r.frames, false))
  {
    if chunks != [] {
      var before, c := chunks[..|chunks| - 1], chunks[|chunks| - 1];
      assert chunks == before + [c];
      JoinSnoc(before, c);
      OpenMeansSplit(before);
      var v, r := ReceiveAll(FRESH, before), SplitStream(Join(before), HEADER);
      if v.closed {
        BrokenStaysBroken(Join(before), c, HEADER);
      } else {
        SplitIsPartition(Join(before), HEADER);
        SplitAppend(Join(before), c, HEADER);
        GuardNeverFires(v, c);
      }
    }
  }

  /** Chunk independence: two cuts of one stream agree on closing, and on every packet unless it is broken. */
  lemma ChunkIndependent(a: seq<Bytes>, b: seq<Bytes>)
    requires ChunksFit(a) && ChunksFit(b) && Join(a) == Join(b)
    ensures ReceiveAll(FRESH, a).closed == ReceiveAll(FRESH, b).closed == Broken(Join(a), HEADER)
    ensures !Broken(Join(a), HEADER) ==> ReceiveAll(FRESH, a) == ReceiveAll(FRESH, b)
    ensures !Broken(Join(a), HEADER) ==> ReceiveAll(FRESH, a).delivered == SplitStream(Join(a), HEADER).frames
    ensures ReceiveAll(FRESH, a).delivered <= SplitStream(Join(a), HEADER).frames
  {
    OpenMeansSplit(a);
    OpenMeansSplit(b);
  }

  /**
   Of a broken stream, exactly the frames completed before the closing chunk are delivered: the
   frames that the closing chunk itself completes are dropped.
   */
  lemma {:induction false} BrokenDeliversEarlierChunks(chunks: seq<Bytes>, k: nat)
    requires ChunksFit(chunks) && k < |chunks|
    requires !Broken(Join(chunks[..k]), HEADER) && Broken(Join(chunks[..k + 1]), HEADER)
    ensures ReceiveAll(FRESH, chunks).delivered == SplitStream(Join(chunks[..k]), HEADER).frames
    ensures ReceiveAll(FRESH, chunks).delivered == SplitStream(Join(chunks), HEADER).frames <==>
            SplitStream(Join(chunks[..k + 1]), HEADER).frames == SplitStream(Join(chunks[..k]), HEADER).frames
    decreases |chunks|
  {
    var before, c := chunks[..|chunks| - 1], chunks[|chunks| - 1];
    assert chunks == before + [c];
    if k == |chunks| - 1 {
      OpenMeansSplit(before);
      OpenMeansSplit(chunks);
      assert chunks[..k + 1] == chunks;
    } else {
      assert before[..k] == chunks[..k] && before[..k + 1] == chunks[..k + 1];
      BrokenDeliversEarlierChunks(before, k);
      OpenMeansSplit(before[..k + 1]);
      BrokenPrefix(before, k + 1);
      OpenMeansSplit(before);
      JoinSnoc(before, c);
      BrokenStaysBroken(Join(before), c, HEADER);
    }
  }

  lemma BrokenPrefix(chunks: seq<Bytes>, k: nat)
    requires k <= |chunks| && Broken(Join(chunks[..k]), HEADER)
    ensures Broken(Join(chunks), HEADER)
  {
    assert chunks == chunks[..k] + chunks[k..];
    JoinAppend(chunks[..k], chunks[k..]);
    BrokenStaysBroken(Join(chunks[..k]), Join(chunks[k..]), HEADER);
  }

  /** The cut matters for a broken stream: one frame and a bad header deliver it in two chunks, not in one. */
  lemma CutMattersWhenBroken()
    ensures var frame, bad: Bytes := [4, 0, 1, 0], [0, 0, 0, 0];
            && Join([frame + bad]) == Join([frame, bad])
            && ReceiveAll(FRESH, [frame + bad]) == View([], [], true)
            && ReceiveAll(FRESH, [frame, bad]) == View([], [frame], true)
  {
    var frame, bad: Bytes := [4, 0, 1, 0], [0, 0, 0, 0];
    assert frame + bad == [4, 0, 1, 0, 0, 0, 0, 0];
    JoinCons(frame, [bad]);
    JoinCons(bad, []);
    JoinCons(frame + bad, []);
    NilUnit(bad);
    NilUnit(frame + bad);
    SingleFrame([], frame);
    SplitBehind([frame], bad, HEADER);
    JoinCons(frame, []);
    NilUnit(frame);
    assert [frame, bad][..1] == [frame] && [frame][..0] == [] && [frame + bad][..0] == [];
    assert ReceiveAll(FRESH, [frame]) == View([], [frame], false);
    assert [] + (frame + bad) == frame + bad;
  }
}
