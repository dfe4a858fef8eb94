/**
 The server's link to the database server: TestServer::DBRecvLoop with its growing buffer, read
 offset and compaction.  Unlike a session it does not close on a bad header; it drops what it
 has buffered and goes on.
 */
module DbRecvLoop {
  import opened Basics
  import opened Framing
  import opened Sequences

  const HEADER: nat := 8  // sizeof(ServerPacketHeader)

  datatype NetEvent = Received(data: Bytes) | Interrupted | PeerClosed | Failed

  datatype View = View(unread: Bytes, delivered: seq<Bytes>)

  /** One received chunk: deliver every complete frame; drop the buffer at a bad header. */
  function Receive(v: View, data: Bytes): View
  {
    var r := SplitStream(v.unread + data, HEADER);
    View(if BadHeader(r.rest, HEADER) then [] else r.rest, v.delivered + r.frames)
  }

  function ReceiveAll(v: View, chunks: seq<Bytes>): View
  {
    if chunks == [] then v else Receive(ReceiveAll(v, chunks[..|chunks| - 1]), chunks[|chunks| - 1])
  }

  /** The chunks the loop gets to see: up to the first close or failure, interruptions skipped. */
  function Chunks(events: seq<NetEvent>): seq<Bytes>
  {
    if events == [] || events[0].PeerClosed? || events[0].Failed? then []
    else (if events[0].Received? then [events[0].data] else []) + Chunks(events[1..])
  }

  lemma {:induction false} ReceiveFirst(v: View, c: Bytes, cs: seq<Bytes>)
    ensures ReceiveAll(v, [c] + cs) == ReceiveAll(Receive(v, c), cs)
    decreases |cs|
  {
    if cs == [] {
      assert [c] + cs == [c] && [c][..0] == [];
    } else {
      var n := |cs| - 1;
      ReceiveFirst(v, c, cs[..n]);
      assert ([c] + cs)[..n + 1] == [c] + cs[..n] && ([c] + cs)[n + 1] == cs[n];
    }
  }

  /** One event further on. */
  lemma EventStep(v: View, events: seq<NetEvent>, i: nat)
    requires i < |events|
    ensures ReceiveAll(v, Chunks(events[i..])) ==
            match events[i] {
              case Received(data) => ReceiveAll(Receive(v, data), Chunks(events[i + 1..]))
              case Interrupted => ReceiveAll(v, Chunks(events[i + 1..]))
              case PeerClosed => v
              case Failed => v
            }
  {
    var rest := Chunks(events[i + 1..]);
    assert events[i..][1..] == events[i + 1..];
    if events[i].Received? { ReceiveFirst(v, events[i].data, rest); } else { NilUnit(rest); }
  }

  class Link {
    var buffer: Bytes          // mDBRecvBuffer
    var offset: nat            // mDBRecvOffset
    var delivered: seq<Bytes>  // every packet passed to the session's OnRecv

    constructor ()
      ensures Valid() && ViewOf() == View([], [])
    {
      buffer, offset, delivered := [], 0, [];
    }

    ghost predicate Valid()
      reads this
    {
      && offset <= |buffer| <= 2 * (|buffer| - offset)
      && |buffer| - offset < MAX_PACKET_SIZE
    }

    ghost function ViewOf(): View
      reads this
      requires offset <= |buffer|
    {
      View(buffer[offset..], delivered)
    }

    /** The inner loop: delivers frame by frame straight from the buffer. */
    method DeliverFrames()
      requires offset <= |buffer|
      modifies this
      ensures var r := SplitStream(old(buffer[offset..]), HEADER);
              && offset <= |buffer|
              && delivered == old(delivered) + r.frames
              && buffer[offset..] == if BadHeader(r.rest, HEADER) then [] else r.rest
    {
      ghost var s0 := buffer[offset..];
      ghost var got: seq<Bytes> := [];
      SplitAfterStart(s0, HEADER);
      NilUnit(delivered);
      while |buffer| - offset >= HEADER
        invariant offset <= |buffer| && delivered == old(delivered) + got
        invariant SplitStream(s0, HEADER) == SplitAfter(got, buffer[offset..], HEADER)
        decreases |buffer| - offset
      {
        var unread := buffer[offset..];
        var size := SizeField(unread);
        if size < HEADER || size > MAX_PACKET_SIZE {
          SplitAfterLast(got, unread, HEADER);
          buffer, offset := [], 0;
          return;
        }
        if |buffer| - offset < size { break; }
        SplitAfterFrame(got, unread, HEADER);
        Assoc(old(delivered), got, [unread[..size]]);
        delivered := delivered + [unread[..size]];
        got := got + [unread[..size]];
        assert buffer[offset + size..] == unread[size..];
        offset := offset + size;
      }
      SplitAfterLast(got, buffer[offset..], HEADER);
    }

    method OnData(data: Bytes)
      requires Valid()
      modifies this
      ensures Valid() && ViewOf() == Receive(old(ViewOf()), data)
    {
      ghost var s := buffer[offset..] + data;
      assert (buffer + data)[offset..] == s;
      buffer := buffer + data;
      DeliverFrames();
      SplitIsPartition(s, HEADER);
      if offset > 0 && offset > |buffer| / 2 {
        buffer, offset := buffer[offset..], 0;
      }
    }

    method DBRecvLoop(events: seq<NetEvent>)
      requires Valid()
      modifies this
      ensures Valid() && ViewOf() == ReceiveAll(old(ViewOf()), Chunks(events))
    {
      var i := 0;
      assert events[0..] == events;
      while i < |events|
        invariant i <= |events| && Valid()
        invariant ReceiveAll(ViewOf(), Chunks(events[i..])) == ReceiveAll(old(ViewOf()), Chunks(events))
      {
        EventStep(ViewOf(), events, i);
        match events[i] {
          case Received(data) => OnData(data);
          case Interrupted =>
          case PeerClosed => return;
          case Failed => return;
        }
        i := i + 1;
      }
    }
  }

  /** On an unbroken stream the link delivers exactly the frames of the stream, however it is cut. */
  lemma {:induction false} LinkIsChunkIndependent(chunks: seq<Bytes>)
    requires !Broken(Join(chunks), HEADER)
    ensures var r := SplitStream(Join(chunks), HEADER);
            ReceiveAll(View([], []), chunks) == View(r.rest, r.frames)
  {
    if chunks != [] {
      var before, c := chunks[..|chunks| - 1], chunks[|chunks| - 1];
      assert chunks == before + [c];
      JoinAppend(before, [c]);
      JoinCons(c, []);
      NilUnit([c]);
      NilUnit(c);
      if Broken(Join(before), HEADER) {
        BrokenStaysBroken(Join(before), c, HEADER);
      } else {
        LinkIsChunkIndependent(before);
        SplitAppend(Join(before), c, HEADER);
      }
    }
  }
}
