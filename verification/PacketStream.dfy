/**
 The client's packet reader: PacketStream::RecvPacket over a fixed 8192-byte array.

 `Socket.Recv` stands for the operating system: any short read, timeout, close or error.
 `Pending` is every byte of the stream that has not been handed to the caller yet, in the
 buffer or still on the wire.
 */
module PacketStream {
  import opened Basics
  import opened Framing
  import opened Sequences

  const HEADER: nat := 4

  datatype RecvResult = Success | Timeout | ConnectionClosed | Error | InvalidPacket

  class Socket {
    var incoming: Bytes  // sent by the server, not received yet
    var lastGot: int     // what the last recv() returned
    var lastWouldBlock: bool

    /** recv(): takes any number of the requested bytes, or none with a close (0) or an error (negative). */
    method Recv(buf: array<Byte>, at: nat, max: nat) returns (got: int, wouldBlock: bool)
      requires at + max <= buf.Length
      modifies this, buf
      ensures got <= max && got <= |old(incoming)|
      ensures got > 0 ==> incoming == old(incoming)[got..] && buf[at..at + got] == old(incoming)[..got]
      ensures got <= 0 ==> incoming == old(incoming)
      ensures buf[..at] == old(buf[..at])
      ensures lastGot == got && lastWouldBlock == wouldBlock
    {
      got := *;
      wouldBlock := *;
      if got > max || got > |incoming| { got := -1; }
      if got > 0 {
        forall i | 0 <= i < got { buf[at + i] := incoming[i]; }
        incoming := incoming[got..];
      }
      lastGot, lastWouldBlock := got, wouldBlock;
    }
  }

  class Reader {
    const socket: Socket
    const buf: array<Byte>  // mRecvBuffer
    var offset: nat         // mRecvBufferOffset

    constructor (socket: Socket)
      ensures this.socket == socket && Valid() && fresh(buf) && offset == 0
      ensures Pending() == socket.incoming
    {
      this.socket := socket;
      buf := new Byte[RECV_BUFFER_SIZE](_ => 0);
      offset := 0;
      new;
      NilUnit(socket.incoming);
      assert buf[..0] == [];
    }

    ghost predicate Valid()
      reads this
    {
      buf.Length == RECV_BUFFER_SIZE && offset <= RECV_BUFFER_SIZE
    }

    ghost function Pending(): Bytes
      reads this, buf, socket
      requires Valid()
    {
      buf[..offset] + socket.incoming
    }

    /** One read into the free part of the buffer: moves bytes from the wire to the buffer, loses none. */
    method Fill(max: nat) returns (got: int, wouldBlock: bool)
      requires Valid() && offset + max <= RECV_BUFFER_SIZE
      modifies this`offset, buf, socket
      ensures Valid() && Pending() == old(Pending())
      ensures offset == old(offset) + (if got > 0 then got else 0)
      ensures socket.lastGot == got && socket.lastWouldBlock == wouldBlock
    {
      got, wouldBlock := socket.Recv(buf, offset, max);
      if got > 0 {
        assert buf[..offset + got] == buf[..offset] + buf[offset..offset + got];
        Assoc(old(buf[..offset]), old(socket.incoming)[..got], socket.incoming);
        assert old(socket.incoming) == old(socket.incoming)[..got] + socket.incoming;
        offset := offset + got;
      }
    }

    /** Removes the first `size` bytes of the buffer and shifts the others down. */
    method Shift(size: nat)
      requires Valid() && size <= offset
      modifies this`offset, buf
      ensures Valid() && old(Pending()) == old(buf[..size]) + Pending()
    {
      ghost var front, back := buf[..size], buf[size..offset];
      assert buf[..offset] == front + back;
      Assoc(front, back, socket.incoming);
      var remaining := offset - size;
      forall i | 0 <= i < remaining { buf[i] := buf[size + i]; }
      assert buf[..remaining] == back;
      offset := remaining;
    }

    /** A close, an error or a timeout, as the last recv() said. */
    ghost predicate Told(r: RecvResult)
      reads this, socket
    {
      && (r == ConnectionClosed ==> socket.lastGot == 0)
      && (r == Error ==> socket.lastGot < 0 && !socket.lastWouldBlock)
      && (r == Timeout ==> (socket.lastGot < 0 && socket.lastWouldBlock) || (socket.lastGot > 0 && offset < HEADER))
    }

    /** One read, if the header is not complete yet. */
    method FillHeader() returns (r: RecvResult)
      requires Valid()
      modifies this`offset, buf, socket
      ensures Valid() && Pending() == old(Pending()) && Told(r) && r != InvalidPacket
      ensures r == Success <==> offset >= HEADER
    {
      if offset < HEADER {
        var got, wouldBlock := Fill(RECV_BUFFER_SIZE - offset);
        if got == 0 { return ConnectionClosed; }
        if got < 0 { return if wouldBlock then Timeout else Error; }
      }
      return if offset < HEADER then Timeout else Success;
    }

    /** Reads until the packet is complete. */
    method FillPacket(size: nat) returns (r: RecvResult)
      requires Valid() && HEADER <= offset && size <= MAX_PACKET_SIZE && SizeField(buf[..offset]) == size
      modifies this`offset, buf, socket
      ensures Valid() && Pending() == old(Pending()) && Told(r) && r != InvalidPacket
      ensures HEADER <= offset && SizeField(buf[..offset]) == size
      ensures r == Success <==> offset >= size
    {
      FrameOfPrefix(buf[..offset], socket.incoming, HEADER);
      while offset < size
        invariant Valid() && HEADER <= offset && Pending() == old(Pending())
        invariant SizeField(Pending()) == SizeField(buf[..offset]) == size
        decreases size - offset
      {
        var got, wouldBlock := Fill(size - offset);
        FrameOfPrefix(buf[..offset], socket.incoming, HEADER);
        if got == 0 { return ConnectionClosed; }
        if got < 0 { return if wouldBlock then Timeout else Error; }
      }
      return Success;
    }

    /**
     Success takes exactly one frame off the front of the pending stream; every other result
     leaves the pending stream as it was.  A close, an error and a timeout are reported as what
     the last recv() said, and only while neither a complete frame nor a bad header is in the buffer.
     */
    method RecvPacket(bodyBufferSize: nat) returns (result: RecvResult, header: Bytes, body: Bytes)
      requires Valid()
      modifies this`offset, buf, socket
      ensures Valid() && Told(result)
      ensures result == Success ==>
                IsFrame(header + body, HEADER) && |header| == HEADER && |body| <= bodyBufferSize &&
                old(Pending()) == header + body + Pending()
      ensures result != Success ==> Pending() == old(Pending())
      ensures result == InvalidPacket ==>
                BadHeader(Pending(), HEADER) ||
                (HasFrame(Pending(), HEADER) && SizeField(Pending()) - HEADER > bodyBufferSize)
      ensures result != Success && result != InvalidPacket ==>
                !HasFrame(buf[..offset], HEADER) && !BadHeader(buf[..offset], HEADER)
    {
      header, body := [], [];
      result := FillHeader();
      if result != Success { return; }
      var size := SizeField(buf[..offset]);
      FrameOfPrefix(buf[..offset], socket.incoming, HEADER);
      if size < HEADER || size > MAX_PACKET_SIZE { return InvalidPacket, [], []; }
      result := FillPacket(size);
      if result != Success { return; }
      FrameOfPrefix(buf[..size], buf[size..offset] + socket.incoming, HEADER);
      assert buf[..offset] == buf[..size] + buf[size..offset];
      Assoc(buf[..size], buf[size..offset], socket.incoming);
      if size - HEADER > bodyBufferSize { return InvalidPacket, [], []; }
      header, body := buf[..HEADER], buf[HEADER..size];
      assert header + body == buf[..size];
      Shift(size);
    }

    /**
     Any number of calls, whatever each read does: the packets are frames of the stream in order,
     no byte is lost or repeated, and they are all the frames once no complete one is pending.
     */
    method ReadPackets(calls: nat, bodyBufferSize: nat) returns (packets: seq<Bytes>)
      requires Valid()
      modifies this`offset, buf, socket
      ensures Valid()
      ensures old(Pending()) == Join(packets) + Pending()
      ensures var all := SplitStream(old(Pending()), HEADER).frames;
              && packets + SplitStream(Pending(), HEADER).frames == all
              && (!HasFrame(Pending(), HEADER) ==> packets == all)
    {
      packets := [];
      NilUnit(Pending());
      for i := 0 to calls
        invariant Valid() && AllFrames(packets, HEADER)
        invariant old(Pending()) == Join(packets) + Pending()
      {
        ghost var before := Pending();
        var result, header, body := RecvPacket(bodyBufferSize);
        if result == Success {
          var packet := header + body;
          JoinAppend(packets, [packet]);
          JoinCons(packet, []);
          NilUnit(packet);
          NilUnit([packet]);
          Assoc(Join(packets), packet, Pending());
          packets := packets + [packet];
        }
      }
      SplitBehind(packets, Pending(), HEADER);
      NilUnit(packets);
    }
  }
}
