/**
 The writing side: packets as their senders lay them out, little-endian, and the proof that the three
 receivers get exactly these packets back.
 */
module Packets {
  import opened Basics
  import opened Sequences
  import opened Framing
  import SessionRecv
  import PacketStream
  import DbRecvLoop

  /** The two bytes of a 16-bit number, low byte first. */
  function Le16(n: nat): Bytes
    requires n < 65536
  {
    [(n % 256) as Byte, (n / 256) as Byte]
  }

  /** The four bytes of a 32-bit number, low byte first. */
  function Le32(n: nat): Bytes
    requires n < 0x1_0000_0000
  {
    Le16(n % 65536) + Le16(n / 65536)
  }

  /** PacketHeader and body: total size, packet id, body. */
  function ClientPacket(id: nat, body: Bytes): Bytes
    requires id < 65536 && 4 + |body| < 65536
  {
    Le16(4 + |body|) + (Le16(id) + body)
  }

  /** ServerPacketHeader and body: total size, packet id, sequence number, body. */
  function ServerPacket(id: nat, sequence: nat, body: Bytes): Bytes
    requires id < 65536 && sequence < 0x1_0000_0000 && 8 + |body| < 65536
  {
    Le16(8 + |body|) + (Le16(id) + Le32(sequence) + body)
  }

  /** The size field of what starts with two size bytes is the number that was written. */
  lemma SizeReadsBack(n: nat, rest: Bytes)
    requires n < 65536
    ensures SizeField(Le16(n) + rest) == n
  {
    var s := Le16(n) + rest;
    assert s[0] == (n % 256) as Byte && s[1] == (n / 256) as Byte;
  }

  /** Exactly the sizes from the header's up to 4096 are accepted, and exactly complete packets are cut. */
  lemma HeaderVerdict(n: nat, rest: Bytes, header: nat)
    requires n < 65536 && 2 <= header <= 2 + |rest|
    ensures BadHeader(Le16(n) + rest, header) <==> n < header || n > 4096
    ensures HasFrame(Le16(n) + rest, header) <==> header <= n <= 4096 && n <= 2 + |rest|
  {
    SizeReadsBack(n, rest);
  }

  lemma ClientPacketIsFrame(id: nat, body: Bytes)
    requires id < 65536 && 4 + |body| <= 4096
    ensures IsFrame(ClientPacket(id, body), 4) && |ClientPacket(id, body)| == 4 + |body|
    ensures ClientPacket(id, body)[4..] == body
  {
    HeaderVerdict(4 + |body|, Le16(id) + body, 4);
    SizeReadsBack(4 + |body|, Le16(id) + body);
  }

  lemma ServerPacketIsFrame(id: nat, sequence: nat, body: Bytes)
    requires id < 65536 && sequence < 0x1_0000_0000 && 8 + |body| <= 4096
    ensures IsFrame(ServerPacket(id, sequence, body), 8) && |ServerPacket(id, sequence, body)| == 8 + |body|
    ensures ServerPacket(id, sequence, body)[8..] == body
  {
    HeaderVerdict(8 + |body|, Le16(id) + Le32(sequence) + body, 8);
    SizeReadsBack(8 + |body|, Le16(id) + Le32(sequence) + body);
  }

  /** What a sender can send. */
  ghost predicate IsClientPacket(p: Bytes)
  {
    exists id: nat, body: Bytes :: id < 65536 && 4 + |body| <= 4096 && p == ClientPacket(id, body)
  }

  ghost predicate IsServerPacket(p: Bytes)
  {
    exists id: nat, sequence: nat, body: Bytes ::
      id < 65536 && sequence < 0x1_0000_0000 && 8 + |body| <= 4096 && p == ServerPacket(id, sequence, body)
  }

  lemma ClientStream(ps: seq<Bytes>)
    requires forall i :: 0 <= i < |ps| ==> IsClientPacket(ps[i])
    ensures AllFrames(ps, 4) && SplitStream(Join(ps), 4) == Split(ps, []) && !Broken(Join(ps), 4)
  {
    forall i | 0 <= i < |ps| ensures IsFrame(ps[i], 4) {
      var id: nat, body: Bytes :| id < 65536 && 4 + |body| <= 4096 && ps[i] == ClientPacket(id, body);
      ClientPacketIsFrame(id, body);
    }
    SplitIsUnique(ps, [], 4);
    NilUnit(Join(ps));
  }

  lemma ServerStream(ps: seq<Bytes>)
    requires forall i :: 0 <= i < |ps| ==> IsServerPacket(ps[i])
    ensures AllFrames(ps, 8) && SplitStream(Join(ps), 8) == Split(ps, []) && !Broken(Join(ps), 8)
  {
    forall i | 0 <= i < |ps| ensures IsFrame(ps[i], 8) {
      var id: nat, sequence: nat, body: Bytes :|
        id < 65536 && sequence < 0x1_0000_0000 && 8 + |body| <= 4096 && ps[i] == ServerPacket(id, sequence, body);
      ServerPacketIsFrame(id, sequence, body);
    }
    SplitIsUnique(ps, [], 8);
    NilUnit(Join(ps));
  }

  /** A session that gets client packets in chunks of at most 8192 bytes, cut anywhere, passes exactly these on. */
  lemma SessionGetsPackets(ps: seq<Bytes>, chunks: seq<Bytes>)
    requires forall i :: 0 <= i < |ps| ==> IsClientPacket(ps[i])
    requires forall i :: 0 <= i < |chunks| ==> |chunks[i]| <= 8192
    requires Join(chunks) == Join(ps)
    ensures SessionRecv.ReceiveAll(SessionRecv.FRESH, chunks) == SessionRecv.View([], ps, false)
  {
    ClientStream(ps);
    SessionRecv.OpenMeansSplit(chunks);
  }

  /** A server link that gets server packets, cut anywhere, delivers exactly these. */
  lemma LinkGetsPackets(ps: seq<Bytes>, chunks: seq<Bytes>)
    requires forall i :: 0 <= i < |ps| ==> IsServerPacket(ps[i])
    requires Join(chunks) == Join(ps)
    ensures DbRecvLoop.ReceiveAll(DbRecvLoop.View([], []), chunks) == DbRecvLoop.View([], ps)
  {
    ServerStream(ps);
    DbRecvLoop.LinkIsChunkIndependent(chunks);
  }

  /** The client reads, in any number of calls and whatever the reads do, a prefix of the packets that were sent. */
  method ClientReadsPackets(reader: PacketStream.Reader, calls: nat, bodyBufferSize: nat, ghost ps: seq<Bytes>)
    returns (got: seq<Bytes>)
    requires reader.Valid() && reader.Pending() == Join(ps)
    requires forall i :: 0 <= i < |ps| ==> IsClientPacket(ps[i])
    modifies reader`offset, reader.buf, reader.socket
    ensures reader.Valid() && got <= ps && reader.Pending() == Join(ps[|got|..])
  {
    ClientStream(ps);
    got := reader.ReadPackets(calls, bodyBufferSize);
    ghost var rest := ps[|got|..];
    assert ps == got + rest;
    JoinAppend(got, rest);
    SameTail(Join(got), reader.Pending(), Join(rest));
  }

  lemma SameTail(a: Bytes, b: Bytes, c: Bytes)
    requires a + b == a + c
    ensures b == c
  {
    TakeDrop(a, b);
    TakeDrop(a, c);
  }
}
