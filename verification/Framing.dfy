/**
 Message framing: source/rpc/rpc_protocol.h puts a fixed header with a payload length before each
 payload, source/socket/socket.cpp cuts the byte stream back into messages, whatever chunks recv
 hands out.
 */
module Framing {
  import opened RaftTypes
  import opened Wire
  import opened Codec
  import opened Serialization

  datatype Header = Header(magic: Byte, version: Byte, kind: Byte, errCode: Byte, seqNo: nat)

  const MAGIC: Byte := 0x66
  const HEADER_SIZE: nat := 20

  function Fixed(h: Header): seq<Byte> {
    [h.magic, h.version, h.kind, h.errCode] + PutU64(h.seqNo)
  }

  /** A message on the wire. */
  function Frame(h: Header, payload: seq<Byte>): seq<Byte> {
    Fixed(h) + PutText(payload)
  }

  predicate HeaderFits(h: Header) { Is64(h.seqNo) }

  function GetByte(data: seq<Byte>, pos: nat): Parsed<Byte> {
    if pos < |data| then Read(data[pos], pos + 1) else OutOfRange(pos)
  }

  /** decode: the header fields and the payload length; the position is left at the payload. */
  function GetHeader(data: seq<Byte>, pos: nat): Parsed<(Header, nat)> {
    var (magic, p1) :- GetByte(data, pos);
    var (version, p2) :- GetByte(data, p1);
    var (kind, p3) :- GetByte(data, p2);
    var (errCode, p4) :- GetByte(data, p3);
    var (seqNo, p5) :- GetU64(data, p4);
    var (length, p6) :- GetU64(data, p5);
    Read((Header(magic, version, kind, errCode, seqNo), length), p6)
  }

  function Take(s: seq<Byte>, n: nat): seq<Byte> {
    if n <= |s| then s[..n] else s
  }

  function Drop(s: seq<Byte>, n: nat): seq<Byte> {
    if n <= |s| then s[n..] else []
  }

  /** What one receive(Message) does to the stream: closed, an exception, or the bytes of a message. */
  datatype Received = Closed | Throws(got: seq<Byte>) | Got(bytes: seq<Byte>)

  /** receive(Message) when the message's buffer already holds `had`. */
  function CutInto(had: seq<Byte>, stream: seq<Byte>): (Received, seq<Byte>) {
    var head, body := had + Take(stream, HEADER_SIZE), Drop(stream, HEADER_SIZE);
    if head == [] then (Closed, [])
    else if |head| < HEADER_SIZE then (Throws(head), body)
    else
      var size := FromBigEndian(head[12..HEADER_SIZE]);
      (Got(head + Take(body, size)), Drop(body, size))
  }

  /** By lengths: an empty stream closes, a short header throws, and no byte is lost or made up. */
  lemma CutConserves(had: seq<Byte>, stream: seq<Byte>)
    ensures var (all, r, rest) := (had + stream, CutInto(had, stream).0, CutInto(had, stream).1);
      && (r.Closed? <==> all == [])
      && (r.Throws? <==> 0 < |all| && (if |all| < |had| + 20 then |all| else |had| + 20) < 20)
      && (r.Closed? ==> rest == []) && (r.Throws? ==> r.got + rest == all)
      && (r.Got? ==>
            var end := |had| + 20 + FromBigEndian(all[12..20]);
            r.bytes + rest == all && |r.bytes| == if end <= |all| then end else |all|)
  {
    var head := had + Take(stream, HEADER_SIZE);
    assert |head| >= 20 ==> head[12..20] == (had + stream)[12..20];
  }

  /** The same on a new message. */
  function Cut(stream: seq<Byte>): (Received, seq<Byte>) {
    CutInto([], stream)
  }

  /** A message as its receiver sees it: header and payload. */
  datatype Msg = Msg(header: Header, payload: seq<Byte>)

  function Decoded(bytes: seq<Byte>): Parsed<Msg> {
    var (h, pos) :- GetHeader(bytes, 0);
    Read(Msg(h.0, Drop(bytes, pos)), pos)
  }

  /** All messages of a stream, up to its end or the first exception. */
  function CutAll(stream: seq<Byte>): seq<Msg>
    decreases |stream|
  {
    var (r, rest) := Cut(stream);
    if !r.Got? then []
    else
      match Decoded(r.bytes)
      case OutOfRange(_) => []
      case Read(m, _) => [m] + CutAll(rest)
  }

  function Stream(ms: seq<Msg>): seq<Byte> {
    if ms == [] then [] else Frame(ms[0].header, ms[0].payload) + Stream(ms[1..])
  }

  predicate MsgFits(m: Msg) { HeaderFits(m.header) && Is64(|m.payload|) }

  // ---- the header, byte by byte ----------------------------------------------------------

  /** A message at o: magic, version, kind, error code, sequence number, payload length, payload. */
  predicate FrameAt(b: seq<Byte>, o: nat, h: Header, payload: seq<Byte>) {
    && o + 20 + |payload| <= |b|
    && b[o] == h.magic && b[o + 1] == h.version && b[o + 2] == h.kind && b[o + 3] == h.errCode
    && b[o + 4..o + 12] == BigEndian(h.seqNo, 8) && b[o + 12..o + 20] == BigEndian(|payload|, 8)
    && b[o + 20..o + 20 + |payload|] == payload
  }

  lemma FrameLayout(b: seq<Byte>, o: nat, h: Header, payload: seq<Byte>)
    requires Stands(b, o, Frame(h, payload))
    ensures FrameAt(b, o, h, payload) && |Frame(h, payload)| == 20 + |payload|
  {
    hide BigEndian;
    var four := [h.magic, h.version, h.kind, h.errCode];
    assert Frame(h, payload) == four + (PutU64(h.seqNo) + (PutU64(|payload|) + payload));
    StandsSplit(b, o, four, PutU64(h.seqNo) + (PutU64(|payload|) + payload));
    StandsSplit(b, o + 4, PutU64(h.seqNo), PutU64(|payload|) + payload);
    StandsSplit(b, o + 12, PutU64(|payload|), payload);
    FourBytes(b, o, four);
  }

  lemma FourBytes(b: seq<Byte>, o: nat, four: seq<Byte>)
    requires |four| == 4 && Stands(b, o, four)
    ensures b[o] == four[0] && b[o + 1] == four[1] && b[o + 2] == four[2] && b[o + 3] == four[3]
  {
    assert b[o..o + 4] == four;
    assert b[o] == b[o..o + 4][0] && b[o + 1] == b[o..o + 4][1];
    assert b[o + 2] == b[o..o + 4][2] && b[o + 3] == b[o..o + 4][3];
  }

  /** A header is read if its twenty bytes are there. */
  lemma HeaderRead(data: seq<Byte>, pos: nat)
    ensures var r := GetHeader(data, pos);
      && (r.Read? <==> pos + 20 <= |data|)
      && (r.Read? ==>
            && r.pos == pos + 20
            && r.value.0 == Header(data[pos], data[pos + 1], data[pos + 2], data[pos + 3],
                                   FromBigEndian(data[pos + 4..pos + 12]))
            && r.value.1 == FromBigEndian(data[pos + 12..pos + 20]))
  {
    if pos + 4 <= |data| {
      UintRead(data, pos + 4, 8);
      UintRead(data, pos + 12, 8);
    }
  }

  // ---- framing round trip ----------------------------------------------------------------

  lemma FrameDecodes(h: Header, payload: seq<Byte>)
    requires HeaderFits(h) && Is64(|payload|)
    ensures GetHeader(Frame(h, payload), 0) == Read((h, |payload|), HEADER_SIZE)
    ensures Drop(Frame(h, payload), HEADER_SIZE) == payload
  {
    var f := Frame(h, payload);
    assert f == [h.magic, h.version, h.kind, h.errCode] + (PutU64(h.seqNo) + (PutU64(|payload|) + payload));
    assert Stands(f, 4, PutU64(h.seqNo));
    UintStands(f, 4, h.seqNo, 8);
    assert Stands(f, 12, PutU64(|payload|));
    UintStands(f, 12, |payload|, 8);
  }

  /** The first message of a stream is cut off exactly, whatever follows it. */
  lemma CutFrame(h: Header, payload: seq<Byte>, rest: seq<Byte>)
    requires HeaderFits(h) && Is64(|payload|)
    ensures Cut(Frame(h, payload) + rest) == (Got(Frame(h, payload)), rest)
  {
    hide BigEndian, FromBigEndian;
    var f := Frame(h, payload);
    var s := f + rest;
    assert f == Fixed(h) + (PutU64(|payload|) + payload);
    assert s[12..HEADER_SIZE] == PutU64(|payload|);
    BigEndianRoundTrip(|payload|, 8);
    var head := [] + Take(s, HEADER_SIZE);
    assert head == f[..HEADER_SIZE] && head[12..HEADER_SIZE] == s[12..HEADER_SIZE];
    assert Drop(s, HEADER_SIZE) == payload + rest;
    assert Take(payload + rest, |payload|) == payload;
    assert Drop(payload + rest, |payload|) == rest;
    assert f[..HEADER_SIZE] + payload == f;
  }

  /** Any sequence of messages, sent back to back, is cut into exactly those messages, in order. */
  lemma {:induction false} StreamRoundTrip(ms: seq<Msg>)
    requires forall m :: m in ms ==> MsgFits(m)
    ensures CutAll(Stream(ms)) == ms
  {
    if ms != [] {
      var m := ms[0];
      assert m in ms;
      CutFrame(m.header, m.payload, Stream(ms[1..]));
      FrameDecodes(m.header, m.payload);
      StreamRoundTrip(ms[1..]);
      assert ms == [m] + ms[1..];
    }
  }

  lemma CutAllStep(stream: seq<Byte>, got: seq<Msg>)
    ensures var (r, rest) := Cut(stream);
      if !r.Got? then got + CutAll(stream) == got
      else match Decoded(r.bytes)
        case OutOfRange(_) => got + CutAll(stream) == got
        case Read(m, _) => got + CutAll(stream) == got + [m] + CutAll(rest) && |rest| < |stream|
  {
    var (r, rest) := Cut(stream);
    if r.Got? && Decoded(r.bytes).Read? {
      var m := Decoded(r.bytes).value;
      assert got + ([m] + CutAll(rest)) == got + [m] + CutAll(rest);
    }
  }

  // ---- the classes -----------------------------------------------------------------------

  class Message {
    var header: Header
    var contentLength: nat
    const serializer: Serializer

    constructor (kind: Byte, errCode: Byte, version: Byte, seqNo: nat)
      ensures header == Header(MAGIC, version, kind, errCode, seqNo)
      ensures fresh(serializer) && fresh(serializer.buffer)
      ensures serializer.buffer.data == [] && serializer.buffer.position == 0
    {
      header := Header(MAGIC, version, kind, errCode, seqNo);
      contentLength := 0;
      serializer := new Serializer();
    }

    method Encode(s: Serializer)
      requires HeaderFits(header) && Is64(|s.buffer.data|) && s.buffer != serializer.buffer
      modifies this, serializer.buffer
      ensures serializer.buffer.data == old(serializer.buffer.data) + Frame(header, s.buffer.data)
      ensures header == old(header) && contentLength == |s.buffer.data|
      ensures var (o, b) := (|old(serializer.buffer.data)|, serializer.buffer.data);
        |b| == o + 20 + contentLength && b[..o] == old(serializer.buffer.data) && FrameAt(b, o, header, s.buffer.data)
      ensures s.buffer.data == old(s.buffer.data)
    {
      var b := serializer.buffer;
      b.WriteUint8(header.magic);
      b.WriteUint8(header.version);
      b.WriteUint8(header.kind);
      b.WriteUint8(header.errCode);
      b.WriteUint64(header.seqNo);
      contentLength := |s.buffer.data|;
      assert b.data == old(b.data) + Fixed(header);
      serializer.WriteText(s.buffer.data);
      FrameLayout(b.data, |old(b.data)|, header, s.buffer.data);
    }

    /** decode; false stands for the exception of a short read. */
    method Decode() returns (ok: bool)
      modifies this, serializer.buffer
      ensures serializer.buffer.data == old(serializer.buffer.data)
      ensures var r := GetHeader(serializer.buffer.data, old(serializer.buffer.position));
        && ok == r.Read? && serializer.buffer.position == r.pos
        && (ok ==> header == r.value.0 && contentLength == r.value.1)
      ensures var (p, b) := (old(serializer.buffer.position), serializer.buffer.data);
        && (ok <==> p + 20 <= |b|)
        && (ok ==>
              && header == Header(b[p], b[p + 1], b[p + 2], b[p + 3], FromBigEndian(b[p + 4..p + 12]))
              && contentLength == FromBigEndian(b[p + 12..p + 20]) && serializer.buffer.position == p + 20)
        && (!ok ==> header == old(header) && contentLength == old(contentLength))
    {
      HeaderRead(serializer.buffer.data, serializer.buffer.position);
      var b := serializer.buffer;
      var magic := b.ReadUint8();
      if magic.OutOfRange? { return false; }
      var version := b.ReadUint8();
      if version.OutOfRange? { return false; }
      var kind := b.ReadUint8();
      if kind.OutOfRange? { return false; }
      var errCode := b.ReadUint8();
      if errCode.OutOfRange? { return false; }
      var seqNo := b.ReadUint64();
      if seqNo.OutOfRange? { return false; }
      var length := b.ReadUint64();
      if length.OutOfRange? { return false; }
      header := Header(magic.value, version.value, kind.value, errCode.value, seqNo.value);
      contentLength := length.value;
      return true;
    }
  }

  /** A connected socket: the bytes still to come, and how often recv will still answer EAGAIN. */
  class Socket {
    var rest: seq<Byte>
    var stalls: nat
    var connected: bool

    constructor (stream: seq<Byte>, stalls: nat)
      ensures rest == stream && connected
    {
      rest, this.stalls, connected := stream, stalls, true;
    }

    /** recv: would block, closed (0 bytes), or a chunk of arbitrary size up to max. */
    method Recv(max: nat) returns (blocks: bool, chunk: seq<Byte>)
      requires max > 0
      modifies this
      ensures connected == old(connected)
      ensures blocks ==> stalls < old(stalls) && rest == old(rest)
      ensures !blocks ==> stalls <= old(stalls) && chunk + rest == old(rest) && |chunk| <= max
      ensures !blocks && chunk == [] ==> old(rest) == []
    {
      chunk := [];
      if stalls > 0 {
        var stall: bool :| true;
        if stall {
          stalls := stalls - 1;
          return true, [];
        }
      }
      if rest == [] {
        return false, [];
      }
      var n: nat :| 1 <= n <= max && n <= |rest|;
      chunk := rest[..n];
      rest := rest[n..];
      return false, chunk;
    }

    /** receive(std::string&, size): exactly size bytes, or all there are before the end. */
    method Receive(size: nat) returns (data: seq<Byte>)
      modifies this
      ensures data == Take(old(rest), size) && rest == Drop(old(rest), size)
      ensures data + rest == old(rest) && |data| == if size <= |old(rest)| then size else |old(rest)|
      ensures connected == (old(connected) && |data| == size)
    {
      data := [];
      while |data| < size
        invariant |data| <= size
        invariant data + rest == old(rest) && connected == old(connected)
        decreases size - |data| + stalls
      {
        var blocks, chunk := Recv(size - |data|);
        if blocks {
          continue;
        }
        if chunk == [] {
          connected := false;
          break;
        }
        data := data + chunk;
      }
      assert old(rest)[..|data|] == data;
    }

    method ReceiveInto(s: Serializer, size: nat)
      modifies this, s.buffer
      ensures s.buffer.data == old(s.buffer.data) + Take(old(rest), size) && rest == Drop(old(rest), size)
      ensures s.buffer.position == old(s.buffer.position)
    {
      var data := Receive(size);
      s.buffer.Write(data);
    }

    method ReceiveHeader(s: Serializer)
      modifies this, s.buffer
      ensures s.buffer.data == old(s.buffer.data) + Take(old(rest), HEADER_SIZE) && rest == Drop(old(rest), HEADER_SIZE)
    {
      ghost var had, all := s.buffer.data, rest;
      ReceiveInto(s, 1);
      ReceiveInto(s, 1);
      assert s.buffer.data == had + Take(all, 2) && rest == Drop(all, 2);
      ReceiveInto(s, 1);
      ReceiveInto(s, 1);
      assert s.buffer.data == had + Take(all, 4) && rest == Drop(all, 4);
      ReceiveInto(s, 8);
      assert s.buffer.data == had + Take(all, 12) && rest == Drop(all, 12);
      ReceiveInto(s, 8);
    }

    /** receive(Message&) */
    method ReceiveMessage(m: Message) returns (r: Received)
      modifies this, m.serializer.buffer
      ensures (r, rest) == CutInto(old(m.serializer.buffer.data), old(rest))
      ensures r.Got? ==> m.serializer.buffer.data == r.bytes && m.serializer.buffer.position == 0
      ensures r.Closed? ==> m.serializer.buffer.data == []
      ensures var (had, all) := (|old(m.serializer.buffer.data)|, old(m.serializer.buffer.data) + old(rest));
        && m.serializer.buffer.data + rest == all
        && (r.Closed? <==> all == [])
        && (r.Throws? <==> 0 < |all| && (if |all| < had + 20 then |all| else had + 20) < 20)
        && (r.Got? ==>
              var end := had + 20 + FromBigEndian(all[12..20]);
              |m.serializer.buffer.data| == if end <= |all| then end else |all|)
    {
      CutConserves(m.serializer.buffer.data, rest);
      var s := m.serializer;
      ReceiveHeader(s);
      var _ := s.buffer.SetPosition(0);
      if s.buffer.data == [] {
        return Closed;
      }
      // uint32_t, then two uint64_t into the same variable
      var tmp := s.buffer.ReadBytes(4);
      if tmp.OutOfRange? { return Throws(s.buffer.data); }
      var size := s.ReadU64();
      if size.OutOfRange? { return Throws(s.buffer.data); }
      size := s.ReadU64();
      if size.OutOfRange? { return Throws(s.buffer.data); }
      ReceiveInto(s, size.value);
      var _ := s.buffer.SetPosition(0);
      return Got(s.buffer.data);
    }
  }

  /** The client's end of a connection (source/rpc/rpc_session.h). */
  class RpcSession {
    const socket: Socket

    constructor (socket: Socket)
      ensures this.socket == socket
    {
      this.socket := socket;
    }

    /** The receiving coroutine of a session: messages one by one until the connection ends. */
    method HandleReceive() returns (got: seq<Msg>)
      modifies socket
      ensures got == CutAll(old(socket.rest))
      ensures forall ms: seq<Msg> {:trigger Stream(ms)} ::
        (forall m :: m in ms ==> MsgFits(m)) && old(socket.rest) == Stream(ms) ==> got == ms
    {
      hide GetHeader;
      forall ms: seq<Msg> | (forall m :: m in ms ==> MsgFits(m)) && socket.rest == Stream(ms)
        ensures CutAll(socket.rest) == ms
      {
        StreamRoundTrip(ms);
      }
      got := [];
      ghost var all := CutAll(socket.rest);
      assert got + CutAll(socket.rest) == all;
      while true
        invariant got + CutAll(socket.rest) == all
        decreases |socket.rest|
      {
        CutAllStep(socket.rest, got);
        var m := new Message(0, 0, 1, 0);
        var r := socket.ReceiveMessage(m);
        if !r.Got? {
          break;
        }
        var ok := m.Decode();
        if !ok {
          break;
        }
        var b := m.serializer.buffer;
        got := got + [Msg(m.header, Drop(b.data, b.position))];
      }
    }
  }
}
