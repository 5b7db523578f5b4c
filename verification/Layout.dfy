/**
 Where every field stands on the wire: the records of source/util/serializer.h and the message header
 of source/rpc/rpc_protocol.h byte by byte, and when a read of one of them succeeds.
 */
module Layout {
  import opened RaftTypes
  import opened Wire
  import opened Codec
  import opened Framing

  /** Byte i of an n-byte integer in network order: the most significant comes first. */
  lemma {:induction false} BigEndianDigit(v: nat, n: nat, i: nat)
    requires i < n
    ensures BigEndian(v, n)[i] == v / Bound(n - 1 - i) % 256
  {
    if i < n - 1 {
      BigEndianDigit(v / 256, n - 1, i);
      DivideTwice(v, Bound(n - 2 - i));
      assert Bound(n - 1 - i) == 256 * Bound(n - 2 - i);
    } else {
      assert Bound(0) == 1;
    }
  }

  lemma DivideTwice(v: nat, b: nat)
    requires b > 0
    ensures v / 256 / b == v / (256 * b)
  {
    var q, r := v / (256 * b), v % (256 * b);
    assert v == q * (256 * b) + r;
    assert v == (q * b) * 256 + r;
    assert v / 256 == q * b + r / 256;
    assert r / 256 < b;
    QuotientIs(v / 256, b, q, r / 256);
  }

  lemma QuotientIs(v: nat, b: nat, q: nat, r: nat)
    requires v == q * b + r && r < b
    ensures v / b == q
  {
    var d: int := v / b - q;
    assert v == v / b * b + v % b;
    assert d * b == r - v % b;
    AtLeast(if d > 0 then d else 0, b);
    AtLeast(if d < 0 then -d else 0, b);
  }

  lemma AtLeast(d: nat, b: nat)
    ensures d > 0 ==> d * b >= b
  {
  }

  // ---- records ---------------------------------------------------------------------------

  lemma VoteParamsLayout(p: VoteParams)
    ensures var b := PutVoteParams(p);
      && |b| == 32
      && b[0..8] == BigEndian(p.term, 8) && b[8..16] == BigEndian(p.candidateId, 8)
      && b[16..24] == BigEndian(p.lastLogIndex, 8) && b[24..32] == BigEndian(p.lastLogTerm, 8)
  {
  }

  lemma VoteRetsLayout(r: VoteRets)
    ensures var b := PutVoteRets(r);
      |b| == 9 && b[0..8] == BigEndian(r.term, 8) && b[8] == if r.voteGranted then 1 else 0
  {
  }

  lemma AppendRetsLayout(r: AppendRets)
    ensures var b := PutAppendRets(r);
      |b| == 9 && b[0] == (if r.success then 1 else 0) && b[1..9] == BigEndian(r.term, 8)
  {
  }

  /** A text at position i: its length in eight bytes, then its bytes. */
  predicate TextAt(b: seq<Byte>, i: nat, t: Text) {
    i + 8 + |t| <= |b| && b[i..i + 8] == BigEndian(|t|, 8) && b[i + 8..i + 8 + |t|] == t
  }

  lemma TextStandsAt(b: seq<Byte>, i: nat, t: Text)
    requires Stands(b, i, PutText(t))
    ensures TextAt(b, i, t)
  {
    StandsSplit(b, i, PutU64(|t|), t);
  }

  lemma EntryTextsLayout(b: seq<Byte>, i: nat, e: Entry)
    requires Stands(b, i, PutText(e.op) + (PutText(e.fName) + (PutText(e.fIp) + PutU16(e.fPort))))
    ensures var (p, q, r) := (i + 8 + |e.op|, i + 16 + |e.op| + |e.fName|, i + 24 + |e.op| + |e.fName| + |e.fIp|);
      && TextAt(b, i, e.op) && TextAt(b, p, e.fName) && TextAt(b, q, e.fIp)
      && r + 2 <= |b| && b[r..r + 2] == BigEndian(e.fPort, 2)
  {
    hide BigEndian;
    var d := PutText(e.fIp) + PutU16(e.fPort);
    StandsSplit(b, i, PutText(e.op), PutText(e.fName) + d);
    TextStandsAt(b, i, e.op);
    StandsSplit(b, i + 8 + |e.op|, PutText(e.fName), d);
    TextStandsAt(b, i + 8 + |e.op|, e.fName);
    StandsSplit(b, i + 16 + |e.op| + |e.fName|, PutText(e.fIp), PutU16(e.fPort));
    TextStandsAt(b, i + 16 + |e.op| + |e.fName|, e.fIp);
  }

  /** An entry: index, term, then operation, function name and address as texts, then the port. */
  lemma EntryLayout(b: seq<Byte>, i: nat, e: Entry)
    requires Stands(b, i, PutEntry(e))
    ensures var (p, q, r) := (i + 24 + |e.op|, i + 32 + |e.op| + |e.fName|, i + 40 + |e.op| + |e.fName| + |e.fIp|);
      && |PutEntry(e)| == 42 + |e.op| + |e.fName| + |e.fIp| && r + 2 <= |b|
      && b[i..i + 8] == BigEndian(e.index, 8) && b[i + 8..i + 16] == BigEndian(e.term, 8)
      && TextAt(b, i + 16, e.op) && TextAt(b, p, e.fName) && TextAt(b, q, e.fIp)
      && b[r..r + 2] == BigEndian(e.fPort, 2)
  {
    hide BigEndian, TextAt;
    var texts := PutText(e.op) + (PutText(e.fName) + (PutText(e.fIp) + PutU16(e.fPort)));
    StandsSplit(b, i, PutU64(e.index), PutU64(e.term) + texts);
    StandsSplit(b, i + 8, PutU64(e.term), texts);
    EntryTextsLayout(b, i + 16, e);
  }

  lemma AppendParamsLayout(p: AppendParams)
    ensures var (b, n) := (PutAppendParams(p), |PutEntry(p.entry)|);
      && |b| == 40 + n
      && b[0..8] == BigEndian(p.term, 8) && b[8..16] == BigEndian(p.leaderId, 8)
      && b[16..24] == BigEndian(p.prevLogIndex, 8) && b[24..32] == BigEndian(p.prevLogTerm, 8)
      && Stands(b, 32, PutEntry(p.entry)) && b[32 + n..40 + n] == BigEndian(p.leaderCommit, 8)
  {
  }

  lemma RecordLayout(r: Record)
    ensures var (b, n, m) := (PutRecord(r), |r.name|, |r.ip|);
      && |b| == 18 + n + m && TextAt(b, 0, r.name) && TextAt(b, 8 + n, r.ip)
      && b[16 + n + m..18 + n + m] == BigEndian(r.port, 2)
  {
    var b := PutRecord(r);
    assert Stands(b, 0, b);
    StandsSplit(b, 0, PutText(r.name), PutText(r.ip) + PutU16(r.port));
    TextStandsAt(b, 0, r.name);
    StandsSplit(b, 8 + |r.name|, PutText(r.ip), PutU16(r.port));
    TextStandsAt(b, 8 + |r.name|, r.ip);
  }

  // ---- reads -----------------------------------------------------------------------------

  lemma VoteParamsRead(data: seq<Byte>, pos: nat)
    ensures var r := GetVoteParams(data, pos);
      && (r.Read? <==> pos + 32 <= |data|)
      && (r.Read? ==>
            && r.pos == pos + 32
            && r.value == VoteParams(FromBigEndian(data[pos..pos + 8]), FromBigEndian(data[pos + 8..pos + 16]),
                                     FromBigEndian(data[pos + 16..pos + 24]), FromBigEndian(data[pos + 24..pos + 32])))
  {
    UintRead(data, pos, 8);
    UintRead(data, pos + 8, 8);
    UintRead(data, pos + 16, 8);
    UintRead(data, pos + 24, 8);
  }

  lemma VoteRetsRead(data: seq<Byte>, pos: nat)
    ensures var r := GetVoteRets(data, pos);
      && (r.Read? <==> pos + 9 <= |data|)
      && (r.Read? ==> r == Read(VoteRets(FromBigEndian(data[pos..pos + 8]), data[pos + 8] != 0), pos + 9))
  {
    UintRead(data, pos, 8);
  }

  lemma AppendRetsRead(data: seq<Byte>, pos: nat)
    ensures var r := GetAppendRets(data, pos);
      && (r.Read? <==> pos + 9 <= |data|)
      && (r.Read? ==> r == Read(AppendRets(data[pos] != 0, FromBigEndian(data[pos + 1..pos + 9])), pos + 9))
  {
    UintRead(data, pos + 1, 8);
  }

  /** A text is read if its length and that many bytes are there. */
  lemma TextRead(data: seq<Byte>, pos: nat)
    ensures var r := GetText(data, pos);
      && (r.Read? <==> pos + 8 <= |data| && pos + 8 + FromBigEndian(data[pos..pos + 8]) <= |data|)
      && (r.Read? ==>
            var n := FromBigEndian(data[pos..pos + 8]); r == Read(data[pos + 8..pos + 8 + n], pos + 8 + n))
  {
    UintRead(data, pos, 8);
  }

  // ---- streams ---------------------------------------------------------------------------

  /** A header cut short by the end of the stream is dropped; the messages before it are not. */
  lemma {:induction false} CutShort(ms: seq<Msg>, tail: seq<Byte>)
    requires (forall m :: m in ms ==> MsgFits(m)) && |tail| < HEADER_SIZE
    ensures CutAll(Stream(ms) + tail) == ms
  {
    hide Frame, GetHeader, BigEndian;
    if ms == [] {
      assert Stream(ms) + tail == tail;
    } else {
      var m, rest := ms[0], Stream(ms[1..]) + tail;
      assert m in ms;
      assert Stream(ms) + tail == Frame(m.header, m.payload) + rest;
      CutFrame(m.header, m.payload, rest);
      FrameDecodes(m.header, m.payload);
      CutShort(ms[1..], tail);
      assert CutAll(Stream(ms) + tail) == [m] + CutAll(rest);
    }
  }
}
