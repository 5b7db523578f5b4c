/** The Buffer and Serializer classes of source/util/serializer.h, proved against Codec. */
module Serialization {
  import opened RaftTypes
  import opened Wire
  import opened Codec

  class Buffer {
    var data: seq<Byte>
    var position: nat

    constructor ()
      ensures data == [] && position == 0
    {
      data, position := [], 0;
    }

    method Write(b: seq<Byte>)
      modifies `data
      ensures data == old(data) + b
    {
      data := data + b;
    }

    method WriteUint8(v: Byte)
      modifies `data
      ensures data == old(data) + [v]
    {
      data := data + [v];
    }

    method WriteUint16(v: nat)
      requires Is16(v)
      modifies `data
      ensures data == old(data) + PutU16(v)
    {
      SwapIsNetworkOrder(v, 2);
      Write(Memory(Swap(v, 2), 2));
    }

    method WriteUint64(v: nat)
      requires Is64(v)
      modifies `data
      ensures data == old(data) + PutU64(v)
    {
      HtonllIsNetworkOrder(v);
      Write(Memory(Htonll(v), 8));
    }

    /** read: checks the range first, so a failed read leaves the position. */
    method ReadBytes(n: nat) returns (r: Parsed<seq<Byte>>)
      modifies `position
      ensures r == GetBytes(data, old(position), n) && position == r.pos
    {
      if position + n > |data| {
        return OutOfRange(position);
      }
      var b := data[position..position + n];
      position := position + n;
      return Read(b, position);
    }

    method ReadUint8() returns (r: Parsed<Byte>)
      modifies `position
      ensures position == r.pos
      ensures r == if old(position) < |data| then Read(data[old(position)], old(position) + 1)
                   else OutOfRange(old(position))
    {
      if position + 1 > |data| {
        return OutOfRange(position);
      }
      position := position + 1;
      return Read(data[position - 1], position);
    }

    method ReadUint16() returns (r: Parsed<nat>)
      modifies `position
      ensures r == GetU16(data, old(position)) && position == r.pos
    {
      var b :- ReadBytes(2);
      SwapReads(b.0);
      return Read(Swap(FromMemory(b.0), 2), position);
    }

    method ReadUint64() returns (r: Parsed<nat>)
      modifies `position
      ensures r == GetU64(data, old(position)) && position == r.pos
    {
      var b :- ReadBytes(8);
      NtohllReads(b.0);
      return Read(Htonll(FromMemory(b.0)), position);
    }

    /** setPosition; false stands for the exception of a position past the end. */
    method SetPosition(p: nat) returns (ok: bool)
      modifies `position
      ensures ok == (p <= |data|) && position == if ok then p else old(position)
    {
      ok := p <= |data|;
      if ok {
        position := p;
      }
    }

    predicate IsReadEnd()
      reads this
    {
      position >= |data|
    }
  }

  class Serializer {
    const buffer: Buffer

    constructor ()
      ensures fresh(buffer) && buffer.data == [] && buffer.position == 0
    {
      buffer := new Buffer();
    }

    method WriteBool(b: bool)
      modifies buffer
      ensures buffer.data == old(buffer.data) + PutBool(b) && buffer.position == old(buffer.position)
    {
      buffer.WriteUint8(if b then 1 else 0);
    }

    method WriteU16(v: nat)
      requires Is16(v)
      modifies buffer
      ensures buffer.data == old(buffer.data) + PutU16(v) && buffer.position == old(buffer.position)
    {
      buffer.WriteUint16(v);
    }

    method WriteU64(v: nat)
      requires Is64(v)
      modifies buffer
      ensures buffer.data == old(buffer.data) + PutU64(v) && buffer.position == old(buffer.position)
    {
      buffer.WriteUint64(v);
    }

    method WriteText(t: Text)
      requires Is64(|t|)
      modifies buffer
      ensures buffer.data == old(buffer.data) + PutText(t) && buffer.position == old(buffer.position)
    {
      buffer.WriteUint64(|t|);
      buffer.Write(t);
      assert old(buffer.data) + PutU64(|t|) + t == old(buffer.data) + PutText(t);
    }

    method WriteVoteParams(p: VoteParams)
      requires VoteParamsFit(p)
      modifies buffer
      ensures buffer.data == old(buffer.data) + PutVoteParams(p) && buffer.position == old(buffer.position)
    {
      WriteU64(p.term);
      WriteU64(p.candidateId);
      WriteU64(p.lastLogIndex);
      WriteU64(p.lastLogTerm);
    }

    method WriteVoteRets(r: VoteRets)
      requires Is64(r.term)
      modifies buffer
      ensures buffer.data == old(buffer.data) + PutVoteRets(r) && buffer.position == old(buffer.position)
    {
      WriteU64(r.term);
      WriteBool(r.voteGranted);
    }

    method WriteEntry(e: Entry)
      requires EntryFits(e)
      modifies buffer
      ensures buffer.data == old(buffer.data) + PutEntry(e) && buffer.position == old(buffer.position)
    {
      Regroup(buffer.data, PutU64(e.index), PutU64(e.term), PutText(e.op), PutText(e.fName), PutText(e.fIp),
              PutU16(e.fPort));
      WriteU64(e.index);
      WriteU64(e.term);
      WriteText(e.op);
      WriteText(e.fName);
      WriteText(e.fIp);
      WriteU16(e.fPort);
    }

    method WriteAppendParams(p: AppendParams)
      requires AppendParamsFit(p)
      modifies buffer
      ensures buffer.data == old(buffer.data) + PutAppendParams(p) && buffer.position == old(buffer.position)
    {
      Regroup(buffer.data, PutU64(p.term), PutU64(p.leaderId), PutU64(p.prevLogIndex), PutU64(p.prevLogTerm),
              PutEntry(p.entry), PutU64(p.leaderCommit));
      WriteU64(p.term);
      WriteU64(p.leaderId);
      WriteU64(p.prevLogIndex);
      WriteU64(p.prevLogTerm);
      WriteEntry(p.entry);
      WriteU64(p.leaderCommit);
    }

    method WriteAppendRets(r: AppendRets)
      requires Is64(r.term)
      modifies buffer
      ensures buffer.data == old(buffer.data) + PutAppendRets(r) && buffer.position == old(buffer.position)
    {
      WriteBool(r.success);
      WriteU64(r.term);
    }

    method WriteRecord(r: Record)
      requires RecordFits(r)
      modifies buffer
      ensures buffer.data == old(buffer.data) + PutRecord(r) && buffer.position == old(buffer.position)
    {
      WriteText(r.name);
      WriteText(r.ip);
      WriteU16(r.port);
    }

    /** The payload of a registry message: one record after the other. */
    method WriteRecords(rs: seq<Record>)
      requires forall r :: r in rs ==> RecordFits(r)
      modifies buffer
      ensures buffer.data == old(buffer.data) + PutRecords(rs) && buffer.position == old(buffer.position)
    {
      ghost var whole := buffer.data + PutRecords(rs);
      assert rs[0..] == rs;
      for k := 0 to |rs|
        invariant buffer.position == old(buffer.position)
        invariant buffer.data + PutRecords(rs[k..]) == whole
      {
        PutRecordsStep(buffer.data, rs, k);
        WriteRecord(rs[k]);
      }
      assert whole == buffer.data + [];
    }

    method ReadBool() returns (r: Parsed<bool>)
      modifies buffer
      ensures r == GetBool(buffer.data, old(buffer.position)) && buffer.position == r.pos
      ensures buffer.data == old(buffer.data)
    {
      var b :- buffer.ReadUint8();
      return Read(b.0 != 0, buffer.position);
    }

    method ReadU16() returns (r: Parsed<nat>)
      modifies buffer
      ensures r == GetU16(buffer.data, old(buffer.position)) && buffer.position == r.pos
      ensures buffer.data == old(buffer.data)
    {
      r := buffer.ReadUint16();
    }

    method ReadU64() returns (r: Parsed<nat>)
      modifies buffer
      ensures r == GetU64(buffer.data, old(buffer.position)) && buffer.position == r.pos
      ensures buffer.data == old(buffer.data)
    {
      r := buffer.ReadUint64();
    }

    method ReadText() returns (r: Parsed<Text>)
      modifies buffer
      ensures r == GetText(buffer.data, old(buffer.position)) && buffer.position == r.pos
      ensures buffer.data == old(buffer.data)
    {
      var size :- ReadU64();
      r := buffer.ReadBytes(size.0);
    }

    method ReadVoteParams() returns (r: Parsed<VoteParams>)
      modifies buffer
      ensures r == GetVoteParams(buffer.data, old(buffer.position)) && buffer.position == r.pos
      ensures buffer.data == old(buffer.data)
    {
      var term :- ReadU64();
      var candidateId :- ReadU64();
      var lastLogIndex :- ReadU64();
      var lastLogTerm :- ReadU64();
      return Read(VoteParams(term.0, candidateId.0, lastLogIndex.0, lastLogTerm.0), buffer.position);
    }

    method ReadVoteRets() returns (r: Parsed<VoteRets>)
      modifies buffer
      ensures r == GetVoteRets(buffer.data, old(buffer.position)) && buffer.position == r.pos
      ensures buffer.data == old(buffer.data)
    {
      var term :- ReadU64();
      var granted :- ReadBool();
      return Read(VoteRets(term.0, granted.0), buffer.position);
    }

    method ReadEntry() returns (r: Parsed<Entry>)
      modifies buffer
      ensures r == GetEntry(buffer.data, old(buffer.position)) && buffer.position == r.pos
      ensures buffer.data == old(buffer.data)
    {
      var index :- ReadU64();
      var term :- ReadU64();
      var op :- ReadText();
      var fName :- ReadText();
      var fIp :- ReadText();
      var fPort :- ReadU16();
      return Read(Entry(index.0, term.0, op.0, fName.0, fIp.0, fPort.0), buffer.position);
    }

    method ReadAppendParams() returns (r: Parsed<AppendParams>)
      modifies buffer
      ensures r == GetAppendParams(buffer.data, old(buffer.position)) && buffer.position == r.pos
      ensures buffer.data == old(buffer.data)
    {
      var term :- ReadU64();
      var leaderId :- ReadU64();
      var prevLogIndex :- ReadU64();
      var prevLogTerm :- ReadU64();
      var entry :- ReadEntry();
      var leaderCommit :- ReadU64();
      return Read(AppendParams(term.0, leaderId.0, prevLogIndex.0, prevLogTerm.0, entry.0, leaderCommit.0),
                  buffer.position);
    }

    method ReadAppendRets() returns (r: Parsed<AppendRets>)
      modifies buffer
      ensures r == GetAppendRets(buffer.data, old(buffer.position)) && buffer.position == r.pos
      ensures buffer.data == old(buffer.data)
    {
      var success :- ReadBool();
      var term :- ReadU64();
      return Read(AppendRets(success.0, term.0), buffer.position);
    }

    method ReadRecord() returns (r: Parsed<Record>)
      modifies buffer
      ensures r == GetRecord(buffer.data, old(buffer.position)) && buffer.position == r.pos
      ensures buffer.data == old(buffer.data)
    {
      var name :- ReadText();
      var ip :- ReadText();
      var port :- ReadU16();
      return Read(Record(name.0, ip.0, port.0), buffer.position);
    }

    /** while(!isReadEnd()): the loop every registry handler runs over its payload. */
    method ReadRecords() returns (r: Parsed<seq<Record>>)
      modifies buffer
      ensures r == GetRecords(buffer.data, old(buffer.position)) && buffer.position == r.pos
      ensures buffer.data == old(buffer.data)
    {
      var rs: seq<Record> := [];
      ghost var whole := GetRecords(buffer.data, buffer.position);
      assert whole.Read? ==> rs + whole.value == whole.value;
      while !buffer.IsReadEnd()
        invariant buffer.data == old(buffer.data)
        invariant whole == Prepend(rs, GetRecords(buffer.data, buffer.position))
        decreases |buffer.data| - buffer.position
      {
        RecordsLoopStep(buffer.data, buffer.position, rs);
        var next :- ReadRecord();
        rs := rs + [next.0];
      }
      assert rs + [] == rs;
      return Read(rs, buffer.position);
    }
  }
}
