/**
 The record formats of source/util/serializer.h as printers and parsers over byte sequences: strings
 with a 64-bit length, the Raft records field by field, and the payload of registry messages as
 (name, ip, port) records read until the end of the buffer.
 */
module Codec {
  import opened RaftTypes
  import opened Wire

  /** A parse: the value and the position after it, or the position where a read ran out of range. */
  datatype Parsed<+T> = Read(value: T, pos: nat) | OutOfRange(pos: nat) {
    predicate IsFailure() { OutOfRange? }

    function PropagateFailure<U>(): Parsed<U>
      requires OutOfRange?
    {
      OutOfRange(pos)
    }

    function Extract(): (T, nat)
      requires Read?
    {
      (value, pos)
    }
  }

  // ---- printers --------------------------------------------------------------------------

  function PutBool(b: bool): seq<Byte> { [if b then 1 else 0] }

  function PutU16(v: nat): seq<Byte> { BigEndian(v, 2) }

  function PutU64(v: nat): seq<Byte> { BigEndian(v, 8) }

  function PutText(t: Text): seq<Byte> { PutU64(|t|) + t }

  function PutVoteParams(p: VoteParams): seq<Byte> {
    PutU64(p.term) + (PutU64(p.candidateId) + (PutU64(p.lastLogIndex) + PutU64(p.lastLogTerm)))
  }

  function PutVoteRets(r: VoteRets): seq<Byte> {
    PutU64(r.term) + PutBool(r.voteGranted)
  }

  function PutEntry(e: Entry): seq<Byte> {
    PutU64(e.index) + (PutU64(e.term) + (PutText(e.op) + (PutText(e.fName) + (PutText(e.fIp) + PutU16(e.fPort)))))
  }

  function PutAppendParams(p: AppendParams): seq<Byte> {
    PutU64(p.term) + (PutU64(p.leaderId) + (PutU64(p.prevLogIndex) + (PutU64(p.prevLogTerm)
      + (PutEntry(p.entry) + PutU64(p.leaderCommit)))))
  }

  function PutAppendRets(r: AppendRets): seq<Byte> {
    PutBool(r.success) + PutU64(r.term)
  }

  function PutRecord(r: Record): seq<Byte> {
    PutText(r.name) + (PutText(r.ip) + PutU16(r.port))
  }

  function PutRecords(rs: seq<Record>): seq<Byte> {
    if rs == [] then [] else PutRecord(rs[0]) + PutRecords(rs[1..])
  }

  // ---- the values the C++ fields can hold ------------------------------------------------

  predicate Is64(v: nat) { v < Bound(8) }

  predicate Is16(v: nat) { v < Bound(2) }

  predicate VoteParamsFit(p: VoteParams) {
    Is64(p.term) && Is64(p.candidateId) && Is64(p.lastLogIndex) && Is64(p.lastLogTerm)
  }

  predicate EntryFits(e: Entry) {
    Is64(e.index) && Is64(e.term) && Is64(|e.op|) && Is64(|e.fName|) && Is64(|e.fIp|) && Is16(e.fPort)
  }

  predicate AppendParamsFit(p: AppendParams) {
    && Is64(p.term) && Is64(p.leaderId) && Is64(p.prevLogIndex) && Is64(p.prevLogTerm)
    && EntryFits(p.entry) && Is64(p.leaderCommit)
  }

  predicate RecordFits(r: Record) {
    Is64(|r.name|) && Is64(|r.ip|) && Is16(r.port)
  }

  // ---- parsers ---------------------------------------------------------------------------

  /** Buffer::read: out of range if fewer than n bytes are left, and then the position stays. */
  function GetBytes(data: seq<Byte>, pos: nat, n: nat): (r: Parsed<seq<Byte>>)
    ensures r.Read? ==> r.pos == pos + n <= |data| && |r.value| == n
  {
    if pos + n > |data| then OutOfRange(pos) else Read(data[pos..pos + n], pos + n)
  }

  function GetUint(data: seq<Byte>, pos: nat, n: nat): (r: Parsed<nat>)
    ensures r.Read? ==> r.pos == pos + n <= |data|
  {
    var (b, next) :- GetBytes(data, pos, n);
    Read(FromBigEndian(b), next)
  }

  function GetU64(data: seq<Byte>, pos: nat): (r: Parsed<nat>)
    ensures r.Read? ==> r.pos == pos + 8 <= |data|
  {
    GetUint(data, pos, 8)
  }

  function GetU16(data: seq<Byte>, pos: nat): (r: Parsed<nat>)
    ensures r.Read? ==> r.pos == pos + 2 <= |data|
  {
    GetUint(data, pos, 2)
  }

  function GetBool(data: seq<Byte>, pos: nat): Parsed<bool> {
    var (b, next) :- GetBytes(data, pos, 1);
    Read(b[0] != 0, next)
  }

  function GetText(data: seq<Byte>, pos: nat): (r: Parsed<Text>)
    ensures r.Read? ==> pos + 8 <= r.pos <= |data|
  {
    var (size, next) :- GetU64(data, pos);
    GetBytes(data, next, size)
  }

  function GetVoteParams(data: seq<Byte>, pos: nat): Parsed<VoteParams> {
    var (term, p1) :- GetU64(data, pos);
    var (candidateId, p2) :- GetU64(data, p1);
    var (lastLogIndex, p3) :- GetU64(data, p2);
    var (lastLogTerm, p4) :- GetU64(data, p3);
    Read(VoteParams(term, candidateId, lastLogIndex, lastLogTerm), p4)
  }

  function GetVoteRets(data: seq<Byte>, pos: nat): Parsed<VoteRets> {
    var (term, p1) :- GetU64(data, pos);
    var (voteGranted, p2) :- GetBool(data, p1);
    Read(VoteRets(term, voteGranted), p2)
  }

  function GetEntry(data: seq<Byte>, pos: nat): Parsed<Entry> {
    var (index, p1) :- GetU64(data, pos);
    var (term, p2) :- GetU64(data, p1);
    var (op, p3) :- GetText(data, p2);
    var (fName, p4) :- GetText(data, p3);
    var (fIp, p5) :- GetText(data, p4);
    var (fPort, p6) :- GetU16(data, p5);
    Read(Entry(index, term, op, fName, fIp, fPort), p6)
  }

  function GetAppendParams(data: seq<Byte>, pos: nat): Parsed<AppendParams> {
    var (term, p1) :- GetU64(data, pos);
    var (leaderId, p2) :- GetU64(data, p1);
    var (prevLogIndex, p3) :- GetU64(data, p2);
    var (prevLogTerm, p4) :- GetU64(data, p3);
    var (entry, p5) :- GetEntry(data, p4);
    var (leaderCommit, p6) :- GetU64(data, p5);
    Read(AppendParams(term, leaderId, prevLogIndex, prevLogTerm, entry, leaderCommit), p6)
  }

  function GetAppendRets(data: seq<Byte>, pos: nat): Parsed<AppendRets> {
    var (success, p1) :- GetBool(data, pos);
    var (term, p2) :- GetU64(data, p1);
    Read(AppendRets(success, term), p2)
  }

  function GetRecord(data: seq<Byte>, pos: nat): (r: Parsed<Record>)
    ensures r.Read? ==> pos + 18 <= r.pos <= |data|
  {
    var (name, p1) :- GetText(data, pos);
    var (ip, p2) :- GetText(data, p1);
    var (port, p3) :- GetU16(data, p2);
    Read(Record(name, ip, port), p3)
  }

  /** while(!isReadEnd()) read a record: each one takes at least 18 bytes, so the loop ends. */
  function GetRecords(data: seq<Byte>, pos: nat): Parsed<seq<Record>>
    decreases |data| - pos
  {
    if pos >= |data| then Read([], pos)
    else
      var (r, next) :- GetRecord(data, pos);
      var (rs, end) :- GetRecords(data, next);
      Read([r] + rs, end)
  }

  /** Six pieces appended one by one. */
  lemma Regroup(d: seq<Byte>, a: seq<Byte>, b: seq<Byte>, c: seq<Byte>, e: seq<Byte>, f: seq<Byte>, g: seq<Byte>)
    ensures d + a + b + c + e + f + g == d + (a + (b + (c + (e + (f + g)))))
  {
  }

  lemma PutRecordsStep(data: seq<Byte>, rs: seq<Record>, k: nat)
    requires k < |rs|
    ensures data + PutRecords(rs[k..]) == data + PutRecord(rs[k]) + PutRecords(rs[k + 1..])
  {
    assert rs[k..][0] == rs[k] && rs[k..][1..] == rs[k + 1..];
  }

  /** What a loop that already holds `rs` returns when the rest reads as `rest`. */
  function Prepend(rs: seq<Record>, rest: Parsed<seq<Record>>): Parsed<seq<Record>> {
    if rest.Read? then Read(rs + rest.value, rest.pos) else rest
  }

  lemma RecordsLoopStep(data: seq<Byte>, pos: nat, rs: seq<Record>)
    requires pos < |data|
    ensures match GetRecord(data, pos)
      case OutOfRange(p) => Prepend(rs, GetRecords(data, pos)) == OutOfRange(p)
      case Read(r, next) => Prepend(rs, GetRecords(data, pos)) == Prepend(rs + [r], GetRecords(data, next))
  {
    var record := GetRecord(data, pos);
    if record.Read? {
      var rest := GetRecords(data, record.pos);
      assert rest.Read? ==> rs + ([record.value] + rest.value) == rs + [record.value] + rest.value;
    }
  }

  /** An integer is read if its bytes are there, and is the number they spell. */
  lemma UintRead(data: seq<Byte>, pos: nat, n: nat)
    ensures GetUint(data, pos, n) ==
      if pos + n <= |data| then Read(FromBigEndian(data[pos..pos + n]), pos + n) else OutOfRange(pos)
  {
  }

  // ---- round trips -----------------------------------------------------------------------

  /** The bytes `b` stand in `data` from position `pos` on. */
  predicate Stands(data: seq<Byte>, pos: nat, b: seq<Byte>) {
    pos + |b| <= |data| && data[pos..pos + |b|] == b
  }

  lemma StandsSplit(data: seq<Byte>, pos: nat, a: seq<Byte>, b: seq<Byte>)
    requires Stands(data, pos, a + b)
    ensures Stands(data, pos, a) && Stands(data, pos + |a|, b)
  {
    var whole := data[pos..pos + |a + b|];
    assert whole[..|a|] == a && whole[|a|..] == b;
    assert data[pos..pos + |a|] == whole[..|a|];
    assert data[pos + |a|..pos + |a| + |b|] == whole[|a|..];
  }

  lemma UintStands(data: seq<Byte>, pos: nat, v: nat, n: nat)
    requires v < Bound(n) && Stands(data, pos, BigEndian(v, n))
    ensures GetUint(data, pos, n) == Read(v, pos + n)
  {
    BigEndianRoundTrip(v, n);
  }

  lemma TextStands(data: seq<Byte>, pos: nat, t: Text)
    requires Is64(|t|) && Stands(data, pos, PutText(t))
    ensures GetText(data, pos) == Read(t, pos + |PutText(t)|)
  {
    StandsSplit(data, pos, PutU64(|t|), t);
    UintStands(data, pos, |t|, 8);
  }

  lemma VoteParamsStand(data: seq<Byte>, pos: nat, p: VoteParams)
    requires VoteParamsFit(p) && Stands(data, pos, PutVoteParams(p))
    ensures GetVoteParams(data, pos) == Read(p, pos + |PutVoteParams(p)|)
  {
    var c := PutU64(p.lastLogIndex) + PutU64(p.lastLogTerm);
    var b := PutU64(p.candidateId) + c;
    StandsSplit(data, pos, PutU64(p.term), b);
    UintStands(data, pos, p.term, 8);
    StandsSplit(data, pos + 8, PutU64(p.candidateId), c);
    UintStands(data, pos + 8, p.candidateId, 8);
    StandsSplit(data, pos + 16, PutU64(p.lastLogIndex), PutU64(p.lastLogTerm));
    UintStands(data, pos + 16, p.lastLogIndex, 8);
    UintStands(data, pos + 24, p.lastLogTerm, 8);
  }

  lemma VoteRetsStand(data: seq<Byte>, pos: nat, r: VoteRets)
    requires Is64(r.term) && Stands(data, pos, PutVoteRets(r))
    ensures GetVoteRets(data, pos) == Read(r, pos + |PutVoteRets(r)|)
  {
    StandsSplit(data, pos, PutU64(r.term), PutBool(r.voteGranted));
    UintStands(data, pos, r.term, 8);
  }

  /** The payload of an entry after its index and term. */
  lemma EntryTailStands(data: seq<Byte>, p2: nat, e: Entry)
    requires EntryFits(e)
    requires Stands(data, p2, PutText(e.op) + (PutText(e.fName) + (PutText(e.fIp) + PutU16(e.fPort))))
    ensures var p3 := p2 + |PutText(e.op)|;
      var p4 := p3 + |PutText(e.fName)|;
      var p5 := p4 + |PutText(e.fIp)|;
      && GetText(data, p2) == Read(e.op, p3) && GetText(data, p3) == Read(e.fName, p4)
      && GetText(data, p4) == Read(e.fIp, p5) && GetU16(data, p5) == Read(e.fPort, p5 + 2)
  {
    var c := PutText(e.fIp) + PutU16(e.fPort);
    StandsSplit(data, p2, PutText(e.op), PutText(e.fName) + c);
    TextStands(data, p2, e.op);
    var p3 := p2 + |PutText(e.op)|;
    StandsSplit(data, p3, PutText(e.fName), c);
    TextStands(data, p3, e.fName);
    var p4 := p3 + |PutText(e.fName)|;
    StandsSplit(data, p4, PutText(e.fIp), PutU16(e.fPort));
    TextStands(data, p4, e.fIp);
    UintStands(data, p4 + |PutText(e.fIp)|, e.fPort, 2);
  }

  lemma EntryHeadStands(data: seq<Byte>, pos: nat, e: Entry, tail: seq<Byte>)
    requires Is64(e.index) && Is64(e.term) && Stands(data, pos, PutU64(e.index) + (PutU64(e.term) + tail))
    ensures GetU64(data, pos) == Read(e.index, pos + 8) && GetU64(data, pos + 8) == Read(e.term, pos + 16)
    ensures Stands(data, pos + 16, tail)
  {
    StandsSplit(data, pos, PutU64(e.index), PutU64(e.term) + tail);
    UintStands(data, pos, e.index, 8);
    StandsSplit(data, pos + 8, PutU64(e.term), tail);
    UintStands(data, pos + 8, e.term, 8);
  }

  lemma EntryStands(data: seq<Byte>, pos: nat, e: Entry)
    requires EntryFits(e) && Stands(data, pos, PutEntry(e))
    ensures GetEntry(data, pos) == Read(e, pos + |PutEntry(e)|)
  {
    var p3 := pos + 16 + |PutText(e.op)|;
    var p4 := p3 + |PutText(e.fName)|;
    EntryHeadStands(data, pos, e, PutText(e.op) + (PutText(e.fName) + (PutText(e.fIp) + PutU16(e.fPort))));
    EntryTailStands(data, pos + 16, e);
    EntryAssembles(data, pos, e, p3, p4, p4 + |PutText(e.fIp)|);
    EntrySize(e);
  }

  lemma EntrySize(e: Entry)
    requires EntryFits(e)
    ensures |PutEntry(e)| == 18 + |PutText(e.op)| + |PutText(e.fName)| + |PutText(e.fIp)|
  {
  }

  lemma EntryAssembles(data: seq<Byte>, pos: nat, e: Entry, p3: nat, p4: nat, p5: nat)
    requires GetU64(data, pos) == Read(e.index, pos + 8) && GetU64(data, pos + 8) == Read(e.term, pos + 16)
    requires GetText(data, pos + 16) == Read(e.op, p3) && GetText(data, p3) == Read(e.fName, p4)
    requires GetText(data, p4) == Read(e.fIp, p5) && GetU16(data, p5) == Read(e.fPort, p5 + 2)
    ensures GetEntry(data, pos) == Read(e, p5 + 2)
  {
  }

  lemma AppendParamsStand(data: seq<Byte>, pos: nat, p: AppendParams)
    requires AppendParamsFit(p) && Stands(data, pos, PutAppendParams(p))
    ensures GetAppendParams(data, pos) == Read(p, pos + |PutAppendParams(p)|)
  {
    var b4 := PutEntry(p.entry) + PutU64(p.leaderCommit);
    var b3 := PutU64(p.prevLogTerm) + b4;
    var b2 := PutU64(p.prevLogIndex) + b3;
    var b1 := PutU64(p.leaderId) + b2;
    StandsSplit(data, pos, PutU64(p.term), b1);
    UintStands(data, pos, p.term, 8);
    StandsSplit(data, pos + 8, PutU64(p.leaderId), b2);
    UintStands(data, pos + 8, p.leaderId, 8);
    StandsSplit(data, pos + 16, PutU64(p.prevLogIndex), b3);
    UintStands(data, pos + 16, p.prevLogIndex, 8);
    StandsSplit(data, pos + 24, PutU64(p.prevLogTerm), b4);
    UintStands(data, pos + 24, p.prevLogTerm, 8);
    StandsSplit(data, pos + 32, PutEntry(p.entry), PutU64(p.leaderCommit));
    EntryStands(data, pos + 32, p.entry);
    UintStands(data, pos + 32 + |PutEntry(p.entry)|, p.leaderCommit, 8);
  }

  lemma AppendRetsStand(data: seq<Byte>, pos: nat, r: AppendRets)
    requires Is64(r.term) && Stands(data, pos, PutAppendRets(r))
    ensures GetAppendRets(data, pos) == Read(r, pos + |PutAppendRets(r)|)
  {
    StandsSplit(data, pos, PutBool(r.success), PutU64(r.term));
    UintStands(data, pos + 1, r.term, 8);
  }

  lemma RecordStands(data: seq<Byte>, pos: nat, r: Record)
    requires RecordFits(r) && Stands(data, pos, PutRecord(r))
    ensures GetRecord(data, pos) == Read(r, pos + |PutRecord(r)|)
  {
    StandsSplit(data, pos, PutText(r.name), PutText(r.ip) + PutU16(r.port));
    TextStands(data, pos, r.name);
    var p1 := pos + |PutText(r.name)|;
    StandsSplit(data, p1, PutText(r.ip), PutU16(r.port));
    TextStands(data, p1, r.ip);
    UintStands(data, p1 + |PutText(r.ip)|, r.port, 2);
  }

  /** Records read until the end of the buffer are the records written, in order. */
  lemma {:induction false} RecordsRoundTrip(data: seq<Byte>, pos: nat, rs: seq<Record>)
    requires (forall r :: r in rs ==> RecordFits(r)) && pos <= |data| && data[pos..] == PutRecords(rs)
    ensures GetRecords(data, pos) == Read(rs, |data|)
    decreases |rs|
  {
    if rs != [] {
      var next, rest := pos + |PutRecord(rs[0])|, rs[1..];
      assert rs[0] in rs;
      FirstRecordStands(data, pos, rs);
      RecordsRoundTrip(data, next, rest);
      FirstThenRest(data, pos, rs[0], next, rest);
      assert rs == [rs[0]] + rest;
    } else {
      assert pos == |data|;
    }
  }

  lemma FirstThenRest(data: seq<Byte>, pos: nat, r: Record, next: nat, rest: seq<Record>)
    requires pos < |data| && GetRecord(data, pos) == Read(r, next) && GetRecords(data, next) == Read(rest, |data|)
    ensures GetRecords(data, pos) == Read([r] + rest, |data|)
  {
  }

  lemma FirstRecordStands(data: seq<Byte>, pos: nat, rs: seq<Record>)
    requires rs != [] && RecordFits(rs[0]) && pos <= |data| && data[pos..] == PutRecords(rs)
    ensures var next := pos + |PutRecord(rs[0])|;
      pos < next <= |data| && GetRecord(data, pos) == Read(rs[0], next) && data[next..] == PutRecords(rs[1..])
  {
    var head, tail := PutRecord(rs[0]), PutRecords(rs[1..]);
    assert data[pos..pos + |head + tail|] == head + tail;
    StandsSplit(data, pos, head, tail);
    RecordStands(data, pos, rs[0]);
  }

  /** A request's bytes determine it and where it ends, whatever follows: no code is a prefix of another. */
  lemma AppendParamsPrefixFree(p: AppendParams, p': AppendParams, rest: seq<Byte>, rest': seq<Byte>)
    requires AppendParamsFit(p) && AppendParamsFit(p')
    requires PutAppendParams(p) + rest == PutAppendParams(p') + rest'
    ensures p == p' && rest == rest'
  {
    var data := PutAppendParams(p) + rest;
    AppendParamsStand(data, 0, p);
    AppendParamsStand(data, 0, p');
    assert rest == data[|PutAppendParams(p)|..] && rest' == data[|PutAppendParams(p')|..];
  }

  /** Every Raft record, written after any bytes and before any others, reads back and stops at the others. */
  lemma RaftRecordsRoundTrip(before: seq<Byte>, after: seq<Byte>, vp: VoteParams, vr: VoteRets, ap: AppendParams,
                             ar: AppendRets)
    requires VoteParamsFit(vp) && Is64(vr.term) && AppendParamsFit(ap) && Is64(ar.term)
    ensures GetVoteParams(before + PutVoteParams(vp) + after, |before|) == Read(vp, |before + PutVoteParams(vp)|)
    ensures GetVoteRets(before + PutVoteRets(vr) + after, |before|) == Read(vr, |before + PutVoteRets(vr)|)
    ensures GetAppendParams(before + PutAppendParams(ap) + after, |before|) == Read(ap, |before + PutAppendParams(ap)|)
    ensures GetAppendRets(before + PutAppendRets(ar) + after, |before|) == Read(ar, |before + PutAppendRets(ar)|)
  {
    Between(before, PutVoteParams(vp), after);
    VoteParamsStand(before + PutVoteParams(vp) + after, |before|, vp);
    Between(before, PutVoteRets(vr), after);
    VoteRetsStand(before + PutVoteRets(vr) + after, |before|, vr);
    Between(before, PutAppendParams(ap), after);
    AppendParamsStand(before + PutAppendParams(ap) + after, |before|, ap);
    Between(before, PutAppendRets(ar), after);
    AppendRetsStand(before + PutAppendRets(ar) + after, |before|, ar);
  }

  lemma Between(before: seq<Byte>, b: seq<Byte>, after: seq<Byte>)
    ensures Stands(before + b + after, |before|, b)
  {
  }
}
