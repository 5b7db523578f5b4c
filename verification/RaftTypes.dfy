/** Records exchanged by the Raft nodes of the service registry (source/raft/raft_config.h). */
module RaftTypes {

  type Byte = x: nat | x < 256

  /** A C++ `std::string`: a sequence of bytes. */
  type Text = seq<Byte>

  // uint64_t fields initialised with -1
  const NO_ID: nat := 0xFFFF_FFFF_FFFF_FFFF

  const OP_NOOP: Text := [110, 111, 45, 111, 112]
  const OP_NULL: Text := [110, 117, 108, 108]
  const OP_REGISTER: Text := [114, 101, 103, 105, 115, 116, 101, 114]
  const OP_HEARTBEAT: Text := [104, 101, 97, 114, 116, 98, 101, 97, 116]

  datatype Entry = Entry(index: nat, term: nat, op: Text, fName: Text, fIp: Text, fPort: nat)

  // the default-constructed entry at position 0 of every log
  const SENTINEL := Entry(0, 0, [], [], [], 0)

  // what getEntry answers for a position outside the log
  const NULL_ENTRY := SENTINEL.(op := OP_NULL)

  datatype VoteParams = VoteParams(term: nat, candidateId: nat, lastLogIndex: nat, lastLogTerm: nat)

  datatype VoteRets = VoteRets(term: nat, voteGranted: bool)

  datatype AppendParams = AppendParams(term: nat, leaderId: nat, prevLogIndex: nat, prevLogTerm: nat,
                                       entry: Entry, leaderCommit: nat)

  datatype AppendRets = AppendRets(success: bool, term: nat)

  /** What a service registers: function name, address and port. */
  datatype Record = Record(name: Text, ip: Text, port: nat)
}
