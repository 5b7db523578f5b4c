# Verified model of a coroutine RPC framework with a Raft service registry

This project models the parts of the repository whose correctness is hardest to see, and proves
properties of them:

- **The Raft registry** (`source/raft`). `RaftStep.dfy` gives every lock region of a node as a function
  on values; `RaftNode.dfy` holds the classes `RaftLogger` and `RaftNode`, whose methods are proved to
  compute those functions. `Cluster.dfy` composes n nodes, pending elections, vote tasks, replicators
  and messages that may be lost, repeated and reordered into a state machine. `ElectionSafety.dfy`,
  `LogMatching.dfy`, `Leadership.dfy`, `Replication.dfy`, `Progress.dfy`, `Choice.dfy` and
  `LeaderCompleteness.dfy` prove one inductive invariant on top of the other for every event.
  `RaftTheorems.dfy` states on runs what holds on any network, `FifoTheorems.dfy` what holds under FIFO
  (below), `TwoNodes.dfy` what a cluster of two has without it.
  `ExactConditions.dfy` proves for each claim the exact assumptions it needs: `Claims.dfy` names the
  claims; the runs that break them are built in `Scenarios.dfy`, `DisorderedRun.dfy`, `StaleRuns.dfy`
  and `DoubleCounts.dfy`; `OrderlyRun.dfy` builds one that meets every assumption, so that the theorems
  are about something. `EvenClusters.dfy` does the same for the cluster size, `LateWrites.dfy` for the
  gap between the leader test and the append of a client write.
- **The coroutine runtime** (`source/coroutine`): scheduler, coroutine mutex, condition variable and
  bounded channel as a cooperative machine with one worker (`Coroutines.dfy`,
  `CoroutineInvariants.dfy`, `Channel.dfy`, `ChannelInvariants.dfy`, `ChannelTheorems.dfy`), and the
  classes proved against it (`CoroutineSync.dfy`).
- **Serializer and message framing**: byte order (`Wire.dfy`), the codec of the Raft records and
  registry payloads (`Codec.dfy`), the classes `Buffer` and `Serializer` (`Serialization.dfy`), the
  receive loop that cuts a byte stream back into messages (`Framing.dfy`), and where every field
  stands on the wire (`Layout.dfy`).
- **The timer** (`TimerSet.dfy`, `TimerRuns.dfy`, `Timer.dfy`): an ordered set of events whose due times
  change, the machine all its calls make, and the classes proved to be that machine.

The methods of the classes say what they do twice: as the function of the machine that the theorems are
about, and over the objects' own fields, without those functions.

`dafny verify dfyconfig.toml` checks everything.

## How the Raft code is modelled, and under which assumptions

- **Cluster size.** The code's threshold is `(n + 1) / 2`. `EvenClusters.SafeExactlyWhen` proves that
  election safety holds in all runs if and only if n is odd or 2; the other Raft theorems assume such
  a size (`SafeSize`). The shipped cluster has three nodes.
- **No network assumption.** Election safety, log matching, log shape, leader append-only, the leader
  guard and the dominance of an elected leader hold whatever is lost, repeated or reordered; they also
  cover any event between the two lock regions of an election and any number of overlapping elections.
- **FIFO** is two assumptions, and the statements say which of them they use:
  - *in order* (`Replication.DeliversInOrder`), about the network: of the log entries one leadership
    sends to one follower, none is handled after a later one was, though any may be lost or repeated
    before that;
  - *current replicators* (`Leadership.FreshReplicator`), about the code: a replicator left over from an
    earlier leadership of a node does not act in a later one. The code does not ensure this. It tests
    only that the node is a leader (`source/raft/raft_node.cpp:242`, `source/raft/raft_node.cpp:301`),
    and a replicator whose reply is from an old term carries on (`source/raft/raft_node.cpp:320-323`).
    A test that the term is still the one the replicator was started in would.
- **Exact conditions.** Both assumptions restrict runs, each may be made or not, and `ExactConditions`
  proves for every size which of the four combinations suffice. Own-term counting needs current
  replicators only. Leader completeness and the agreement of counted prefixes need both, except that
  two nodes need no order. matchIndex and the absence of late rejections need both. A single node
  needs neither for anything. Whatever is not enough is refuted by a run for every size it concerns.
- The comments at `source/raft/raft_node.cpp:335-346` speak of committing only entries of the current
  term; no line tests that. The model has no such test either. `RaftTheorems.OwnTermCommit` proves
  that with current replicators none is needed, `StaleRuns.StaleCountsForeign` that without them an
  entry of an older term is counted.
- **Crashes.** A node may stop for ever (its events just do not happen). It does not restart: nothing is
  persisted, so a restarted node would have forgotten its vote.
- **Log mismatch.** The backward scan at `source/raft/raft_logger.h:111` can run past the front of the
  vector, and the failure returns at `source/raft/raft_logger.h:120` and
  `source/raft/raft_node.cpp:446-449` leave their mutex locked. The model has what is meant: the call
  answers false and leaves the log alone.
- **Client writes.** In `Cluster` a write is appended in the same step as the leader check at
  `source/raft/raft_node.cpp:554`. The code makes that check without a lock and appends later
  (`source/raft/raft_node.cpp:650-671`), whatever the node has become. `LateWrites` has the two steps as
  two events: `LateWrites.MatchingExactlyWhen` proves that log matching then holds in all runs if and
  only if the check is made again before the append (or the node is alone), and with it every such run
  is a run of `Cluster`, so that all other theorems apply.
- **Remote sessions** of all other nodes exist before the first election.
- `m_leaderId < 0` at `source/raft/raft_node.cpp:431` is never true of an unsigned field; the model has
  no such step. The comment there promises more than the code does.

In the timer, events carry an identity `id`, which stands for the object's address; `Timer.Valid` keeps
the identities apart.

## Model

The rows come in this order: the theorems about Raft runs; those about the coroutine runtime; those
about encoding, framing and timers; the invariant steps and lemmas they rest on; the operations; and
last the constructors, accessors and single-value readers and writers. A row that begins with FIFO
assumes both halves of it.

| member | source | states |
|---|---|---|
| RaftTheorems.ElectionSafetyHolds | source/raft/raft_node.cpp:116-219 | in every run, two leaders of one term, at whatever two moments, are the same node |
| EvenClusters.SafeExactlyWhen | source/raft/raft_node.cpp:180 | election safety (no two leaders of one term, at any two moments) holds in all runs if and only if the size is odd or 2 |
| EvenClusters.TwoLeaders | source/raft/raft_node.cpp:180 | for every even size from 4 on, a run that elects two leaders in one term |
| RaftTheorems.LogMatchingHolds | source/raft/raft_logger.h:107-137 | entries of equal term at one position, in any two logs at any two moments of a run, have equal logs below them |
| LateWrites.MatchingExactlyWhen | source/raft/raft_node.cpp:554-671 | with the leader test and the append of a write as two steps, log matching holds in all runs if and only if the test is repeated before the append, or the node is alone |
| LateWrites.LateWriteBreaksMatching | source/raft/raft_node.cpp:655-671 | a run for every safe size from 2 on, ending in a late write of a node that leads no more, whose logs do not match |
| LateWrites.TestedIsRun | source/raft/raft_node.cpp:554-671 | with the test repeated, every such run is a run of the cluster, state by state |
| ExactConditions.CompleteExactlyWhen | source/raft/raft_node.cpp:325-353 | leader completeness holds in all runs if and only if replicators are current and requests in order; two nodes need no order, one node needs neither |
| ExactConditions.AgreementExactlyWhen | source/raft/raft_node.cpp:345-348 | the prefixes any two leaders count agree in all runs under exactly the same condition |
| ExactConditions.OwnTermExactlyWhen | source/raft/raft_node.cpp:335-353 | own-term counting holds in all runs if and only if replicators are current or the node is alone; request order plays no part |
| ExactConditions.MatchExactlyWhen | source/raft/raft_node.cpp:331-334 | matchIndex can be trusted in all runs if and only if replicators are current and requests in order, or there is no follower |
| ExactConditions.SteadyExactlyWhen | source/raft/raft_node.cpp:325-330 | no follower rejects a leadership it has accepted from, in all runs, under exactly that condition |
| FifoTheorems.LeaderCompletenessHolds | source/raft/raft_node.cpp:325-353 | FIFO: every leader of the same or a later term holds a counted position and the whole log below it (CompleteExactlyWhen gives the exact condition) |
| FifoTheorems.CountedPrefixesAgree | source/raft/raft_node.cpp:345-348 | FIFO: the prefixes two leaders counted, whichever counted first and whichever term is later, agree (AgreementExactlyWhen gives the exact condition) |
| FifoTheorems.CommittedIsHeld | source/raft/raft_node.cpp:325-353 | FIFO: what a leader's commit index rises to, with the whole log below, is in the log of every leader of the same or a later term |
| FifoTheorems.CountedQuorum | source/raft/raft_node.cpp:335-348 | FIFO: when a position is counted, each member of a quorum other than the leader had earlier taken a request of that leader after which its log began with the leader's up to there |
| FifoTheorems.MatchIndexSound | source/raft/raft_node.cpp:331-334 | FIFO: a follower holds the leader's entries up to matchIndex, from then on for as long as it stays in that term (MatchExactlyWhen gives the exact condition) |
| FifoTheorems.NeverRejectsAfterAccepting | source/raft/raft_node.cpp:325-330 | FIFO: a follower that accepted an entry of a leadership rejects none of its later ones (SteadyExactlyWhen gives the exact condition) |
| FifoTheorems.AckOrigin | source/raft/raft_node.cpp:437-454 | FIFO: every recorded acknowledgement goes back to one delivery that gave the follower the leader's log up to it |
| OrderlyRun.CountsThenHandsOver | source/raft/raft_node.cpp:331-353 | a run under FIFO, for every safe size from 2 on, in which a leader counts an entry and a follower is elected next and holds it |
| RaftTheorems.OwnTermCommit | source/raft/raft_node.cpp:187-197 | on any network, as long as replicators are current: every position that counting hands to setCommitIndex holds an entry of the leader's own term, although no line tests that; the commit index becomes the larger of the two |
| RaftTheorems.LeaderCommitsCounted | source/raft/raft_node.cpp:335-353 | on any network, a leader's commit index changes only when a quorum is counted, and then rises to the position counted |
| RaftTheorems.LeaderCommitsOwnTerm | source/raft/raft_node.cpp:345-348 | with current replicators, what a leader's commit index rises to is an entry of its own term |
| RaftTheorems.ReplyCommits | source/raft/raft_node.cpp:332-353 | a reply raises the commit index of its replicator's node exactly when it completes a quorum for a position beyond it, to that position; no other node changes |
| TwoNodes.TwoNodeLeaders | source/raft/raft_node.cpp:180 | two nodes, any network, current replicators: each leader's log contains all that any leader of the same or an earlier term held before |
| DoubleCounts.StaleLosesEntry | source/raft/raft_node.cpp:237-259 | with requests in order, a run for every odd size from 3 on in which a leader counts an entry of its log and the next leader has another at that position |
| DoubleCounts.StaleMisleads | source/raft/raft_node.cpp:331-334 | with requests in order, a run for every safe size from 2 on in which leader completeness, the agreement of counted prefixes, matchIndex and the absence of late rejections all fail |
| StaleRuns.StaleCountsForeign | source/raft/raft_node.cpp:300-334 | with requests in order, a run for every safe size from 2 on in which the leader of term 3 counts an entry of term 1 |
| DisorderedRun.DisorderLosesEntry | source/raft/raft_logger.h:119-125 | with current replicators, a run for every odd size from 3 on in which the next leader lacks the entry counted at position 2 and counts its own no-op there |
| DisorderedRun.DisorderMisleads | source/raft/raft_logger.h:119-125 | with current replicators, a run for every safe size from 2 on in which a matchIndex overstates and a follower rejects after accepting |
| RaftTheorems.ElectedLeaderDominates | source/raft/raft_node.cpp:176-206 | a winner's log is at least as up to date as each of a quorum of voters' was at the moment that voter granted |
| RaftTheorems.BallotOrigin | source/raft/raft_node.cpp:392-400 | every recorded vote for another node goes back to one granting event, with the log the voter had then |
| RaftTheorems.LeaderAppendOnly | source/raft/raft_node.cpp:655-671 | a leader's log only grows during its term |
| RaftTheorems.LogShapeHolds | source/raft/raft_node.cpp:194-197 | entry i carries index i; terms never decrease along a log and never exceed the node's term |
| RaftTheorems.LeaderGuardHolds | source/raft/raft_node.cpp:554-564 | in every reachable state the redirect test lets a write through exactly at a leader, and exactly one of the two timers is on, the one for the node's role |
| RaftTheorems.CandidateLogFrozen | source/raft/raft_node.cpp:117-126 | a candidate's log is the same throughout its candidacy |
| ChannelTheorems.BoundedFifo | source/coroutine/coroutinechannal.h:45-53 | in every run the items of the pushes that returned true are those that pops which returned true found at the head, followed by the queue, which never exceeds the capacity |
| ChannelTheorems.StepProceeds | source/coroutine/coroutinechannal.h:37-113 | every push and pop, new or resumed: returns false if closed; adds its item or takes the head and returns true if there is room or an item; otherwise sleeps at the end of its queue without the mutex; nothing else touches the queue |
| ChannelTheorems.StepConserves | source/coroutine/coroutinechannal.h:45-87 | a call returns true exactly when the queue gained its item or lost its head |
| ChannelTheorems.NoStrandedWaiter | source/coroutine/coroutinechannal.h:37-87 | while a consumer sleeps, queued items are at most the woken consumers; while a producer sleeps, free slots are at most the woken producers |
| ChannelTheorems.IdleMeansJustified | source/coroutine/coroutinechannal.h:37-87 | with nobody left to run, consumers sleep only on an empty channel and producers only on a full one |
| ChannelTheorems.ClosedForGood | source/coroutine/coroutinechannal.h:102-113 | after close the queue never changes and nobody sleeps on the channel |
| ChannelTheorems.ClosedStep | source/coroutine/coroutinechannal.h:40-43 | after close every push and pop, new or resumed, returns false at once |
| ChannelTheorems.LockNeverBlocks | source/coroutine/coroutinechannal.h:38-38 | between events the channel's mutex is free, so no call ever blocks on it |
| CoroutineInvariants.Conservation | source/coroutine/coroutinesync.cpp:10-122 | in every run a live coroutine is in exactly one place, once, its state says which kind, and a terminated one is nowhere |
| CoroutineInvariants.MutualExclusion | source/coroutine/coroutinesync.cpp:10-62 | in every run at most one coroutine holds a mutex and the owner id names it |
| CoroutineInvariants.NoLostWaiter | source/coroutine/coroutinesync.cpp:39-62 | nobody queues for a free mutex unless a woken waiter is in the run queue about to retry, also when a newcomer takes the lock first |
| CoroutineInvariants.DispatchRunsFirst | source/coroutine/scheduler.cpp:117-131 | the first task runs; inside lock() it goes on only with the mutex, and otherwise joins its queue; nobody else changes |
| Framing.StreamRoundTrip | source/socket/socket.cpp:231-258 | any messages sent back to back are cut into exactly those headers and payloads, in order |
| Layout.CutShort | source/socket/socket.cpp:231-258 | a header cut short by the end of the stream is dropped, the messages before it are not |
| Framing.RpcSession.HandleReceive | source/rpc/rpc_session.h:69-79 | whatever chunks recv hands out, the loop returns exactly the messages that were sent |
| Codec.RaftRecordsRoundTrip | source/util/serializer.h:584-632 | all four Raft records, between any bytes before and after, read back and stop exactly at what follows |
| Codec.RecordsRoundTrip | source/raft/raft_node.cpp:607-614 | repeated (name, ip, port) records read until the end of the payload are the records written |
| Codec.AppendParamsPrefixFree | source/util/serializer.h:614-622 | no encoding of append parameters is the beginning of another |
| Layout.AppendParamsLayout | source/util/serializer.h:619-622 | where each field of append parameters stands, in bytes |
| Layout.EntryLayout | source/util/serializer.h:609-612 | where each field of a log entry stands, its three texts included |
| Layout.VoteParamsLayout | source/util/serializer.h:589-592 | where each field of vote parameters stands |
| Layout.VoteRetsLayout | source/util/serializer.h:599-602 | where each field of a vote reply stands |
| Layout.AppendRetsLayout | source/util/serializer.h:629-632 | where each field of an append reply stands |
| Layout.RecordLayout | source/raft/raft_node.cpp:607-614 | where name, address and port of a registry record stand |
| Framing.FrameLayout | source/rpc/rpc_protocol.h:54-59 | where each field of a message stands: four single bytes, sequence number, payload length, payload |
| Layout.BigEndianDigit | source/util/serializer.h:60-68 | byte i of an n-byte integer, most significant first |
| Layout.VoteParamsRead | source/util/serializer.h:584-587 | a read of vote parameters succeeds exactly if 32 bytes are left, and each field is the number its bytes spell |
| Layout.VoteRetsRead | source/util/serializer.h:594-597 | a read of a vote reply succeeds exactly if nine bytes are left, and each field is what its bytes spell |
| Layout.AppendRetsRead | source/util/serializer.h:624-627 | the same for an append reply |
| Layout.TextRead | source/util/serializer.h:311-317 | a text is read exactly if its length and that many bytes are left |
| Framing.HeaderRead | source/rpc/rpc_protocol.h:61-63 | a header is read exactly if 20 bytes are left, and each field is what its bytes spell |
| Framing.CutConserves | source/socket/socket.cpp:231-258 | by lengths alone: when a receive closes, throws or returns a message, how long that is, and that no byte is lost |
| Framing.CutFrame | source/socket/socket.cpp:231-258 | the first message of a stream is cut off exactly, whatever follows |
| TimerSet.ExpiryExact | source/coroutine/timer.cpp:110-142 | the callbacks are exactly those of active events due by now, in due order; later events stay, repeating ones come back |
| TimerSet.OnlyFutureExactlyWhen | source/coroutine/timer.cpp:134-140 | after an expiry only future events are pending if and only if no repeating event that was due has interval 0 |
| TimerSet.NoneLostExactlyWhen | source/coroutine/timer.cpp:132-140 | an expiry loses no event if and only if the repeating events that are due have pairwise different intervals and none of their next due times is that of a later event |
| TimerSet.ResetEvictsExactlyWhen | source/coroutine/timer.cpp:21-28 | a reset throws another event out of the set if and only if its own is not pending and a pending one has its due time |
| TimerSet.ResetExact | source/coroutine/timer.cpp:34-48 | a reset whose due time is pending moves the event, pending or not: every field of the moved event, what leaves the set (whatever stood at the old time) and what stays; the event stays out only if its new due time is taken; otherwise nothing changes |
| TimerSet.AddExact | source/coroutine/timer.cpp:76-84 | a new event becomes pending if and only if no pending event has its due time |
| TimerSet.FirstComerStays | source/coroutine/timer.cpp:135-140 | of several events put back for one due time, the first keeps its place |
| TimerRuns.AlwaysConsistent | source/coroutine/timer.cpp:7-142 | after any sequence of calls the set is in strict order of due time and holds each pending event once, as it is now |
| TimerRuns.LeavesExactlyWhen | source/coroutine/timer.cpp:18-142 | a call takes a pending event out of the set exactly when it resets the event to a taken time, resets another event of the same due time, or is an expiry at or after its due time from which it does not come back |
| TimerRuns.ExpiryRemoves | source/coroutine/timer.cpp:121-140 | a due event is pending again if and only if it repeats, no later event has its next due time, and none of the same interval was due before it |
| TimerRuns.RearmsByLastReset | source/coroutine/timer.cpp:34-48 | after a reset to interval d, and until the next one, whatever calls come between, every expiry that puts the event back and every plain reset make it due d later |
| TimerRuns.IntervalKept | source/coroutine/timer.cpp:34-48 | an event keeps its interval over any calls but a reset to another |
| ElectionSafety.VotesStep | source/raft/raft_node.cpp:38-54 | every event keeps: one ballot per node and term, ballots only for real requests, counters equal to distinct voters, leaders elected by quorums |
| ElectionSafety.NewTermIsFree | source/raft/raft_node.cpp:176-206 | whenever an election is won, nobody has won that term before |
| ElectionSafety.OneWinner | source/raft/raft_node.cpp:360-402 | two quorums of votes of one term elect the same node |
| ElectionSafety.WinnerHasQuorum | source/raft/raft_node.cpp:176-180 | when the shared counter reaches the threshold, that many distinct nodes have really voted for the candidate in its current term |
| ElectionSafety.QuorumsMeet | source/raft/raft_node.cpp:180 | any two sets that reach the threshold share a node, for odd sizes and 2 |
| LogMatching.LogsStep | source/raft/raft_logger.h:107-137 | every event keeps: each log is the beginning of what the leader of its last term had, requests in flight quote their leader's log |
| LogMatching.FollowerLog | source/raft/raft_node.cpp:404-455 | after appendEntries a follower's log is either unchanged or the sender's up to the new entry |
| LogMatching.SplicedIsLeaderPrefix | source/raft/raft_logger.h:119-125 | an accepted request makes the follower's log the beginning of the sender's, truncation included |
| Leadership.FreshStep | source/raft/raft_node.cpp:237-357 | current replicators, any network: every event keeps that a leadership's requests ask for positions it wrote itself, one at a time, at nextIndex |
| Replication.FifoStep | source/raft/raft_node.cpp:237-357 | FIFO: every event keeps the links between nextIndex, matchIndex, requests in flight, replies and what followers hold |
| Replication.NeverGoesBack | source/raft/raft_node.cpp:237-259 | FIFO: an entry reaching a follower is at or beyond what it had accepted in that term |
| Replication.AcceptedReply | source/raft/raft_node.cpp:331-334 | FIFO: an accepting reply is about exactly the position the leader's nextIndex points at |
| Replication.AcceptTakes | source/raft/raft_node.cpp:437-454 | FIFO: accepting an entry gives the follower the sender's log up to it and never lowers what it has acknowledged |
| Progress.StepAcks | source/raft/raft_node.cpp:404-455 | acknowledgements are never taken back |
| LeaderCompleteness.ChoiceStep | source/raft/raft_node.cpp:237-455 | FIFO: every event keeps: later leaders, acceptors and the ballots of acceptors hold every choosable position |
| LeaderCompleteness.FollowerHolds | source/raft/raft_logger.h:119-125 | FIFO: unconditional truncation drops nothing that could still be counted |
| Choice.DominatingHolds | source/raft/raft_logger.h:14-21 | a log at least as up to date as one that holds a choosable position holds it too |
| Choice.WinnerHolds | source/raft/raft_node.cpp:176-206 | FIFO: a winning candidate holds every choosable position of earlier terms |
| Choice.NotChoosable | source/raft/raft_node.cpp:335-348 | once a later term is won, a position none of its voters had accepted can never be counted |
| CoroutineInvariants.KeepsRtInv | source/coroutine/scheduler.cpp:106-143 | every event of the machine keeps the placement and mutex invariants |
| ChannelInvariants.KeepsChanInv | source/coroutine/coroutinechannal.h:37-113 | every event keeps the channel invariant, whatever other coroutines do with other mutexes and condition variables |
| ChannelInvariants.KeepsWake | source/coroutine/coroutinechannal.h:52-57 | accepting or handing out an item and waking the other side keeps the counts of woken coroutines sufficient |
| ChannelInvariants.KeepsResume | source/coroutine/coroutinesync.cpp:119-122 | a woken call takes the mutex again and continues with its loop test |
| ChannelInvariants.FreeMutex | source/coroutine/coroutinechannal.h:38-54 | a call that finds the mutex free leaves no trace on it, whether it returns or sleeps |
| Codec.AppendParamsStand | source/util/serializer.h:614-622 | append parameters with their nested entry read back |
| Codec.EntryStands | source/util/serializer.h:604-612 | a log entry, with three strings of any length, reads back |
| Codec.TextStands | source/util/serializer.h:311-324 | a length-prefixed string reads back and stops after its bytes |
| Codec.UintStands | source/util/serializer.h:118-122 | an integer written anywhere in a buffer reads back and stops after its bytes |
| Framing.FrameDecodes | source/rpc/rpc_protocol.h:54-63 | an encoded message decodes to the same header and length, with the position left at the payload |
| Wire.HtonllIsNetworkOrder | source/util/serializer.h:178-184 | the memory image of htonll(v) on a little-endian host is v in big-endian order |
| Wire.NtohllReads | source/util/serializer.h:186-192 | ntohll of the bytes read is the big-endian number they spell |
| Wire.HtonllInvolution | source/util/serializer.h:178-192 | the two conversions undo each other on all 64-bit values |
| Wire.SwapIsNetworkOrder | source/util/serializer.h:45-48 | htons likewise: the bytes written are in big-endian order |
| Wire.SwapReads | source/util/serializer.h:101-105 | ntohs of the bytes read is the big-endian number they spell |
| Wire.BigEndianRoundTrip | source/util/serializer.h:60-68 | n big-endian digits determine every n-byte number |
| TimerSet.Rank | source/coroutine/timer.h:73-77 | the comparator's lower bound: everything before is due earlier, nothing after |
| TimerSet.InsertKeepsOrder | source/coroutine/timer.cpp:81-81 | insertion keeps the strict order and adds exactly the new due time |
| RaftStep.FindLast | source/raft/raft_logger.h:110-117 | the scan finds the last entry carrying the index, or reports that there is none |
| RaftNode.RaftLogger.IsNewer | source/raft/raft_logger.h:14-21 | true exactly when the term is greater than that of the last entry, or equal with an index at least as great |
| RaftNode.RaftLogger.AppendAfter | source/raft/raft_logger.h:107-128 | succeeds exactly if the last entry with the previous index has the previous term; then the log ends with the new entry right behind it, otherwise it is unchanged |
| RaftNode.RaftLogger.Append | source/raft/raft_logger.h:130-137 | the entry is appended with the next index, whatever index it came with |
| RaftNode.RaftNode.ElectionTimeout | source/raft/raft_node.cpp:40-48 | first lock region of an election: a non-leader enters the next term as candidate and votes for itself |
| RaftNode.RaftNode.StartElection | source/raft/raft_node.cpp:117-127 | second lock region: the request describes the node as it is now, whatever happened in between |
| RaftNode.RaftNode.BecomeFollower | source/raft/raft_node.cpp:209-219 | stepping down adopts the term, forgets the vote, and swaps the timers only if the node led |
| RaftNode.RaftNode.RaftVote | source/raft/raft_node.cpp:360-402 | over the fields: grants exactly if the term is newer, or equal and the vote already this candidate's, and its log at least as up to date; what term, vote, role, leader and timers become in each case |
| RaftNode.RaftNode.TakeOffice | source/raft/raft_node.cpp:182-205 | the winner leads, with fresh indices for exactly the remote nodes; the no-op gets the next position |
| RaftNode.RaftNode.ResetIndices | source/raft/raft_node.cpp:187-193 | the loop sets nextIndex and matchIndex of every remote node, and of no other |
| RaftNode.RaftNode.HandleVoteReply | source/raft/raft_node.cpp:174-220 | over the fields: a reply counts only for a candidate still in its term; the counter reaching the threshold puts the node in office, a newer term makes it a follower, and otherwise nothing changes |
| RaftNode.RaftNode.BuildRequest | source/raft/raft_node.cpp:253-259 | the request carries term, id and commit index of the node, and index and term of the entry before nextIndex, with unsigned wrap-around at 0 |
| RaftNode.RaftNode.NextRequest | source/raft/raft_node.cpp:246-259 | a replicator sends the entry at nextIndex, or nothing past the end of the log |
| RaftNode.RaftNode.AppendEntries | source/raft/raft_node.cpp:404-455 | over the fields: an older term changes nothing; otherwise term, role, leader, vote, timers and the commit index (the smaller of the leader's and the last index), and the log on a heartbeat, a match and a mismatch |
| RaftNode.RaftNode.HandleAppendReply | source/raft/raft_node.cpp:300-356 | over the fields: when the replicator ends, what nextIndex, matchIndex, term and role become, and that the commit index becomes the old nextIndex exactly if that is greater and a threshold of nodes holds it, and otherwise stays |
| RaftNode.RaftNode.CountReplicas | source/raft/raft_node.cpp:336-354 | the counting loop, which stops early, raises the commit index to the position exactly when that many nodes (itself, and those whose matchIndex reached it) are at least the threshold |
| RaftNode.RaftNode.RegisterRecords | source/raft/raft_node.cpp:657-670 | behind the old log stands one entry per record, in order, each with its next index, the node's term and name, address and port in their own fields |
| CoroutineSync.Scheduler.WakeUp | source/coroutine/scheduler.cpp:86-93 | a woken coroutine becomes READY and goes to the end of the run queue |
| CoroutineSync.Scheduler.AddCallback | source/coroutine/scheduler.cpp:95-104 | a callback becomes a new READY coroutine at the end of the run queue |
| CoroutineSync.Scheduler.TakeTask | source/coroutine/scheduler.cpp:117-131 | the first task leaves the queue and runs; with none nothing changes |
| CoroutineSync.Scheduler.YieldReady | source/coroutine/scheduler.cpp:128-134 | the yielding coroutine is queued behind the callbacks that have expired, which are new READY coroutines with the next ids |
| CoroutineSync.Scheduler.Terminate | source/coroutine/coroutine.cpp:71-80 | a finished coroutine is TERMINATED and in no queue |
| CoroutineSync.CoroutineMutex.Try | source/coroutine/coroutinesync.cpp:16-36 | one round of the retry loop: own the lock, or queue up BLOCKED and yield |
| CoroutineSync.CoroutineMutex.LockFirst | source/coroutine/coroutinesync.cpp:10-36 | lock up to its first yield; a second lock by the owner does nothing |
| CoroutineSync.CoroutineMutex.Release | source/coroutine/coroutinesync.cpp:39-62 | unlock: nothing unless the owner calls; otherwise the lock is free and the first waiter READY and queued |
| CoroutineSync.CoroutineCV.NotifyOne | source/coroutine/coroutinesync.cpp:65-82 | the longest sleeper, if any, leaves the queue, becomes READY and the last task |
| CoroutineSync.CoroutineCV.NotifyEveryone | source/coroutine/coroutinesync.cpp:84-97 | all sleepers become READY and the last tasks, in order |
| CoroutineSync.CoroutineCV.WaitPlain | source/coroutine/coroutinesync.cpp:99-108 | the caller sleeps at the end of the queue |
| CoroutineSync.CoroutineCV.WaitReleasing | source/coroutine/coroutinesync.cpp:110-119 | the caller sleeps and has released the mutex, which it will lock again |
| CoroutineSync.CoroutineChannal.PushLocked | source/coroutine/coroutinechannal.h:40-57 | push from holding the mutex to its return or next wait: closed, room and full queue, over the fields, with who is woken |
| CoroutineSync.CoroutineChannal.PopLocked | source/coroutine/coroutinechannal.h:68-86 | pop likewise; the item handed out is the oldest one |
| CoroutineSync.CoroutineChannal.Push | source/coroutine/coroutinechannal.h:37-58 | a whole push up to its return or first suspension: false if closed; true with the item at the end if there is room; otherwise asleep at the end of the push queue, the mutex free; or waiting for the mutex |
| CoroutineSync.CoroutineChannal.Pop | source/coroutine/coroutinechannal.h:65-87 | a whole pop likewise: false if closed, true with the head if there is one, otherwise asleep |
| CoroutineSync.CoroutineChannal.CloseWhileLocked | source/coroutine/coroutinechannal.h:104-112 | closing wakes everybody on both condition variables, pushers first; a second close does nothing |
| CoroutineSync.CoroutineChannal.Close | source/coroutine/coroutinechannal.h:102-113 | a whole close, or its suspension should the mutex be taken |
| Serialization.Serializer.ReadRecords | source/raft/raft_node.cpp:657-670 | the read loop ends on every payload and returns all its records, or the error |
| Framing.Message.Encode | source/rpc/rpc_protocol.h:54-59 | appends header, payload length and payload, each at its place |
| Framing.Message.Decode | source/rpc/rpc_protocol.h:61-63 | header and length from the twenty bytes at the position, or the exception of a short read, which leaves the fields |
| Framing.Socket.Recv | source/socket/socket.cpp:185-199 | recv as an oracle: it blocks, ends, or hands out a chunk of any size up to the bound |
| Framing.Socket.Receive | source/socket/socket.cpp:181-204 | whatever the chunks, exactly size bytes arrive, or all there are before the end |
| Framing.Socket.ReceiveInto | source/socket/socket.cpp:260-265 | the bytes received are appended to the serializer |
| Framing.Socket.ReceiveHeader | source/socket/socket.cpp:234-244 | six partial reads together append the header to whatever the buffer holds |
| Framing.Socket.ReceiveMessage | source/socket/socket.cpp:231-258 | takes one whole message off the stream, whatever the buffer held: nothing at all closes, a short header throws, otherwise as many bytes as the length says or as there are |
| Timers.TimeEvent.ResetTime | source/coroutine/timer.cpp:18-32 | if a pending event has its due time: the event is due one interval from now, is not cancelled and keeps its other fields; another event is evicted exactly when this one is not pending; otherwise nothing changes; the step of the machine |
| Timers.TimeEvent.ResetTimeTo | source/coroutine/timer.cpp:34-48 | the same with a new interval, which the event then has |
| Timers.Timer.Insert | source/coroutine/timer.cpp:81-81 | inserts at the event's place, or drops it if its due time is taken |
| Timers.Timer.RemoveDue | source/coroutine/timer.cpp:21-23 | find and erase match by due time alone |
| Timers.Timer.AddTimeEvent | source/coroutine/timer.cpp:76-84 | creates an event with an identity of its own and inserts it: the step of the machine |
| Timers.Timer.LatestOccur | source/coroutine/timer.cpp:86-108 | the smallest wait of any pending event that is not cancelled, 0 if overdue, the largest number if there is none |
| Timers.Timer.TakeExpired | source/coroutine/timer.cpp:121-133 | the scan that stops at the first future event collects all callbacks due and takes those events out |
| Timers.Timer.PutBackOne | source/coroutine/timer.cpp:136-139 | a due time changes only while its event is outside the set |
| Timers.Timer.PutBack | source/coroutine/timer.cpp:134-140 | the loop puts back exactly the repeating, uncancelled events |
| Timers.Timer.GetExpiredCallbacks | source/coroutine/timer.cpp:110-142 | callbacks and remaining set are those of the expiry specification, and all events those after the step of the machine |
| RaftNode.RaftLogger.constructor | source/raft/raft_logger.h:23-28 | a new log holds the default entry at position 0 and nothing is committed |
| RaftNode.RaftLogger.GetEntry | source/raft/raft_logger.h:90-98 | the entry at the position, or the "null" entry outside the log |
| RaftNode.RaftLogger.SetCommitIndex | source/raft/raft_logger.h:70-74 | the commit index is overwritten, not raised |
| RaftNode.RaftNode.constructor | source/raft/raft_node.h:85-100 | a node starts as follower of term 0 with no vote and no leader |
| CoroutineSync.Scheduler.constructor | source/coroutine/scheduler.cpp:106-112 | the worker starts with no task and only its main coroutine |
| CoroutineSync.CoroutineMutex.constructor | source/coroutine/coroutinesync.h:50-61 | a new mutex is free and nobody waits |
| CoroutineSync.CoroutineMutex.TryLock | source/coroutine/coroutinesync.cpp:6-8 | takes the lock exactly when it is free |
| CoroutineSync.CoroutineCV.constructor | source/coroutine/coroutinesync.h:85-90 | nobody sleeps on a new condition variable |
| CoroutineSync.CoroutineChannal.constructor | source/coroutine/coroutinechannal.h:23-26 | a new channel is open and empty |
| Serialization.Buffer.constructor | source/util/serializer.h:26-26 | a new buffer is empty, its read position 0 |
| Serialization.Buffer.Write | source/util/serializer.h:28-30 | bytes are appended |
| Serialization.Buffer.WriteUint8 | source/util/serializer.h:36-38 | one byte is appended |
| Serialization.Buffer.WriteUint16 | source/util/serializer.h:45-48 | two bytes in network order are appended |
| Serialization.Buffer.WriteUint64 | source/util/serializer.h:65-68 | eight bytes in network order are appended |
| Serialization.Buffer.ReadBytes | source/util/serializer.h:79-83 | the next bytes, or an error that leaves the position |
| Serialization.Buffer.ReadUint8 | source/util/serializer.h:90-93 | the next byte, or an error |
| Serialization.Buffer.ReadUint16 | source/util/serializer.h:101-105 | the big-endian number at the position, or an error |
| Serialization.Buffer.ReadUint64 | source/util/serializer.h:125-129 | the big-endian number at the position, or an error |
| Serialization.Buffer.SetPosition | source/util/serializer.h:143-148 | moves the read position within the data; beyond the end it reports the exception and nothing moves |
| Serialization.Serializer.constructor | source/util/serializer.h:635-635 | a new serializer has an empty buffer |
| Serialization.Serializer.WriteBool | source/util/serializer.h:274-275 | a bool is one byte |
| Serialization.Serializer.WriteU16 | source/util/serializer.h:287-288 | appends the code of the number |
| Serialization.Serializer.WriteU64 | source/util/serializer.h:295-296 | appends the code of the number |
| Serialization.Serializer.WriteText | source/util/serializer.h:319-324 | appends length and bytes |
| Serialization.Serializer.WriteVoteParams | source/util/serializer.h:589-592 | appends the code for which the round trip is proved |
| Serialization.Serializer.WriteVoteRets | source/util/serializer.h:599-602 | appends the code for which the round trip is proved |
| Serialization.Serializer.WriteEntry | source/util/serializer.h:609-612 | appends the code for which the round trip is proved |
| Serialization.Serializer.WriteAppendParams | source/util/serializer.h:619-622 | appends the code for which the round trip is proved |
| Serialization.Serializer.WriteAppendRets | source/util/serializer.h:629-632 | appends the code for which the round trip is proved |
| Serialization.Serializer.WriteRecord | source/raft/raft_node.cpp:609-613 | appends name, address and port |
| Serialization.Serializer.WriteRecords | source/raft/raft_node.cpp:607-614 | the loop appends the records in order |
| Serialization.Serializer.ReadBool | source/util/serializer.h:247-248 | reads what the codec's reader reads, error and position included |
| Serialization.Serializer.ReadU16 | source/util/serializer.h:259-260 | reads what the codec's reader reads, error and position included |
| Serialization.Serializer.ReadU64 | source/util/serializer.h:267-268 | reads what the codec's reader reads, error and position included |
| Serialization.Serializer.ReadText | source/util/serializer.h:311-317 | reads what the codec's reader reads, error and position included |
| Serialization.Serializer.ReadVoteParams | source/util/serializer.h:584-587 | reads what the codec's reader reads, error and position included |
| Serialization.Serializer.ReadVoteRets | source/util/serializer.h:594-597 | reads what the codec's reader reads, error and position included |
| Serialization.Serializer.ReadEntry | source/util/serializer.h:604-607 | reads what the codec's reader reads, error and position included |
| Serialization.Serializer.ReadAppendParams | source/util/serializer.h:614-617 | reads what the codec's reader reads, error and position included |
| Serialization.Serializer.ReadAppendRets | source/util/serializer.h:624-627 | reads what the codec's reader reads, error and position included |
| Serialization.Serializer.ReadRecord | source/raft/raft_node.cpp:658-660 | reads what the codec's reader reads, error and position included |
| Framing.Message.constructor | source/rpc/rpc_protocol.h:51-52 | a new message has the magic byte, version and type given and an empty buffer |
| Timers.TimeEvent.constructor | source/coroutine/timer.cpp:7-12 | a new event is due one interval from now |
| Timers.TimeEvent.Wake | source/coroutine/timer.cpp:50-54 | clears both flags; the step of the machine, the order stays |
| Timers.TimeEvent.Cancel | source/coroutine/timer.cpp:56-59 | sets the flag; the step of the machine, the order stays |
| Timers.TimeEvent.Stop | source/coroutine/timer.cpp:61-64 | sets the flag; the step of the machine, the order stays |
| Timers.TimeEvent.CancelRepeated | source/coroutine/timer.cpp:66-69 | clears the flag; the step of the machine, the order stays |
| Timers.TimeEvent.SetRepeated | source/coroutine/timer.cpp:71-74 | sets the flag; the step of the machine, the order stays |
| Timers.Timer.constructor | source/coroutine/timer.h:117-118 | no event is pending |

## Left out

- Follower commit and apply agreement: `appendEntries` sets a follower's commit index from the request before the prefix check (`source/raft/raft_node.cpp:437`), so agreement is stated only for the positions leaders count; the coroutine that applies entries is not modelled.
- Raft liveness, timing, random timeouts, reconnecting, and the client wait loops (`source/raft/raft_node.cpp:650-653`, `source/raft/raft_node.cpp:674-677`).
- Restarts: a node that loses its memory may vote twice in a term; no theorem covers that.
- Wrap-around of 64-bit terms, log indices, sequence numbers and timer clocks; the lengths in the codec are bounded to 64 bits.
- The redirect reply to a client, which indexes the node table with `m_leaderId` even when no leader is known.
- RaftNode.RaftLogger.AppendAfter: on a mismatch the code's scan can leave the vector and its return keeps the mutex locked; the contract states the unchanged log that is meant.
- RaftNode.RaftNode.AppendEntries: the return after a rejection at `source/raft/raft_node.cpp:446-449` keeps the node's mutex locked; the contract states the reply and the state that are meant.
- Replication.FifoStep: covers only steps that respect both halves of FIFO, as do Replication.AcceptedReply and LeaderCompleteness.ChoiceStep; `ExactConditions` shows what other steps lead to.
- Replication.AcceptedReply: a reply read by a replicator of an earlier leadership need not be about the position nextIndex points at; `DoubleCounts` builds such runs.
- LeaderCompleteness.ChoiceStep: with an old replicator, or an old request repeated, the invariant does not hold; `ExactConditions.CompleteExactlyWhen` says for which runs its consequence does.
- Several workers: everything between two yields of a coroutine is one step, which is what the comment at `source/coroutine/coroutinesync.cpp:27-30` asks for and one worker provides; spin locks, `ucontext` switching, stacks and starting or stopping the worker are not modelled.
- Coroutine locks taken outside any coroutine: the machine's mutex events belong to running coroutines only.
- CoroutineSync.CoroutineMutex.LockFirst: covers lock up to its first yield; later rounds of the retry loop are `Try`, which the machine's dispatch event performs, because a Dafny method cannot yield.
- CoroutineSync.CoroutineCV.WaitReleasing: covers wait up to its yield; the lock that follows is the resumed coroutine's next attempt.
- The channel's destructor and its size query.
- Serializer cases outside the round trip: floats, signed and 32-bit integers, tuples, pairs and containers; const strings written through the generic operator.
- Serialization.Serializer.ReadText: a length too large to allocate makes the C++ string throw another exception than the range error, and a length near 2^64 wraps in the range test at `source/util/serializer.h:173`; the contract has the range error for both.
- Framing.Socket.Recv: hard errors of recv are not modelled, only blocking, chunks and the end of the stream; the number of times it blocks is finite.
- CoroutineSync.Scheduler.WakeUp: `addTask` refuses a task while the scheduler is stopped or not all its threads run (`source/coroutine/scheduler.cpp:86-89`); the model is of a running scheduler.
- CoroutineSync.Scheduler.AddCallback: the same refusal (`source/coroutine/scheduler.cpp:95-98`) is not modelled.
- Message lengths: `source/socket/socket.cpp:182` puts a buffer of the length read from the wire on the stack, so a length beyond the stack ends the process; the framing theorems allow every length below 2^64.
- Framing.Socket.Receive: the return of -1 after a hard error of recv, which also drops the bytes already taken, is not modelled.
- Framing.Message.constructor: the sequence number is a parameter, so nothing says that the numbers of different messages differ.
- Framing.RpcSession.HandleReceive: dispatching a received message to its response channel and the local close flag are not modelled.
- Clock readings are parameters.
- Sockets, epoll loops, addresses, the connection pool, the registry tables, RPC client and server, printing and logging: input, output or plain map operations.
