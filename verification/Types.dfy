/** The values exchanged and stored by a Raft node: log entries, the state of one node, RPC
    arguments and results, and the messages in flight.

    Integers are unbounded; the Go code uses int64 throughout. */
module Types {

  type Id = string

  newtype Byte = b: int | 0 <= b < 256

  type Bytes = seq<Byte>

  datatype Option<+T> = None | Some(value: T)

  /** storage.LogEntry. A log is a sequence of entries; the entry with Raft index i is at position i - 1. */
  datatype Entry = Entry(term: int, index: int, command: Bytes)

  type Log = seq<Entry>

  datatype Role = Follower | Candidate | Leader

  /** What one round of sendHeartbeats reads under the lock before its sending goroutines start. */
  datatype Heartbeat = Heartbeat(term: int, commit: int)

  /** An entry handed to the state machine; the command is still encoded. */
  datatype ApplyMsg = ApplyMsg(command: Bytes, index: int, term: int)

  /** One RaftNode. The fields `votesReceived` and `awaiting` belong to the goroutines of the running
      election, `heartbeats` to the sending goroutines, `emitted` and `delivered` to the apply channel. */
  datatype Node = Node(
    id: Id,
    peers: seq<Id>,
    currentTerm: int,
    votedFor: Id,
    log: Log,
    commitIndex: int,
    lastApplied: int,
    nextIndex: map<Id, int>,
    matchIndex: map<Id, int>,
    role: Role,
    leaderId: Id,
    votesReceived: int,
    awaiting: set<Id>,
    heartbeats: set<Heartbeat>,
    emitted: seq<ApplyMsg>,
    delivered: nat)

  /** What storage holds: the PersistentState record and the log. */
  datatype Durable = Durable(term: int, votedFor: Id, log: Log)

  /** The storage calls that change durable state. */
  datatype Write =
    | SaveState(term: int, votedFor: Id)
    | AppendEntry(entry: Entry)
    | TruncateAfter(index: int)

  datatype VoteArgs = VoteArgs(term: int, candidateId: Id, lastLogIndex: int, lastLogTerm: int)

  datatype VoteResult = VoteResult(term: int, granted: bool)

  datatype AppendArgs = AppendArgs(
    term: int,
    leaderId: Id,
    prevLogIndex: int,
    prevLogTerm: int,
    entries: seq<Entry>,
    leaderCommit: int)

  datatype AppendResult = AppendResult(
    term: int,
    success: bool,
    conflictTerm: int,
    conflictIndex: int,
    matchIndex: int)

  datatype ProposeResult = Proposed(index: int, term: int) | NotLeader(leaderId: Id)

  /** A reply travels with the request it answers, because the goroutine that sent the request is the
      one that consumes the reply. */
  datatype Msg =
    | VoteRequest(dst: Id, vote: VoteArgs)
    | VoteReply(src: Id, vote: VoteArgs, voteResult: VoteResult)
    | AppendRequest(dst: Id, append: AppendArgs)
    | AppendReply(src: Id, append: AppendArgs, appendResult: AppendResult)

  /** Go's map read: a missing key reads as zero. */
  function Lookup(m: map<Id, int>, p: Id): int {
    if p in m then m[p] else 0
  }

  function ElementsOf(s: seq<Id>): set<Id> {
    set p | p in s
  }

  /** One turn of ranging over a set; Go leaves the order open, and so does this. */
  method Pick<T>(s: set<T>) returns (x: T)
    requires s != {}
    ensures x in s
  {
    x :| x in s;
  }

  lemma {:induction false} SubsetSize<T>(a: set<T>, b: set<T>)
    requires a <= b
    ensures |a| <= |b|
  {
    if a != {} {
      var x :| x in a;
      SubsetSize(a - {x}, b - {x});
    }
  }

  predicate NoDuplicates(s: seq<Id>) {
    forall i, j :: 0 <= i < j < |s| ==> s[i] != s[j]
  }
}
