/** The operation a key/value client puts in the log (kvraft's Op). */
module KvOp {
  datatype Op = Op(kind: string, key: string, value: string, id: int, reqId: int)
}

/** Log entries, messages and the state of one Raft peer. */
module RaftTypes {
  import opened KvOp

  /** What a log slot carries: nothing in the dummy slot 0, a client operation elsewhere. */
  datatype Command = NoCommand | Client(op: Op)

  datatype Entry = Entry(term: nat, index: nat, command: Command)

  /** Slot 0 of every log. */
  const DUMMY := Entry(1, 0, NoCommand)

  /** "Voted for nobody". */
  const NONE := -1

  datatype Role = Follower | Candidate | Leader

  datatype ApplyMsg = ApplyMsg(index: nat, command: Command)

  /**
   * Requests and replies as they travel between peers.  Each is a value taken when it is sent.
   * `term` of a reply is the replier's term; `prev` of an append reply is the PrevLogIndex of the
   * request it answers, which the leader keeps beside the reply.
   */
  datatype Msg =
    | VoteReq(term: nat, from: nat, to: nat, lastLogIndex: nat, lastLogTerm: nat)
    | VoteResp(term: nat, from: nat, to: nat, granted: bool)
    | AppReq(term: nat, from: nat, to: nat, commit: nat, prev: nat, prevTerm: nat, entries: seq<Entry>)
    | AppResp(term: nat, from: nat, to: nat, prev: nat, success: bool, next: nat,
              conflictTerm: int, conflictIndex: int)

  /** What survives a crash. */
  datatype Hard = Hard(term: nat, votedFor: int, log: seq<Entry>)

  /** The persister: blank until the first save. */
  datatype Disk = Blank | Saved(hard: Hard)

  datatype Node = Node(
    me: nat,
    peers: nat,
    currentTerm: nat,
    votedFor: int,
    log: seq<Entry>,
    commitIndex: nat,
    nextIndex: seq<int>,
    matchIndex: seq<int>,
    role: Role,
    votes: map<nat, bool>,
    applied: seq<ApplyMsg>,
    disk: Disk)
}
