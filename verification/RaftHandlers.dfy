/**
 * What one Raft peer does with each event, as functions from its state to its next state and the
 * messages it sends.  A handler that reaches one of the source's panics yields `Panic`.  The class
 * RaftPeer.Raft performs the same steps in place and is proved to agree with these functions.
 */
module RaftHandlers {
  import opened RaftTypes
  import opened Quorums

  datatype Option<T> = None | Some(value: T)

  /** The source's guarded panics, and the one unguarded index it can get wrong. */
  datatype Fault =
    | CommitPastLog          // commitTo
    | ApplyPastLog           // stateMachine
    | BadPrevLogIndex        // bcastAppend
    | TruncatesCommitted     // appendLog
    | ConflictsWithCommitted // handleAppendEntries
    | LeaderCommitPastLog    // handleAppendEntries
    | ReplyPastLog           // handleAppendEntries, deferred check
    | ReplyBelowOne          // handleAppendEntries
    | ReplyBeyondLeader      // stepLeader
    | LeaderToCandidate      // becomeCandidate
    | FollowerToLeader       // becomeLeader
    | ScanOutOfRange         // stepLeader, log[i] in the conflict scan

  datatype Outcome = Ok(node: Node, out: set<Msg>) | Panic(fault: Fault)

  /** The shape every handler relies on: slot i carries index i and the per-peer slices have one cell a peer. */
  predicate WellFormed(n: Node) {
    && n.me < n.peers
    && |n.log| >= 1
    && (forall i | 0 <= i < |n.log| :: n.log[i].index == i)
    && |n.nextIndex| == |n.matchIndex| == n.peers
    && (forall i | 0 <= i < n.peers :: 0 <= n.matchIndex[i] < |n.log|)
  }

  /** Entries of a request are consecutive, a successful reply names a next index. */
  predicate WellFormedMsg(m: Msg, peers: nat) {
    && m.from < peers
    && (m.AppReq? ==> forall k | 0 <= k < |m.entries| :: m.entries[k].index == m.prev + 1 + k)
    && (m.AppResp? && m.success ==> m.next >= 1)
  }

  // ---- Reading the log ----

  function LastIndex(n: Node): nat
    requires |n.log| >= 1
  {
    n.log[|n.log| - 1].index
  }

  predicate MatchTerm(log: seq<Entry>, index: nat, term: nat) {
    index < |log| && log[index].term == term
  }

  /** The request's log is at least as recent as this one. */
  predicate MoreUpToDate(log: seq<Entry>, lastLogIndex: nat, lastLogTerm: nat)
    requires |log| >= 1
  {
    var last := log[|log| - 1];
    lastLogTerm > last.term || (lastLogTerm == last.term && lastLogIndex >= last.index)
  }

  /** Index of the first entry that the log does not have with that term; 0 when it has them all. */
  function FindConflict(log: seq<Entry>, ents: seq<Entry>): nat {
    if ents == [] then 0
    else if !MatchTerm(log, ents[0].index, ents[0].term) then ents[0].index
    else FindConflict(log, ents[1..])
  }

  /** The log has, with their terms, the entries that lie below index `ci` (all of them when ci is 0). */
  ghost predicate AgreesBelow(log: seq<Entry>, ents: seq<Entry>, start: nat, ci: nat) {
    forall k | 0 <= k < |ents| && (ci == 0 || start + k < ci) :: MatchTerm(log, start + k, ents[k].term)
  }

  /** The first mismatch lies among the entries and no further than one past the log. */
  lemma {:induction false} ConflictRange(log: seq<Entry>, ents: seq<Entry>, start: nat)
    requires 1 <= start <= |log| && forall k | 0 <= k < |ents| :: ents[k].index == start + k
    ensures var ci := FindConflict(log, ents);
            ci == 0 || (start <= ci < start + |ents| && ci <= |log| && !MatchTerm(log, ci, ents[ci - start].term))
    ensures AgreesBelow(log, ents, start, FindConflict(log, ents))
  {
    if ents != [] && MatchTerm(log, ents[0].index, ents[0].term) {
      ConflictRange(log, ents[1..], start + 1);
      var ci := FindConflict(log, ents[1..]);
      assert AgreesBelow(log, ents[1..], start + 1, ci);
      forall k | 0 <= k < |ents| && (ci == 0 || start + k < ci) ensures MatchTerm(log, start + k, ents[k].term) {
        if k > 0 {
          assert ents[k] == ents[1..][k - 1];
          assert MatchTerm(log, start + 1 + (k - 1), ents[1..][k - 1].term);
        }
      }
    }
  }

  // ---- Durable state ----

  function Current(n: Node): Hard {
    Hard(n.currentTerm, n.votedFor, n.log)
  }

  /** persist */
  function Persist(n: Node): Node {
    n.(disk := Saved(Current(n)))
  }

  /** What readPersist finds; a blank persister leaves the initial values. */
  function Load(d: Disk): Hard {
    match d
    case Blank => Hard(1, NONE, [DUMMY])
    case Saved(h) => h
  }

  function Zeros(n: nat): seq<int> {
    seq(n, i => 0)
  }

  /** Make: a peer that starts, or starts again after a crash, from its disk. */
  function Boot(me: nat, peers: nat, disk: Disk): Node {
    var h := Load(disk);
    Node(me, peers, h.term, h.votedFor, h.log, 0, Zeros(peers), Zeros(peers), Follower, map[], [], disk)
  }

  // ---- Role changes ----

  function Reset(n: Node, term: nat): Node {
    var v := if n.currentTerm != term then NONE else n.votedFor;
    n.(currentTerm := term, votedFor := v, votes := map[], nextIndex := Zeros(n.peers), matchIndex := Zeros(n.peers))
  }

  function BecomeFollower(n: Node, term: nat): Node {
    Reset(n, term).(role := Follower)
  }

  function BecomeCandidate(n: Node): Node {
    Reset(n, n.currentTerm + 1).(votedFor := n.me, role := Candidate)
  }

  function BecomeLeader(n: Node): Node {
    Reset(n, n.currentTerm).(role := Leader, nextIndex := seq(n.peers, i => |n.log|))
  }

  // ---- Sending ----

  function AppendFor(n: Node, to: nat): Msg
    requires to < |n.nextIndex| && 1 <= n.nextIndex[to] <= |n.log|
  {
    var prev := n.nextIndex[to] - 1;
    AppReq(n.currentTerm, n.me, to, n.commitIndex, prev, n.log[prev].term, n.log[prev + 1..])
  }

  predicate CanBroadcast(n: Node)
    requires WellFormed(n)
  {
    forall i | 0 <= i < n.peers && i != n.me :: 0 <= n.nextIndex[i] - 1 <= LastIndex(n)
  }

  /** The requests for the peers below k. */
  function AppendRequestsBelow(n: Node, k: nat): set<Msg>
    requires k <= |n.nextIndex| && forall i | 0 <= i < k && i != n.me :: 1 <= n.nextIndex[i] <= |n.log|
  {
    set i | 0 <= i < k && i != n.me :: AppendFor(n, i)
  }

  function AppendRequests(n: Node): set<Msg>
    requires WellFormed(n) && CanBroadcast(n)
  {
    AppendRequestsBelow(n, n.peers)
  }

  /** bcastAppend: save, then send every peer what follows its next index. */
  function BroadcastAppend(n: Node): Outcome
    requires WellFormed(n)
  {
    if CanBroadcast(n) then Ok(Persist(n), AppendRequests(n)) else Panic(BadPrevLogIndex)
  }

  function VoteRequestFor(n: Node, to: nat): Msg
    requires WellFormed(n)
  {
    VoteReq(n.currentTerm, n.me, to, LastIndex(n), n.log[LastIndex(n)].term)
  }

  function VoteRequestsBelow(n: Node, k: nat): set<Msg>
    requires WellFormed(n)
  {
    set i | 0 <= i < k && i != n.me :: VoteRequestFor(n, i)
  }

  function VoteRequests(n: Node): set<Msg>
    requires WellFormed(n)
  {
    VoteRequestsBelow(n, n.peers)
  }

  // ---- Elections ----

  /** poll: the first answer of a peer counts. */
  function Poll(votes: map<nat, bool>, id: nat, granted: bool): map<nat, bool> {
    if id in votes then votes else votes[id := granted]
  }

  function Granted(votes: map<nat, bool>): set<nat> {
    set j | j in votes && votes[j]
  }

  /** campaign, when the election timer fires. */
  function Campaign(n: Node): Outcome
    requires WellFormed(n)
  {
    if n.role.Leader? then Panic(LeaderToCandidate)
    else
      var c := BecomeCandidate(n);
      var c := c.(votes := Poll(c.votes, n.me, true));
      if Majority(n.peers) == |Granted(c.votes)| then Ok(BecomeLeader(c), {})
      else Ok(Persist(c), VoteRequests(c))
  }

  /** The timer of a leader sends heartbeats, any other peer's starts a campaign. */
  function Tick(n: Node): Outcome
    requires WellFormed(n)
  {
    if n.role.Leader? then BroadcastAppend(n) else Campaign(n)
  }

  function HandleVote(n: Node, m: Msg): Outcome
    requires WellFormed(n) && m.VoteReq?
  {
    var grant := (n.votedFor == NONE || n.votedFor == m.from) && MoreUpToDate(n.log, m.lastLogIndex, m.lastLogTerm);
    Ok(if grant then n.(votedFor := m.from) else n, {VoteResp(n.currentTerm, n.me, m.from, grant)})
  }

  /** A candidate's verdict on the votes it has. */
  function Tally(n: Node): Outcome
    requires WellFormed(n)
  {
    var granted := |Granted(n.votes)|;
    if granted == Majority(n.peers) then
      if n.role.Follower? then Panic(FollowerToLeader) else BroadcastAppend(BecomeLeader(n))
    else if |n.votes| - granted == Majority(n.peers) then Ok(BecomeFollower(n, n.currentTerm), {})
    else Ok(n, {})
  }

  function HandleVoteReply(n: Node, m: Msg): Outcome
    requires WellFormed(n) && m.VoteResp?
  {
    Tally(n.(votes := Poll(n.votes, m.from, m.granted)))
  }

  // ---- Replication ----

  function CommitTo(n: Node, index: nat): Outcome
    requires |n.log| >= 1
  {
    if index > LastIndex(n) then Panic(CommitPastLog)
    else Ok(if n.commitIndex < index then n.(commitIndex := index) else n, {})
  }

  /** The index a majority has reached: mis[quorum-1] of the match indexes in descending order. */
  function QuorumIndex(n: Node): nat
    requires WellFormed(n)
  {
    SortedDescending(n.matchIndex);
    var sorted := SortDescending(n.matchIndex);
    assert sorted[Majority(n.peers) - 1] in multiset(sorted);
    assert sorted[Majority(n.peers) - 1] in n.matchIndex;
    sorted[Majority(n.peers) - 1]
  }

  lemma QuorumIndexInLog(n: Node)
    requires WellFormed(n)
    ensures QuorumIndex(n) < |n.log|
  {
    SortedDescending(n.matchIndex);
    var sorted := SortDescending(n.matchIndex);
    assert sorted[Majority(n.peers) - 1] in multiset(sorted);
    assert sorted[Majority(n.peers) - 1] in n.matchIndex;
  }

  function UpdateCommitIndex(n: Node): Outcome
    requires WellFormed(n)
  {
    var mci := QuorumIndex(n);
    QuorumIndexInLog(n);
    if mci > n.commitIndex && n.log[mci].term == n.currentTerm then CommitTo(n, mci) else Ok(n, {})
  }

  function AppendReply(n: Node, m: Msg, success: bool, next: nat, conflictTerm: int, conflictIndex: int): Msg
    requires m.AppReq?
  {
    AppResp(n.currentTerm, n.me, m.from, m.prev, success, next, conflictTerm, conflictIndex)
  }

  /** The deferred check of handleAppendEntries. */
  function Replied(n: Node, reply: Msg): Outcome
    requires |n.log| >= 1 && reply.AppResp?
  {
    if reply.next > LastIndex(n) + 1 then Panic(ReplyPastLog) else Ok(n, {reply})
  }

  /** The next index named in a rejection. */
  function BackUp(commitIndex: nat, prev: nat): nat {
    var next := if commitIndex + 1 < prev - 1 then commitIndex + 1 else prev - 1;
    if next < 1 then 1 else next
  }

  /** findConflict and appendLog: the log after an accepted append still has index i in slot i. */
  function Spliced(log: seq<Entry>, m: Msg): (spliced: seq<Entry>)
    requires m.AppReq? && m.prev < |log|
    requires forall i | 0 <= i < |log| :: log[i].index == i
    requires forall k | 0 <= k < |m.entries| :: m.entries[k].index == m.prev + 1 + k
    ensures |spliced| > m.prev + |m.entries| && forall i | 0 <= i < |spliced| :: spliced[i].index == i
  {
    ConflictRange(log, m.entries, m.prev + 1);
    var ci := FindConflict(log, m.entries);
    assert m.entries != [] ==>
      var k := |m.entries| - 1; ci == 0 ==> MatchTerm(log, m.prev + 1 + k, m.entries[k].term);
    if ci == 0 then log else log[..ci] + m.entries[ci - (m.prev + 1)..]
  }

  function AcceptAppend(n: Node, m: Msg): Outcome
    requires WellFormed(n) && m.AppReq? && WellFormedMsg(m, n.peers) && m.prev < |n.log|
  {
    var ci := FindConflict(n.log, m.entries);
    if ci != 0 && ci <= n.commitIndex then Panic(ConflictsWithCommitted)
    else if ci != 0 && ci - 1 < n.commitIndex then Panic(TruncatesCommitted)
    else
      var a := n.(log := Spliced(n.log, m));
      if m.commit > n.commitIndex && m.commit > LastIndex(a) then Panic(LeaderCommitPastLog)
      else
        var b := if m.commit > n.commitIndex then CommitTo(a, m.commit) else Ok(a, {});
        match b
        case Panic(f) => Panic(f)
        case Ok(c, _) =>
          var next := m.prev + |m.entries| + 1;
          if next < 1 then Panic(ReplyBelowOne) else Replied(c, AppendReply(c, m, true, next, 0, 0))
  }

  function RejectAppend(n: Node, m: Msg): Outcome
    requires WellFormed(n) && m.AppReq?
  {
    var next := BackUp(n.commitIndex, m.prev);
    // The loop that was to find the first index of the conflicting term declares its own variable,
    // so the index sent is 0, or -1 when the log is too short.
    var (ct, ci) := if m.prev <= LastIndex(n) then (n.log[m.prev].term as int, 0) else (-1, -1);
    if next < 1 then Panic(ReplyBelowOne) else Replied(n, AppendReply(n, m, false, next, ct, ci))
  }

  function HandleAppendEntries(n: Node, m: Msg): Outcome
    requires WellFormed(n) && m.AppReq? && WellFormedMsg(m, n.peers)
  {
    if m.prev < n.commitIndex then Replied(n, AppendReply(n, m, true, n.commitIndex + 1, 0, 0))
    else if MatchTerm(n.log, m.prev, m.prevTerm) then AcceptAppend(n, m)
    else RejectAppend(n, m)
  }

  /** The leader's scan for the conflicting term, downwards from i; None when it indexes past the log. */
  function ScanForTerm(log: seq<Entry>, i: int, term: int): Option<int>
    decreases i
  {
    if i <= 0 then Some(0)
    else if i >= |log| then None
    else if log[i].term == term then Some(i)
    else ScanForTerm(log, i - 1, term)
  }

  /** The scan goes wrong at its first index or not at all. */
  lemma {:induction false} ScanRange(log: seq<Entry>, i: int, term: int)
    requires |log| >= 1
    ensures ScanForTerm(log, i, term).None? <==> i >= |log|
    decreases i
  {
    if 0 < i < |log| && log[i].term != term {
      ScanRange(log, i - 1, term);
    }
  }

  function HandleAppendReply(n: Node, m: Msg): Outcome
    requires WellFormed(n) && m.AppResp? && WellFormedMsg(m, n.peers)
  {
    if m.next > LastIndex(n) + 1 then Panic(ReplyBeyondLeader)
    else if m.success then
      if m.next >= n.nextIndex[m.from] then
        UpdateCommitIndex(n.(nextIndex := n.nextIndex[m.from := m.next],
                             matchIndex := n.matchIndex[m.from := m.next - 1]))
      else Ok(n, {})
    else
      match ScanForTerm(n.log, m.prev - 1, m.conflictTerm)
      case None => Panic(ScanOutOfRange)
      case Some(found) =>
        var next := if found == 0 && m.conflictIndex > 0 then m.conflictIndex else m.next;
        Ok(n.(nextIndex := n.nextIndex[m.from := next]), {})
  }

  // ---- Dispatch ----

  function StepFollower(n: Node, m: Msg): Outcome
    requires WellFormed(n) && WellFormedMsg(m, n.peers)
  {
    match m
    case VoteReq(_, _, _, _, _) => HandleVote(n, m)
    case AppReq(_, _, _, _, _, _, _) => HandleAppendEntries(n, m)
    case _ => Ok(n, {})
  }

  function StepCandidate(n: Node, m: Msg): Outcome
    requires WellFormed(n) && WellFormedMsg(m, n.peers)
  {
    match m
    case AppReq(_, _, _, _, _, _, _) => HandleAppendEntries(BecomeFollower(n, n.currentTerm), m)
    case VoteReq(_, _, _, _, _) => Ok(n, {VoteResp(n.currentTerm, n.me, m.from, false)})
    case VoteResp(_, _, _, _) => HandleVoteReply(n, m)
    case _ => Ok(n, {})
  }

  /** A leader leaves requests of its own term unanswered: the zero-valued reply goes back. */
  function StepLeader(n: Node, m: Msg): Outcome
    requires WellFormed(n) && WellFormedMsg(m, n.peers)
  {
    match m
    case AppResp(_, _, _, _, _, _, _, _) => HandleAppendReply(n, m)
    case VoteReq(_, _, _, _, _) => Ok(n, {VoteResp(0, n.me, m.from, false)})
    case AppReq(_, _, _, _, _, _, _) => Ok(n, {AppResp(0, n.me, m.from, m.prev, false, 0, 0, 0)})
    case _ => Ok(n, {})
  }

  function StepRole(n: Node, m: Msg): Outcome
    requires WellFormed(n) && WellFormedMsg(m, n.peers)
  {
    match n.role
    case Follower => StepFollower(n, m)
    case Candidate => StepCandidate(n, m)
    case Leader => StepLeader(n, m)
  }

  /** The answer to a message of an earlier term. */
  function StaleReply(n: Node, m: Msg): set<Msg> {
    match m
    case AppReq(_, _, _, _, _, _, _) => {AppendReply(n, m, false, n.commitIndex + 1, 0, 0)}
    case VoteReq(_, _, _, _, _) => {VoteResp(n.currentTerm, n.me, m.from, false)}
    case _ => {}
  }

  /** Step, up to the deferred save. */
  function StepUnsaved(n: Node, m: Msg): Outcome
    requires WellFormed(n) && WellFormedMsg(m, n.peers)
  {
    if m.term > n.currentTerm then StepRole(BecomeFollower(n, m.term), m)
    else if m.term < n.currentTerm then Ok(n, StaleReply(n, m))
    else StepRole(n, m)
  }

  function Finish(o: Outcome): Outcome {
    match o
    case Ok(n, out) => Ok(Persist(n), out)
    case Panic(f) => Panic(f)
  }

  /** Step: handle a message, save, then let the reply go. */
  function Step(n: Node, m: Msg): Outcome
    requires WellFormed(n) && WellFormedMsg(m, n.peers)
  {
    Finish(StepUnsaved(n, m))
  }

  // ---- Client commands and the apply loop ----

  function AppendCommand(n: Node, cmd: Command): Node
    requires WellFormed(n)
  {
    var index := |n.log|;
    n.(log := n.log + [Entry(n.currentTerm, index, cmd)],
       nextIndex := n.nextIndex[n.me := index + 1],
       matchIndex := n.matchIndex[n.me := index])
  }

  /** handleStart */
  function HandleStart(n: Node, cmd: Command): Outcome
    requires WellFormed(n)
  {
    if !n.role.Leader? then Ok(n, {}) else BroadcastAppend(AppendCommand(n, cmd))
  }

  /** stateMachine hands the next committed entry to the application. */
  function ApplyNext(n: Node): Outcome {
    var i := |n.applied| + 1;
    if n.commitIndex < i then Ok(n, {})
    else if |n.log| <= n.commitIndex then Panic(ApplyPastLog)
    else Ok(n.(applied := n.applied + [ApplyMsg(n.log[i].index, n.log[i].command)]), {})
  }

  function ApplyMany(n: Node, k: nat): Node {
    if k == 0 then n
    else
      var a := ApplyMany(n, k - 1);
      match ApplyNext(a)
      case Ok(b, _) => b
      case Panic(_) => a
  }
}
