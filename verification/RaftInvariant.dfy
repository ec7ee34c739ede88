/**
 * How the state of one peer and the messages it has sent relate to the history of the cluster, and
 * the proof that every handler keeps that relation.  On the way each handler is shown not to reach
 * a guarded panic.
 */
module RaftInvariant {
  import opened RaftTypes
  import opened Quorums
  import opened RaftHandlers
  import opened RaftCore
  import opened RaftActions

  // ---- Peers ----

  ghost predicate VoteOk(n: Node, c: Core) {
    if n.votedFor == NONE then (n.currentTerm, n.me) !in c.ballots
    else (n.currentTerm, n.me) in c.ballots && c.ballots[(n.currentTerm, n.me)] == n.votedFor
  }

  ghost predicate CommitOk(n: Node, c: Core) {
    n.commitIndex < |n.log| && Committed(c, n.log[..n.commitIndex + 1], n.currentTerm)
  }

  /** The stream handed to the application: indexes 1, 2, 3, ... with the commands of the log. */
  ghost predicate StreamOf(stream: seq<ApplyMsg>, log: seq<Entry>) {
    |stream| < |log| && forall k | 0 <= k < |stream| :: stream[k] == ApplyMsg(k + 1, log[k + 1].command)
  }

  ghost predicate AppliedOk(n: Node) {
    |n.applied| <= n.commitIndex && StreamOf(n.applied, n.log)
  }

  ghost predicate CandidateOk(n: Node, c: Core) {
    && n.votedFor == n.me
    && (n.currentTerm, n.me) in c.campaigns
    && c.campaigns[(n.currentTerm, n.me)] == n.log
    && (n.currentTerm in c.reigns ==> c.reigns[n.currentTerm].leader != n.me)
    && (forall j | j in n.votes :: j < n.peers)
    && (forall j | j in n.votes && n.votes[j] ::
          (n.currentTerm, j) in c.ballots && c.ballots[(n.currentTerm, j)] == n.me)
  }

  ghost predicate LeaderOk(n: Node, c: Core) {
    && Leads(c, n.me)
    && |n.nextIndex| == |n.matchIndex| == n.peers
    && (forall j | 0 <= j < n.peers :: 1 <= n.nextIndex[j] <= |n.log|)
    && (forall j | 0 <= j < n.peers :: n.matchIndex[j] > 0 ==> Acked(c, n.currentTerm, j, n.matchIndex[j]))
  }

  ghost predicate RoleOk(n: Node, c: Core) {
    match n.role
    case Follower => n.matchIndex == Zeros(n.peers)
    case Candidate => CandidateOk(n, c)
    case Leader => LeaderOk(n, c)
  }

  /** The history records this peer's term and log. */
  ghost predicate Recorded(n: Node, c: Core) {
    && n.me < n.peers == |c.terms| == |c.logs|
    && c.terms[n.me] == n.currentTerm
    && c.logs[n.me] == n.log
  }

  /** Everything but the disk, which lags while a handler runs. */
  ghost predicate PeerSound(n: Node, c: Core) {
    && Recorded(n, c)
    && WellFormed(n)
    && n.peers >= 2
    && n.currentTerm >= 1
    && VoteOk(n, c)
    && CommitOk(n, c)
    && AppliedOk(n)
    && RoleOk(n, c)
  }

  ghost predicate DiskOk(n: Node) {
    Load(n.disk) == Current(n)
  }

  ghost predicate NodeOk(n: Node, c: Core) {
    PeerSound(n, c) && DiskOk(n)
  }

  // ---- Messages ----

  /** An append request is a true copy of part of its leader's log, and commits no more than it covers. */
  ghost predicate AppendOk(m: Msg, c: Core)
    requires m.AppReq?
  {
    && m.term in c.reigns
    && m.from == c.reigns[m.term].leader
    && m.prev + |m.entries| < |c.reigns[m.term].log|
    && m.entries == c.reigns[m.term].log[m.prev + 1..m.prev + 1 + |m.entries|]
    && m.prevTerm == c.reigns[m.term].log[m.prev].term
    && m.commit <= m.prev + |m.entries|
    && Committed(c, c.reigns[m.term].log[..m.commit + 1], m.term)
  }

  ghost predicate VoteRequestOk(m: Msg, c: Core)
    requires m.VoteReq?
  {
    && (m.term, m.from) in c.campaigns
    && var log := c.campaigns[(m.term, m.from)];
       |log| >= 1 && m.lastLogIndex == |log| - 1 && m.lastLogTerm == log[|log| - 1].term
  }

  /** A next index no leader of term t is too short for. */
  ghost predicate NextBounded(c: Core, t: nat, next: nat) {
    || next <= 1
    || (t in c.reigns && next <= |c.reigns[t].log|)
    || exists p :: |p| == next && Committed(c, p, t)
  }

  /** A success is a true acknowledgement; a rejection never points past the leader's log. */
  ghost predicate AppendReplyOk(m: Msg, c: Core)
    requires m.AppResp?
  {
    && m.conflictIndex <= 0
    && (m.success ==> m.next >= 1 && m.term in c.reigns && m.next <= |c.reigns[m.term].log|)
    && (m.success && m.next >= 2 ==> Acked(c, m.term, m.from, m.next - 1))
    && (!m.success && m.term > 0 ==> m.next >= 1 && NextBounded(c, m.term, m.next))
  }

  ghost predicate MsgOk(m: Msg, c: Core) {
    && m.from < |c.terms|
    && WellFormedMsg(m, |c.terms|)
    && match m
       case VoteReq(_, _, _, _, _) => VoteRequestOk(m, c)
       case VoteResp(t, j, cand, granted) => granted ==> (t, j) in c.ballots && c.ballots[(t, j)] == cand
       case AppReq(_, _, _, _, _, _, _) => AppendOk(m, c)
       case AppResp(_, _, _, _, _, _, _, _) => AppendReplyOk(m, c)
  }

  ghost predicate MsgsOk(out: set<Msg>, c: Core) {
    forall m {:trigger MsgOk(m, c)} | m in out :: MsgOk(m, c)
  }

  // ---- A step of peer i ----

  /** Only peer i's part of the history changed. */
  ghost predicate OnlyBy(c: Core, d: Core, i: nat) {
    && |c.terms| == |d.terms| == |c.logs| == |d.logs|
    && (forall j | 0 <= j < |c.terms| && j != i :: d.terms[j] == c.terms[j] && d.logs[j] == c.logs[j])
    && (forall t, j | (t, j) in d.ballots && j != i :: (t, j) in c.ballots)
    && (forall t | t in d.reigns && d.reigns[t].leader != i :: t in c.reigns && d.reigns[t] == c.reigns[t])
  }

  ghost predicate Evolves(c: Core, d: Core, i: nat) {
    Inv(d) && Grows(c, d) && OnlyBy(c, d, i)
  }

  lemma EvolvesTransitive(c: Core, d: Core, e: Core, i: nat)
    requires Evolves(c, d, i) && Evolves(d, e, i)
    ensures Evolves(c, e, i)
  {
    GrowsTransitive(c, d, e);
  }

  lemma EvolvesReflexive(c: Core, i: nat)
    requires Inv(c)
    ensures Evolves(c, c, i)
  {
    forall t | t in c.reigns ensures ReignGrows(c, c, t) {}
  }

  lemma NextBoundedGrows(c: Core, d: Core, t: nat, next: nat)
    requires Grows(c, d) && NextBounded(c, t, next)
    ensures NextBounded(d, t, next)
  {
    if next > 1 {
      if t in c.reigns && next <= |c.reigns[t].log| {
        assert ReignGrows(c, d, t);
      } else {
        var p :| |p| == next && Committed(c, p, t);
        CommittedGrows(c, d, p, t, t);
      }
    }
  }

  /** What a message says stays true. */
  lemma MsgGrows(c: Core, d: Core, m: Msg)
    requires Grows(c, d) && MsgOk(m, c)
    ensures MsgOk(m, d)
  {
    match m
    case VoteReq(_, _, _, _, _) =>
    case VoteResp(t, j, cand, granted) =>
    case AppReq(_, _, _, _, _, _, _) =>
      assert ReignGrows(c, d, m.term);
      var was, now := c.reigns[m.term].log, d.reigns[m.term].log;
      assert was[m.prev + 1..m.prev + 1 + |m.entries|] == now[m.prev + 1..m.prev + 1 + |m.entries|];
      assert was[..m.commit + 1] == now[..m.commit + 1];
      CommittedGrows(c, d, was[..m.commit + 1], m.term, m.term);
    case AppResp(_, _, _, _, _, _, _, _) =>
      if m.success {
        assert ReignGrows(c, d, m.term);
      } else if m.term > 0 {
        NextBoundedGrows(c, d, m.term, m.next);
      }
  }

  /** A step of peer i leaves the other peers as sound as they were. */
  lemma OthersStaySound(c: Core, d: Core, i: nat, n: Node)
    requires Evolves(c, d, i) && NodeOk(n, c) && n.me != i
    ensures NodeOk(n, d)
  {
    CommittedGrows(c, d, n.log[..n.commitIndex + 1], n.currentTerm, n.currentTerm);
    if n.role.Leader? {
      assert ReignGrows(c, d, n.currentTerm);
    }
  }
}
