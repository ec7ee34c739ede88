/** Every handler of a sound peer keeps it sound, sends only true messages and reaches no guarded panic. */
module RaftSteps {
  import opened RaftTypes
  import opened Quorums
  import opened RaftHandlers
  import opened RaftCore
  import opened RaftActions
  import opened RaftInvariant

  /** What a handler guarantees, with `d` the history after it. */
  ghost predicate Good(c: Core, d: Core, n: Node, o: Outcome) {
    && o.Ok?
    && o.node.me == n.me
    && Evolves(c, d, n.me)
    && PeerSound(o.node, d)
    && MsgsOk(o.out, d)
    && n.currentTerm <= o.node.currentTerm
    && o.node.commitIndex < |o.node.log|
    && Committed(c, o.node.log[..o.node.commitIndex + 1], o.node.currentTerm)
    && o.node.applied == n.applied
    && n.commitIndex <= o.node.commitIndex
  }

  /** A guarantee given from a variant of the peer also holds from the peer itself. */
  lemma GoodFrom(c: Core, d: Core, n: Node, a: Node, o: Outcome)
    requires Good(c, d, a, o) && a.me == n.me && n.currentTerm <= a.currentTerm
    requires a.applied == n.applied && n.commitIndex <= a.commitIndex
    ensures Good(c, d, n, o)
  {}

  // ---- Moving to a later term ----

  lemma FollowerSound(n: Node, c: Core, t: nat) returns (d: Core)
    requires Inv(c) && PeerSound(n, c) && n.currentTerm <= t
    ensures Good(c, d, n, Ok(BecomeFollower(n, t), {}))
    ensures d == BumpTerm(c, n.me, t)
  {
    var f := BecomeFollower(n, t);
    d := BumpTerm(c, n.me, t);
    BumpTermKeepsInv(c, n.me, t);
    if t > n.currentTerm {
      assert (t, n.me) in c.ballots ==> BallotOk(c, t, n.me);
    } else {
      assert d.terms == c.terms;
    }
    CommittedGrows(c, d, n.log[..n.commitIndex + 1], n.currentTerm, t);
    EvolvesReflexive(c, n.me);
    CommittedGrows(c, c, n.log[..n.commitIndex + 1], n.currentTerm, t);
  }

  // ---- Votes ----

  lemma VoteSound(n: Node, c: Core, m: Msg) returns (d: Core)
    requires Inv(c) && PeerSound(n, c) && n.role.Follower? && MsgOk(m, c) && m.VoteReq? && m.term == n.currentTerm
    ensures Good(c, d, n, HandleVote(n, m))
  {
    if (n.votedFor == NONE || n.votedFor == m.from) && MoreUpToDate(n.log, m.lastLogIndex, m.lastLogTerm) {
      d := GrantSound(n, c, m);
    } else {
      d := c;
      EvolvesReflexive(c, n.me);
    }
  }

  lemma GrantSound(n: Node, c: Core, m: Msg) returns (d: Core)
    requires Inv(c) && PeerSound(n, c) && n.role.Follower? && MsgOk(m, c) && m.VoteReq? && m.term == n.currentTerm
    requires n.votedFor == NONE || n.votedFor == m.from
    requires MoreUpToDate(n.log, m.lastLogIndex, m.lastLogTerm)
    ensures Good(c, d, n, Ok(n.(votedFor := m.from), {VoteResp(n.currentTerm, n.me, m.from, true)}))
  {
    var log := c.campaigns[(m.term, m.from)];
    assert LogOk(c, n.me);
    assert UpToDate(log, n.log);
    d := CastVote(c, n.me, m.from);
    CastVoteKeepsInv(c, n.me, m.from);
    CommittedGrows(c, d, n.log[..n.commitIndex + 1], n.currentTerm, n.currentTerm);
  }

  // ---- Appends ----

  /** What an append request of the leader with log `lead` looks like to a peer with log `log`. */
  ghost predicate CopyOf(m: Msg, log: seq<Entry>, lead: seq<Entry>) {
    && m.AppReq?
    && m.prev < |log|
    && m.prev + |m.entries| < |lead|
    && (forall i | 0 <= i < |log| :: log[i].index == i)
    && (forall k | 0 <= k < |m.entries| :: m.entries[k].index == m.prev + 1 + k)
    && (forall k | 0 <= k < |m.entries| :: m.entries[k] == lead[m.prev + 1 + k])
    && log[m.prev].term == lead[m.prev].term
    && log[0] == lead[0]
  }

  /** Without a conflict the log already contains what the request covers. */
  lemma NoConflictContains(c: Core, log: seq<Entry>, lead: seq<Entry>, m: Msg)
    requires CopyOf(m, log, lead) && Sane(c, log) && Sane(c, lead) && FindConflict(log, m.entries) == 0
    ensures lead[..m.prev + |m.entries| + 1] <= log
  {
    var last := m.prev + |m.entries|;
    ConflictRange(log, m.entries, m.prev + 1);
    if m.entries != [] {
      var k := |m.entries| - 1;
      assert MatchTerm(log, m.prev + 1 + k, m.entries[k].term);
    }
    SaneLogsMatch(c, log, lead, last);
  }

  /** Below the first conflict the logs agree; at it they differ. */
  lemma ConflictSplits(c: Core, log: seq<Entry>, lead: seq<Entry>, m: Msg, ci: nat)
    requires CopyOf(m, log, lead) && Sane(c, log) && Sane(c, lead) && FindConflict(log, m.entries) == ci != 0
    ensures m.prev < ci <= m.prev + |m.entries| && ci <= |log|
    ensures log[..ci] == lead[..ci]
    ensures ci < |log| ==> log[ci].term != lead[ci].term
  {
    ConflictRange(log, m.entries, m.prev + 1);
    var b := ci - 1;
    assert log[b].term == lead[b].term by {
      if b > m.prev {
        var k := b - 1 - m.prev;
        assert MatchTerm(log, m.prev + 1 + k, m.entries[k].term);
      }
    }
    SaneLogsMatch(c, log, lead, b);
    assert m.entries[ci - m.prev - 1] == lead[ci];
  }

  lemma JoinAt(log: seq<Entry>, lead: seq<Entry>, ents: seq<Entry>, prev: nat, ci: nat)
    requires prev < ci <= prev + |ents| < |lead| && ci <= |log|
    requires forall k | 0 <= k < |ents| :: ents[k] == lead[prev + 1 + k]
    requires log[..ci] == lead[..ci]
    ensures log[..ci] + ents[ci - (prev + 1)..] == lead[..prev + |ents| + 1]
  {
    var tail := ents[ci - (prev + 1)..];
    assert tail == lead[ci..prev + |ents| + 1];
  }

  lemma ConflictNotContained(c: Core, log: seq<Entry>, lead: seq<Entry>, m: Msg, ci: nat)
    requires CopyOf(m, log, lead) && Sane(c, log) && Sane(c, lead) && FindConflict(log, m.entries) == ci != 0
    ensures !(lead[..m.prev + |m.entries| + 1] <= log)
    ensures Spliced(log, m) == lead[..m.prev + |m.entries| + 1]
  {
    ConflictSplits(c, log, lead, m, ci);
    JoinAt(log, lead, m.entries, m.prev, ci);
    SplicedAt(log, m, ci);
    DiffersAt(log, lead, m.prev + |m.entries|, ci);
  }

  lemma SplicedAt(log: seq<Entry>, m: Msg, ci: nat)
    requires m.AppReq? && m.prev < |log| && (forall i | 0 <= i < |log| :: log[i].index == i)
    requires forall k | 0 <= k < |m.entries| :: m.entries[k].index == m.prev + 1 + k
    requires FindConflict(log, m.entries) == ci != 0
    ensures m.prev + 1 <= ci <= |log| && ci <= m.prev + |m.entries|
    ensures Spliced(log, m) == log[..ci] + m.entries[ci - (m.prev + 1)..]
  {
    ConflictRange(log, m.entries, m.prev + 1);
  }

  lemma DiffersAt(log: seq<Entry>, lead: seq<Entry>, last: nat, ci: nat)
    requires ci <= last < |lead| && (ci < |log| ==> log[ci].term != lead[ci].term)
    ensures !(lead[..last + 1] <= log)
  {
    assert lead[..last + 1][ci] == lead[ci];
  }

  /** The splice of the source is a merge with the leader's log. */
  lemma SplicedIsMerge(c: Core, log: seq<Entry>, lead: seq<Entry>, m: Msg)
    requires CopyOf(m, log, lead) && Sane(c, log) && Sane(c, lead)
    ensures Spliced(log, m) == Merge(log, lead[..m.prev + |m.entries| + 1])
  {
    var ci := FindConflict(log, m.entries);
    if ci == 0 {
      NoConflictContains(c, log, lead, m);
    } else {
      ConflictNotContained(c, log, lead, m, ci);
    }
  }

  /** What a peer has committed is in the log of the leader it hears from. */
  lemma CommittedInLeader(n: Node, c: Core)
    requires Inv(c) && PeerSound(n, c) && n.currentTerm in c.reigns
    ensures n.commitIndex < |c.reigns[n.currentTerm].log|
    ensures n.log[..n.commitIndex + 1] == Upto(c, n.currentTerm, n.commitIndex)
  {
    var p, lead := n.log[..n.commitIndex + 1], c.reigns[n.currentTerm].log;
    assert ReignOk(c, n.currentTerm) && LogOk(c, n.me);
    if |p| > 1 {
      CommittedIsInLeader(c, p, n.currentTerm);
    }
    assert p <= lead;
    assert p == lead[..n.commitIndex + 1];
  }

  /** Merging keeps the committed prefix, and with it what was applied. */
  lemma MergeKeepsCommitted(n: Node, c: Core, last: nat)
    requires Inv(c) && PeerSound(n, c) && n.currentTerm in c.reigns && last < |c.reigns[n.currentTerm].log|
    ensures var log := Merge(n.log, Upto(c, n.currentTerm, last));
            n.commitIndex < |log| && log[..n.commitIndex + 1] == n.log[..n.commitIndex + 1] && StreamOf(n.applied, log)
  {
    CommittedInLeader(n, c);
    var p, log := n.log[..n.commitIndex + 1], Merge(n.log, Upto(c, n.currentTerm, last));
    MergeKeepsCommon(n.log, c.reigns[n.currentTerm].log, last, p);
    forall k | 0 <= k < |n.applied| ensures n.applied[k] == ApplyMsg(k + 1, log[k + 1].command) {
      assert p[k + 1] == n.log[k + 1];
    }
  }

  /** A follower with a new log and commit index is sound once the history records them. */
  lemma FollowerMoved(n: Node, c: Core, d: Core, log: seq<Entry>, commit: nat)
    requires PeerSound(n, c) && n.role.Follower? && Inv(d) && d.ballots == c.ballots && d.terms == c.terms
    requires |d.logs| == |c.logs| && d.logs[n.me] == log
    requires n.commitIndex <= commit < |log| && Committed(d, log[..commit + 1], n.currentTerm)
    requires StreamOf(n.applied, log)
    ensures PeerSound(n.(log := log, commitIndex := commit), d)
  {
    assert LogOk(d, n.me);
  }

  lemma MergedCommitted(n: Node, c: Core, last: nat, commit: nat)
    requires Inv(c) && PeerSound(n, c) && n.currentTerm in c.reigns && last < |c.reigns[n.currentTerm].log|
    requires n.commitIndex <= commit
    requires commit > n.commitIndex ==>
      commit <= last && Committed(c, c.reigns[n.currentTerm].log[..commit + 1], n.currentTerm)
    ensures var log := Merge(n.log, Upto(c, n.currentTerm, last));
            commit < |log| && Committed(c, log[..commit + 1], n.currentTerm) && StreamOf(n.applied, log)
  {
    var log := Merge(n.log, Upto(c, n.currentTerm, last));
    MergeKeepsCommitted(n, c, last);
    if commit > n.commitIndex {
      assert Upto(c, n.currentTerm, last) <= log;
      assert log[..commit + 1] == c.reigns[n.currentTerm].log[..commit + 1];
    }
  }

  /** Acknowledging `upto` after taking over the leader's log through `last`. */
  lemma AcceptSound(n: Node, c: Core, last: nat, upto: nat, commit: nat) returns (d: Core)
    requires Inv(c) && PeerSound(n, c) && n.role.Follower? && CanAccept(c, n.me, last, upto)
    requires n.commitIndex <= commit
    requires commit > n.commitIndex ==>
      commit <= last && Committed(c, c.reigns[n.currentTerm].log[..commit + 1], n.currentTerm)
    ensures d == Accept(c, n.me, last, upto)
    ensures var log := Merge(n.log, Upto(c, n.currentTerm, last));
            Good(c, d, n, Ok(n.(log := log, commitIndex := commit), {}))
  {
    var t := n.currentTerm;
    var log := Merge(n.log, Upto(c, t, last));
    d := Accept(c, n.me, last, upto);
    MergedCommitted(n, c, last, commit);
    AcceptKeepsInv(c, n.me, last, upto);
    CommittedGrows(c, d, log[..commit + 1], t, t);
    FollowerMoved(n, c, d, log, commit);
    MovedGood(c, d, n, n.(log := log, commitIndex := commit));
  }

  lemma MovedGood(c: Core, d: Core, n: Node, a: Node)
    requires Evolves(c, d, n.me) && PeerSound(a, d) && a == n.(log := a.log, commitIndex := a.commitIndex)
    requires n.commitIndex <= a.commitIndex < |a.log| && Committed(c, a.log[..a.commitIndex + 1], a.currentTerm)
    ensures Good(c, d, n, Ok(a, {}))
  {}

  lemma ShortcutSound(n: Node, c: Core, m: Msg) returns (d: Core)
    requires Inv(c) && PeerSound(n, c) && n.role.Follower? && MsgOk(m, c) && m.AppReq? && m.term == n.currentTerm
    requires m.prev < n.commitIndex
    ensures Good(c, d, n, HandleAppendEntries(n, m))
  {
    CommittedInLeader(n, c);
    var k := n.commitIndex;
    assert Merge(n.log, Upto(c, n.currentTerm, k)) == n.log;
    d := AcceptSound(n, c, k, k, k);
    assert n.(log := n.log, commitIndex := k) == n;
    assert Acked(d, n.currentTerm, n.me, k);
  }

  /** An append that matches is accepted without a panic. */
  lemma AcceptAppendValue(n: Node, m: Msg, a: Node)
    requires WellFormed(n) && m.AppReq? && WellFormedMsg(m, n.peers)
    requires n.commitIndex <= m.prev && MatchTerm(n.log, m.prev, m.prevTerm)
    requires m.commit <= m.prev + |m.entries|
    requires a == n.(log := Spliced(n.log, m),
                     commitIndex := if m.commit > n.commitIndex then m.commit else n.commitIndex)
    ensures HandleAppendEntries(n, m) == Ok(a, {AppendReply(a, m, true, m.prev + |m.entries| + 1, 0, 0)})
  {
    ConflictRange(n.log, m.entries, m.prev + 1);
    var b := n.(log := Spliced(n.log, m));
    assert LastIndex(b) == |b.log| - 1 >= m.prev + |m.entries|;
    assert m.commit > n.commitIndex ==> CommitTo(b, m.commit) == Ok(a, {});
    var reply := AppendReply(a, m, true, m.prev + |m.entries| + 1, 0, 0);
    assert Replied(a, reply) == Ok(a, {reply});
  }

  lemma RequestIsCopy(n: Node, c: Core, m: Msg)
    requires Inv(c) && PeerSound(n, c) && MsgOk(m, c) && m.AppReq?
    requires MatchTerm(n.log, m.prev, m.prevTerm)
    ensures var lead := c.reigns[m.term].log;
            CopyOf(m, n.log, lead) && Sane(c, n.log) && Sane(c, lead)
  {
    assert LogOk(c, n.me) && ReignOk(c, m.term);
  }

  /** The merge on the peer's log is what the source's splice produces. */
  lemma AcceptedNode(n: Node, c: Core, m: Msg) returns (a: Node)
    requires Inv(c) && PeerSound(n, c) && MsgOk(m, c) && m.AppReq? && m.term == n.currentTerm
    requires n.commitIndex <= m.prev && MatchTerm(n.log, m.prev, m.prevTerm)
    ensures a == n.(log := Merge(n.log, Upto(c, m.term, m.prev + |m.entries|)),
                    commitIndex := if m.commit > n.commitIndex then m.commit else n.commitIndex)
    ensures HandleAppendEntries(n, m) == Ok(a, {AppendReply(a, m, true, m.prev + |m.entries| + 1, 0, 0)})
  {
    var lead := c.reigns[m.term].log;
    RequestIsCopy(n, c, m);
    SplicedIsMerge(c, n.log, lead, m);
    a := n.(log := Spliced(n.log, m), commitIndex := if m.commit > n.commitIndex then m.commit else n.commitIndex);
    AcceptAppendValue(n, m, a);
  }

  lemma WithReply(c: Core, d: Core, n: Node, a: Node, reply: Msg)
    requires Good(c, d, n, Ok(a, {})) && MsgOk(reply, d)
    ensures Good(c, d, n, Ok(a, {reply}))
  {}

  lemma RequestAcceptable(n: Node, c: Core, m: Msg)
    requires Inv(c) && PeerSound(n, c) && MsgOk(m, c) && m.AppReq? && m.term == n.currentTerm
    ensures CanAccept(c, n.me, m.prev + |m.entries|, m.prev + |m.entries|)
    ensures m.commit <= m.prev + |m.entries| && Committed(c, c.reigns[n.currentTerm].log[..m.commit + 1], n.currentTerm)
  {}

  lemma AcceptReplyOk(n: Node, c: Core, m: Msg, a: Node)
    requires Inv(c) && PeerSound(n, c) && MsgOk(m, c) && m.AppReq? && m.term == n.currentTerm
    requires a.currentTerm == n.currentTerm && a.me == n.me && a.peers == n.peers
    requires CanAccept(c, n.me, m.prev + |m.entries|, m.prev + |m.entries|)
    ensures var last := m.prev + |m.entries|;
            MsgOk(AppendReply(a, m, true, last + 1, 0, 0), Accept(c, n.me, last, last))
  {
    var last := m.prev + |m.entries|;
    assert Acked(Accept(c, n.me, last, last), m.term, n.me, last);
  }

  lemma AcceptedGood(n: Node, c: Core, m: Msg, a: Node) returns (d: Core)
    requires Inv(c) && PeerSound(n, c) && n.role.Follower? && MsgOk(m, c) && m.AppReq? && m.term == n.currentTerm
    requires a == n.(log := Merge(n.log, Upto(c, m.term, m.prev + |m.entries|)),
                     commitIndex := if m.commit > n.commitIndex then m.commit else n.commitIndex)
    ensures d == Accept(c, n.me, m.prev + |m.entries|, m.prev + |m.entries|) && Good(c, d, n, Ok(a, {}))
  {
    var last := m.prev + |m.entries|;
    RequestAcceptable(n, c, m);
    d := AcceptSound(n, c, last, last, a.commitIndex);
  }

  lemma AcceptedSound(n: Node, c: Core, m: Msg, a: Node) returns (d: Core)
    requires Inv(c) && PeerSound(n, c) && n.role.Follower? && MsgOk(m, c) && m.AppReq? && m.term == n.currentTerm
    requires a == n.(log := Merge(n.log, Upto(c, m.term, m.prev + |m.entries|)),
                     commitIndex := if m.commit > n.commitIndex then m.commit else n.commitIndex)
    ensures Good(c, d, n, Ok(a, {AppendReply(a, m, true, m.prev + |m.entries| + 1, 0, 0)}))
  {
    var last := m.prev + |m.entries|;
    d := AcceptedGood(n, c, m, a);
    RequestAcceptable(n, c, m);
    AcceptReplyOk(n, c, m, a);
    WithReply(c, d, n, a, AppendReply(a, m, true, last + 1, 0, 0));
  }

  lemma AcceptAppendSound(n: Node, c: Core, m: Msg) returns (d: Core)
    requires Inv(c) && PeerSound(n, c) && n.role.Follower? && MsgOk(m, c) && m.AppReq? && m.term == n.currentTerm
    requires n.commitIndex <= m.prev && MatchTerm(n.log, m.prev, m.prevTerm)
    ensures Good(c, d, n, HandleAppendEntries(n, m))
  {
    var a := AcceptedNode(n, c, m);
    d := AcceptedSound(n, c, m, a);
  }

  lemma RejectSound(n: Node, c: Core, m: Msg) returns (d: Core)
    requires Inv(c) && PeerSound(n, c) && n.role.Follower? && MsgOk(m, c) && m.AppReq? && m.term == n.currentTerm
    requires n.commitIndex <= m.prev && !MatchTerm(n.log, m.prev, m.prevTerm)
    ensures Good(c, d, n, HandleAppendEntries(n, m))
  {
    d := c;
    EvolvesReflexive(c, n.me);
  }

  lemma AppendSound(n: Node, c: Core, m: Msg) returns (d: Core)
    requires Inv(c) && PeerSound(n, c) && n.role.Follower? && MsgOk(m, c) && m.AppReq? && m.term == n.currentTerm
    ensures Good(c, d, n, HandleAppendEntries(n, m))
  {
    if m.prev < n.commitIndex {
      d := ShortcutSound(n, c, m);
    } else if MatchTerm(n.log, m.prev, m.prevTerm) {
      d := AcceptAppendSound(n, c, m);
    } else {
      d := RejectSound(n, c, m);
    }
  }

  // ---- Broadcasting ----

  lemma BroadcastSound(n: Node, c: Core)
    requires Inv(c) && PeerSound(n, c) && n.role.Leader?
    ensures BroadcastAppend(n) == Ok(Persist(n), AppendRequests(n))
    ensures MsgsOk(AppendRequests(n), c)
  {
    assert ReignOk(c, n.currentTerm);
    forall m | m in AppendRequests(n) ensures MsgOk(m, c) {
      var i :| 0 <= i < n.peers && i != n.me && m == AppendFor(n, i);
      assert m.entries == n.log[m.prev + 1..m.prev + 1 + |m.entries|];
    }
  }

  // ---- Elections ----

  /** Nobody leads a term it has not reached. */
  lemma NoReignAhead(c: Core, i: nat, t: nat)
    requires Inv(c) && t in c.reigns && c.reigns[t].leader == i
    ensures i < |c.terms| && t <= c.terms[i]
  {
    assert ReignOk(c, t);
    var r := c.reigns[t];
    var j := QuorumsMeet(|c.terms|, r.voters, r.voters);
    assert BallotOk(c, t, j);
    assert CampaignOk(c, t, i);
  }

  /** The candidate a campaign produces. */
  function Campaigner(n: Node): Node {
    BecomeCandidate(n).(votes := map[n.me := true])
  }

  /** In a group of two or more a campaign is saved before its requests leave. */
  lemma CampaignValue(n: Node)
    requires WellFormed(n) && n.peers >= 2 && !n.role.Leader?
    ensures Campaign(n) == Ok(Persist(Campaigner(n)), VoteRequests(Campaigner(n)))
  {
    assert Granted(map[n.me := true]) == {n.me};
    assert Poll(map[], n.me, true) == map[n.me := true];
  }

  lemma CandidateSound(n: Node, c: Core, a: Node) returns (d: Core)
    requires Inv(c) && PeerSound(n, c) && !n.role.Leader? && a == Campaigner(n)
    ensures d == StartCampaign(c, n.me) && Evolves(c, d, n.me) && PeerSound(a, d)
    ensures Committed(c, n.log[..n.commitIndex + 1], n.currentTerm + 1)
  {
    d := StartCampaign(c, n.me);
    CampaignKeepsInv(c, n.me);
    var t := n.currentTerm + 1;
    if t in c.reigns && c.reigns[t].leader == n.me {
      NoReignAhead(c, n.me, t);
      assert false;
    }
    CommittedGrows(c, d, n.log[..n.commitIndex + 1], n.currentTerm, t);
    EvolvesReflexive(c, n.me);
    CommittedGrows(c, c, n.log[..n.commitIndex + 1], n.currentTerm, t);
  }

  lemma CampaignSound(n: Node, c: Core) returns (d: Core)
    requires Inv(c) && PeerSound(n, c) && !n.role.Leader?
    ensures Good(c, d, n, Campaign(n)) && DiskOk(Campaign(n).node)
  {
    var a := Campaigner(n);
    CampaignValue(n);
    d := CandidateSound(n, c, a);
    forall m | m in VoteRequests(a) ensures MsgOk(m, d) {}
  }

  /** Enough granted votes elect the candidate, and no other leader of its term exists. */
  lemma VictorySound(n: Node, c: Core) returns (d: Core)
    requires Inv(c) && PeerSound(n, c) && n.role.Candidate? && |Granted(n.votes)| == Majority(n.peers)
    ensures d == Elect(c, n.me) && Evolves(c, d, n.me) && PeerSound(BecomeLeader(n), d)
  {
    var t, q := n.currentTerm, Supporters(c, n.currentTerm, n.me);
    SubsetCardinality(Granted(n.votes), q);
    if t in c.reigns {
      OneWinner(c, t, n.me);
      assert false;
    }
    d := Elect(c, n.me);
    ElectKeepsInv(c, n.me);
    CommittedGrows(c, d, n.log[..n.commitIndex + 1], t, t);
  }

  lemma PolledSound(n: Node, c: Core, m: Msg)
    requires PeerSound(n, c) && n.role.Candidate? && MsgOk(m, c) && m.VoteResp? && m.term == n.currentTerm
    requires m.to == n.me
    ensures PeerSound(n.(votes := Poll(n.votes, m.from, m.granted)), c)
  {}

  lemma ElectedSound(n: Node, c: Core) returns (d: Core)
    requires Inv(c) && PeerSound(n, c) && n.role.Candidate? && |Granted(n.votes)| == Majority(n.peers)
    ensures Good(c, d, n, BroadcastAppend(BecomeLeader(n)))
  {
    d := VictorySound(n, c);
    BroadcastSound(BecomeLeader(n), d);
  }

  lemma UnchangedSound(n: Node, c: Core)
    requires Inv(c) && PeerSound(n, c)
    ensures Good(c, c, n, Ok(n, {}))
  {
    EvolvesReflexive(c, n.me);
  }

  lemma TallySound(n: Node, c: Core) returns (d: Core)
    requires Inv(c) && PeerSound(n, c) && n.role.Candidate?
    ensures Good(c, d, n, Tally(n))
  {
    if |Granted(n.votes)| == Majority(n.peers) {
      assert Tally(n) == BroadcastAppend(BecomeLeader(n));
      d := ElectedSound(n, c);
    } else if |n.votes| - |Granted(n.votes)| == Majority(n.peers) {
      assert Tally(n) == Ok(BecomeFollower(n, n.currentTerm), {});
      d := FollowerSound(n, c, n.currentTerm);
    } else {
      assert Tally(n) == Ok(n, {});
      d := c;
      UnchangedSound(n, c);
    }
  }

  lemma VoteReplySound(n: Node, c: Core, m: Msg) returns (d: Core)
    requires Inv(c) && PeerSound(n, c) && n.role.Candidate? && MsgOk(m, c) && m.VoteResp? && m.term == n.currentTerm
    requires m.to == n.me
    ensures Good(c, d, n, HandleVoteReply(n, m))
  {
    PolledSound(n, c, m);
    var a := n.(votes := Poll(n.votes, m.from, m.granted));
    d := TallySound(a, c);
    GoodFrom(c, d, n, a, Tally(a));
  }

  // ---- The leader ----

  /** A majority of match indexes at an index of the current term makes it chosen. */
  lemma QuorumIndexChosen(n: Node, c: Core)
    requires Inv(c) && PeerSound(n, c) && n.role.Leader?
    requires QuorumIndex(n) > n.commitIndex && QuorumIndex(n) < |n.log| && n.log[QuorumIndex(n)].term == n.currentTerm
    ensures Chosen(c, n.currentTerm, QuorumIndex(n))
    ensures Committed(c, n.log[..QuorumIndex(n) + 1], n.currentTerm)
  {
    var mci, t := QuorumIndex(n), n.currentTerm;
    var q := Reaching(n.matchIndex, mci);
    RankIsGreatestReached(n.matchIndex, Majority(n.peers), mci);
    forall j | j in q ensures Acked(c, t, j, mci) && j in Ids(n.peers) {}
    assert AckedBy(c, t, mci, q);
    assert CommittedVia(c, n.log[..mci + 1], t, t, mci);
  }

  lemma UpdateCommitSound(n: Node, c: Core)
    requires Inv(c) && PeerSound(n, c) && n.role.Leader?
    ensures Good(c, c, n, UpdateCommitIndex(n))
  {
    EvolvesReflexive(c, n.me);
    QuorumIndexInLog(n);
    if QuorumIndex(n) > n.commitIndex && n.log[QuorumIndex(n)].term == n.currentTerm {
      QuorumIndexChosen(n, c);
    }
  }

  /** No reply sends the leader past its own log. */
  lemma ReplyWithinLog(n: Node, c: Core, m: Msg)
    requires Inv(c) && PeerSound(n, c) && n.role.Leader? && MsgOk(m, c) && m.AppResp? && m.term == n.currentTerm
    ensures 1 <= m.next <= |n.log|
  {
    if !m.success && m.next > 1 && !(m.next <= |c.reigns[m.term].log|) {
      var p :| |p| == m.next && Committed(c, p, m.term);
      CommittedIsInLeader(c, p, m.term);
    }
  }

  /** A leader hears that a request of its was turned down which reached past its present log. */
  predicate Overreaches(n: Node, m: Msg) {
    n.role.Leader? && m.AppResp? && !m.success && m.term == n.currentTerm && m.prev - 1 >= |n.log|
  }

  /** The fault the source does not guard. */
  ghost predicate ScanFault(n: Node, m: Msg, o: Outcome) {
    Overreaches(n, m) && o == Panic(ScanOutOfRange)
  }

  lemma OverreachPanics(n: Node, c: Core, m: Msg)
    requires Inv(c) && PeerSound(n, c) && MsgOk(m, c) && Overreaches(n, m)
    ensures StepUnsaved(n, m) == Panic(ScanOutOfRange)
  {
    ReplyWithinLog(n, c, m);
    ScanRange(n.log, m.prev - 1, m.conflictTerm);
  }

  /** The leader with the progress a success reports. */
  function Progressed(n: Node, m: Msg): Node
    requires m.AppResp? && m.from < |n.nextIndex| == |n.matchIndex|
  {
    n.(nextIndex := n.nextIndex[m.from := m.next], matchIndex := n.matchIndex[m.from := m.next - 1])
  }

  lemma ProgressedSound(n: Node, c: Core, m: Msg)
    requires Inv(c) && PeerSound(n, c) && n.role.Leader? && MsgOk(m, c) && m.AppResp? && m.term == n.currentTerm
    requires m.success
    requires 1 <= m.next <= |n.log|
    ensures PeerSound(Progressed(n, m), c)
  {}

  lemma SuccessReplySound(n: Node, c: Core, m: Msg)
    requires Inv(c) && PeerSound(n, c) && n.role.Leader? && MsgOk(m, c) && m.AppResp? && m.term == n.currentTerm
    requires m.success
    ensures Good(c, c, n, HandleAppendReply(n, m))
  {
    ReplyWithinLog(n, c, m);
    if m.next >= n.nextIndex[m.from] {
      var a := Progressed(n, m);
      ProgressedSound(n, c, m);
      UpdateCommitSound(a, c);
      var o := UpdateCommitIndex(a);
      GoodFrom(c, c, n, a, o);
      assert HandleAppendReply(n, m) == o;
    } else {
      EvolvesReflexive(c, n.me);
    }
  }

  /** After a rejection the leader always goes to the index the reply names. */
  lemma RejectionSound(n: Node, c: Core, m: Msg)
    requires Inv(c) && PeerSound(n, c) && n.role.Leader? && MsgOk(m, c) && m.AppResp? && m.term == n.currentTerm
    requires !m.success
    ensures Good(c, c, n, HandleAppendReply(n, m)) || ScanFault(n, m, HandleAppendReply(n, m))
    ensures HandleAppendReply(n, m).Ok? ==>
              HandleAppendReply(n, m).node == n.(nextIndex := n.nextIndex[m.from := m.next])
  {
    ReplyWithinLog(n, c, m);
    ScanRange(n.log, m.prev - 1, m.conflictTerm);
    if m.prev - 1 < |n.log| {
      var a := n.(nextIndex := n.nextIndex[m.from := m.next]);
      assert HandleAppendReply(n, m) == Ok(a, {});
      assert PeerSound(a, c);
      EvolvesReflexive(c, n.me);
    }
  }

  lemma AppendReplySound(n: Node, c: Core, m: Msg)
    requires Inv(c) && PeerSound(n, c) && n.role.Leader? && MsgOk(m, c) && m.AppResp? && m.term == n.currentTerm
    ensures Good(c, c, n, HandleAppendReply(n, m)) || ScanFault(n, m, HandleAppendReply(n, m))
  {
    if m.success {
      SuccessReplySound(n, c, m);
    } else {
      RejectionSound(n, c, m);
    }
  }

  // ---- Dispatch ----

  lemma IgnoredSound(n: Node, c: Core, out: set<Msg>)
    requires Inv(c) && PeerSound(n, c) && MsgsOk(out, c)
    ensures Good(c, c, n, Ok(n, out))
  {
    EvolvesReflexive(c, n.me);
  }

  lemma StepFollowerSound(n: Node, c: Core, m: Msg) returns (d: Core)
    requires Inv(c) && PeerSound(n, c) && n.role.Follower? && MsgOk(m, c) && m.term == n.currentTerm && m.to == n.me
    ensures Good(c, d, n, StepFollower(n, m))
  {
    if m.VoteReq? {
      d := VoteSound(n, c, m);
    } else if m.AppReq? {
      d := AppendSound(n, c, m);
    } else {
      d := c;
      IgnoredSound(n, c, {});
    }
  }

  lemma CandidateAppendSound(n: Node, c: Core, m: Msg) returns (d: Core)
    requires Inv(c) && PeerSound(n, c) && n.role.Candidate? && MsgOk(m, c) && m.AppReq? && m.term == n.currentTerm
    ensures Good(c, d, n, HandleAppendEntries(BecomeFollower(n, n.currentTerm), m))
  {
    var f := BecomeFollower(n, n.currentTerm);
    var e := FollowerSound(n, c, n.currentTerm);
    assert e.terms == c.terms && e == c;
    d := AppendSound(f, c, m);
    GoodFrom(c, d, n, f, HandleAppendEntries(f, m));
  }

  lemma StepCandidateSound(n: Node, c: Core, m: Msg) returns (d: Core)
    requires Inv(c) && PeerSound(n, c) && n.role.Candidate? && MsgOk(m, c) && m.term == n.currentTerm && m.to == n.me
    ensures Good(c, d, n, StepCandidate(n, m))
  {
    if m.AppReq? {
      d := CandidateAppendSound(n, c, m);
    } else if m.VoteResp? {
      d := VoteReplySound(n, c, m);
    } else {
      d := c;
      IgnoredSound(n, c, if m.VoteReq? then {VoteResp(n.currentTerm, n.me, m.from, false)} else {});
    }
  }

  lemma StepLeaderSound(n: Node, c: Core, m: Msg)
    requires Inv(c) && PeerSound(n, c) && n.role.Leader? && MsgOk(m, c) && m.term == n.currentTerm
    ensures Good(c, c, n, StepLeader(n, m)) || ScanFault(n, m, StepLeader(n, m))
  {
    match m
    case AppResp(_, _, _, _, _, _, _, _) => AppendReplySound(n, c, m);
    case VoteReq(_, _, _, _, _) => IgnoredSound(n, c, {VoteResp(0, n.me, m.from, false)});
    case AppReq(_, _, _, _, _, _, _) => IgnoredSound(n, c, {AppResp(0, n.me, m.from, m.prev, false, 0, 0, 0)});
    case VoteResp(_, _, _, _) => IgnoredSound(n, c, {});
  }

  lemma StepRoleSound(n: Node, c: Core, m: Msg) returns (d: Core)
    requires Inv(c) && PeerSound(n, c) && MsgOk(m, c) && m.term == n.currentTerm && m.to == n.me
    ensures Good(c, d, n, StepRole(n, m)) || ScanFault(n, m, StepRole(n, m))
  {
    match n.role
    case Follower => d := StepFollowerSound(n, c, m);
    case Candidate => d := StepCandidateSound(n, c, m);
    case Leader => d := c; StepLeaderSound(n, c, m);
  }

  lemma StaleSound(n: Node, c: Core, m: Msg)
    requires Inv(c) && PeerSound(n, c) && MsgOk(m, c) && m.term < n.currentTerm
    ensures Good(c, c, n, Ok(n, StaleReply(n, m)))
  {
    var p := n.log[..n.commitIndex + 1];
    assert |p| == n.commitIndex + 1 && Committed(c, p, n.currentTerm);
    assert NextBounded(c, n.currentTerm, n.commitIndex + 1);
    IgnoredSound(n, c, StaleReply(n, m));
  }

  /** Moving a peer's term forward commits nothing. */
  lemma CommittedUnbumped(c: Core, i: nat, t: nat, p: seq<Entry>, bound: nat)
    requires i < |c.terms| && Committed(BumpTerm(c, i, t), p, bound)
    ensures Committed(c, p, bound)
  {
    var d := BumpTerm(c, i, t);
    if |p| > 1 {
      var u: nat, k: nat :| CommittedVia(d, p, bound, u, k);
      var q :| IsQuorum(|d.terms|, q) && AckedBy(d, u, k, q);
      assert AckedBy(c, u, k, q);
      assert CommittedVia(c, p, bound, u, k);
    }
  }

  lemma LaterTermSound(n: Node, c: Core, m: Msg) returns (d: Core)
    requires Inv(c) && PeerSound(n, c) && MsgOk(m, c) && m.term > n.currentTerm && m.to == n.me
    ensures Good(c, d, n, StepRole(BecomeFollower(n, m.term), m))
  {
    var f := BecomeFollower(n, m.term);
    var e := FollowerSound(n, c, m.term);
    MsgGrows(c, e, m);
    d := StepFollowerSound(f, e, m);
    AfterBump(c, e, d, n, f, StepFollower(f, m), m.term);
  }

  lemma AfterBump(c: Core, e: Core, d: Core, n: Node, f: Node, o: Outcome, t: nat)
    requires n.me < |c.terms| && e == BumpTerm(c, n.me, t) && Evolves(c, e, n.me) && Good(e, d, f, o)
    requires f.me == n.me && f.applied == n.applied && f.commitIndex == n.commitIndex && n.currentTerm <= f.currentTerm
    ensures Good(c, d, n, o)
  {
    EvolvesTransitive(c, e, d, n.me);
    CommittedUnbumped(c, n.me, t, o.node.log[..o.node.commitIndex + 1], o.node.currentTerm);
  }

  lemma StepUnsavedSound(n: Node, c: Core, m: Msg) returns (d: Core)
    requires Inv(c) && PeerSound(n, c) && MsgOk(m, c) && m.to == n.me
    ensures Good(c, d, n, StepUnsaved(n, m)) || ScanFault(n, m, StepUnsaved(n, m))
  {
    if m.term > n.currentTerm {
      d := LaterTermSound(n, c, m);
    } else if m.term < n.currentTerm {
      d := c;
      StaleSound(n, c, m);
    } else {
      d := StepRoleSound(n, c, m);
    }
  }

  lemma Saved(c: Core, d: Core, n: Node, o: Outcome)
    requires Good(c, d, n, o)
    ensures Good(c, d, n, Finish(o)) && NodeOk(Finish(o).node, d)
  {}

  /** Step keeps everything, and the only panic left is the leader's unguarded scan. */
  lemma StepSound(n: Node, c: Core, m: Msg) returns (d: Core)
    requires Inv(c) && NodeOk(n, c) && MsgOk(m, c) && m.to == n.me
    ensures (Good(c, d, n, Step(n, m)) && NodeOk(Step(n, m).node, d)) ||
            ScanFault(n, m, Step(n, m))
  {
    d := StepUnsavedSound(n, c, m);
    var o := StepUnsaved(n, m);
    if Good(c, d, n, o) {
      Saved(c, d, n, o);
    }
  }

  // ---- Timers, clients, the application, crashes ----

  lemma TickSound(n: Node, c: Core) returns (d: Core)
    requires Inv(c) && NodeOk(n, c)
    ensures Good(c, d, n, Tick(n)) && NodeOk(Tick(n).node, d)
  {
    if n.role.Leader? {
      d := c;
      EvolvesReflexive(c, n.me);
      BroadcastSound(n, c);
    } else {
      d := CampaignSound(n, c);
    }
  }

  lemma AppendedSound(n: Node, c: Core, cmd: Command) returns (d: Core)
    requires Inv(c) && PeerSound(n, c) && n.role.Leader?
    ensures d == LeaderAppend(c, n.me, cmd) && Evolves(c, d, n.me) && PeerSound(AppendCommand(n, cmd), d)
    ensures Committed(c, AppendCommand(n, cmd).log[..n.commitIndex + 1], n.currentTerm)
  {
    d := LeaderAppend(c, n.me, cmd);
    LeaderAppendKeepsInv(c, n.me, cmd);
    var a := AppendCommand(n, cmd);
    assert a.log[..n.commitIndex + 1] == n.log[..n.commitIndex + 1];
    CommittedGrows(c, d, n.log[..n.commitIndex + 1], n.currentTerm, n.currentTerm);
    AppendedPeer(n, c, d, cmd);
  }

  lemma AppendedPeer(n: Node, c: Core, d: Core, cmd: Command)
    requires Inv(c) && PeerSound(n, c) && n.role.Leader? && d == LeaderAppend(c, n.me, cmd)
    requires Committed(d, AppendCommand(n, cmd).log[..n.commitIndex + 1], n.currentTerm)
    ensures PeerSound(AppendCommand(n, cmd), d)
  {
    assert Acked(d, n.currentTerm, n.me, |n.log|);
  }

  lemma StartSound(n: Node, c: Core, cmd: Command) returns (d: Core)
    requires Inv(c) && NodeOk(n, c)
    ensures Good(c, d, n, HandleStart(n, cmd)) && NodeOk(HandleStart(n, cmd).node, d)
  {
    if n.role.Leader? {
      d := AppendedSound(n, c, cmd);
      BroadcastSound(AppendCommand(n, cmd), d);
    } else {
      d := c;
      IgnoredSound(n, c, {});
    }
  }

  lemma ApplySound(n: Node, c: Core)
    requires NodeOk(n, c)
    ensures ApplyNext(n).Ok? && ApplyNext(n).out == {} && NodeOk(ApplyNext(n).node, c)
  {
    assert ApplyNext(n).Ok?;
    var a := ApplyNext(n).node;
    assert StreamOf(a.applied, n.log);
  }

  lemma BootSound(n: Node, c: Core)
    requires Inv(c) && NodeOk(n, c)
    ensures NodeOk(Boot(n.me, n.peers, n.disk), c)
  {
    var b := Boot(n.me, n.peers, n.disk);
    assert LogOk(c, n.me);
    assert |b.log[..1]| == 1;
  }
}
