/** Committing, merging and repairing logs: what the replication handlers achieve in any run. */
module RaftReplication {
  import opened RaftTypes
  import opened Quorums
  import opened RaftHandlers
  import opened RaftCore
  import opened RaftActions
  import opened RaftInvariant
  import opened RaftSteps
  import opened RaftCluster
  import opened RaftSafety

  // ---- Committing by rank ----

  /** The commit rule of Figure 2 of the Raft paper, for one candidate index. */
  ghost predicate MayCommit(n: Node, index: nat) {
    && n.commitIndex < index < |n.log|
    && |Reaching(n.matchIndex, index)| >= Majority(n.peers)
    && n.log[index].term == n.currentTerm
  }

  /** Sorting and taking one rank commits exactly when the rule allows some index, and then the largest. */
  lemma CommitsLargestAllowed(n: Node)
    requires WellFormed(n) && WellFormedLog(n.log, n.currentTerm)
    ensures UpdateCommitIndex(n).Ok?
    ensures var now := UpdateCommitIndex(n).node;
            && now == n.(commitIndex := now.commitIndex)
            && (now.commitIndex != n.commitIndex <==> exists index: nat :: MayCommit(n, index))
            && (now.commitIndex != n.commitIndex ==> MayCommit(n, now.commitIndex))
            && (forall index: nat | MayCommit(n, index) :: index <= now.commitIndex)
  {
    QuorumIndexInLog(n);
    var mci := QuorumIndex(n);
    RankIsGreatestReached(n.matchIndex, Majority(n.peers), mci);
    forall index: nat | MayCommit(n, index) ensures index <= mci && n.log[mci].term == n.currentTerm {
      RankIsGreatestReached(n.matchIndex, Majority(n.peers), index);
    }
    if mci > n.commitIndex && n.log[mci].term == n.currentTerm {
      assert MayCommit(n, mci);
    }
  }

  /** What the reply makes of a leader's commit index is what the rule of Figure 2 asks for. */
  ghost predicate CommitsByTheRule(n: Node, m: Msg, o: Outcome)
    requires m.AppResp? && m.from < |n.nextIndex| == |n.matchIndex|
  {
    var a := Progressed(n, m);
    && o.Ok? && o.node == Persist(a.(commitIndex := o.node.commitIndex))
    && (o.node.commitIndex != n.commitIndex <==> exists index: nat :: MayCommit(a, index))
    && (o.node.commitIndex != n.commitIndex ==> MayCommit(a, o.node.commitIndex))
    && (forall index: nat | MayCommit(a, index) :: index <= o.node.commitIndex)
  }

  /** In every run, a leader that hears of progress records it and commits by the rule of Figure 2. */
  lemma LeadersCommitByTheRule(peers: nat, run: seq<Event>, m: Msg)
    requires peers >= 2 && m in Exec(peers, run).msgs && m.AppResp? && m.success && m.to < peers && m.from < peers
    requires LeadsIn(Exec(peers, run), m.to, m.term)
    requires m.next >= Exec(peers, run).nodes[m.to].nextIndex[m.from]
    ensures var n := Exec(peers, run).nodes[m.to]; CommitsByTheRule(n, m, Step(n, m))
  {
    var c, d := Histories(peers, run, |run|);
    var n := Exec(peers, run).nodes[m.to];
    assert MsgOk(m, d) && NodeOk(n, d);
    ReplyWithinLog(n, d, m);
    ProgressedSound(n, d, m);
    LogsWellFormed(peers, run, m.to);
    ReplyCommits(n, m, UpdateCommitIndex(Progressed(n, m)));
  }

  lemma ReplyCommits(n: Node, m: Msg, o: Outcome)
    requires WellFormed(n) && n.role.Leader? && m.AppResp? && WellFormedMsg(m, n.peers) && m.success
    requires m.term == n.currentTerm && n.nextIndex[m.from] <= m.next <= |n.log|
    requires WellFormed(Progressed(n, m)) && WellFormedLog(n.log, n.currentTerm)
    requires o == UpdateCommitIndex(Progressed(n, m))
    ensures CommitsByTheRule(n, m, Step(n, m))
  {
    CommitsLargestAllowed(Progressed(n, m));
    assert Step(n, m) == Finish(o);
  }

  /** Nothing else moves the commit index of a leader while it leads. */
  lemma LeadersCommitNoOtherWay(n: Node, m: Msg)
    requires WellFormed(n) && n.role.Leader? && WellFormedMsg(m, n.peers) && Step(n, m).Ok?
    requires Step(n, m).node.currentTerm == n.currentTerm && Step(n, m).node.commitIndex != n.commitIndex
    ensures m.AppResp? && m.success && m.term == n.currentTerm && m.next >= n.nextIndex[m.from]
  {}

  // ---- Merging ----

  /** The peer would take this append into account: it is not past its term and is not leading it. */
  predicate Heeds(n: Node, m: Msg) {
    m.AppReq? && n.currentTerm <= m.term && (n.currentTerm == m.term ==> !n.role.Leader?)
  }

  ghost predicate Arrives(s: Cluster, m: Msg) {
    m in s.msgs && m.to < |s.nodes| && Heeds(s.nodes[m.to], m)
  }

  ghost predicate Matches(n: Node, m: Msg)
    requires m.AppReq?
  {
    n.commitIndex <= m.prev && MatchTerm(n.log, m.prev, m.prevTerm)
  }

  /** The peer as it handles an append of term t: a candidate, or one behind in term, has stepped down first. */
  function SteppedDown(n: Node, t: nat): Node {
    if n.role.Candidate? || n.currentTerm < t then BecomeFollower(n, t) else n
  }

  lemma SteppedDownSound(n: Node, c: Core, m: Msg) returns (e: Core)
    requires Inv(c) && PeerSound(n, c) && MsgOk(m, c) && Heeds(n, m)
    ensures var f := SteppedDown(n, m.term);
            && Inv(e) && PeerSound(f, e) && MsgOk(m, e) && e.reigns == c.reigns
            && f.role.Follower? && f.currentTerm == m.term && f.log == n.log && f.commitIndex == n.commitIndex
  {
    e := FollowerSound(n, c, m.term);
    MsgGrows(c, e, m);
    if n.role.Follower? && n.currentTerm == m.term {
      e := c;
    }
  }

  lemma AppendStep(n: Node, m: Msg)
    requires WellFormed(n) && WellFormedMsg(m, n.peers) && Heeds(n, m) && WellFormed(SteppedDown(n, m.term))
    ensures Step(n, m) == Finish(HandleAppendEntries(SteppedDown(n, m.term), m))
  {}

  /** Everything about one accepted append, for a sound follower. */
  lemma AcceptedLogOf(f: Node, c: Core, m: Msg)
    requires Inv(c) && PeerSound(f, c) && MsgOk(m, c) && m.AppReq? && m.term == f.currentTerm && Matches(f, m)
    ensures var o := HandleAppendEntries(f, m);
            && o.Ok?
            && o.node.log == Merge(f.log, Upto(c, m.term, m.prev + |m.entries|))
            && CommitWithin(f, o.node)
  {
    var a := AcceptedNode(f, c, m);
    RequestAcceptable(f, c, m);
    MergedWithin(f, c, m.prev + |m.entries|, a);
  }

  lemma MergedWithin(f: Node, c: Core, last: nat, a: Node)
    requires Inv(c) && PeerSound(f, c) && f.currentTerm in c.reigns && last < |c.reigns[f.currentTerm].log|
    requires a.log == Merge(f.log, Upto(c, f.currentTerm, last))
    ensures CommitWithin(f, a)
  {
    MergeKeepsCommitted(f, c, last);
  }

  /** What a handler did to the log is what Step reports. */
  lemma StepReports(n: Node, f: Node, o: Outcome, log: seq<Entry>)
    requires o.Ok? && o.node.log == log && CommitWithin(f, o.node) && f.log == n.log && f.commitIndex == n.commitIndex
    ensures Finish(o).Ok? && Finish(o).node.log == log && CommitWithin(n, Finish(o).node)
  {}

  lemma AcceptedLog(n: Node, c: Core, m: Msg)
    requires Inv(c) && NodeOk(n, c) && MsgOk(m, c) && Heeds(n, m) && Matches(n, m)
    ensures Step(n, m).Ok?
    ensures Step(n, m).node.log == Merge(n.log, Upto(c, m.term, m.prev + |m.entries|))
    ensures CommitWithin(n, Step(n, m).node)
  {
    var f := SteppedDown(n, m.term);
    var e := SteppedDownSound(n, c, m);
    AcceptedLogOf(f, e, m);
    StepReports(n, f, HandleAppendEntries(f, m), Merge(n.log, Upto(c, m.term, m.prev + |m.entries|)));
    AppendStep(n, m);
  }

  /** The committed part of the log is the same before and after. */
  ghost predicate CommitWithin(before: Node, after: Node) {
    before.commitIndex < |before.log| && AgreeThrough(before.log, after.log, before.commitIndex)
  }

  /**
   * An accepted append leaves the peer equal to its leader's log, at any moment at which that log
   * held its entries, through the last entry it covers; it keeps the committed prefix, and changes a
   * log that already contains those entries not at all.
   */
  lemma AcceptedAppendFollowsLeader(peers: nat, run: seq<Event>, a: nat, m: Msg, i: nat)
    requires peers >= 2 && a <= |run| && Arrives(Exec(peers, run), m) && Matches(Exec(peers, run).nodes[m.to], m)
    requires LeadsIn(Exec(peers, run[..a]), i, m.term)
    requires m.prev + |m.entries| < |Exec(peers, run[..a]).nodes[i].log|
    ensures var n := Exec(peers, run).nodes[m.to];
            var lead, last := Exec(peers, run[..a]).nodes[i].log, m.prev + |m.entries|;
            && Step(n, m).Ok?
            && AgreeThrough(Step(n, m).node.log, lead, last)
            && CommitWithin(n, Step(n, m).node)
            && (AgreeThrough(n.log, lead, last) ==> Step(n, m).node.log == n.log)
            && (!AgreeThrough(n.log, lead, last) ==> |Step(n, m).node.log| == last + 1)
  {
    var c, d := Histories(peers, run, a);
    var s, u := Exec(peers, run[..a]), Exec(peers, run);
    assert MsgOk(m, d) && NodeOk(u.nodes[m.to], d) && NodeOk(s.nodes[i], c);
    assert ReignGrows(c, d, m.term);
    FollowsLeaderIn(u.nodes[m.to], d, m, s.nodes[i].log);
  }

  lemma FollowsLeaderIn(n: Node, d: Core, m: Msg, lead: seq<Entry>)
    requires Inv(d) && NodeOk(n, d) && MsgOk(m, d) && Heeds(n, m)
    requires Matches(n, m) && m.prev + |m.entries| < |lead| && lead <= d.reigns[m.term].log
    ensures var last := m.prev + |m.entries|;
            && Step(n, m).Ok?
            && AgreeThrough(Step(n, m).node.log, lead, last)
            && CommitWithin(n, Step(n, m).node)
            && (AgreeThrough(n.log, lead, last) ==> Step(n, m).node.log == n.log)
            && (!AgreeThrough(n.log, lead, last) ==> |Step(n, m).node.log| == last + 1)
  {
    AcceptedLog(n, d, m);
    MergeFollows(n.log, Step(n, m).node.log, d, m.term, lead, m.prev + |m.entries|);
  }

  lemma MergeFollows(log: seq<Entry>, now: seq<Entry>, d: Core, t: nat, lead: seq<Entry>, last: nat)
    requires t in d.reigns && last < |lead| && lead <= d.reigns[t].log && now == Merge(log, Upto(d, t, last))
    ensures AgreeThrough(now, lead, last)
    ensures AgreeThrough(log, lead, last) ==> now == log
    ensures !AgreeThrough(log, lead, last) ==> |now| == last + 1
  {
    assert Upto(d, t, last) == lead[..last + 1];
    MergeMeets(log, lead, last);
  }

  /** The entries of the append stand in the log right after `prev`. */
  ghost predicate Carries(log: seq<Entry>, m: Msg)
    requires m.AppReq?
  {
    m.prev + |m.entries| < |log| && log[m.prev + 1..m.prev + 1 + |m.entries|] == m.entries
  }

  /**
   * Whether or not its sender still leads, an accepted append puts exactly its entries after `prev`,
   * keeps all up to `prev`, changes nothing if they were there, and else ends the log with them.  The
   * peer takes over the sender's commit index if that is higher, and acknowledges through the last entry.
   */
  lemma AcceptedAppendCarries(peers: nat, run: seq<Event>, m: Msg)
    requires peers >= 2 && Arrives(Exec(peers, run), m) && Matches(Exec(peers, run).nodes[m.to], m)
    ensures var n := Exec(peers, run).nodes[m.to];
            && Step(n, m).Ok? && Carries(Step(n, m).node.log, m)
            && Step(n, m).node.role.Follower? && Step(n, m).node.currentTerm == m.term
            && Step(n, m).out == {AppResp(m.term, m.to, m.from, m.prev, true, m.prev + |m.entries| + 1, 0, 0)}
            && Step(n, m).node.commitIndex == (if m.commit > n.commitIndex then m.commit else n.commitIndex)
            && Step(n, m).node.log[..m.prev + 1] == n.log[..m.prev + 1]
            && (Carries(n.log, m) ==> Step(n, m).node.log == n.log)
            && (!Carries(n.log, m) ==> |Step(n, m).node.log| == m.prev + |m.entries| + 1)
  {
    var c, d := Histories(peers, run, |run|);
    var n := Exec(peers, run).nodes[m.to];
    assert MsgOk(m, d) && NodeOk(n, d);
    AcceptedLog(n, d, m);
    RequestIsCopy(n, d, m);
    MergeCarries(n.log, d, m);
    AcceptedReply(n, d, m);
  }

  /** What a peer answers to an append it heeds but does not take: its log and commit index stay. */
  ghost predicate Declined(n: Node, m: Msg, o: Outcome, success: bool)
    requires m.AppReq?
  {
    && o.Ok? && o.node.log == n.log && o.node.commitIndex == n.commitIndex
    && o.node.role.Follower? && o.node.currentTerm == m.term
    && exists r :: o.out == {r} && Declines(n, m, r, success)
  }

  ghost predicate Declines(n: Node, m: Msg, r: Msg, success: bool)
    requires m.AppReq?
  {
    && r.AppResp? && r.term == m.term && r.from == m.to && r.to == m.from && r.prev == m.prev && r.success == success
    && 1 <= r.next <= n.commitIndex + 1
    && (success || m.prev >= n.commitIndex + 2 ==> r.next == n.commitIndex + 1)
  }

  /**
   * In any run an append that reaches below the commit index is answered as a success up to there, and
   * one that does not match is refused; either way the peer points the sender to its commit index.
   */
  lemma OtherAppendsAreDeclined(peers: nat, run: seq<Event>, m: Msg)
    requires peers >= 2 && Arrives(Exec(peers, run), m) && !Matches(Exec(peers, run).nodes[m.to], m)
    ensures var n := Exec(peers, run).nodes[m.to]; Declined(n, m, Step(n, m), m.prev < n.commitIndex)
  {
    var c, d := Histories(peers, run, |run|);
    var n := Exec(peers, run).nodes[m.to];
    assert MsgOk(m, d) && NodeOk(n, d) && n.me == m.to;
    var e := SteppedDownSound(n, d, m);
    AppendStep(n, m);
    DeclinedIs(n, SteppedDown(n, m.term), m, HandleAppendEntries(SteppedDown(n, m.term), m));
  }

  lemma DeclinedIs(n: Node, f: Node, m: Msg, o: Outcome)
    requires m.AppReq? && WellFormed(f) && WellFormedMsg(m, f.peers) && !Matches(f, m) && o == HandleAppendEntries(f, m)
    requires f.role.Follower? && f.currentTerm == m.term && f.log == n.log && f.commitIndex == n.commitIndex < |f.log|
    requires f.me == m.to
    ensures Declined(n, m, Finish(o), m.prev < n.commitIndex)
  {
    if m.prev < f.commitIndex {
      var r := AppendReply(f, m, true, f.commitIndex + 1, 0, 0);
      assert o == Ok(f, {r}) && Declines(n, m, r, true);
    } else {
      var next := BackUp(f.commitIndex, m.prev);
      var (ct, ci) := if m.prev <= LastIndex(f) then (f.log[m.prev].term as int, 0) else (-1, -1);
      var r := AppendReply(f, m, false, next, ct, ci);
      assert o == Ok(f, {r}) && Declines(n, m, r, false);
    }
  }

  lemma AcceptedReply(n: Node, c: Core, m: Msg)
    requires Inv(c) && NodeOk(n, c) && MsgOk(m, c) && Heeds(n, m) && Matches(n, m)
    ensures Step(n, m).Ok? && Step(n, m).node.role.Follower? && Step(n, m).node.currentTerm == m.term
    ensures Step(n, m).out == {AppResp(m.term, n.me, m.from, m.prev, true, m.prev + |m.entries| + 1, 0, 0)}
    ensures Step(n, m).node.commitIndex == if m.commit > n.commitIndex then m.commit else n.commitIndex
  {
    var f := SteppedDown(n, m.term);
    var e := SteppedDownSound(n, c, m);
    AppendStep(n, m);
    var a := AcceptedNode(f, e, m);
  }

  lemma MergeCarries(log: seq<Entry>, c: Core, m: Msg)
    requires m.AppReq? && MsgOk(m, c) && CopyOf(m, log, c.reigns[m.term].log) && Sane(c, log)
    requires Sane(c, c.reigns[m.term].log)
    ensures var now := Merge(log, Upto(c, m.term, m.prev + |m.entries|));
            && Carries(now, m) && m.prev < |log| && now[..m.prev + 1] == log[..m.prev + 1]
            && (Carries(log, m) ==> now == log)
            && (!Carries(log, m) ==> |now| == m.prev + |m.entries| + 1)
  {
    var lead, last := c.reigns[m.term].log, m.prev + |m.entries|;
    SaneLogsMatch(c, log, lead, m.prev);
    var target := Upto(c, m.term, last);
    assert target == lead[..m.prev + 1] + m.entries;
    assert target[m.prev + 1..last + 1] == m.entries;
    if target <= log {
      assert log[m.prev + 1..last + 1] == target[m.prev + 1..last + 1];
    }
    if Carries(log, m) {
      assert log[..last + 1] == log[..m.prev + 1] + log[m.prev + 1..last + 1];
    }
  }

  lemma MergeMeets(log: seq<Entry>, lead: seq<Entry>, last: nat)
    requires last < |lead|
    ensures AgreeThrough(Merge(log, lead[..last + 1]), lead, last)
    ensures if AgreeThrough(log, lead, last) then Merge(log, lead[..last + 1]) == log
            else |Merge(log, lead[..last + 1])| == last + 1
  {
    var target := lead[..last + 1];
    if target <= log {
      assert log[..last + 1] == target;
    }
  }

  /** A repeated or older append, one a peer has already acknowledged in this term, changes no log. */
  lemma OldAppendChangesNothing(peers: nat, run: seq<Event>, m: Msg, r: Msg)
    requires peers >= 2 && Arrives(Exec(peers, run), m) && Exec(peers, run).nodes[m.to].currentTerm == m.term
    requires r in Exec(peers, run).msgs && r.AppResp? && r.success && r.term == m.term && r.from == m.to
    requires m.prev + |m.entries| < r.next
    ensures Step(Exec(peers, run).nodes[m.to], m).Ok?
    ensures Step(Exec(peers, run).nodes[m.to], m).node.log == Exec(peers, run).nodes[m.to].log
  {
    var c, d := Histories(peers, run, |run|);
    OldAppendIn(Exec(peers, run), d, m, r);
  }

  lemma OldAppendIn(s: Cluster, d: Core, m: Msg, r: Msg)
    requires Sound(s, d) && Shape(s) && Arrives(s, m) && s.nodes[m.to].currentTerm == m.term
    requires r in s.msgs && r.AppResp? && r.success && r.term == m.term && r.from == m.to
    requires m.prev + |m.entries| < r.next
    ensures Step(s.nodes[m.to], m).Ok? && Step(s.nodes[m.to], m).node.log == s.nodes[m.to].log
  {
    var n, last := s.nodes[m.to], m.prev + |m.entries|;
    assert MsgOk(m, d) && MsgOk(r, d) && NodeOk(n, d);
    var x := StepSound(n, d, m);
    if Matches(n, m) {
      HeldAppend(n, d, m, r);
    } else {
      var e := SteppedDownSound(n, d, m);
      AppendStep(n, m);
    }
  }

  lemma HeldAppend(n: Node, d: Core, m: Msg, r: Msg)
    requires Inv(d) && NodeOk(n, d) && MsgOk(m, d) && MsgOk(r, d) && !n.role.Leader?
    requires m.AppReq? && m.term == n.currentTerm && Matches(n, m)
    requires r.AppResp? && r.success && r.term == m.term && r.from == n.me && m.prev + |m.entries| < r.next
    ensures Step(n, m).Ok? && Step(n, m).node.log == n.log
  {
    AcceptedLog(n, d, m);
    AlreadyHeld(n, d, r.next - 1, m.prev + |m.entries|);
  }

  lemma AlreadyHeld(n: Node, d: Core, k: nat, last: nat)
    requires Inv(d) && PeerSound(n, d) && n.currentTerm in d.reigns && last <= k < |d.reigns[n.currentTerm].log|
    requires k == 0 || Acked(d, n.currentTerm, n.me, k)
    ensures Merge(n.log, Upto(d, n.currentTerm, last)) == n.log
  {
    var t := n.currentTerm;
    if k == 0 {
      assert LogOk(d, n.me) && ReignOk(d, t);
      assert Upto(d, t, 0) == [DUMMY];
    } else {
      assert AckOk(d, t, n.me);
      assert Upto(d, t, last) <= Upto(d, t, d.acks[(t, n.me)]);
    }
  }

  // ---- Repair after a rejection ----

  /** The follower holds the leader's whole log. */
  ghost predicate InSync(l: Node, f: Node) {
    |l.log| >= 1 && AgreeThrough(f.log, l.log, |l.log| - 1)
  }

  /** Leader and follower of one term, each sound. */
  ghost predicate Pair(l: Node, f: Node, c: Core) {
    Inv(c) && PeerSound(l, c) && PeerSound(f, c) && l.role.Leader? && f.role.Follower? && l.currentTerm == f.currentTerm
  }

  /** A leader that only moved its next index for the follower, or its commit index. */
  ghost predicate Poised(l: Node, f: Node, c: Core, next: nat) {
    && Inv(c) && PeerSound(f, c) && f.role.Follower?
    && WellFormed(l) && l.peers == f.peers && l.currentTerm == f.currentTerm
    && l.currentTerm in c.reigns && l.log == c.reigns[l.currentTerm].log && l.commitIndex < |l.log|
    && l.nextIndex[f.me] == next && 1 <= next <= |l.log|
  }

  /** The next append is a true copy of the leader's log down from the follower's commit index. */
  lemma PoisedCopy(l: Node, f: Node, c: Core)
    requires Poised(l, f, c, f.commitIndex + 1)
    ensures CopyOf(AppendFor(l, f.me), f.log, l.log) && Sane(c, f.log) && Sane(c, l.log)
    ensures MatchTerm(f.log, f.commitIndex, l.log[f.commitIndex].term)
  {
    CommittedInLeader(f, c);
    var k := f.commitIndex;
    assert f.log[..k + 1][k] == l.log[..k + 1][k];
    assert LogOk(c, f.me) && ReignOk(c, l.currentTerm);
  }

  lemma PoisedSplice(l: Node, f: Node, c: Core, m: Msg)
    requires Poised(l, f, c, f.commitIndex + 1) && m == AppendFor(l, f.me)
    ensures CopyOf(m, f.log, l.log) && Spliced(f.log, m) == Merge(f.log, l.log)
  {
    PoisedCopy(l, f, c);
    SplicedIsMerge(c, f.log, l.log, m);
    assert l.log[..m.prev + |m.entries| + 1] == l.log;
  }

  /** The follower after an append that reaches down to its commit index. */
  function Settled(l: Node, f: Node): Node {
    f.(log := Merge(f.log, l.log),
       commitIndex := if l.commitIndex > f.commitIndex then l.commitIndex else f.commitIndex)
  }

  lemma SettledInSync(l: Node, f: Node)
    requires |l.log| >= 1
    ensures InSync(l, Settled(l, f))
  {
    MergeMeets(f.log, l.log, |l.log| - 1);
    assert l.log[..|l.log| - 1 + 1] == l.log;
  }

  /** From just above the follower's commit index one append settles everything. */
  lemma SettlesFromCommit(l: Node, f: Node, c: Core, m: Msg)
    requires Poised(l, f, c, f.commitIndex + 1) && m == AppendFor(l, f.me)
    ensures WellFormedMsg(m, f.peers)
    ensures HandleAppendEntries(f, m) == Ok(Settled(l, f), {AppendReply(Settled(l, f), m, true, |l.log|, 0, 0)})
  {
    SettlingAppend(l, f, c, m);
    AcceptAppendValue(f, m, Settled(l, f));
  }

  lemma SettlingAppend(l: Node, f: Node, c: Core, m: Msg)
    requires Poised(l, f, c, f.commitIndex + 1) && m == AppendFor(l, f.me)
    ensures WellFormed(f) && WellFormedMsg(m, f.peers) && m.prev == f.commitIndex && Matches(f, m)
    ensures m.commit == l.commitIndex && m.prev + |m.entries| + 1 == |l.log| && Spliced(f.log, m) == Merge(f.log, l.log)
  {
    PoisedSplice(l, f, c, m);
    PoisedCopy(l, f, c);
  }

  /** A rejected append makes the leader retreat to the follower's commit index or below. */
  lemma RejectionRetreats(l: Node, f: Node, c: Core, r: Msg)
    requires Pair(l, f, c)
    requires HandleAppendEntries(f, AppendFor(l, f.me)) == Ok(f, {r}) && r.AppResp? && !r.success
    ensures WellFormedMsg(r, l.peers) && HandleAppendReply(l, r) == Ok(l.(nextIndex := l.nextIndex[f.me := r.next]), {})
    ensures 1 <= r.next <= f.commitIndex + 1
    ensures l.nextIndex[f.me] - 1 >= f.commitIndex + 2 ==> r.next == f.commitIndex + 1
  {
    var m := AppendFor(l, f.me);
    CommittedInLeader(f, c);
    OnlyRejectsRefuse(f, m, r);
    assert r == AppendReply(f, m, false, BackUp(f.commitIndex, m.prev), r.conflictTerm, r.conflictIndex);
    ScanRange(l.log, r.prev - 1, r.conflictTerm);
  }

  /** A refusal means that the append reached no further down than the commit index and did not match there. */
  lemma OnlyRejectsRefuse(f: Node, m: Msg, r: Msg)
    requires WellFormed(f) && m.AppReq? && WellFormedMsg(m, f.peers)
    requires HandleAppendEntries(f, m) == Ok(f, {r}) && r.AppResp? && !r.success
    ensures m.prev >= f.commitIndex && !MatchTerm(f.log, m.prev, m.prevTerm)
    ensures HandleAppendEntries(f, m) == RejectAppend(f, m)
  {}

  /** Below its commit index the follower answers with the shortcut, and the leader jumps to just above it. */
  lemma ShortcutJumps(l: Node, f: Node, c: Core, next: nat, m: Msg)
    requires Poised(l, f, c, next) && next <= f.commitIndex && m == AppendFor(l, f.me) && f.me != l.me
    ensures WellFormedMsg(m, f.peers)
    ensures HandleAppendEntries(f, m) == Ok(f, {AppendReply(f, m, true, f.commitIndex + 1, 0, 0)})
    ensures var r := AppendReply(f, m, true, f.commitIndex + 1, 0, 0);
            HandleAppendReply(l, r).Ok? && Poised(HandleAppendReply(l, r).node, f, c, f.commitIndex + 1) &&
            HandleAppendReply(l, r).node.log == l.log && HandleAppendReply(l, r).node.commitIndex >= l.commitIndex
  {
    CommittedInLeader(f, c);
    assert LogOk(c, f.me) && ReignOk(c, l.currentTerm);
    assert |f.log| > f.commitIndex;
    var r := AppendReply(f, m, true, f.commitIndex + 1, 0, 0);
    JumpTaken(l, f, c, next, r);
  }

  lemma JumpTaken(l: Node, f: Node, c: Core, next: nat, r: Msg)
    requires Poised(l, f, c, next) && next <= f.commitIndex < |l.log| && f.me != l.me
    requires r.AppResp? && r.success && r.from == f.me && r.next == f.commitIndex + 1
    ensures HandleAppendReply(l, r).Ok? && Poised(HandleAppendReply(l, r).node, f, c, f.commitIndex + 1)
    ensures HandleAppendReply(l, r).node.log == l.log && HandleAppendReply(l, r).node.commitIndex >= l.commitIndex
  {
    var a := l.(nextIndex := l.nextIndex[f.me := r.next], matchIndex := l.matchIndex[f.me := r.next - 1]);
    QuorumIndexInLog(a);
  }

  /** One exchange with no other message in between. */
  ghost predicate Exchange(l: Node, f: Node, l': Node, f': Node, success: bool) {
    && WellFormed(l) && WellFormed(f) && l.peers == f.peers
    && 1 <= l.nextIndex[f.me] <= |l.log|
    && var m := AppendFor(l, f.me);
       WellFormedMsg(m, f.peers) && exists r :: Answers(l, f, m, r, l', f', success)
  }

  ghost predicate Answers(l: Node, f: Node, m: Msg, r: Msg, l': Node, f': Node, success: bool)
    requires WellFormed(l) && WellFormed(f) && m.AppReq? && WellFormedMsg(m, f.peers)
  {
    && HandleAppendEntries(f, m) == Ok(f', {r})
    && r.AppResp? && r.success == success && WellFormedMsg(r, l.peers)
    && HandleAppendReply(l, r) == Ok(l', {})
  }

  lemma LeaderTakesSuccess(l: Node, f: Node, r: Msg)
    requires WellFormed(l) && r.AppResp? && WellFormedMsg(r, l.peers) && r.success && r.next <= |l.log|
    ensures HandleAppendReply(l, r).Ok? && HandleAppendReply(l, r).node.log == l.log
    ensures HandleAppendReply(l, r) == Ok(HandleAppendReply(l, r).node, {})
    ensures r.next >= l.nextIndex[r.from] ==>
              var a := HandleAppendReply(l, r).node;
              a.nextIndex == l.nextIndex[r.from := r.next] && a.matchIndex == l.matchIndex[r.from := r.next - 1]
  {
    if r.next >= l.nextIndex[r.from] {
      var a := l.(nextIndex := l.nextIndex[r.from := r.next], matchIndex := l.matchIndex[r.from := r.next - 1]);
      QuorumIndexInLog(a);
    }
  }

  /** The follower has the leader's whole log and commit index, and the leader knows that it has the log. */
  ghost predicate Repaired(l: Node, l': Node, f': Node) {
    && InSync(l, f') && l'.log == l.log && f'.commitIndex >= l.commitIndex
    && f'.me < |l'.nextIndex| == |l'.matchIndex|
    && l'.nextIndex[f'.me] == |l.log| && l'.matchIndex[f'.me] == |l.log| - 1
  }

  /** An exchange from just above the follower's commit index brings it in step with the leader. */
  lemma SettlingExchange(l: Node, f: Node, c: Core) returns (l': Node, f': Node)
    requires Poised(l, f, c, f.commitIndex + 1)
    ensures Exchange(l, f, l', f', true) && Repaired(l, l', f')
  {
    var m := AppendFor(l, f.me);
    SettlesFromCommit(l, f, c, m);
    f' := Settled(l, f);
    SettledInSync(l, f);
    var r := AppendReply(f', m, true, |l.log|, 0, 0);
    LeaderTakesSuccess(l, f, r);
    l' := HandleAppendReply(l, r).node;
    assert Answers(l, f, m, r, l', f', true);
  }

  lemma ShortcutExchange(l: Node, f: Node, c: Core, next: nat) returns (l': Node)
    requires Poised(l, f, c, next) && next <= f.commitIndex && f.me != l.me
    ensures Exchange(l, f, l', f, true) && Poised(l', f, c, f.commitIndex + 1)
    ensures l'.log == l.log && l'.commitIndex >= l.commitIndex
  {
    var m := AppendFor(l, f.me);
    ShortcutJumps(l, f, c, next, m);
    var r := AppendReply(f, m, true, f.commitIndex + 1, 0, 0);
    LeaderTakesSuccess(l, f, r);
    l' := HandleAppendReply(l, r).node;
    assert Answers(l, f, m, r, l', f, true);
  }

  /** A rejection leaves the follower as it was and the leader ready at or below the follower's commit index. */
  lemma RejectedExchange(l: Node, f: Node, c: Core, l': Node, f': Node) returns (next: nat)
    requires Pair(l, f, c) && Exchange(l, f, l', f', false)
    ensures f' == f && next <= f.commitIndex + 1 && Poised(l', f, c, next)
    ensures l'.log == l.log && l'.me == l.me && l'.commitIndex == l.commitIndex
    ensures l.nextIndex[f.me] - 1 >= f.commitIndex + 2 ==> next == f.commitIndex + 1
  {
    var m := AppendFor(l, f.me);
    var r :| Answers(l, f, m, r, l', f', false);
    assert f' == f;
    RejectionRetreats(l, f, c, r);
    CommittedInLeader(f, c);
    next := r.next;
  }

  /**
   * Bounded repair: after a rejection, with no other message in between, the append built from the
   * returned next index is accepted, and that one or one more gives the follower the leader's whole log
   * and the leader the knowledge of it; one is enough if the rejected index was two or more above the
   * follower's commit index.
   */
  lemma BoundedRepair(l: Node, f: Node, c: Core, l1: Node, f1: Node) returns (l2: Node, f2: Node, l3: Node, f3: Node)
    requires Pair(l, f, c) && l.me != f.me && Exchange(l, f, l1, f1, false)
    ensures f1 == f
    ensures Exchange(l1, f1, l2, f2, true)
    ensures Repaired(l, l2, f2) || (Exchange(l2, f2, l3, f3, true) && Repaired(l, l3, f3))
    ensures l.nextIndex[f.me] - 1 >= f.commitIndex + 2 ==> Repaired(l, l2, f2)
  {
    var next := RejectedExchange(l, f, c, l1, f1);
    if next == f.commitIndex + 1 {
      l2, f2 := SettlingExchange(l1, f, c);
      l3, f3 := l2, f2;
    } else {
      f2 := f;
      l2 := ShortcutExchange(l1, f, c, next);
      l3, f3 := SettlingExchange(l2, f, c);
    }
  }

  /** Bounded repair in any run. */
  lemma RepairInAnyRun(peers: nat, run: seq<Event>, i: nat, j: nat, l1: Node, f1: Node)
      returns (l2: Node, f2: Node, l3: Node, f3: Node)
    requires peers >= 2 && i < peers && j < peers && i != j
    requires Exec(peers, run).nodes[i].role.Leader? && Exec(peers, run).nodes[j].role.Follower?
    requires Exec(peers, run).nodes[i].currentTerm == Exec(peers, run).nodes[j].currentTerm
    requires Exchange(Exec(peers, run).nodes[i], Exec(peers, run).nodes[j], l1, f1, false)
    ensures Exchange(l1, f1, l2, f2, true)
    ensures var l := Exec(peers, run).nodes[i];
            Repaired(l, l2, f2) || (Exchange(l2, f2, l3, f3, true) && Repaired(l, l3, f3))
    ensures var l, f := Exec(peers, run).nodes[i], Exec(peers, run).nodes[j];
            l.nextIndex[j] - 1 >= f.commitIndex + 2 ==> Repaired(l, l2, f2)
  {
    var c, d := Histories(peers, run, |run|);
    var s := Exec(peers, run);
    assert NodeOk(s.nodes[i], d) && NodeOk(s.nodes[j], d);
    l2, f2, l3, f3 := BoundedRepair(s.nodes[i], s.nodes[j], d, l1, f1);
  }
}
