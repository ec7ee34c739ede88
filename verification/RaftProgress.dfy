/**
 * What the handlers are there for, besides being safe: everyone is asked and told, votes go to those
 * who deserve them, elections are decided as soon as they can be, and leaders commit what a majority has.
 */
module RaftProgress {
  import opened RaftTypes
  import opened Quorums
  import opened RaftHandlers
  import opened RaftCore
  import opened RaftInvariant
  import opened RaftSteps
  import opened RaftCluster
  import opened RaftSafety
  import opened RaftReplication

  // ---- Everyone is told ----

  /** `m` tells peer j what leader n has for it from its next index on. */
  ghost predicate Tells(n: Node, j: nat, m: Msg)
    requires j < |n.nextIndex|
  {
    && 1 <= n.nextIndex[j] <= |n.log|
    && m.AppReq? && m.term == n.currentTerm && m.from == n.me && m.to == j
    && m.commit == n.commitIndex
    && m.prev == n.nextIndex[j] - 1 && m.prevTerm == n.log[n.nextIndex[j] - 1].term
    && m.entries == n.log[n.nextIndex[j]..]
  }

  ghost predicate Told(n: Node, j: nat, out: set<Msg>)
    requires j < |n.nextIndex|
  {
    exists m :: m in out && Tells(n, j, m)
  }

  /** Each other peer gets exactly one request, its own, and nothing else is sent. */
  ghost predicate TellsAll(n: Node, out: set<Msg>) {
    && |n.nextIndex| == n.peers
    && (forall j: nat | j < n.peers && j != n.me :: Told(n, j, out))
    && (forall m | m in out :: m.to < n.peers && m.to != n.me && Tells(n, m.to, m))
    && (forall m, x | m in out && x in out && m.to == x.to :: m == x)
  }

  /** `m` asks peer j for its vote, naming the end of n's log. */
  ghost predicate Asks(n: Node, j: nat, m: Msg) {
    && |n.log| >= 1
    && m.VoteReq? && m.term == n.currentTerm && m.from == n.me && m.to == j
    && m.lastLogIndex == |n.log| - 1 && m.lastLogTerm == n.log[|n.log| - 1].term
  }

  ghost predicate Asked(n: Node, j: nat, out: set<Msg>) {
    exists m :: m in out && Asks(n, j, m)
  }

  ghost predicate AsksAll(n: Node, out: set<Msg>) {
    && (forall j: nat | j < n.peers && j != n.me :: Asked(n, j, out))
    && (forall m | m in out :: m.to < n.peers && m.to != n.me && Asks(n, m.to, m))
    && (forall m, x | m in out && x in out && m.to == x.to :: m == x)
  }

  lemma BroadcastTellsAll(n: Node)
    requires WellFormed(n) && CanBroadcast(n)
    ensures BroadcastAppend(n).Ok? && BroadcastAppend(n).node == Persist(n)
    ensures TellsAll(n, BroadcastAppend(n).out)
  {
    var out := BroadcastAppend(n).out;
    forall j: nat | j < n.peers && j != n.me ensures Told(n, j, out) {
      assert AppendFor(n, j) in out && Tells(n, j, AppendFor(n, j));
    }
  }

  lemma LeaderCanBroadcast(n: Node, c: Core)
    requires Inv(c) && PeerSound(n, c) && n.role.Leader?
    ensures CanBroadcast(n)
  {}

  /** The timer of a leader tells every other peer what it lacks, the commit index included. */
  lemma HeartbeatTellsAll(peers: nat, run: seq<Event>, i: nat)
    requires peers >= 2 && i < peers && Exec(peers, run).nodes[i].role.Leader?
    ensures var n := Exec(peers, run).nodes[i];
            Tick(n).Ok? && Tick(n).node == Persist(n) && TellsAll(n, Tick(n).out)
  {
    var c, d := Histories(peers, run, |run|);
    var n := Exec(peers, run).nodes[i];
    assert NodeOk(n, d);
    LeaderCanBroadcast(n, d);
    BroadcastTellsAll(n);
  }

  /** A leader puts a command at the end of its log, counts itself, and tells every other peer. */
  lemma StartTellsAll(peers: nat, run: seq<Event>, i: nat, cmd: Command)
    requires peers >= 2 && i < peers && Exec(peers, run).nodes[i].role.Leader?
    ensures var n := Exec(peers, run).nodes[i]; var o := HandleStart(n, cmd);
            && o.Ok? && TellsAll(o.node, o.out)
            && o.node.log == n.log + [Entry(n.currentTerm, |n.log|, cmd)]
            && o.node.matchIndex == n.matchIndex[i := |n.log|]
            && o.node.commitIndex == n.commitIndex && o.node.currentTerm == n.currentTerm
            && (forall j | 0 <= j < peers && j != i :: o.node.nextIndex[j] == n.nextIndex[j])
  {
    var c, d := Histories(peers, run, |run|);
    var n := Exec(peers, run).nodes[i];
    assert NodeOk(n, d) && n.me == i;
    var e := AppendedSound(n, d, cmd);
    LeaderCanBroadcast(AppendCommand(n, cmd), e);
    BroadcastTellsAll(AppendCommand(n, cmd));
    TellsAllSaved(AppendCommand(n, cmd), HandleStart(n, cmd).out);
  }

  lemma TellsAllSaved(n: Node, out: set<Msg>)
    requires TellsAll(n, out)
    ensures TellsAll(Persist(n), out)
  {
    forall j: nat | j < n.peers && j != n.me ensures Told(Persist(n), j, out) {
      assert Told(n, j, out);
      var m :| m in out && Tells(n, j, m);
      assert Tells(Persist(n), j, m);
    }
    forall m | m in out ensures Tells(Persist(n), m.to, m) {
      assert Tells(n, m.to, m);
    }
  }

  /** The timer of any other peer makes it a candidate of the next term that asks every other peer. */
  lemma CampaignAsksAll(peers: nat, run: seq<Event>, i: nat)
    requires peers >= 2 && i < peers && !Exec(peers, run).nodes[i].role.Leader?
    ensures var n := Exec(peers, run).nodes[i]; var o := Tick(n);
            && o.Ok? && AsksAll(o.node, o.out) && o.node.role.Candidate?
            && o.node.currentTerm == n.currentTerm + 1 && o.node.votedFor == i && o.node.votes == map[i := true]
            && o.node.log == n.log
  {
    var n := Exec(peers, run).nodes[i];
    assert n.me == i;
    CampaignAsks(n);
  }

  lemma CampaignAsks(n: Node)
    requires WellFormed(n) && !n.role.Leader? && n.peers >= 2
    ensures var o := Tick(n);
            && o.Ok? && AsksAll(o.node, o.out) && o.node.role.Candidate?
            && o.node.currentTerm == n.currentTerm + 1 && o.node.votedFor == n.me && o.node.votes == map[n.me := true]
            && o.node.log == n.log && o.node.peers == n.peers && o.node.me == n.me
  {
    var o := Tick(n);
    CampaignValue(n);
    var c := Campaigner(n);
    assert o.node == Persist(c) && o.out == VoteRequests(c);
    forall j: nat | j < n.peers && j != n.me ensures Asked(o.node, j, o.out) {
      assert VoteRequestFor(c, j) in o.out && Asks(o.node, j, VoteRequestFor(c, j));
    }
  }

  // ---- Votes ----

  /** A peer is free to vote for the sender: it has not voted in that term, or for this very candidate. */
  predicate MayVote(n: Node, m: Msg) {
    m.term > n.currentTerm || n.votedFor == NONE || n.votedFor == m.from
  }

  /** In any run a follower, or any peer that is behind in term, grants a vote exactly to whom it may and should. */
  lemma VoteRule(peers: nat, run: seq<Event>, a: nat, m: Msg)
    requires peers >= 2 && a <= |run| && m in Exec(peers, run).msgs && m.VoteReq? && m.to < peers && m.from < peers
    requires var n := Exec(peers, run).nodes[m.to];
             n.currentTerm < m.term || (n.currentTerm == m.term && n.role.Follower?)
    requires var x := Exec(peers, run[..a]).nodes[m.from]; x.role.Candidate? && x.currentTerm == m.term
    ensures var n, x := Exec(peers, run).nodes[m.to], Exec(peers, run[..a]).nodes[m.from];
            |x.log| >= 1 && |n.log| >= 1 &&
            var grant := MayVote(n, m) && UpToDate(x.log, n.log);
            && Step(n, m).Ok? && Step(n, m).out == {VoteResp(m.term, m.to, m.from, grant)}
            && Step(n, m).node.currentTerm == m.term
            && (grant ==> Step(n, m).node.votedFor == m.from)
            && (!grant ==> Step(n, m).node.votedFor == if n.currentTerm < m.term then NONE else n.votedFor)
  {
    var c, d := Histories(peers, run, a);
    var n, x := Exec(peers, run).nodes[m.to], Exec(peers, run[..a]).nodes[m.from];
    assert MsgOk(m, d) && NodeOk(n, d) && NodeOk(x, c);
    assert d.campaigns[(m.term, m.from)] == x.log;
    assert LogOk(d, m.to) && LogOk(c, m.from);
    VoteCast(n, m, x.log);
  }

  lemma VoteCast(n: Node, m: Msg, log: seq<Entry>)
    requires WellFormed(n) && m.VoteReq? && WellFormedMsg(m, n.peers)
    requires n.currentTerm < m.term || (n.currentTerm == m.term && n.role.Follower?)
    requires |log| >= 1 && m.lastLogIndex == |log| - 1 && m.lastLogTerm == log[|log| - 1].term
    ensures var grant := MayVote(n, m) && UpToDate(log, n.log);
            && Step(n, m).Ok? && Step(n, m).out == {VoteResp(m.term, n.me, m.from, grant)}
            && Step(n, m).node.currentTerm == m.term
            && (grant ==> Step(n, m).node.votedFor == m.from)
            && (!grant ==> Step(n, m).node.votedFor == if n.currentTerm < m.term then NONE else n.votedFor)
  {}

  /** A candidate or leader of the term itself refuses. */
  lemma RivalsRefuse(n: Node, m: Msg)
    requires WellFormed(n) && m.VoteReq? && WellFormedMsg(m, n.peers) && m.term == n.currentTerm && !n.role.Follower?
    ensures Step(n, m).Ok? && Step(n, m).node == Persist(n)
    ensures forall r | r in Step(n, m).out :: r.VoteResp? && !r.granted
  {}

  lemma StepAsksNobody(n: Node, m: Msg)
    requires WellFormed(n) && WellFormedMsg(m, n.peers) && Step(n, m).Ok?
    ensures forall x | x in Step(n, m).out :: !x.VoteReq?
  {
    if m.AppReq? {
      AppendAnswersSender(n, m);
      AppendAnswersSender(BecomeFollower(n, n.currentTerm), m);
      AppendAnswersSender(BecomeFollower(n, m.term), m);
    } else if m.VoteResp? {
      VoteReplyNotToSelf(n, m);
    }
  }

  lemma StartAsksNobody(n: Node, cmd: Command)
    requires WellFormed(n) && HandleStart(n, cmd).Ok?
    ensures forall x | x in HandleStart(n, cmd).out :: !x.VoteReq?
  {}

  lemma NewRequest(s: Cluster, e: Event, m: Msg)
    requires Shape(s) && |s.nodes| >= 2 && m.VoteReq? && m in Next(s, e).msgs && m !in s.msgs
    ensures m.from < |s.nodes| && Next(s, e).nodes[m.from].role.Candidate?
    ensures Next(s, e).nodes[m.from].currentTerm == m.term
  {
    match e
    case Timeout(i) =>
      if i < |s.nodes| && !s.nodes[i].role.Leader? {
        CampaignAsks(s.nodes[i]);
      }
    case Deliver(x) =>
      if x in s.msgs && x.to < |s.nodes| && Step(s.nodes[x.to], x).Ok? {
        StepAsksNobody(s.nodes[x.to], x);
      }
    case Start(i, cmd) =>
      if i < |s.nodes| && HandleStart(s.nodes[i], cmd).Ok? {
        StartAsksNobody(s.nodes[i], cmd);
      }
    case Apply(i) =>
    case Crash(i) =>
    case Torn(x, k) =>
  }

  /** Every vote request stems from a moment at which its sender was a candidate of that term. */
  lemma {:induction false} RequestHasCampaign(peers: nat, run: seq<Event>, m: Msg) returns (a: nat)
    requires peers >= 2 && m in Exec(peers, run).msgs && m.VoteReq?
    ensures a <= |run| && m.from < peers
    ensures var x := Exec(peers, run[..a]).nodes[m.from]; x.role.Candidate? && x.currentTerm == m.term
  {
    ExecStep(peers, run);
    var before := run[..|run| - 1];
    if m in Exec(peers, before).msgs {
      a := RequestHasCampaign(peers, before, m);
      assert before[..a] == run[..a];
    } else {
      NewRequest(Exec(peers, before), run[|run| - 1], m);
      a := |run|;
      assert run[..a] == run;
    }
  }

  // ---- Elections are decided ----

  function Refusals(votes: map<nat, bool>): set<nat> {
    set j | j in votes && !votes[j]
  }

  lemma RefusalsCount(votes: map<nat, bool>)
    ensures |Refusals(votes)| == |votes| - |Granted(votes)|
  {
    assert votes.Keys == Refusals(votes) + Granted(votes);
  }

  /** A candidate has neither been elected nor refused by a majority yet. */
  ghost predicate Undecided(n: Node) {
    |Granted(n.votes)| < Majority(n.peers) && |Refusals(n.votes)| < Majority(n.peers)
  }

  /** The verdict on a set of answers: who has a majority decides. */
  ghost predicate Decides(now: Node, votes: map<nat, bool>, peers: nat) {
    && (now.role.Leader? <==> |Granted(votes)| >= Majority(peers))
    && (now.role.Follower? <==> |Refusals(votes)| >= Majority(peers) && |Granted(votes)| < Majority(peers))
  }

  lemma PollCounts(votes: map<nat, bool>, id: nat, granted: bool)
    ensures var now := Poll(votes, id, granted);
            && |Granted(now)| == |Granted(votes)| + (if id !in votes && granted then 1 else 0)
            && |Refusals(now)| == |Refusals(votes)| + (if id !in votes && !granted then 1 else 0)
  {
    if id !in votes {
      if granted {
        YesCounts(votes, id);
      } else {
        NoCounts(votes, id);
      }
    }
  }

  lemma YesCounts(votes: map<nat, bool>, id: nat)
    requires id !in votes
    ensures Granted(votes[id := true]) == Granted(votes) + {id} && id !in Granted(votes)
    ensures Refusals(votes[id := true]) == Refusals(votes)
  {}

  lemma NoCounts(votes: map<nat, bool>, id: nat)
    requires id !in votes
    ensures Refusals(votes[id := false]) == Refusals(votes) + {id} && id !in Refusals(votes)
    ensures Granted(votes[id := false]) == Granted(votes)
  {}

  lemma TallyDecides(n: Node, m: Msg)
    requires WellFormed(n) && n.role.Candidate? && Undecided(n) && m.VoteResp? && WellFormedMsg(m, n.peers)
    requires m.term == n.currentTerm && Step(n, m).Ok?
    ensures Decides(Step(n, m).node, Poll(n.votes, m.from, m.granted), n.peers)
    ensures Step(n, m).node.role.Candidate? ==> Undecided(Step(n, m).node)
    ensures Step(n, m).node.currentTerm == n.currentTerm && Step(n, m).node.log == n.log
  {
    PollCounts(n.votes, m.from, m.granted);
    RefusalsCount(Poll(n.votes, m.from, m.granted));
  }

  // ---- Leaders count themselves and leave nothing uncommitted ----

  /** A leader with an entry of its own term at the end counts itself for all of its log. */
  ghost predicate CountsItself(n: Node)
    requires WellFormed(n)
  {
    n.log[|n.log| - 1].term == n.currentTerm ==> n.matchIndex[n.me] == |n.log| - 1
  }

  ghost predicate NothingLeft(n: Node) {
    forall k: nat :: !MayCommit(n, k)
  }

  ghost predicate Steady(n: Node)
    requires WellFormed(n)
  {
    && (n.role.Candidate? ==> Undecided(n))
    && (n.role.Leader? ==> CountsItself(n) && NothingLeft(n))
  }

  lemma ElectedIsSteady(n: Node, c: Core)
    requires Inv(c) && PeerSound(n, c) && n.role.Candidate?
    ensures CountsItself(BecomeLeader(n)) && NothingLeft(BecomeLeader(n))
  {
    var l := BecomeLeader(n);
    assert CampaignOk(c, n.currentTerm, n.me);
    forall k: nat ensures !MayCommit(l, k) {
      if k >= 1 {
        assert Reaching(l.matchIndex, k) == {};
      }
    }
  }

  lemma ReplyIsSteady(n: Node, c: Core, m: Msg)
    requires Inv(c) && NodeOk(n, c) && n.role.Leader? && MsgOk(m, c) && m.AppResp? && m.term == n.currentTerm
    requires m.from != n.me && Steady(n) && HandleAppendReply(n, m).Ok?
    ensures var a := HandleAppendReply(n, m).node;
            a.role.Leader? && WellFormed(a) && CountsItself(a) && NothingLeft(a)
  {
    ReplyWithinLog(n, c, m);
    if m.success && m.next >= n.nextIndex[m.from] {
      assert HandleAppendReply(n, m) == UpdateCommitIndex(Progressed(n, m));
      ProgressIsSteady(n, c, m);
    } else {
      var a := HandleAppendReply(n, m).node;
      assert a == n.(nextIndex := a.nextIndex) && |a.nextIndex| == n.peers;
      SameMatchSteady(n, a);
    }
  }

  lemma SameMatchSteady(n: Node, a: Node)
    requires WellFormed(n) && n.role.Leader? && Steady(n)
    requires a == n.(nextIndex := a.nextIndex) && |a.nextIndex| == n.peers
    ensures WellFormed(a) && CountsItself(a) && NothingLeft(a)
  {
    forall k: nat ensures !MayCommit(a, k) {
      assert !MayCommit(n, k);
    }
  }

  lemma ProgressIsSteady(n: Node, c: Core, m: Msg)
    requires Inv(c) && NodeOk(n, c) && n.role.Leader? && MsgOk(m, c) && m.AppResp? && m.term == n.currentTerm
    requires m.success && m.from != n.me && Steady(n) && 1 <= m.next <= |n.log|
    ensures WellFormed(Progressed(n, m)) && UpdateCommitIndex(Progressed(n, m)).Ok?
    ensures var a := UpdateCommitIndex(Progressed(n, m)).node;
            a.role.Leader? && WellFormed(a) && CountsItself(a) && NothingLeft(a)
  {
    var a := Progressed(n, m);
    ProgressedSound(n, c, m);
    assert LogOk(c, n.me);
    CommitsLargestAllowed(a);
    var now := UpdateCommitIndex(a).node;
    assert a.commitIndex <= now.commitIndex;
    CommittedAll(a, now);
  }

  lemma CommittedAll(a: Node, now: Node)
    requires now == a.(commitIndex := now.commitIndex) && forall k: nat | MayCommit(a, k) :: k <= now.commitIndex
    requires a.commitIndex <= now.commitIndex
    ensures NothingLeft(now)
  {
    forall k: nat ensures !MayCommit(now, k) {
      assert MayCommit(now, k) ==> MayCommit(a, k);
    }
  }

  lemma StartIsSteady(n: Node, c: Core, cmd: Command)
    requires Inv(c) && PeerSound(n, c) && n.role.Leader? && Steady(n)
    ensures var a := AppendCommand(n, cmd); WellFormed(a) && CountsItself(a) && NothingLeft(a)
  {
    var a := AppendCommand(n, cmd);
    assert LogOk(c, n.me);
    forall k: nat ensures !MayCommit(a, k) {
      if k == |n.log| {
        assert Reaching(a.matchIndex, k) <= {n.me};
        SubsetCardinality(Reaching(a.matchIndex, k), {n.me});
      } else if n.commitIndex < k < |n.log| && n.log[k].term == n.currentTerm {
        assert n.log[k].term <= n.log[|n.log| - 1].term <= n.currentTerm;
        assert Reaching(a.matchIndex, k) == Reaching(n.matchIndex, k);
        assert !MayCommit(n, k);
      }
    }
  }

  lemma SameIsSteady(n: Node, a: Node)
    requires WellFormed(n) && Steady(n) && WellFormed(a)
    requires a == n.(applied := a.applied, disk := a.disk)
    ensures Steady(a)
  {
    forall k: nat ensures MayCommit(a, k) <==> MayCommit(n, k) {}
    assert n.role.Leader? ==> forall k: nat :: !MayCommit(n, k);
  }

  lemma LeaderStepSteady(n: Node, c: Core, m: Msg)
    requires Inv(c) && NodeOk(n, c) && MsgOk(m, c) && n.role.Leader? && m.term == n.currentTerm && m.from != n.me
    requires Steady(n) && StepLeader(n, m).Ok? && WellFormed(StepLeader(n, m).node)
    ensures Steady(StepLeader(n, m).node)
  {
    if m.AppResp? {
      ReplyIsSteady(n, c, m);
    }
  }

  lemma CandidateStepSteady(n: Node, c: Core, m: Msg)
    requires Inv(c) && NodeOk(n, c) && MsgOk(m, c) && n.role.Candidate? && m.term == n.currentTerm && m.VoteResp?
    requires Steady(n) && Step(n, m).Ok? && WellFormed(Step(n, m).node) && m.to == n.me
    ensures Steady(Step(n, m).node)
  {
    TallyDecides(n, m);
    PolledSound(n, c, m);
    var p := n.(votes := Poll(n.votes, m.from, m.granted));
    if Step(n, m).node.role.Leader? {
      ElectedIsSteady(p, c);
      assert Step(n, m).node == Persist(Persist(BecomeLeader(p)));
      SavedIsSteady(BecomeLeader(p), Step(n, m).node);
    }
  }

  lemma SavedIsSteady(l: Node, a: Node)
    requires WellFormed(l) && l.role.Leader? && CountsItself(l) && NothingLeft(l) && WellFormed(a)
    requires a == l.(disk := a.disk)
    ensures Steady(a)
  {
    SameIsSteady(l, a);
  }

  /** Only a candidate that counts a vote, or a leader, can be a candidate or leader after a message of its term. */
  lemma StepSteady(n: Node, c: Core, m: Msg)
    requires Inv(c) && NodeOk(n, c) && MsgOk(m, c) && m.to == n.me && m.from != n.me && Steady(n)
    requires Step(n, m).Ok? && WellFormed(Step(n, m).node)
    ensures Steady(Step(n, m).node)
  {
    if m.term == n.currentTerm && n.role.Leader? {
      assert Step(n, m) == Finish(StepLeader(n, m));
      var d := StepUnsavedSound(n, c, m);
      LeaderStepSteady(n, c, m);
      SameIsSteady(StepLeader(n, m).node, Step(n, m).node);
    } else if m.term == n.currentTerm && n.role.Candidate? && m.VoteResp? {
      CandidateStepSteady(n, c, m);
    } else if m.term < n.currentTerm {
      SameIsSteady(n, Step(n, m).node);
    } else if m.term == n.currentTerm && n.role.Candidate? && !m.AppReq? {
      SameIsSteady(n, Step(n, m).node);
    } else {
      FollowerStays(n, m);
    }
  }

  lemma FollowerStays(n: Node, m: Msg)
    requires WellFormed(n) && WellFormedMsg(m, n.peers) && Step(n, m).Ok?
    requires m.term >= n.currentTerm
    requires m.term == n.currentTerm ==> n.role.Follower? || (n.role.Candidate? && m.AppReq?)
    ensures Step(n, m).node.role.Follower?
  {}

  // ---- Over runs ----

  ghost predicate AllSteady(s: Cluster)
    requires Shape(s)
  {
    && (forall i | 0 <= i < |s.nodes| :: Steady(s.nodes[i]))
    && (forall m | m in s.msgs :: m.from != m.to)
  }

  ghost predicate NotToSelf(out: set<Msg>) {
    forall m | m in out :: m.from != m.to
  }

  lemma StepNotToSelf(n: Node, m: Msg)
    requires WellFormed(n) && WellFormedMsg(m, n.peers) && Step(n, m).Ok? && m.to == n.me && m.from != m.to
    ensures NotToSelf(Step(n, m).out)
  {
    if m.AppReq? {
      AppendAnswersSender(n, m);
      AppendAnswersSender(BecomeFollower(n, n.currentTerm), m);
      AppendAnswersSender(BecomeFollower(n, m.term), m);
    } else if m.VoteResp? {
      VoteReplyNotToSelf(n, m);
    }
  }

  lemma AppendAnswersSender(n: Node, m: Msg)
    requires WellFormed(n) && m.AppReq? && WellFormedMsg(m, n.peers)
    ensures var o := HandleAppendEntries(n, m);
            o.Ok? ==> forall r | r in o.out :: r.AppResp? && r.from == n.me && r.to == m.from
  {}

  lemma VoteReplyNotToSelf(n: Node, m: Msg)
    requires WellFormed(n) && m.VoteResp?
    ensures var o := HandleVoteReply(n, m); o.Ok? ==> NotToSelf(o.out) && forall x | x in o.out :: x.AppReq?
  {}

  lemma StartNotToSelf(n: Node, cmd: Command)
    requires WellFormed(n) && HandleStart(n, cmd).Ok?
    ensures NotToSelf(HandleStart(n, cmd).out)
  {}

  lemma TickNotToSelf(n: Node)
    requires WellFormed(n) && Tick(n).Ok?
    ensures NotToSelf(Tick(n).out)
  {}

  lemma AfterSteady(s: Cluster, i: nat, o: Outcome)
    requires Shape(s) && AllSteady(s) && i < |s.nodes| && Shape(After(s, i, o))
    requires o.Ok? ==> WellFormed(o.node) && Steady(o.node) && NotToSelf(o.out)
    ensures AllSteady(After(s, i, o))
  {}

  lemma TickSteady(n: Node, c: Core)
    requires Inv(c) && NodeOk(n, c) && Steady(n) && Tick(n).Ok? && WellFormed(Tick(n).node)
    ensures Steady(Tick(n).node)
  {
    if n.role.Leader? {
      SameIsSteady(n, Tick(n).node);
    } else {
      CampaignAsks(n);
      var votes := map[n.me := true];
      assert Granted(votes) == {n.me} && Refusals(votes) == {};
    }
  }

  lemma StartSteady(n: Node, c: Core, cmd: Command)
    requires Inv(c) && NodeOk(n, c) && Steady(n) && HandleStart(n, cmd).Ok? && WellFormed(HandleStart(n, cmd).node)
    ensures Steady(HandleStart(n, cmd).node)
  {
    if n.role.Leader? {
      StartIsSteady(n, c, cmd);
      SavedIsSteady(AppendCommand(n, cmd), HandleStart(n, cmd).node);
    }
  }

  lemma DeliverSteady(s: Cluster, c: Core, m: Msg)
    requires Sound(s, c) && Shape(s) && AllSteady(s) && m in s.msgs && m.to < |s.nodes|
    requires Shape(After(s, m.to, Step(s.nodes[m.to], m)))
    ensures AllSteady(After(s, m.to, Step(s.nodes[m.to], m)))
  {
    var n := s.nodes[m.to];
    var o := Step(n, m);
    assert MsgOk(m, c) && NodeOk(n, c) && n.me == m.to;
    if o.Ok? {
      assert After(s, m.to, o).nodes[m.to] == o.node;
      StepSteady(n, c, m);
      StepNotToSelf(n, m);
    }
    AfterSteady(s, m.to, o);
  }

  lemma TimeoutSteady(s: Cluster, c: Core, i: nat)
    requires Sound(s, c) && Shape(s) && AllSteady(s) && i < |s.nodes| && Shape(After(s, i, Tick(s.nodes[i])))
    ensures AllSteady(After(s, i, Tick(s.nodes[i])))
  {
    var o := Tick(s.nodes[i]);
    assert NodeOk(s.nodes[i], c);
    if o.Ok? {
      assert After(s, i, o).nodes[i] == o.node;
      TickSteady(s.nodes[i], c);
      TickNotToSelf(s.nodes[i]);
    }
    AfterSteady(s, i, o);
  }

  lemma StartedSteady(s: Cluster, c: Core, i: nat, cmd: Command)
    requires Sound(s, c) && Shape(s) && AllSteady(s) && i < |s.nodes|
    requires Shape(After(s, i, HandleStart(s.nodes[i], cmd)))
    ensures AllSteady(After(s, i, HandleStart(s.nodes[i], cmd)))
  {
    var o := HandleStart(s.nodes[i], cmd);
    assert NodeOk(s.nodes[i], c);
    if o.Ok? {
      assert After(s, i, o).nodes[i] == o.node;
      StartSteady(s.nodes[i], c, cmd);
      StartNotToSelf(s.nodes[i], cmd);
    }
    AfterSteady(s, i, o);
  }

  lemma AppliedSteady(s: Cluster, i: nat)
    requires Shape(s) && AllSteady(s) && i < |s.nodes| && Shape(After(s, i, ApplyNext(s.nodes[i])))
    ensures AllSteady(After(s, i, ApplyNext(s.nodes[i])))
  {
    var o := ApplyNext(s.nodes[i]);
    if o.Ok? {
      assert After(s, i, o).nodes[i] == o.node;
      SameIsSteady(s.nodes[i], o.node);
    }
    AfterSteady(s, i, o);
  }

  lemma RestartedSteady(s: Cluster, i: nat, stream: seq<ApplyMsg>)
    requires Shape(s) && AllSteady(s) && i < |s.nodes| && Shape(Restarted(s, i, stream))
    ensures AllSteady(Restarted(s, i, stream))
  {}

  lemma NextSteady(s: Cluster, c: Core, e: Event)
    requires Sound(s, c) && Shape(s) && AllSteady(s) && Shape(Next(s, e))
    ensures AllSteady(Next(s, e))
  {
    match e
    case Timeout(i) =>
      if i < |s.nodes| {
        TimeoutSteady(s, c, i);
      }
    case Deliver(m) =>
      if m in s.msgs && m.to < |s.nodes| {
        DeliverSteady(s, c, m);
      }
    case Start(i, cmd) =>
      if i < |s.nodes| {
        StartedSteady(s, c, i, cmd);
      }
    case Apply(i) =>
      if i < |s.nodes| {
        AppliedSteady(s, i);
      }
    case Crash(i) =>
      if i < |s.nodes| {
        RestartedSteady(s, i, s.nodes[i].applied);
      }
    case Torn(m, k) =>
      if m in s.msgs && m.to < |s.nodes| {
        match StepUnsaved(s.nodes[m.to], m)
        case Ok(n, _) => RestartedSteady(s, m.to, ApplyMany(n, k).applied);
        case Panic(_) => RestartedSteady(s, m.to, s.nodes[m.to].applied);
      }
  }

  lemma {:induction false} RunsAreSteady(peers: nat, run: seq<Event>)
    requires peers >= 2
    ensures AllSteady(Exec(peers, run))
  {
    ExecStep(peers, run);
    if run != [] {
      var before := run[..|run| - 1];
      RunsAreSteady(peers, before);
      var c := ExecSound(peers, before);
      NextSteady(Exec(peers, before), c, run[|run| - 1]);
    }
  }

  /** In any run a leader with an entry of its own term at the end of its log counts itself for all of it. */
  lemma LeaderCountsItself(peers: nat, run: seq<Event>, i: nat, t: nat)
    requires peers >= 2 && LeadsIn(Exec(peers, run), i, t)
    ensures var n := Exec(peers, run).nodes[i];
            |n.log| >= 1 && (n.log[|n.log| - 1].term == t ==> n.matchIndex[i] == |n.log| - 1)
  {
    RunsAreSteady(peers, run);
    assert Steady(Exec(peers, run).nodes[i]);
  }

  /** In any run a leader has committed every entry of its term that it knows a majority, itself included, to have. */
  lemma LeaderHasCommitted(peers: nat, run: seq<Event>, i: nat, t: nat, k: nat, others: set<nat>)
    requires peers >= 2 && LeadsIn(Exec(peers, run), i, t)
    requires k < |Exec(peers, run).nodes[i].log| && Exec(peers, run).nodes[i].log[k].term == t
    requires i !in others && |others| >= Majority(peers) - 1
    requires forall j | j in others :: j < peers && Exec(peers, run).nodes[i].matchIndex[j] >= k
    ensures Exec(peers, run).nodes[i].commitIndex >= k
  {
    var n := Exec(peers, run).nodes[i];
    RunsAreSteady(peers, run);
    LogsWellFormed(peers, run, i);
    assert Steady(n) && n.me == i;
    assert n.log[|n.log| - 1].term == t;
    assert others + {i} <= Reaching(n.matchIndex, k);
    SubsetCardinality(others + {i}, Reaching(n.matchIndex, k));
    assert !MayCommit(n, k);
  }

  /** In any run an answer decides an election exactly when it completes a majority of yes or of no. */
  lemma ElectionIsDecided(peers: nat, run: seq<Event>, m: Msg)
    requires peers >= 2 && m in Exec(peers, run).msgs && m.VoteResp? && m.to < peers
    requires var n := Exec(peers, run).nodes[m.to]; n.role.Candidate? && n.currentTerm == m.term
    ensures var n := Exec(peers, run).nodes[m.to];
            && Undecided(n) && Step(n, m).Ok?
            && Decides(Step(n, m).node, Poll(n.votes, m.from, m.granted), peers)
            && Step(n, m).node.currentTerm == m.term
            && (Step(n, m).node.role.Leader? ==> TellsAll(Step(n, m).node, Step(n, m).out))
            && (Step(n, m).node.role.Leader? ==>
                  forall j | 0 <= j < peers :: Step(n, m).node.nextIndex[j] == |n.log|)
  {
    RunsAreSteady(peers, run);
    var c, d := Histories(peers, run, |run|);
    var n := Exec(peers, run).nodes[m.to];
    assert MsgOk(m, d) && NodeOk(n, d) && Steady(n);
    PanicsIffOverreaching(peers, run, Deliver(m), Step(n, m));
    TallyDecides(n, m);
    if Step(n, m).node.role.Leader? {
      WinnerTellsAll(n, m);
    }
  }

  lemma WinnerTellsAll(n: Node, m: Msg)
    requires WellFormed(n) && n.role.Candidate? && m.VoteResp? && WellFormedMsg(m, n.peers)
    requires m.term == n.currentTerm && Step(n, m).Ok? && Step(n, m).node.role.Leader?
    ensures TellsAll(Step(n, m).node, Step(n, m).out)
    ensures forall j | 0 <= j < n.peers :: Step(n, m).node.nextIndex[j] == |n.log|
  {
    var l := BecomeLeader(n.(votes := Poll(n.votes, m.from, m.granted)));
    assert Step(n, m) == Finish(BroadcastAppend(l));
    BroadcastTellsAll(l);
    TellsAllSaved(l, Step(n, m).out);
  }

  // ---- Messages of earlier terms ----

  /** A request of an earlier term is refused, and a sender still in that term steps down when it hears so. */
  lemma StaleSenderStepsDown(n: Node, m: Msg, sender: Node, r: Msg)
    requires WellFormed(n) && WellFormedMsg(m, n.peers) && (m.AppReq? || m.VoteReq?) && m.term < n.currentTerm
    requires WellFormed(sender) && sender.peers == n.peers && n.me < n.peers && sender.currentTerm == m.term
    requires Step(n, m).Ok? && r in Step(n, m).out
    ensures Step(n, m).node == Persist(n) && Step(n, m).out == {r}
    ensures r.term == n.currentTerm && r.from == n.me && r.to == m.from && WellFormedMsg(r, n.peers)
    ensures (r.VoteResp? && !r.granted) || (r.AppResp? && !r.success && r.next == n.commitIndex + 1)
    ensures var o := Step(sender, r);
            o.Ok? && o.node.role.Follower? && o.node.currentTerm == n.currentTerm && o.node.votedFor == NONE &&
            o.node.log == sender.log && o.out == {}
  {}
}
