/**
 * Where the guarantees end: a run of three peers in which a leader's conflict scan indexes past its
 * log, and the one-node campaign that is not saved.
 */
module RaftLimits {
  import opened RaftTypes
  import opened Quorums
  import opened RaftHandlers
  import opened RaftCluster

  /** The parts of a peer the run depends on; nothing is ever committed in it. */
  ghost predicate Looks(n: Node, me: nat, term: nat, votedFor: int, log: seq<Entry>, role: Role, next: int) {
    && n.me == me && n.peers == 3 && n.currentTerm == term && n.votedFor == votedFor && n.log == log && n.role == role
    && n.commitIndex == 0 && |n.nextIndex| == 3 && (forall i | 0 <= i < 3 && i != me :: n.nextIndex[i] == next)
    && (role == Candidate ==> n.votes == map[me := true])
    && Load(n.disk) == Hard(term, votedFor, log)
  }

  // ---- Single steps ----

  lemma Campaigns(n: Node, me: nat, term: nat, v: int, log: seq<Entry>, role: Role, next: int, to: nat)
    returns (o: Outcome)
    requires WellFormed(n) && Looks(n, me, term, v, log, role, next) && role != Leader && to < 3 && to != me
    ensures o == Tick(n) && o.Ok? && Looks(o.node, me, term + 1, me, log, Candidate, 0)
    ensures VoteReq(term + 1, me, to, |log| - 1, log[|log| - 1].term) in o.out
  {
    o := Tick(n);
    var c := BecomeCandidate(n).(votes := Poll(map[], me, true));
    assert Granted(c.votes) == {me};
    assert VoteRequestFor(c, to) in VoteRequests(c);
  }

  lemma Grants(n: Node, me: nat, term: nat, v: int, log: seq<Entry>, role: Role, next: int, m: Msg) returns (o: Outcome)
    requires WellFormed(n) && Looks(n, me, term, v, log, role, next) && m.VoteReq? && WellFormedMsg(m, 3)
    requires m.term > term
    requires MoreUpToDate(log, m.lastLogIndex, m.lastLogTerm)
    ensures o == Step(n, m) && o.Ok? && Looks(o.node, me, m.term, m.from, log, Follower, 0)
    ensures VoteResp(m.term, me, m.from, true) in o.out
  {
    o := Step(n, m);
  }

  lemma Wins(n: Node, me: nat, term: nat, v: int, log: seq<Entry>, next: int, from: nat, to: nat) returns (o: Outcome)
    requires WellFormed(n) && Looks(n, me, term, v, log, Candidate, next) && from < 3 && from != me && to < 3
    requires to != me
    ensures var m := VoteResp(term, from, me, true); WellFormedMsg(m, 3) && o == Step(n, m)
    ensures o.Ok? && Looks(o.node, me, term, v, log, Leader, |log|)
    ensures AppReq(term, me, to, 0, |log| - 1, log[|log| - 1].term, []) in o.out
  {
    var m := VoteResp(term, from, me, true);
    o := Step(n, m);
    var c := n.(votes := Poll(n.votes, from, true));
    assert Granted(c.votes) == {me, from};
    var l := BecomeLeader(c);
    assert CanBroadcast(l);
    assert AppendFor(l, to) in AppendRequests(l);
    assert log[|log|..] == [];
  }

  lemma Starts(n: Node, me: nat, term: nat, v: int, log: seq<Entry>, next: int, cmd: Command, to: nat)
    returns (o: Outcome)
    requires WellFormed(n) && Looks(n, me, term, v, log, Leader, next) && 1 <= next <= |log| && to < 3 && to != me
    ensures o == HandleStart(n, cmd) && o.Ok?
    ensures var l := log + [Entry(term, |log|, cmd)];
            && Looks(o.node, me, term, v, l, Leader, next)
            && AppReq(term, me, to, 0, next - 1, l[next - 1].term, l[next..]) in o.out
  {
    o := HandleStart(n, cmd);
    var l := AppendCommand(n, cmd);
    assert CanBroadcast(l);
    assert AppendFor(l, to) in AppendRequests(l);
  }

  lemma Restarts(n: Node, me: nat, term: nat, v: int, log: seq<Entry>, role: Role, next: int)
    requires WellFormed(n) && Looks(n, me, term, v, log, role, next)
    ensures Looks(Boot(n.me, n.peers, n.disk), me, term, v, log, Follower, 0)
  {}

  /** A new leader's single entry replaces everything after slot 0. */
  lemma Overwritten(n: Node, me: nat, term: nat, v: int, log: seq<Entry>, role: Role, next: int, e: Entry, from: nat)
    returns (o: Outcome)
    requires WellFormed(n) && Looks(n, me, term, v, log, role, next) && from < 3
    requires |log| >= 2 && log[1].term != e.term && e.index == 1 && e.term > term
    ensures var m := AppReq(e.term, from, me, 0, 0, log[0].term, [e]); WellFormedMsg(m, 3) && o == Step(n, m)
    ensures o.Ok? && Looks(o.node, me, e.term, NONE, [log[0], e], Follower, 0)
  {
    var m := AppReq(e.term, from, me, 0, 0, log[0].term, [e]);
    o := Step(n, m);
    var f := BecomeFollower(n, e.term);
    assert FindConflict(log, [e]) == 1;
    assert Spliced(log, m) == [log[0], e];
  }

  lemma AnswersStale(n: Node, me: nat, term: nat, v: int, log: seq<Entry>, role: Role, next: int, m: Msg)
    returns (o: Outcome)
    requires WellFormed(n) && Looks(n, me, term, v, log, role, next) && m.AppReq? && WellFormedMsg(m, 3)
    requires m.term < term
    ensures o == Step(n, m) && o.Ok? && o.node == Persist(n)
    ensures AppResp(term, me, m.from, m.prev, false, 1, 0, 0) in o.out
  {
    o := Step(n, m);
  }

  // ---- The same steps in a run ----

  /** From s to t only peer i has changed, and no message was lost. */
  ghost predicate Only(s: Cluster, t: Cluster, i: nat) {
    |s.nodes| == |t.nodes| == 3 && s.msgs <= t.msgs && forall j | 0 <= j < 3 && j != i :: t.nodes[j] == s.nodes[j]
  }

  ghost predicate Reaches(run: seq<Event>, s: Cluster) {
    s == Exec(3, run)
  }

  /** Some run ends in s. */
  ghost predicate Reached(s: Cluster) {
    exists run :: Reaches(run, s)
  }

  lemma ReachedShape(s: Cluster)
    requires Reached(s)
    ensures Shape(s) && |s.nodes| == 3
  {}

  lemma Extends(s: Cluster, e: Event)
    requires Reached(s)
    ensures Shape(s) && Reached(Next(s, e))
  {
    var run :| Reaches(run, s);
    assert (run + [e])[..|run|] == run;
    ExecStep(3, run + [e]);
    assert Reaches(run + [e], Next(s, e));
  }

  lemma OkMoves(s: Cluster, i: nat, o: Outcome)
    requires |s.nodes| == 3 && i < 3 && o.Ok?
    ensures var t := After(s, i, o); Only(s, t, i) && t.nodes[i] == o.node && o.out <= t.msgs
  {}

  /** The cluster after peer i has done o. */
  ghost predicate Did(s: Cluster, t: Cluster, i: nat, o: Outcome) {
    i < 3 && o.Ok? && Reached(t) && Shape(t) && Only(s, t, i) && t.nodes[i] == o.node && o.out <= t.msgs
  }

  lemma Ticked(s: Cluster, i: nat, o: Outcome) returns (t: Cluster)
    requires Reached(s) && Shape(s) && |s.nodes| == 3 && i < 3 && o == Tick(s.nodes[i]) && o.Ok?
    ensures Did(s, t, i, o)
  {
    t := Next(s, Timeout(i));
    Extends(s, Timeout(i));
    ReachedShape(t);
    OkMoves(s, i, o);
  }

  lemma Delivered(s: Cluster, m: Msg, o: Outcome) returns (t: Cluster)
    requires Reached(s) && Shape(s) && |s.nodes| == 3 && m in s.msgs && m.to < 3 && o == Step(s.nodes[m.to], m) && o.Ok?
    ensures Did(s, t, m.to, o)
  {
    t := Next(s, Deliver(m));
    Extends(s, Deliver(m));
    ReachedShape(t);
    OkMoves(s, m.to, o);
  }

  lemma Started(s: Cluster, i: nat, cmd: Command, o: Outcome) returns (t: Cluster)
    requires Reached(s) && Shape(s) && |s.nodes| == 3 && i < 3 && o == HandleStart(s.nodes[i], cmd) && o.Ok?
    ensures Did(s, t, i, o)
  {
    t := Next(s, Start(i, cmd));
    Extends(s, Start(i, cmd));
    ReachedShape(t);
    OkMoves(s, i, o);
  }

  lemma Crashed(s: Cluster, i: nat) returns (t: Cluster)
    requires Reached(s) && Shape(s) && |s.nodes| == 3 && i < 3
    ensures Reached(t) && Shape(t) && Only(s, t, i)
    ensures t.nodes[i] == Boot(s.nodes[i].me, s.nodes[i].peers, s.nodes[i].disk)
  {
    t := Next(s, Crash(i));
    Extends(s, Crash(i));
    ReachedShape(t);
    RestartMoves(s, i);
  }

  lemma RestartMoves(s: Cluster, i: nat)
    requires |s.nodes| == 3 && i < 3
    ensures var t := Restarted(s, i, s.nodes[i].applied);
            Only(s, t, i) && t.nodes[i] == Boot(s.nodes[i].me, s.nodes[i].peers, s.nodes[i].disk)
  {}

  /** Peer a asks peer b, gets its vote, and leads. */
  lemma Elected(s: Cluster, a: nat, term: nat, v: int, log: seq<Entry>, role: Role, b: nat, term': nat, v': int,
                log': seq<Entry>)
    returns (t: Cluster)
    requires Reached(s) && Shape(s) && |s.nodes| == 3
    requires a < 3 && b < 3 && a != b && role != Leader && |log| >= 1 && |log'| >= 1 && term' <= term
    requires Looks(s.nodes[a], a, term, v, log, role, 0) && Looks(s.nodes[b], b, term', v', log', Follower, 0)
    requires MoreUpToDate(log', |log| - 1, log[|log| - 1].term)
    ensures Reached(t) && Shape(t) && |t.nodes| == 3
    ensures s.msgs <= t.msgs && (forall j | 0 <= j < 3 && j != a && j != b :: t.nodes[j] == s.nodes[j])
    ensures Looks(t.nodes[a], a, term + 1, a, log, Leader, |log|)
    ensures Looks(t.nodes[b], b, term + 1, a, log', Follower, 0)
    ensures AppReq(term + 1, a, b, 0, |log| - 1, log[|log| - 1].term, []) in t.msgs
  {
    var o := Campaigns(s.nodes[a], a, term, v, log, role, 0, b);
    t := Ticked(s, a, o);
    var ask := VoteReq(term + 1, a, b, |log| - 1, log[|log| - 1].term);
    o := Grants(t.nodes[b], b, term', v', log', Follower, 0, ask);
    t := Delivered(t, ask, o);
    o := Wins(t.nodes[a], a, term + 1, a, log, 0, b, b);
    t := Delivered(t, VoteResp(term + 1, b, a, true), o);
  }

  // ---- The run ----

  const D := [DUMMY]

  function Long(cmd: Command): seq<Entry> {
    [DUMMY, Entry(2, 1, cmd), Entry(2, 2, cmd), Entry(2, 3, cmd)]
  }

  function Short(cmd: Command): seq<Entry> {
    [DUMMY, Entry(4, 1, cmd)]
  }

  lemma OneStart(s: Cluster, me: nat, term: nat, log: seq<Entry>, cmd: Command, to: nat) returns (t: Cluster)
    requires Reached(s) && Shape(s) && |s.nodes| == 3 && me < 3 && to < 3 && to != me && |log| >= 1
    requires Looks(s.nodes[me], me, term, me, log, Leader, 1)
    ensures Reached(t) && Shape(t) && Only(s, t, me)
    ensures var l := log + [Entry(term, |log|, cmd)];
            Looks(t.nodes[me], me, term, me, l, Leader, 1) && AppReq(term, me, to, 0, 0, l[0].term, l[1..]) in t.msgs
  {
    var o := Starts(s.nodes[me], me, term, me, log, 1, cmd, to);
    t := Started(s, me, cmd, o);
  }

  lemma ThreeStarts(s: Cluster, cmd: Command) returns (t: Cluster)
    requires Reached(s) && Shape(s) && |s.nodes| == 3 && Looks(s.nodes[0], 0, 2, 0, D, Leader, 1)
    ensures Reached(t) && Shape(t) && Only(s, t, 0) && Looks(t.nodes[0], 0, 2, 0, Long(cmd), Leader, 1)
  {
    var l1 := [DUMMY, Entry(2, 1, cmd)];
    var l2 := [DUMMY, Entry(2, 1, cmd), Entry(2, 2, cmd)];
    assert D + [Entry(2, 1, cmd)] == l1 && l1 + [Entry(2, 2, cmd)] == l2 && l2 + [Entry(2, 3, cmd)] == Long(cmd);
    t := OneStart(s, 0, 2, D, cmd, 1);
    t := OneStart(t, 0, 2, l1, cmd, 1);
    t := OneStart(t, 0, 2, l2, cmd, 1);
  }

  lemma CrashesAndReturns(s: Cluster, log: seq<Entry>) returns (t: Cluster)
    requires Reached(s) && Shape(s) && |s.nodes| == 3 && Looks(s.nodes[0], 0, 2, 0, log, Leader, 1)
    ensures Reached(t) && Shape(t) && Only(s, t, 0) && Looks(t.nodes[0], 0, 2, 0, log, Follower, 0)
  {
    Restarts(s.nodes[0], 0, 2, 0, log, Leader, 1);
    t := Crashed(s, 0);
  }

  lemma Initially() returns (s: Cluster)
    ensures Reached(s) && Shape(s) && |s.nodes| == 3
    ensures forall i | 0 <= i < 3 :: Looks(s.nodes[i], i, 1, NONE, D, Follower, 0)
  {
    s := Exec(3, []);
    ExecStep(3, []);
    assert Reaches([], s);
    assert s == Init(3);
  }

  /** Peer 0 leads term 2, takes three commands that go nowhere, and restarts. */
  lemma FirstReign(cmd: Command) returns (s: Cluster)
    ensures Reached(s) && Shape(s) && |s.nodes| == 3
    ensures Looks(s.nodes[0], 0, 2, 0, Long(cmd), Follower, 0)
    ensures Looks(s.nodes[1], 1, 2, 0, D, Follower, 0) && Looks(s.nodes[2], 2, 1, NONE, D, Follower, 0)
  {
    s := Initially();
    s := Elected(s, 0, 1, NONE, D, Follower, 1, 1, NONE, D);
    s := ThreeStarts(s, cmd);
    s := CrashesAndReturns(s, Long(cmd));
  }

  /** The request that arrives much too late. */
  const LATE := AppReq(3, 0, 2, 0, 3, 2, [])

  /** Peer 0 leads term 3 with its long log; then peer 1 is elected for term 4. */
  lemma NextReigns(cmd: Command) returns (s: Cluster)
    ensures Reached(s) && Shape(s) && |s.nodes| == 3
    ensures Looks(s.nodes[0], 0, 3, 0, Long(cmd), Leader, 4) && Looks(s.nodes[1], 1, 4, 1, D, Leader, 1)
    ensures Looks(s.nodes[2], 2, 4, 1, D, Follower, 0) && LATE in s.msgs
  {
    s := FirstReign(cmd);
    s := Elected(s, 0, 2, 0, Long(cmd), Follower, 2, 1, NONE, D);
    var o := Campaigns(s.nodes[1], 1, 2, 0, D, Follower, 0, 2);
    s := Ticked(s, 1, o);
    s := Elected(s, 1, 3, 1, D, Candidate, 2, 3, 0, D);
  }

  /** Its one entry replaces peer 0's log, which gets shorter. */
  lemma Replaced(cmd: Command) returns (s: Cluster)
    ensures Reached(s) && Shape(s) && |s.nodes| == 3
    ensures Looks(s.nodes[0], 0, 4, NONE, Short(cmd), Follower, 0)
    ensures Looks(s.nodes[2], 2, 4, 1, D, Follower, 0) && LATE in s.msgs
  {
    s := NextReigns(cmd);
    var e := Entry(4, 1, cmd);
    assert (D + [e])[1..] == [e];
    s := OneStart(s, 1, 4, D, cmd, 0);
    var o := Overwritten(s.nodes[0], 0, 3, 0, Long(cmd), Leader, 4, e, 1);
    s := Delivered(s, AppReq(4, 1, 0, 0, 0, 1, [e]), o);
  }

  /** Peer 0 leads again, in term 5, with the short log; the delayed request is turned down at last. */
  lemma LastReign(cmd: Command) returns (s: Cluster)
    ensures Reached(s) && Shape(s) && |s.nodes| == 3
    ensures Looks(s.nodes[0], 0, 5, 0, Short(cmd), Leader, 2) && AppResp(5, 2, 0, 3, false, 1, 0, 0) in s.msgs
  {
    s := Replaced(cmd);
    s := Elected(s, 0, 4, NONE, Short(cmd), Follower, 2, 4, 1, D);
    var o := AnswersStale(s.nodes[2], 2, 5, 0, D, Follower, 0, LATE);
    s := Delivered(s, LATE, o);
  }

  /** The unguarded index is reachable: some run ends with a rejection that makes its leader scan past its log. */
  lemma ScanFaultIsReachable(cmd: Command) returns (run: seq<Event>, m: Msg)
    ensures var s := Exec(3, run); m in s.msgs && m.to < 3 && Step(s.nodes[m.to], m) == Panic(ScanOutOfRange)
  {
    var s := LastReign(cmd);
    run :| Reaches(run, s);
    m := AppResp(5, 2, 0, 3, false, 1, 0, 0);
    ScanFails(s.nodes[0], m, Short(cmd));
  }

  lemma ScanFails(n: Node, m: Msg, log: seq<Entry>)
    requires WellFormed(n) && Looks(n, 0, 5, 0, log, Leader, 2) && |log| == 2
    requires m == AppResp(5, 2, 0, 3, false, 1, 0, 0)
    ensures Step(n, m) == Panic(ScanOutOfRange)
  {
    assert ScanForTerm(log, 2, 0) == None;
  }

  // ---- One node ----

  /** A campaign leaves memory and disk equal exactly when there is another peer to ask. */
  lemma CampaignSavedIffPeers(n: Node)
    requires WellFormed(n) && !n.role.Leader? && n.disk == Saved(Current(n))
    ensures Campaign(n).Ok? && (Campaign(n).node.disk == Saved(Current(Campaign(n).node)) <==> n.peers >= 2)
  {
    var c := BecomeCandidate(n).(votes := Poll(map[], n.me, true));
    assert Granted(c.votes) == {n.me};
  }
}
