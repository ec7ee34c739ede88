/**
 * What every run of a cluster of two or more peers guarantees, whatever is lost, repeated,
 * reordered or crashed.  `run[..a]` is the run up to an earlier moment a.
 */
module RaftSafety {
  import opened RaftTypes
  import opened Quorums
  import opened RaftHandlers
  import opened RaftCore
  import opened RaftActions
  import opened RaftInvariant
  import opened RaftSteps
  import opened RaftCluster

  ghost predicate LeadsIn(s: Cluster, i: nat, t: nat) {
    i < |s.nodes| && s.nodes[i].role.Leader? && s.nodes[i].currentTerm == t
  }

  /** Election Safety: at most one peer ever leads a term, at one moment or at two. */
  lemma ElectionSafety(peers: nat, run: seq<Event>, a: nat, i: nat, j: nat, t: nat)
    requires peers >= 2 && a <= |run|
    requires LeadsIn(Exec(peers, run[..a]), i, t) && LeadsIn(Exec(peers, run), j, t)
    ensures i == j
  {
    var c, d := Histories(peers, run, a);
    var s, u := Exec(peers, run[..a]), Exec(peers, run);
    assert NodeOk(s.nodes[i], c) && NodeOk(u.nodes[j], d);
    assert ReignGrows(c, d, t);
  }

  /** Leader Append-Only: while it leads a term, a leader's log is only added to. */
  lemma LeaderAppendOnly(peers: nat, run: seq<Event>, a: nat, i: nat, t: nat)
    requires peers >= 2 && a <= |run|
    requires LeadsIn(Exec(peers, run[..a]), i, t) && LeadsIn(Exec(peers, run), i, t)
    ensures Exec(peers, run[..a]).nodes[i].log <= Exec(peers, run).nodes[i].log
  {
    var c, d := Histories(peers, run, a);
    var s, u := Exec(peers, run[..a]), Exec(peers, run);
    assert NodeOk(s.nodes[i], c) && NodeOk(u.nodes[i], d);
    assert ReignGrows(c, d, t);
  }

  /** Log Matching: one term at one index means one log up to that index, across peers and moments. */
  lemma LogMatching(peers: nat, run: seq<Event>, a: nat, i: nat, j: nat, x: nat)
    requires peers >= 2 && a <= |run| && i < peers && j < peers
    requires x < |Exec(peers, run[..a]).nodes[i].log| && x < |Exec(peers, run).nodes[j].log|
    requires Exec(peers, run[..a]).nodes[i].log[x].term == Exec(peers, run).nodes[j].log[x].term
    ensures Exec(peers, run[..a]).nodes[i].log[..x + 1] == Exec(peers, run).nodes[j].log[..x + 1]
  {
    var c, d := Histories(peers, run, a);
    var s, u := Exec(peers, run[..a]), Exec(peers, run);
    assert NodeOk(s.nodes[i], c) && NodeOk(u.nodes[j], d);
    assert LogOk(c, i) && LogOk(d, j);
    SaneGrows(c, d, s.nodes[i].log);
    SaneLogsMatch(d, s.nodes[i].log, u.nodes[j].log, x);
  }

  /** Slot i of every log carries index i, slot 0 is the dummy, terms never decrease or pass the peer's term. */
  lemma LogsWellFormed(peers: nat, run: seq<Event>, i: nat)
    requires peers >= 2 && i < peers
    ensures WellFormedLog(Exec(peers, run).nodes[i].log, Exec(peers, run).nodes[i].currentTerm)
  {
    var c, d := Histories(peers, run, |run|);
    var u := Exec(peers, run);
    assert NodeOk(u.nodes[i], d);
    assert LogOk(d, i);
  }

  ghost function CommittedLog(n: Node): seq<Entry>
    requires n.commitIndex < |n.log|
  {
    n.log[..n.commitIndex + 1]
  }

  lemma CommitWithinLog(peers: nat, run: seq<Event>, i: nat)
    requires peers >= 2 && i < peers
    ensures Exec(peers, run).nodes[i].commitIndex < |Exec(peers, run).nodes[i].log|
  {
    var c, d := Histories(peers, run, |run|);
    assert NodeOk(Exec(peers, run).nodes[i], d);
  }

  /** Leader Completeness: what peer p had committed is in the log of any leader of its term or a later one. */
  lemma LeaderCompleteness(peers: nat, run: seq<Event>, a: nat, p: nat, i: nat, t: nat)
    requires peers >= 2 && a <= |run| && p < peers
    requires LeadsIn(Exec(peers, run), i, t) && Exec(peers, run[..a]).nodes[p].currentTerm <= t
    ensures Exec(peers, run[..a]).nodes[p].commitIndex < |Exec(peers, run[..a]).nodes[p].log|
    ensures CommittedLog(Exec(peers, run[..a]).nodes[p]) <= Exec(peers, run).nodes[i].log
  {
    var c, d := Histories(peers, run, a);
    var s, u := Exec(peers, run[..a]), Exec(peers, run);
    var n, l := s.nodes[p], u.nodes[i];
    assert NodeOk(n, c) && NodeOk(l, d);
    var log := CommittedLog(n);
    CommittedGrows(c, d, log, n.currentTerm, t);
    assert LogOk(c, p) && LogOk(d, i);
    if |log| > 1 {
      CommittedIsInLeader(d, log, t);
    }
  }

  /** A later leader holds an entry chosen in an earlier term, even when the choice is completed after its election. */
  lemma EarlierChoiceIsInLeader(peers: nat, run: seq<Event>, a: nat, p: nat, i: nat, t: nat)
    requires peers >= 2 && a <= |run| && p < peers
    requires LeadsIn(Exec(peers, run[..a]), i, t) && Exec(peers, run).nodes[p].currentTerm < t
    ensures Exec(peers, run).nodes[p].commitIndex < |Exec(peers, run).nodes[p].log|
    ensures CommittedLog(Exec(peers, run).nodes[p]) <= Exec(peers, run[..a]).nodes[i].log
  {
    var c, d := Histories(peers, run, a);
    var s, u := Exec(peers, run[..a]), Exec(peers, run);
    var n, l := u.nodes[p], s.nodes[i];
    assert NodeOk(n, d) && NodeOk(l, c);
    var log := CommittedLog(n);
    assert LogOk(c, i) && LogOk(d, p);
    assert ReignGrows(c, d, t);
    if |log| > 1 {
      var v: nat, k: nat :| CommittedVia(d, log, n.currentTerm, v, k);
      ChosenIsInLaterLeaders(d, v, k, t);
      ChosenBeforeElection(c, d, v, k, t);
    }
  }

  /** The part of a leader's log that an earlier term chose was there when the leader was elected. */
  lemma ChosenBeforeElection(c: Core, d: Core, v: nat, k: nat, t: nat)
    requires Inv(c) && Inv(d) && Grows(c, d) && v < t && t in c.reigns && OwnTerm(d, v, k)
    requires t in d.reigns && Upto(d, v, k) <= d.reigns[t].log
    ensures Upto(d, v, k) <= c.reigns[t].log
  {
    assert ReignGrows(c, d, t) && ReignOk(d, t) && ReignOk(c, t);
    var was, now := c.reigns[t].log, d.reigns[t].log;
    assert now[k] == Upto(d, v, k)[k];
    assert k < |was|;
    assert Upto(d, v, k) == was[..k + 1];
  }

  // ---- State Machine Safety ----

  /** Every stream handed to an application so far: of crashed instances and of those still running. */
  ghost predicate HandedOut(s: Cluster, stream: seq<ApplyMsg>) {
    stream in s.streams || exists i :: 0 <= i < |s.nodes| && stream == s.nodes[i].applied
  }

  lemma HandedOutOk(s: Cluster, c: Core, stream: seq<ApplyMsg>)
    requires Sound(s, c) && HandedOut(s, stream)
    ensures StreamOk(c, stream)
  {
    if stream !in s.streams {
      var i :| 0 <= i < |s.nodes| && stream == s.nodes[i].applied;
      LiveStreamOk(s.nodes[i], c);
    }
  }

  lemma StreamsOkAgree(c: Core, x: seq<ApplyMsg>, y: seq<ApplyMsg>)
    requires LeadersComplete(c) && StreamOk(c, x) && StreamOk(c, y)
    ensures x <= y || y <= x
  {
    var p, s: nat :| Delivered(c, x, p, s);
    var q, t: nat :| Delivered(c, y, q, t);
    CommittedAgree(c, p, q, s, t);
    var shared := if |x| <= |y| then |x| else |y|;
    forall k | 0 <= k < shared ensures x[k] == y[k] {
      assert p[k + 1] == q[k + 1];
    }
  }

  /**
   * State Machine Safety: of any two streams ever handed to applications, by any peers, at any
   * moments and by any of their instances, one is a prefix of the other.
   */
  lemma StateMachineSafety(peers: nat, run: seq<Event>, a: nat, x: seq<ApplyMsg>, y: seq<ApplyMsg>)
    requires peers >= 2 && a <= |run|
    requires HandedOut(Exec(peers, run[..a]), x) && HandedOut(Exec(peers, run), y)
    ensures x <= y || y <= x
  {
    var c, d := Histories(peers, run, a);
    HandedOutOk(Exec(peers, run[..a]), c, x);
    HandedOutOk(Exec(peers, run), d, y);
    StreamGrows(c, d, x);
    StreamsOkAgree(d, x, y);
  }

  /** In-order delivery: every stream is indexes 1, 2, 3, ... with none skipped or repeated. */
  lemma DeliveryInOrder(peers: nat, run: seq<Event>, x: seq<ApplyMsg>)
    requires peers >= 2 && HandedOut(Exec(peers, run), x)
    ensures forall k | 0 <= k < |x| :: x[k].index == k + 1
  {
    var c, d := Histories(peers, run, |run|);
    HandedOutOk(Exec(peers, run), d, x);
  }

  /** The committed logs of any two peers at any two moments never disagree. */
  lemma CommittedLogsAgree(peers: nat, run: seq<Event>, a: nat, i: nat, j: nat)
    requires peers >= 2 && a <= |run| && i < peers && j < peers
    ensures Exec(peers, run[..a]).nodes[i].commitIndex < |Exec(peers, run[..a]).nodes[i].log|
    ensures Exec(peers, run).nodes[j].commitIndex < |Exec(peers, run).nodes[j].log|
    ensures var p, q := CommittedLog(Exec(peers, run[..a]).nodes[i]), CommittedLog(Exec(peers, run).nodes[j]);
            p <= q || q <= p
  {
    var c, d := Histories(peers, run, a);
    var n, l := Exec(peers, run[..a]).nodes[i], Exec(peers, run).nodes[j];
    assert NodeOk(n, c) && NodeOk(l, d);
    assert LogOk(c, i) && LogOk(d, j);
    CommittedGrows(c, d, CommittedLog(n), n.currentTerm, n.currentTerm);
    CommittedAgree(d, CommittedLog(n), CommittedLog(l), n.currentTerm, l.currentTerm);
  }

  // ---- Panics ----

  /** The outcome of the handler an event runs, if it runs one. */
  ghost predicate Runs(s: Cluster, e: Event, o: Outcome)
    requires Shape(s)
  {
    match e
    case Timeout(i) => i < |s.nodes| && o == Tick(s.nodes[i])
    case Deliver(m) => m in s.msgs && m.to < |s.nodes| && o == Step(s.nodes[m.to], m)
    case Start(i, cmd) => i < |s.nodes| && o == HandleStart(s.nodes[i], cmd)
    case Apply(i) => i < |s.nodes| && o == ApplyNext(s.nodes[i])
    case Crash(i) => false
    case Torn(m, k) => m in s.msgs && m.to < |s.nodes| && o == StepUnsaved(s.nodes[m.to], m)
  }

  /** The event hands a leader the rejection of a request that reached past its present log. */
  ghost predicate Overreaching(s: Cluster, e: Event) {
    (e.Deliver? || e.Torn?) && e.m.to < |s.nodes| && Overreaches(s.nodes[e.m.to], e.m)
  }

  /**
   * No guarded panic is reachable.  In any run a handler panics exactly when a leader hears the
   * rejection of a request that reached past its present log, and then it is the unguarded index in
   * the conflict scan.
   */
  lemma PanicsIffOverreaching(peers: nat, run: seq<Event>, e: Event, o: Outcome)
    requires peers >= 2 && Runs(Exec(peers, run), e, o)
    ensures o.Panic? <==> Overreaching(Exec(peers, run), e)
    ensures o.Panic? ==> o == Panic(ScanOutOfRange)
  {
    var c, d := Histories(peers, run, |run|);
    var s := Exec(peers, run);
    match e
    case Timeout(i) => var x := TickSound(s.nodes[i], d);
    case Deliver(m) => MessagePanicsIff(s, d, m);
    case Start(i, cmd) => var x := StartSound(s.nodes[i], d, cmd);
    case Apply(i) => ApplySound(s.nodes[i], d);
    case Torn(m, k) => MessagePanicsIff(s, d, m);
  }

  lemma MessagePanicsIff(s: Cluster, c: Core, m: Msg)
    requires Sound(s, c) && Shape(s) && m in s.msgs && m.to < |s.nodes|
    ensures var n := s.nodes[m.to];
            && (StepUnsaved(n, m).Panic? <==> Overreaches(n, m))
            && (StepUnsaved(n, m).Panic? ==> StepUnsaved(n, m) == Panic(ScanOutOfRange))
  {
    var n := s.nodes[m.to];
    assert MsgOk(m, c) && NodeOk(n, c);
    var d := StepUnsavedSound(n, c, m);
    if Overreaches(n, m) {
      OverreachPanics(n, c, m);
    }
  }

  // ---- What messages promise ----

  /** Every append ever sent commits no further than the entries it covers, so no `min` is needed. */
  lemma CommitIsCovered(peers: nat, run: seq<Event>, m: Msg)
    requires peers >= 2 && m in Exec(peers, run).msgs && m.AppReq?
    ensures m.commit <= m.prev + |m.entries|
  {
    var c, d := Histories(peers, run, |run|);
    assert MsgOk(m, d);
  }

  /** Two logs hold the same entries through index k. */
  ghost predicate AgreeThrough(a: seq<Entry>, b: seq<Entry>, k: int) {
    0 <= k < |a| && k < |b| && a[..k + 1] == b[..k + 1]
  }

  /** What a peer has acknowledged in its present term, its log still shares with the leader's. */
  lemma AckedMeansAgree(n: Node, l: Node, d: Core, k: nat)
    requires Inv(d) && PeerSound(n, d) && PeerSound(l, d) && l.role.Leader? && l.currentTerm == n.currentTerm
    requires k == 0 || Acked(d, n.currentTerm, n.me, k)
    ensures AgreeThrough(n.log, l.log, k)
  {
    if k == 0 {
      assert LogOk(d, n.me) && LogOk(d, l.me);
      assert n.log[..1] == [DUMMY] && l.log[..1] == [DUMMY];
    } else {
      var a := d.acks[(n.currentTerm, n.me)];
      assert AckOk(d, n.currentTerm, n.me);
      assert l.log[..a + 1] <= n.log;
      assert l.log[..a + 1][..k + 1] == l.log[..k + 1];
    }
  }

  /**
   * Every "success" ever sent, the shortcut answer of a peer that has already committed more included,
   * is a true statement while both sides are in its term: replier and leader agree below `next`.
   */
  lemma SuccessIsTrue(peers: nat, run: seq<Event>, m: Msg, i: nat)
    requires peers >= 2 && m in Exec(peers, run).msgs && m.AppResp? && m.success
    requires LeadsIn(Exec(peers, run), i, m.term)
    requires m.from < peers && Exec(peers, run).nodes[m.from].currentTerm == m.term
    ensures AgreeThrough(Exec(peers, run).nodes[m.from].log, Exec(peers, run).nodes[i].log, m.next - 1)
  {
    var c, d := Histories(peers, run, |run|);
    SuccessTrueIn(Exec(peers, run), d, m, i);
  }

  lemma SuccessTrueIn(s: Cluster, d: Core, m: Msg, i: nat)
    requires Sound(s, d) && m in s.msgs && m.AppResp? && m.success && LeadsIn(s, i, m.term)
    requires m.from < |s.nodes| && s.nodes[m.from].currentTerm == m.term
    ensures AgreeThrough(s.nodes[m.from].log, s.nodes[i].log, m.next - 1)
  {
    assert MsgOk(m, d);
    AckedMeansAgree(s.nodes[m.from], s.nodes[i], d, m.next - 1);
  }

  /** A leader counts a peer's match index only where the logs agree, as long as the peer is in its term. */
  lemma MatchIndexIsTrue(peers: nat, run: seq<Event>, i: nat, j: nat, t: nat)
    requires peers >= 2 && LeadsIn(Exec(peers, run), i, t) && j < peers
    requires Exec(peers, run).nodes[j].currentTerm == t
    ensures var n, l := Exec(peers, run).nodes[i], Exec(peers, run).nodes[j];
            AgreeThrough(l.log, n.log, n.matchIndex[j])
  {
    var c, d := Histories(peers, run, |run|);
    MatchTrueIn(Exec(peers, run), d, i, j, t);
  }

  lemma MatchTrueIn(s: Cluster, d: Core, i: nat, j: nat, t: nat)
    requires Sound(s, d) && LeadsIn(s, i, t) && j < |s.nodes| && s.nodes[j].currentTerm == t
    ensures j < |s.nodes[i].matchIndex| && AgreeThrough(s.nodes[j].log, s.nodes[i].log, s.nodes[i].matchIndex[j])
  {
    assert NodeOk(s.nodes[j], d) && NodeOk(s.nodes[i], d);
    AckedMeansAgree(s.nodes[j], s.nodes[i], d, s.nodes[i].matchIndex[j]);
  }

  /** Term and vote survive: a peer's term never goes back, and within a term a vote once cast never changes. */
  lemma VotesAreKept(peers: nat, run: seq<Event>, a: nat, i: nat)
    requires peers >= 2 && a <= |run| && i < peers
    ensures var n, l := Exec(peers, run[..a]).nodes[i], Exec(peers, run).nodes[i];
            n.currentTerm <= l.currentTerm &&
            (n.currentTerm == l.currentTerm && n.votedFor != NONE ==> l.votedFor == n.votedFor)
  {
    var c, d := Histories(peers, run, a);
    var s, u := Exec(peers, run[..a]), Exec(peers, run);
    assert NodeOk(s.nodes[i], c) && NodeOk(u.nodes[i], d);
  }
}
