/**
 * A cluster: its peers, every message ever sent (so a message may be delivered late, twice, out of
 * order or never), and the streams handed to applications by instances that have since crashed.
 * A run is any sequence of events; the same events always lead to the same state.
 */
module RaftCluster {
  import opened RaftTypes
  import opened Quorums
  import opened RaftHandlers
  import opened RaftCore
  import opened RaftInvariant
  import opened RaftSteps

  datatype Cluster = Cluster(nodes: seq<Node>, msgs: set<Msg>, streams: set<seq<ApplyMsg>>)

  datatype Event =
    | Timeout(i: nat)                 // peer i's timer fires
    | Deliver(m: Msg)                 // a sent message arrives
    | Start(i: nat, cmd: Command)     // a client hands peer i a command
    | Apply(i: nat)                   // peer i's application takes its next committed entry
    | Crash(i: nat)                   // peer i dies and comes back from its disk
    | Torn(m: Msg, k: nat)            // a message is handled, the application takes up to k entries,
                                      // and the peer dies before it has saved or answered

  /** What the handlers rely on. */
  predicate Shape(s: Cluster) {
    && (forall i | 0 <= i < |s.nodes| :: WellFormed(s.nodes[i]) && s.nodes[i].me == i && s.nodes[i].peers == |s.nodes|)
    && (forall m | m in s.msgs :: WellFormedMsg(m, |s.nodes|))
  }

  function Init(peers: nat): Cluster {
    Cluster(seq(peers, i requires 0 <= i < peers => Boot(i, peers, Blank)), {}, {})
  }

  /** Peer i is gone with its stream and starts again from its disk. */
  function Restarted(s: Cluster, i: nat, stream: seq<ApplyMsg>): Cluster
    requires i < |s.nodes|
  {
    var n := s.nodes[i];
    Cluster(s.nodes[i := Boot(n.me, n.peers, n.disk)], s.msgs, s.streams + {stream})
  }

  /** A panic ends the process like any other crash. */
  function After(s: Cluster, i: nat, o: Outcome): Cluster
    requires i < |s.nodes|
  {
    match o
    case Ok(n, out) => Cluster(s.nodes[i := n], s.msgs + out, s.streams)
    case Panic(_) => Restarted(s, i, s.nodes[i].applied)
  }

  function Next(s: Cluster, e: Event): Cluster
    requires Shape(s)
  {
    match e
    case Timeout(i) => if i < |s.nodes| then After(s, i, Tick(s.nodes[i])) else s
    case Deliver(m) =>
      if m in s.msgs && m.to < |s.nodes| then After(s, m.to, Step(s.nodes[m.to], m)) else s
    case Start(i, cmd) => if i < |s.nodes| then After(s, i, HandleStart(s.nodes[i], cmd)) else s
    case Apply(i) => if i < |s.nodes| then After(s, i, ApplyNext(s.nodes[i])) else s
    case Crash(i) => if i < |s.nodes| then Restarted(s, i, s.nodes[i].applied) else s
    case Torn(m, k) =>
      if m in s.msgs && m.to < |s.nodes| then
        match StepUnsaved(s.nodes[m.to], m)
        case Ok(n, _) => Restarted(s, m.to, ApplyMany(n, k).applied)
        case Panic(_) => Restarted(s, m.to, s.nodes[m.to].applied)
      else s
  }

  // ---- The invariant of a run ----

  /** A stream delivered to an application repeats a committed prefix, entry by entry. */
  ghost predicate Delivered(c: Core, stream: seq<ApplyMsg>, log: seq<Entry>, bound: nat) {
    |log| >= 1 && log[0] == DUMMY && StreamOf(stream, log) && Committed(c, log, bound)
  }

  ghost predicate StreamOk(c: Core, stream: seq<ApplyMsg>) {
    exists log, bound: nat :: Delivered(c, stream, log, bound)
  }

  ghost predicate Sound(s: Cluster, c: Core) {
    && Inv(c)
    && |s.nodes| == |c.terms| >= 2
    && (forall i {:trigger s.nodes[i]} | 0 <= i < |s.nodes| :: s.nodes[i].me == i && NodeOk(s.nodes[i], c))
    && MsgsOk(s.msgs, c)
    && (forall x {:trigger StreamOk(c, x)} | x in s.streams :: StreamOk(c, x))
  }

  lemma SoundShape(s: Cluster, c: Core)
    requires Sound(s, c)
    ensures Shape(s)
  {
    forall m | m in s.msgs ensures WellFormedMsg(m, |s.nodes|) {
      assert MsgOk(m, c);
    }
  }

  lemma StreamGrows(c: Core, d: Core, x: seq<ApplyMsg>)
    requires Grows(c, d) && StreamOk(c, x)
    ensures StreamOk(d, x)
  {
    var log, bound: nat :| Delivered(c, x, log, bound);
    CommittedGrows(c, d, log, bound, bound);
    assert Delivered(d, x, log, bound);
  }

  lemma AppliedIsDelivered(c: Core, n: Node, log: seq<Entry>)
    requires |n.log| >= 1 && n.log[0] == DUMMY && AppliedOk(n) && n.commitIndex < |n.log|
    requires log == n.log[..n.commitIndex + 1] && Committed(c, log, n.currentTerm)
    ensures Delivered(c, n.applied, log, n.currentTerm)
  {}

  lemma LiveStreamOk(n: Node, c: Core)
    requires Inv(c) && NodeOk(n, c)
    ensures StreamOk(c, n.applied)
  {
    assert LogOk(c, n.me);
    var log := n.log[..n.commitIndex + 1];
    AppliedIsDelivered(c, n, log);
  }

  lemma {:induction false} ApplyManyOk(n: Node, k: nat)
    requires AppliedOk(n) && n.commitIndex < |n.log| && forall i | 0 <= i < |n.log| :: n.log[i].index == i
    ensures var a := ApplyMany(n, k);
            a == n.(applied := a.applied) && AppliedOk(a)
  {
    if k > 0 {
      ApplyManyOk(n, k - 1);
    }
  }

  lemma GoodStreamOk(c: Core, d: Core, n: Node, o: Outcome, k: nat)
    requires Good(c, d, n, o)
    ensures StreamOk(c, ApplyMany(o.node, k).applied)
  {
    var a := o.node;
    assert LogOk(d, a.me);
    ApplyManyOk(a, k);
    AppliedIsDelivered(c, ApplyMany(a, k), a.log[..a.commitIndex + 1]);
  }

  /** The application may have seen what a torn handler committed; that too is committed for good. */
  lemma TornStreamOk(n: Node, c: Core, m: Msg, k: nat)
    requires Inv(c) && NodeOk(n, c) && MsgOk(m, c) && m.to == n.me && StepUnsaved(n, m).Ok?
    ensures StreamOk(c, ApplyMany(StepUnsaved(n, m).node, k).applied)
  {
    var d := StepUnsavedSound(n, c, m);
    GoodStreamOk(c, d, n, StepUnsaved(n, m), k);
  }

  lemma AfterSound(s: Cluster, c: Core, i: nat, n: Node, out: set<Msg>, d: Core)
    requires Sound(s, c) && i < |s.nodes| && Evolves(c, d, i) && NodeOk(n, d) && n.me == i && MsgsOk(out, d)
    ensures Sound(Cluster(s.nodes[i := n], s.msgs + out, s.streams), d)
  {
    var t := Cluster(s.nodes[i := n], s.msgs + out, s.streams);
    forall j | 0 <= j < |t.nodes| ensures t.nodes[j].me == j && NodeOk(t.nodes[j], d) {
      if j != i {
        OthersStaySound(c, d, i, s.nodes[j]);
      }
    }
    forall m | m in t.msgs ensures MsgOk(m, d) {
      if m in s.msgs {
        assert MsgOk(m, c);
        MsgGrows(c, d, m);
      } else {
        assert MsgOk(m, d);
      }
    }
    forall x | x in t.streams ensures StreamOk(d, x) {
      StreamGrows(c, d, x);
    }
  }

  lemma RestartSound(s: Cluster, c: Core, i: nat, stream: seq<ApplyMsg>)
    requires Sound(s, c) && i < |s.nodes| && StreamOk(c, stream)
    ensures Sound(Restarted(s, i, stream), c)
  {
    BootSound(s.nodes[i], c);
  }

  lemma DeliverSound(s: Cluster, c: Core, m: Msg) returns (d: Core)
    requires Sound(s, c) && Shape(s) && m in s.msgs && m.to < |s.nodes|
    ensures Sound(After(s, m.to, Step(s.nodes[m.to], m)), d) && Grows(c, d)
  {
    var n := s.nodes[m.to];
    assert MsgOk(m, c);
    d := StepSound(n, c, m);
    match Step(n, m)
    case Ok(a, out) =>
      AfterSound(s, c, m.to, a, out, d);
    case Panic(_) =>
      d := c;
      EvolvesReflexive(c, m.to);
      LiveStreamOk(n, c);
      RestartSound(s, c, m.to, n.applied);
  }

  lemma TornSound(s: Cluster, c: Core, m: Msg, k: nat)
    requires Sound(s, c) && Shape(s) && m in s.msgs && m.to < |s.nodes|
    ensures Sound(Next(s, Torn(m, k)), c)
  {
    var n := s.nodes[m.to];
    assert MsgOk(m, c);
    match StepUnsaved(n, m)
    case Ok(a, _) =>
      TornStreamOk(n, c, m, k);
      RestartSound(s, c, m.to, ApplyMany(a, k).applied);
    case Panic(_) =>
      LiveStreamOk(n, c);
      RestartSound(s, c, m.to, n.applied);
  }

  /** Every event keeps the invariant, for a history that only grows. */
  lemma NextSound(s: Cluster, c: Core, e: Event) returns (d: Core)
    requires Sound(s, c) && Shape(s)
    ensures Sound(Next(s, e), d) && Grows(c, d)
  {
    d := c;
    EvolvesReflexive(c, 0);
    match e
    case Timeout(i) =>
      if i < |s.nodes| {
        d := TickSound(s.nodes[i], c);
        AfterSound(s, c, i, Tick(s.nodes[i]).node, Tick(s.nodes[i]).out, d);
      }
    case Deliver(m) =>
      if m in s.msgs && m.to < |s.nodes| {
        d := DeliverSound(s, c, m);
      }
    case Start(i, cmd) =>
      if i < |s.nodes| {
        d := StartSound(s.nodes[i], c, cmd);
        AfterSound(s, c, i, HandleStart(s.nodes[i], cmd).node, HandleStart(s.nodes[i], cmd).out, d);
      }
    case Apply(i) =>
      if i < |s.nodes| {
        ApplySound(s.nodes[i], c);
        EvolvesReflexive(c, i);
        AfterSound(s, c, i, ApplyNext(s.nodes[i]).node, {}, c);
      }
    case Crash(i) =>
      if i < |s.nodes| {
        LiveStreamOk(s.nodes[i], c);
        RestartSound(s, c, i, s.nodes[i].applied);
      }
    case Torn(m, k) =>
      if m in s.msgs && m.to < |s.nodes| {
        TornSound(s, c, m, k);
      }
  }

  // ---- Runs ----

  ghost function InitHistory(peers: nat): Core {
    Core(seq(peers, i => 1), seq(peers, i => [DUMMY]), map[], map[], map[], map[])
  }

  lemma InitSound(peers: nat)
    requires peers >= 2
    ensures Sound(Init(peers), InitHistory(peers))
  {
    var s, c := Init(peers), InitHistory(peers);
    forall i | 0 <= i < peers ensures LogOk(c, i) && PeerOk(c, i) {}
    assert LeadersComplete(c);
    forall i | 0 <= i < peers ensures s.nodes[i].me == i && NodeOk(s.nodes[i], c) {
      assert s.nodes[i] == Boot(i, peers, Blank);
      assert |s.nodes[i].log[..1]| == 1;
    }
  }

  ghost predicate Follows(run: seq<Event>, states: seq<Cluster>, k: nat)
    requires k < |run| && |states| == |run| + 1
  {
    Shape(states[k]) && states[k + 1] == Next(states[k], run[k])
  }

  /** The states of a run: one at the start and one after every event. */
  ghost predicate Behaviour(peers: nat, run: seq<Event>, states: seq<Cluster>) {
    && |states| == |run| + 1 && states[0] == Init(peers)
    && (forall k: nat {:trigger Follows(run, states, k)} | k < |run| :: Follows(run, states, k))
  }

  lemma BehaviourPrefix(peers: nat, run: seq<Event>, states: seq<Cluster>)
    requires run != [] && Behaviour(peers, run, states)
    ensures Behaviour(peers, run[..|run| - 1], states[..|run|])
  {
    var before, some := run[..|run| - 1], states[..|run|];
    forall k: nat | k < |before| ensures Follows(before, some, k) {
      assert Follows(run, states, k);
    }
  }

  lemma {:induction false} BehaviourSound(peers: nat, run: seq<Event>, states: seq<Cluster>) returns (c: Core)
    requires peers >= 2 && Behaviour(peers, run, states)
    ensures Sound(states[|run|], c) && |states[|run|].nodes| == peers
  {
    if run == [] {
      InitSound(peers);
      c := InitHistory(peers);
    } else {
      var n := |run| - 1;
      BehaviourPrefix(peers, run, states);
      var before := BehaviourSound(peers, run[..n], states[..n + 1]);
      assert Follows(run, states, n);
      c := NextSound(states[n], before, run[n]);
      NextKeepsPeers(states[n], run[n]);
    }
  }

  lemma NextKeepsPeers(s: Cluster, e: Event)
    requires Shape(s)
    ensures |Next(s, e).nodes| == |s.nodes|
  {}

  lemma {:induction false} BehaviourExists(peers: nat, run: seq<Event>)
    requires peers >= 2
    ensures exists states :: Behaviour(peers, run, states)
  {
    if run == [] {
      assert Behaviour(peers, run, [Init(peers)]);
    } else {
      var n := |run| - 1;
      BehaviourExists(peers, run[..n]);
      var before :| Behaviour(peers, run[..n], before);
      var c := BehaviourSound(peers, run[..n], before);
      SoundShape(before[n], c);
      var states := before + [Next(before[n], run[n])];
      forall k: nat | k < |run| ensures Follows(run, states, k) {
        if k < n {
          assert Follows(run[..n], before, k);
        }
      }
      assert Behaviour(peers, run, states);
    }
  }

  lemma {:induction false} BehaviourUnique(peers: nat, run: seq<Event>, a: seq<Cluster>, b: seq<Cluster>)
    requires Behaviour(peers, run, a) && Behaviour(peers, run, b)
    ensures a == b
  {
    if run != [] {
      var n := |run| - 1;
      BehaviourPrefix(peers, run, a);
      BehaviourPrefix(peers, run, b);
      BehaviourUnique(peers, run[..n], a[..n + 1], b[..n + 1]);
      assert a[..n + 1][n] == b[..n + 1][n];
      assert Follows(run, a, n) && Follows(run, b, n);
      assert a == a[..n + 1] + [a[n + 1]] && b == b[..n + 1] + [b[n + 1]];
    }
  }

  lemma BehaviourShape(peers: nat, run: seq<Event>, states: seq<Cluster>)
    requires peers >= 2 && Behaviour(peers, run, states)
    ensures Shape(states[|run|]) && |states[|run|].nodes| == peers
  {
    var c := BehaviourSound(peers, run, states);
    SoundShape(states[|run|], c);
  }

  /** The state after a run. */
  ghost function Exec(peers: nat, run: seq<Event>): (s: Cluster)
    requires peers >= 2
    ensures Shape(s) && |s.nodes| == peers
  {
    BehaviourExists(peers, run);
    var states :| Behaviour(peers, run, states);
    BehaviourShape(peers, run, states);
    states[|run|]
  }

  lemma ExecIs(peers: nat, run: seq<Event>, states: seq<Cluster>)
    requires peers >= 2 && Behaviour(peers, run, states)
    ensures Exec(peers, run) == states[|run|]
  {
    var own :| Behaviour(peers, run, own) && Exec(peers, run) == own[|run|];
    BehaviourUnique(peers, run, own, states);
  }

  lemma ExecSound(peers: nat, run: seq<Event>) returns (c: Core)
    requires peers >= 2
    ensures Sound(Exec(peers, run), c)
  {
    BehaviourExists(peers, run);
    var states :| Behaviour(peers, run, states);
    ExecIs(peers, run, states);
    c := BehaviourSound(peers, run, states);
  }

  /** Runs start in the initial state and go on event by event. */
  lemma ExecStep(peers: nat, run: seq<Event>)
    requires peers >= 2
    ensures run == [] ==> Exec(peers, run) == Init(peers)
    ensures run != [] ==> Exec(peers, run) == Next(Exec(peers, run[..|run| - 1]), run[|run| - 1])
  {
    BehaviourExists(peers, run);
    var states :| Behaviour(peers, run, states);
    ExecIs(peers, run, states);
    if run != [] {
      var n := |run| - 1;
      BehaviourPrefix(peers, run, states);
      ExecIs(peers, run[..n], states[..n + 1]);
      assert Follows(run, states, n);
    }
  }

  /** One history serves all the states of a run: that of an earlier state grows into that of a later. */
  lemma {:induction false} Histories(peers: nat, run: seq<Event>, a: nat) returns (c: Core, d: Core)
    requires peers >= 2 && a <= |run|
    ensures Sound(Exec(peers, run[..a]), c) && Sound(Exec(peers, run), d) && Grows(c, d)
  {
    if a == |run| {
      assert run[..a] == run;
      c := ExecSound(peers, run);
      d := c;
      EvolvesReflexive(c, 0);
    } else {
      var before := run[..|run| - 1];
      var e: Core;
      c, e := Histories(peers, before, a);
      assert before[..a] == run[..a];
      d := NextSound(Exec(peers, before), e, run[|run| - 1]);
      ExecStep(peers, run);
      GrowsTransitive(c, e, d);
    }
  }
}
