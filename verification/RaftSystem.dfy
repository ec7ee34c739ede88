/**
 * The cluster of objects: peers that update themselves in place, driven by any sequence of events.
 * Whatever happens, they do what the runs of RaftCluster say, so its theorems are about them.
 */
module RaftSystem {
  import opened RaftTypes
  import opened RaftHandlers
  import opened RaftCore
  import opened RaftInvariant
  import opened RaftSteps
  import opened RaftCluster
  import opened RaftPeer
  import opened RaftSafety

  class System {
    var peers: seq<Raft>
    var msgs: set<Msg>
    var streams: set<seq<ApplyMsg>>
    ghost var history: Core

    ghost function Nodes(): (nodes: seq<Node>)
      reads this, peers
      ensures |nodes| == |peers| && forall i | 0 <= i < |peers| :: nodes[i] == peers[i].View()
    {
      seq(|peers|, i requires 0 <= i < |peers| reads this, peers => peers[i].View())
    }

    ghost function View(): Cluster
      reads this, peers
    {
      Cluster(Nodes(), msgs, streams)
    }

    ghost predicate Distinct()
      reads this
    {
      forall i, j | 0 <= i < j < |peers| :: peers[i] != peers[j]
    }

    /** Separate objects, and a history that explains them. */
    ghost predicate Valid()
      reads this, peers
    {
      Distinct() && Sound(View(), history) && Shape(View())
    }

    constructor (n: nat)
      requires n >= 2
      ensures Valid() && View() == Init(n) && fresh(peers)
    {
      peers, msgs, streams := [], {}, {};
      history := InitHistory(n);
      new;
      for i := 0 to n
        invariant |peers| == i && msgs == {} && streams == {} && history == InitHistory(n) && fresh(peers)
        invariant Distinct() && forall j | 0 <= j < i :: peers[j].View() == Boot(j, n, Blank)
      {
        var p := new Raft(i, n, Blank);
        peers := peers + [p];
      }
      assert View().nodes == Init(n).nodes;
      InitSound(n);
      SoundShape(Init(n), history);
    }

    /** Peer i has done `out`; the others are as they were. */
    method Took(i: nat, out: set<Msg>, ghost was: Cluster, ghost o: Outcome, ghost d: Core)
      requires i < |peers| == |was.nodes| && Distinct() && Sound(was, history) && msgs == was.msgs
      requires streams == was.streams
      requires o.Ok? && peers[i].View() == o.node && out == o.out && Kept(history, d, o.node, out) && o.node.me == i
      requires forall j | 0 <= j < |peers| && j != i :: peers[j].View() == was.nodes[j]
      modifies this`msgs, this`history
      ensures Valid() && View() == After(was, i, o)
    {
      msgs := msgs + out;
      AfterSound(was, history, i, o.node, out, d);
      history := d;
      assert View().nodes == was.nodes[i := o.node];
      SoundShape(View(), history);
    }

    /** Peer i is gone; another starts from what was on its disk. */
    method Restart(i: nat, disk: Disk, stream: seq<ApplyMsg>, ghost was: Cluster)
      requires i < |peers| == |was.nodes| && Distinct() && Sound(was, history) && msgs == was.msgs
      requires streams == was.streams
      requires disk == was.nodes[i].disk && StreamOk(history, stream) && peers[i].peers == |peers|
      requires forall j | 0 <= j < |peers| && j != i :: peers[j].View() == was.nodes[j]
      modifies this`peers, this`streams
      ensures Valid() && View() == Restarted(was, i, stream) && fresh(peers[i]) && peers == old(peers)[i := peers[i]]
    {
      var p := new Raft(i, |peers|, disk);
      peers := peers[i := p];
      streams := streams + {stream};
      RestartSound(was, history, i, stream);
      assert was.nodes[i].me == i && NodeOk(was.nodes[i], history);
      assert View().nodes == was.nodes[i := Boot(i, |peers|, disk)];
      SoundShape(View(), history);
    }

    method ServeAt(i: nat, input: Input)
      requires Valid() && i < |peers| && (input.Receive? ==> input.m in msgs && input.m.to == i)
      modifies this, peers
      ensures Valid() && View() == After(old(View()), i, Response(old(View()).nodes[i], input))
      ensures |peers| == |old(peers)| && forall j | 0 <= j < |peers| :: peers[j] in old(peers) || fresh(peers[j])
    {
      ghost var was := View();
      assert was.nodes[i].me == i && NodeOk(was.nodes[i], history);
      if input.Receive? {
        assert MsgOk(input.m, history);
      }
      var disk, stream := peers[i].persister, peers[i].applied;
      LiveStreamOk(was.nodes[i], history);
      var fault, out;
      ghost var d;
      fault, out, d := peers[i].Serve(input, history);
      assert forall j | 0 <= j < |peers| && j != i :: peers[j].View() == was.nodes[j];
      if fault.None? {
        Took(i, out, was, Response(was.nodes[i], input), d);
      } else {
        Restart(i, disk, stream, was);
      }
    }

    /** One event of the cluster, done by the objects. */
    method Handle(e: Event)
      requires Valid()
      modifies this, peers
      ensures Valid() && View() == Next(old(View()), e)
      ensures |peers| == |old(peers)| && forall j | 0 <= j < |peers| :: peers[j] in old(peers) || fresh(peers[j])
    {
      match e
      case Timeout(i) =>
        if i < |peers| {
          ServeAt(i, Tick);
        }
      case Deliver(m) =>
        if m in msgs && m.to < |peers| {
          ServeAt(m.to, Receive(m));
        }
      case Start(i, cmd) =>
        if i < |peers| {
          ServeAt(i, Command(cmd));
        }
      case Apply(i) =>
        if i < |peers| {
          DeliverOne(i);
        }
      case Crash(i) =>
        if i < |peers| {
          CrashAt(i);
        }
      case Torn(m, k) =>
        if m in msgs && m.to < |peers| {
          Tear(m, k);
        }
    }

    method DeliverOne(i: nat)
      requires Valid() && i < |peers|
      modifies this, peers
      ensures Valid() && View() == After(old(View()), i, ApplyNext(old(View()).nodes[i])) && peers == old(peers)
    {
      ghost var was := View();
      ghost var n := was.nodes[i];
      assert n.me == i && NodeOk(n, history);
      ApplySound(n, history);
      EvolvesReflexive(history, i);
      peers[i].ApplySome(1);
      assert ApplyMany(n, 0) == n;
      assert peers[i].View() == ApplyNext(n).node;
      assert forall j | 0 <= j < |peers| && j != i :: peers[j].View() == was.nodes[j];
      Took(i, {}, was, ApplyNext(n), history);
    }

    method CrashAt(i: nat)
      requires Valid() && i < |peers|
      modifies this, peers
      ensures Valid() && View() == Restarted(old(View()), i, old(View()).nodes[i].applied)
      ensures |peers| == |old(peers)| && forall j | 0 <= j < |peers| :: peers[j] in old(peers) || fresh(peers[j])
    {
      ghost var was := View();
      assert was.nodes[i].me == i && NodeOk(was.nodes[i], history);
      LiveStreamOk(was.nodes[i], history);
      Restart(i, peers[i].persister, peers[i].applied, was);
    }

    /** A message is handled, entries are applied, and the peer dies before anything is saved or sent. */
    method Tear(m: Msg, k: nat)
      requires Valid() && m in msgs && m.to < |peers|
      modifies this, peers
      ensures Valid() && View() == Next(old(View()), Torn(m, k))
      ensures |peers| == |old(peers)| && forall j | 0 <= j < |peers| :: peers[j] in old(peers) || fresh(peers[j])
    {
      ghost var was := View();
      var i := m.to;
      assert was.nodes[i].me == i && NodeOk(was.nodes[i], history) && MsgOk(m, history);
      TornCases(was, history, m, k);
      var disk := peers[i].persister;
      var stream := peers[i].HandleAndApply(m, k, history);
      assert forall j | 0 <= j < |peers| && j != i :: peers[j].View() == was.nodes[j];
      Restart(i, disk, stream, was);
    }

    /** Any run of the objects, from the start, is a run of the model; so their streams never disagree. */
    method Run(events: seq<Event>)
      requires Valid() && View() == Init(|peers|)
      modifies this, peers
      ensures Valid() && View() == Exec(|old(peers)|, events)
      ensures forall i, j | 0 <= i < |peers| && 0 <= j < |peers| ::
                peers[i].applied <= peers[j].applied || peers[j].applied <= peers[i].applied
    {
      ghost var n := |peers|;
      ExecStep(n, []);
      for k := 0 to |events|
        invariant Valid() && |peers| == n >= 2 && View() == Exec(n, events[..k])
        invariant forall j | 0 <= j < |peers| :: peers[j] in old(peers) || fresh(peers[j])
      {
        ExecStep(n, events[..k + 1]);
        assert events[..k + 1][..k] == events[..k];
        Handle(events[k]);
      }
      assert events[..|events|] == events;
      forall i, j | 0 <= i < n && 0 <= j < n
        ensures peers[i].applied <= peers[j].applied || peers[j].applied <= peers[i].applied
      {
        StreamsAgree(n, events, i, j);
        assert View().nodes[i].applied == peers[i].applied && View().nodes[j].applied == peers[j].applied;
      }
    }
  }

  lemma StreamsAgree(n: nat, events: seq<Event>, i: nat, j: nat)
    requires n >= 2 && i < n && j < n
    ensures var s := Exec(n, events);
            s.nodes[i].applied <= s.nodes[j].applied || s.nodes[j].applied <= s.nodes[i].applied
  {
    var s := Exec(n, events);
    assert events[..|events|] == events;
    assert HandedOut(s, s.nodes[i].applied) && HandedOut(s, s.nodes[j].applied);
    StateMachineSafety(n, events, |events|, s.nodes[i].applied, s.nodes[j].applied);
  }

  lemma TornCases(s: Cluster, c: Core, m: Msg, k: nat)
    requires Sound(s, c) && Shape(s) && m in s.msgs && m.to < |s.nodes|
    ensures var stream := TornStream(s.nodes[m.to], m, k);
            Next(s, Torn(m, k)) == Restarted(s, m.to, stream) && StreamOk(c, stream)
  {
    var n := s.nodes[m.to];
    assert NodeOk(n, c) && MsgOk(m, c) && n.me == m.to;
    if StepUnsaved(n, m).Ok? {
      TornStreamOk(n, c, m, k);
    } else {
      LiveStreamOk(n, c);
    }
  }
}
