/**
 * The key/value service on top of the cluster: clerks that number their calls and repeat them until
 * an OK, requests that land late or often, and why every server still executes each call once.
 */
module KvCluster {
  import opened KvOp
  import opened KvReplay
  import opened RaftTypes
  import opened RaftHandlers
  import opened RaftCluster
  import opened RaftInvariant
  import opened RaftSteps
  import opened RaftCore
  import opened RaftSafety
  import KvServer
  import KvClerk

  // ---- Nothing comes from nowhere ----

  ghost predicate LogFrom(log: seq<Entry>, s: set<Command>) {
    forall k | 1 <= k < |log| :: log[k].command in s
  }

  ghost predicate EntriesFrom(ents: seq<Entry>, s: set<Command>) {
    forall k | 0 <= k < |ents| :: ents[k].command in s
  }

  ghost predicate StreamFrom(x: seq<ApplyMsg>, s: set<Command>) {
    forall k | 0 <= k < |x| :: x[k].command in s
  }

  ghost predicate NodeFrom(n: Node, s: set<Command>) {
    LogFrom(n.log, s) && LogFrom(Load(n.disk).log, s) && StreamFrom(n.applied, s)
  }

  ghost predicate MsgFrom(m: Msg, s: set<Command>) {
    m.AppReq? ==> EntriesFrom(m.entries, s)
  }

  ghost predicate OutcomeFrom(o: Outcome, s: set<Command>) {
    o.Ok? ==> NodeFrom(o.node, s) && forall m | m in o.out :: MsgFrom(m, s)
  }

  /** Every command anywhere in the cluster is in `s`. */
  ghost predicate AllFrom(c: Cluster, s: set<Command>) {
    && (forall i | 0 <= i < |c.nodes| :: NodeFrom(c.nodes[i], s))
    && (forall m | m in c.msgs :: MsgFrom(m, s))
    && (forall x | x in c.streams :: StreamFrom(x, s))
  }

  lemma BroadcastFrom(n: Node, s: set<Command>)
    requires WellFormed(n) && NodeFrom(n, s)
    ensures OutcomeFrom(BroadcastAppend(n), s)
  {
    if CanBroadcast(n) {
      forall m | m in AppendRequests(n) ensures MsgFrom(m, s) {
        var i :| 0 <= i < n.peers && i != n.me && m == AppendFor(n, i);
      }
    }
  }

  lemma CampaignFrom(n: Node, s: set<Command>)
    requires WellFormed(n) && NodeFrom(n, s)
    ensures OutcomeFrom(Campaign(n), s)
  {}

  lemma AppendFrom(n: Node, m: Msg, s: set<Command>)
    requires WellFormed(n) && m.AppReq? && WellFormedMsg(m, n.peers) && NodeFrom(n, s) && MsgFrom(m, s)
    ensures OutcomeFrom(HandleAppendEntries(n, m), s)
  {
    if m.prev < |n.log| {
      AcceptFrom(n, m, s);
    }
  }

  lemma AcceptFrom(n: Node, m: Msg, s: set<Command>)
    requires WellFormed(n) && m.AppReq? && WellFormedMsg(m, n.peers) && NodeFrom(n, s) && MsgFrom(m, s)
    requires m.prev < |n.log|
    ensures OutcomeFrom(AcceptAppend(n, m), s)
  {
    SplicedFrom(n.log, m, s);
  }

  lemma SplicedFrom(log: seq<Entry>, m: Msg, s: set<Command>)
    requires m.AppReq? && m.prev < |log| && LogFrom(log, s) && EntriesFrom(m.entries, s)
    requires forall i | 0 <= i < |log| :: log[i].index == i
    requires forall k | 0 <= k < |m.entries| :: m.entries[k].index == m.prev + 1 + k
    ensures LogFrom(Spliced(log, m), s)
  {
    ConflictRange(log, m.entries, m.prev + 1);
  }

  lemma VoteReplyFrom(n: Node, m: Msg, s: set<Command>)
    requires WellFormed(n) && m.VoteResp? && NodeFrom(n, s)
    ensures OutcomeFrom(HandleVoteReply(n, m), s)
  {
    BroadcastFrom(BecomeLeader(n.(votes := Poll(n.votes, m.from, m.granted))), s);
  }

  lemma RoleFrom(n: Node, m: Msg, s: set<Command>)
    requires WellFormed(n) && WellFormedMsg(m, n.peers) && NodeFrom(n, s) && MsgFrom(m, s)
    ensures OutcomeFrom(StepRole(n, m), s)
  {
    if m.AppReq? {
      AppendFrom(n, m, s);
      AppendFrom(BecomeFollower(n, n.currentTerm), m, s);
    } else if m.VoteResp? {
      VoteReplyFrom(n, m, s);
    }
  }

  lemma StepFrom(n: Node, m: Msg, s: set<Command>)
    requires WellFormed(n) && WellFormedMsg(m, n.peers) && NodeFrom(n, s) && MsgFrom(m, s)
    ensures OutcomeFrom(StepUnsaved(n, m), s) && OutcomeFrom(Step(n, m), s)
  {
    RoleFrom(n, m, s);
    RoleFrom(BecomeFollower(n, m.term), m, s);
  }

  lemma StartFrom(n: Node, cmd: Command, s: set<Command>)
    requires WellFormed(n) && NodeFrom(n, s) && cmd in s
    ensures OutcomeFrom(HandleStart(n, cmd), s)
  {
    if n.role.Leader? {
      BroadcastFrom(AppendCommand(n, cmd), s);
    }
  }

  lemma ApplyFrom(n: Node, s: set<Command>)
    requires NodeFrom(n, s)
    ensures OutcomeFrom(ApplyNext(n), s)
  {}

  lemma {:induction false} ApplyManyFrom(n: Node, k: nat, s: set<Command>)
    requires NodeFrom(n, s)
    ensures NodeFrom(ApplyMany(n, k), s)
  {
    if k > 0 {
      ApplyManyFrom(n, k - 1, s);
      ApplyFrom(ApplyMany(n, k - 1), s);
    }
  }

  lemma NextFrom(c: Cluster, e: Event, s: set<Command>)
    requires Shape(c) && AllFrom(c, s) && (e.Start? ==> e.cmd in s)
    ensures AllFrom(Next(c, e), s)
  {
    match e
    case Timeout(i) =>
      if i < |c.nodes| {
        BroadcastFrom(c.nodes[i], s);
        CampaignFrom(c.nodes[i], s);
      }
    case Deliver(m) =>
      if m in c.msgs && m.to < |c.nodes| {
        StepFrom(c.nodes[m.to], m, s);
      }
    case Start(i, cmd) =>
      if i < |c.nodes| {
        StartFrom(c.nodes[i], cmd, s);
      }
    case Apply(i) =>
      if i < |c.nodes| {
        ApplyFrom(c.nodes[i], s);
      }
    case Crash(i) =>
    case Torn(m, k) =>
      if m in c.msgs && m.to < |c.nodes| {
        StepFrom(c.nodes[m.to], m, s);
        var o := StepUnsaved(c.nodes[m.to], m);
        if o.Ok? {
          ApplyManyFrom(o.node, k, s);
        }
      }
  }

  /** The commands clients have handed in during a run. */
  function Started(run: seq<Event>): set<Command> {
    set k | 0 <= k < |run| && run[k].Start? :: run[k].cmd
  }

  /** Validity: every command in a log, a message or a stream was handed in by a client before. */
  lemma {:induction false} NothingInvented(peers: nat, run: seq<Event>)
    requires peers >= 2
    ensures AllFrom(Exec(peers, run), Started(run))
  {
    ExecStep(peers, run);
    if run != [] {
      var n := |run| - 1;
      NothingInvented(peers, run[..n]);
      forall cmd | cmd in Started(run[..n]) ensures cmd in Started(run) {
        var k :| 0 <= k < n && run[..n][k].Start? && run[..n][k].cmd == cmd;
        assert run[k] == run[..n][k];
      }
      MoreFrom(Exec(peers, run[..n]), Started(run[..n]), Started(run));
      NextFrom(Exec(peers, run[..n]), run[n], Started(run));
    }
  }

  lemma MoreFrom(c: Cluster, s: set<Command>, t: set<Command>)
    requires AllFrom(c, s) && s <= t
    ensures AllFrom(c, t)
  {}

  lemma HandedOutFrom(peers: nat, run: seq<Event>, x: seq<ApplyMsg>)
    requires peers >= 2 && HandedOut(Exec(peers, run), x)
    ensures StreamFrom(x, Started(run))
  {
    NothingInvented(peers, run);
  }

  // ---- Streams only grow ----

  lemma {:induction false} ApplyManyGrows(n: Node, k: nat)
    ensures n.applied <= ApplyMany(n, k).applied
  {
    if k > 0 {
      ApplyManyGrows(n, k - 1);
    }
  }

  /** Some stream continues x. */
  ghost predicate Continued(s: Cluster, x: seq<ApplyMsg>) {
    exists y :: HandedOut(s, y) && x <= y
  }

  lemma AfterContinues(s: Cluster, i: nat, o: Outcome, x: seq<ApplyMsg>)
    requires HandedOut(s, x) && i < |s.nodes| && (o.Ok? ==> s.nodes[i].applied <= o.node.applied)
    ensures Continued(After(s, i, o), x)
  {
    var t := After(s, i, o);
    if x in s.streams {
      assert HandedOut(t, x);
    } else {
      var j :| 0 <= j < |s.nodes| && x == s.nodes[j].applied;
      if j != i {
        assert t.nodes[j].applied == x;
        assert HandedOut(t, x);
      } else if o.Ok? {
        assert t.nodes[i].applied == o.node.applied;
        assert HandedOut(t, o.node.applied);
      } else {
        assert HandedOut(t, x);
      }
    }
  }

  lemma RestartContinues(s: Cluster, i: nat, stream: seq<ApplyMsg>, x: seq<ApplyMsg>)
    requires HandedOut(s, x) && i < |s.nodes| && s.nodes[i].applied <= stream
    ensures Continued(Restarted(s, i, stream), x)
  {
    var t := Restarted(s, i, stream);
    assert HandedOut(t, stream);
    if x in s.streams {
      assert HandedOut(t, x);
    } else {
      var j :| 0 <= j < |s.nodes| && x == s.nodes[j].applied;
      if j != i {
        assert t.nodes[j].applied == x;
        assert HandedOut(t, x);
      }
    }
  }

  lemma MessageContinues(s: Cluster, c: Core, m: Msg)
    requires Sound(s, c) && Shape(s) && m in s.msgs && m.to < |s.nodes|
    ensures var o := StepUnsaved(s.nodes[m.to], m); o.Ok? ==> o.node.applied == s.nodes[m.to].applied
  {
    assert MsgOk(m, c);
    var d := StepUnsavedSound(s.nodes[m.to], c, m);
  }

  lemma NextContinues(s: Cluster, c: Core, e: Event, x: seq<ApplyMsg>)
    requires Sound(s, c) && Shape(s) && HandedOut(s, x)
    ensures Continued(Next(s, e), x)
  {
    assert Continued(s, x);
    match e
    case Timeout(i) =>
      if i < |s.nodes| {
        var d := TickSound(s.nodes[i], c);
        AfterContinues(s, i, Tick(s.nodes[i]), x);
      }
    case Deliver(m) =>
      if m in s.msgs && m.to < |s.nodes| {
        MessageContinues(s, c, m);
        AfterContinues(s, m.to, Step(s.nodes[m.to], m), x);
      }
    case Start(i, cmd) =>
      if i < |s.nodes| {
        var d := StartSound(s.nodes[i], c, cmd);
        AfterContinues(s, i, HandleStart(s.nodes[i], cmd), x);
      }
    case Apply(i) =>
      if i < |s.nodes| {
        AfterContinues(s, i, ApplyNext(s.nodes[i]), x);
      }
    case Crash(i) =>
      if i < |s.nodes| {
        RestartContinues(s, i, s.nodes[i].applied, x);
      }
    case Torn(m, k) =>
      if m in s.msgs && m.to < |s.nodes| {
        MessageContinues(s, c, m);
        TornContinues(s, m, k, x);
      }
  }

  lemma TornContinues(s: Cluster, m: Msg, k: nat, x: seq<ApplyMsg>)
    requires Shape(s) && HandedOut(s, x) && m in s.msgs && m.to < |s.nodes|
    requires var o := StepUnsaved(s.nodes[m.to], m); o.Ok? ==> o.node.applied == s.nodes[m.to].applied
    ensures Continued(Next(s, Torn(m, k)), x)
  {
    match StepUnsaved(s.nodes[m.to], m)
    case Ok(n, _) =>
      ApplyManyGrows(n, k);
      RestartContinues(s, m.to, ApplyMany(n, k).applied, x);
    case Panic(_) => RestartContinues(s, m.to, s.nodes[m.to].applied, x);
  }

  /** Whatever was handed to an application stays handed out, as the beginning of some stream. */
  lemma {:induction false} StreamsOnlyGrow(peers: nat, run: seq<Event>, a: nat, x: seq<ApplyMsg>)
    requires peers >= 2 && a <= |run| && HandedOut(Exec(peers, run[..a]), x)
    ensures Continued(Exec(peers, run), x)
  {
    if a == |run| {
      assert run[..a] == run;
      assert HandedOut(Exec(peers, run), x);
    } else {
      var before := run[..|run| - 1];
      assert before[..a] == run[..a];
      StreamsOnlyGrow(peers, before, a, x);
      var y: seq<ApplyMsg> :| HandedOut(Exec(peers, before), y) && x <= y;
      var c := ExecSound(peers, before);
      ExecStep(peers, run);
      NextContinues(Exec(peers, before), c, run[|run| - 1], y);
      var z: seq<ApplyMsg> :| HandedOut(Exec(peers, run), z) && y <= z;
      assert x <= z;
    }
  }

  // ---- Answers ----

  ghost predicate Clients(x: seq<ApplyMsg>) {
    forall k | 0 <= k < |x| :: x[k].command.Client?
  }

  /** The operations of a stream. */
  function OpsOf(x: seq<ApplyMsg>): seq<Op>
    requires forall k | 0 <= k < |x| :: x[k].command.Client?
  {
    seq(|x|, k requires 0 <= k < |x| => x[k].command.op)
  }

  /** What the server takes from the channel, with the indexes of the stream. */
  function Deliveries(x: seq<ApplyMsg>): seq<KvServer.Delivery>
    requires forall k | 0 <= k < |x| :: x[k].command.Client?
  {
    seq(|x|, k requires 0 <= k < |x| => KvServer.Delivery(x[k].index, x[k].command.op))
  }

  ghost predicate Holds(x: seq<ApplyMsg>, i: nat, id: int, reqId: int) {
    i < |x| && x[i].command.Client? && x[i].command.op.id == id && x[i].command.op.reqId == reqId
  }

  /** Some server has applied this request. */
  ghost predicate Answered(c: Cluster, id: int, reqId: int) {
    exists x, i: nat :: HandedOut(c, x) && Holds(x, i, id, reqId)
  }

  /** At some moment a server that was fed from stream x has `op` in slot i, where its handler waits. */
  ghost predicate OkVia(c: Cluster, op: Op, x: seq<ApplyMsg>, sections: seq<KvServer.Section>, i: nat) {
    && HandedOut(c, x) && Clients(x) && KvServer.Arrived(sections) <= Deliveries(x)
    && KvServer.ServerAfter(sections).Some?
    && KvServer.Holding(KvServer.ServerAfter(sections).value, i) == KvServer.Some(op)
  }

  /** A handler can answer OK to `op`. */
  ghost predicate CanOk(c: Cluster, op: Op) {
    exists x, sections, i: nat :: OkVia(c, op, x, sections, i)
  }

  /** An OK means that the request has been applied. */
  lemma OkIsAnswered(peers: nat, run: seq<Event>, op: Op)
    requires peers >= 2 && CanOk(Exec(peers, run), op)
    ensures Answered(Exec(peers, run), op.id, op.reqId)
  {
    var s := Exec(peers, run);
    var x: seq<ApplyMsg>, sections: seq<KvServer.Section>, i: nat :| OkVia(s, op, x, sections, i);
    DeliveryInOrder(peers, run, x);
    var ds := KvServer.Arrived(sections);
    assert forall k | 0 <= k < |ds| :: ds[k] == Deliveries(x)[k];
    KvServer.AlwaysTrue(sections);
    assert KvServer.Applied(sections)[i - 1] == op;
    assert Holds(x, i - 1, op.id, op.reqId);
  }

  /** What has been answered stays answered. */
  lemma AnsweredStays(peers: nat, run: seq<Event>, a: nat, id: int, reqId: int)
    requires peers >= 2 && a <= |run| && Answered(Exec(peers, run[..a]), id, reqId)
    ensures Answered(Exec(peers, run), id, reqId)
  {
    var x: seq<ApplyMsg>, i: nat :| HandedOut(Exec(peers, run[..a]), x) && Holds(x, i, id, reqId);
    StreamsOnlyGrow(peers, run, a, x);
    var y: seq<ApplyMsg> :| HandedOut(Exec(peers, run), y) && x <= y;
    assert Holds(y, i, id, reqId);
  }

  // ---- Clerks ----

  /**
   * Clients and cluster together.  A clerk, one for each client number, begins a call when the last
   * one has returned, and returns when a handler can answer OK.  From its beginning on, the request
   * may land at any server at any time and any number of times, even after the call has returned.
   */
  datatype Act =
    | World(e: Event)
    | Call(id: int, kind: string, key: string, value: string)
    | Land(op: Op, server: nat)
    | Return(id: int)

  datatype Service = Service(run: seq<Event>, clerks: map<int, KvClerk.ClerkState>, sent: set<Op>)

  function ClerkOf(s: Service, id: int): KvClerk.ClerkState {
    if id in s.clerks then s.clerks[id] else KvClerk.NEW
  }

  ghost predicate Can(peers: nat, s: Service, act: Act)
    requires peers >= 2
  {
    match act
    case World(e) => !e.Start?
    case Call(id, _, _, _) => ClerkOf(s, id).pending.None?
    case Land(op, _) => op in s.sent
    case Return(id) => ClerkOf(s, id).pending.Some? && CanOk(Exec(peers, s.run), ClerkOf(s, id).pending.value)
  }

  function Do(s: Service, act: Act): Service {
    match act
    case World(e) => s.(run := s.run + [e])
    case Call(id, kind, key, value) =>
      var c := KvClerk.Begun(ClerkOf(s, id), id, kind, key, value);
      s.(clerks := s.clerks[id := c], sent := s.sent + {c.pending.value})
    case Land(op, server) => s.(run := s.run + [Start(server, Client(op))])
    case Return(id) => s.(clerks := s.clerks[id := KvClerk.Returned(ClerkOf(s, id))])
  }

  function Served(acts: seq<Act>): Service {
    if acts == [] then Service([], map[], {}) else Do(Served(acts[..|acts| - 1]), acts[|acts| - 1])
  }

  ghost predicate Possible(peers: nat, acts: seq<Act>)
    requires peers >= 2
  {
    forall k | 0 <= k < |acts| :: Can(peers, Served(acts[..k]), acts[k])
  }

  /** Every request a client puts in the log comes after all its lower requests have been applied somewhere. */
  ghost predicate ClerkLike(c: Cluster, cmd: Command) {
    cmd.Client? && cmd.op.reqId >= 0 && forall r | 0 <= r < cmd.op.reqId :: Answered(c, cmd.op.id, r)
  }

  ghost predicate DisciplinedAt(peers: nat, run: seq<Event>, k: nat)
    requires peers >= 2 && k < |run|
  {
    run[k].Start? ==> ClerkLike(Exec(peers, run[..k]), run[k].cmd)
  }

  ghost predicate Disciplined(peers: nat, run: seq<Event>)
    requires peers >= 2
  {
    forall k | 0 <= k < |run| :: DisciplinedAt(peers, run, k)
  }

  /** How many requests of a clerk have returned. */
  function Done(c: KvClerk.ClerkState): int {
    if c.pending.Some? then c.next - 1 else c.next
  }

  ghost predicate ClerkOk(peers: nat, s: Service, id: int)
    requires peers >= 2
  {
    var c := ClerkOf(s, id);
    && (c.pending.Some? ==> c.pending.value.id == id && c.pending.value.reqId == c.next - 1 >= 0)
    && (forall op | op in s.sent && op.id == id :: 0 <= op.reqId < c.next)
    && (forall r | 0 <= r < Done(c) :: Answered(Exec(peers, s.run), id, r))
  }

  /** Numbering and waiting: a clerk's returned requests are applied, and what it sent is no further than the next. */
  ghost predicate ServiceOk(peers: nat, s: Service)
    requires peers >= 2
  {
    Disciplined(peers, s.run) && forall id :: ClerkOk(peers, s, id)
  }

  lemma EventKeepsOk(peers: nat, s: Service, e: Event)
    requires peers >= 2 && ServiceOk(peers, s)
    requires e.Start? ==> ClerkLike(Exec(peers, s.run), e.cmd)
    ensures ServiceOk(peers, s.(run := s.run + [e]))
  {
    var t := s.(run := s.run + [e]);
    assert t.run[..|s.run|] == s.run;
    forall k | 0 <= k < |t.run| ensures DisciplinedAt(peers, t.run, k) {
      if k < |s.run| {
        assert t.run[..k] == s.run[..k];
        assert DisciplinedAt(peers, s.run, k);
      }
    }
    forall id ensures ClerkOk(peers, t, id) {
      assert ClerkOk(peers, s, id);
      forall r | 0 <= r < Done(ClerkOf(t, id)) ensures Answered(Exec(peers, t.run), id, r) {
        AnsweredStays(peers, t.run, |s.run|, id, r);
      }
    }
  }

  lemma LandIsClerkLike(peers: nat, s: Service, op: Op)
    requires peers >= 2 && ServiceOk(peers, s) && op in s.sent
    ensures ClerkLike(Exec(peers, s.run), Client(op))
  {
    assert ClerkOk(peers, s, op.id);
  }

  lemma ReturnKeepsOk(peers: nat, s: Service, id: int)
    requires peers >= 2 && ServiceOk(peers, s) && Can(peers, s, Return(id))
    ensures ServiceOk(peers, Do(s, Return(id)))
  {
    var t := Do(s, Return(id));
    assert ClerkOk(peers, s, id);
    OkIsAnswered(peers, s.run, ClerkOf(s, id).pending.value);
    forall j ensures ClerkOk(peers, t, j) {
      assert ClerkOk(peers, s, j);
    }
  }

  lemma CallKeepsOk(peers: nat, s: Service, id: int, kind: string, key: string, value: string)
    requires peers >= 2 && ServiceOk(peers, s) && Can(peers, s, Call(id, kind, key, value))
    ensures ServiceOk(peers, Do(s, Call(id, kind, key, value)))
  {
    var t := Do(s, Call(id, kind, key, value));
    forall j ensures ClerkOk(peers, t, j) {
      assert ClerkOk(peers, s, j);
    }
  }

  lemma {:induction false} PossibleIsOk(peers: nat, acts: seq<Act>)
    requires peers >= 2 && Possible(peers, acts)
    ensures ServiceOk(peers, Served(acts))
  {
    if acts != [] {
      var n := |acts| - 1;
      var before := acts[..n];
      forall k | 0 <= k < n ensures Can(peers, Served(before[..k]), before[k]) {
        assert before[..k] == acts[..k];
      }
      PossibleIsOk(peers, before);
      var s := Served(before);
      assert Can(peers, s, acts[n]);
      match acts[n]
      case World(e) => EventKeepsOk(peers, s, e);
      case Call(id, kind, key, value) => CallKeepsOk(peers, s, id, kind, key, value);
      case Land(op, server) =>
        LandIsClerkLike(peers, s, op);
        EventKeepsOk(peers, s, Start(server, Client(op)));
      case Return(id) => ReturnKeepsOk(peers, s, id);
    }
  }

  /** Clerks supply the order: no request enters any log before all lower ones of its client were applied. */
  lemma ClerksAreDisciplined(peers: nat, acts: seq<Act>)
    requires peers >= 2 && Possible(peers, acts)
    ensures Disciplined(peers, Served(acts).run)
  {
    PossibleIsOk(peers, acts);
  }

  lemma DisciplinedStreamIsClient(peers: nat, run: seq<Event>, x: seq<ApplyMsg>)
    requires peers >= 2 && Disciplined(peers, run) && HandedOut(Exec(peers, run), x)
    ensures forall k | 0 <= k < |x| :: x[k].command.Client? && x[k].command.op.reqId >= 0
  {
    HandedOutFrom(peers, run, x);
    forall k | 0 <= k < |x| ensures x[k].command.Client? && x[k].command.op.reqId >= 0 {
      assert x[k].command in Started(run);
      var e :| 0 <= e < |run| && run[e].Start? && run[e].cmd == x[k].command;
      assert DisciplinedAt(peers, run, e);
    }
  }

  ghost predicate StartsRequest(e: Event, id: int, reqId: int) {
    e.Start? && e.cmd.Client? && e.cmd.op.id == id && e.cmd.op.reqId == reqId
  }

  /** The first time a request was handed in. */
  lemma {:induction false} FirstStart(run: seq<Event>, k: nat, id: int, reqId: int) returns (f: nat)
    requires k < |run| && StartsRequest(run[k], id, reqId)
    ensures f <= k && StartsRequest(run[f], id, reqId)
    ensures forall j | 0 <= j < f :: !StartsRequest(run[j], id, reqId)
    decreases k
  {
    if j :| 0 <= j < k && StartsRequest(run[j], id, reqId) {
      f := FirstStart(run, j, id, reqId);
    } else {
      f := k;
    }
  }

  lemma HandedInBefore(run: seq<Event>, f: nat, y: seq<ApplyMsg>, i: nat, id: int, reqId: int) returns (j: nat)
    requires f <= |run| && StreamFrom(y, Started(run[..f])) && Holds(y, i, id, reqId)
    ensures j < f && StartsRequest(run[j], id, reqId)
  {
    assert y[i].command in Started(run[..f]);
    j :| 0 <= j < f && run[..f][j].Start? && run[..f][j].cmd == y[i].command;
  }

  /** When a request first enters a stream, every lower request of its client is in the stream before it. */
  lemma LowerComeFirst(peers: nat, run: seq<Event>, x: seq<ApplyMsg>, i: nat, id: int, reqId: int, r: int)
    requires peers >= 2 && Disciplined(peers, run) && HandedOut(Exec(peers, run), x)
    requires Holds(x, i, id, reqId) && 0 <= r < reqId
    ensures exists p: nat :: p < i && Holds(x, p, id, r)
  {
    HandedOutFrom(peers, run, x);
    assert x[i].command in Started(run);
    var e :| 0 <= e < |run| && run[e].Start? && run[e].cmd == x[i].command;
    var f := FirstStart(run, e, id, reqId);
    var early := Exec(peers, run[..f]);
    assert DisciplinedAt(peers, run, f);
    assert ClerkLike(early, run[f].cmd);
    assert Answered(early, id, r);
    var y: seq<ApplyMsg>, p: nat :| HandedOut(early, y) && Holds(y, p, id, r);
    StateMachineSafety(peers, run, f, y, x);
    HandedOutFrom(peers, run[..f], y);
    if i < |y| {
      assert y[i] == x[i];
      var j := HandedInBefore(run, f, y, i, id, reqId);
      assert false;
    }
    assert x[p] == y[p];
    assert p < i && Holds(x, p, id, r);
  }

  lemma DisciplinedIsOrderly(peers: nat, run: seq<Event>, x: seq<ApplyMsg>)
    requires peers >= 2 && Disciplined(peers, run) && HandedOut(Exec(peers, run), x)
    ensures Clients(x) && Orderly(OpsOf(x))
  {
    DisciplinedStreamIsClient(peers, run, x);
    var ops := OpsOf(x);
    forall i, j | 0 <= i < j < |ops| && ops[i].id == ops[j].id && First(ops, i) && First(ops, j)
      ensures ops[i].reqId < ops[j].reqId
    {
      if ops[i].reqId > ops[j].reqId {
        LowerComeFirst(peers, run, x, i, ops[i].id, ops[i].reqId, ops[j].reqId);
        var p: nat :| p < i && Holds(x, p, ops[i].id, ops[j].reqId);
        assert SameRequest(ops[p], ops[j]);
        assert false;
      }
      assert !SameRequest(ops[i], ops[j]);
    }
  }

  // ---- The service ----

  /** x is a stream of some moment of the service. */
  ghost predicate StreamOfService(peers: nat, acts: seq<Act>, x: seq<ApplyMsg>) {
    peers >= 2 && Possible(peers, acts) && HandedOut(Exec(peers, Served(acts).run), x)
  }

  /** When a request enters a stream, every lower request of its client is in the stream before it. */
  lemma LowerRequestsComeFirst(peers: nat, acts: seq<Act>, x: seq<ApplyMsg>, i: nat, id: int, reqId: int, r: int)
    requires StreamOfService(peers, acts, x) && Holds(x, i, id, reqId) && 0 <= r < reqId
    ensures exists p: nat :: p < i && Holds(x, p, id, r)
  {
    ClerksAreDisciplined(peers, acts);
    LowerComeFirst(peers, Served(acts).run, x, i, id, reqId, r);
  }

  /** Numbered calls, answered one by one, enter every stream in order. */
  lemma StreamsAreOrderly(peers: nat, acts: seq<Act>, x: seq<ApplyMsg>)
    requires StreamOfService(peers, acts, x)
    ensures Clients(x) && Orderly(OpsOf(x))
  {
    ClerksAreDisciplined(peers, acts);
    DisciplinedIsOrderly(peers, Served(acts).run, x);
  }

  /**
   * Exactly-once, end to end: whatever clients and cluster do, the replay of every server's stream,
   * past or present, is the plain replay of the agreed operations with repeats removed.
   */
  lemma ServiceIsExactlyOnce(peers: nat, acts: seq<Act>, x: seq<ApplyMsg>)
    requires StreamOfService(peers, acts, x)
    ensures Clients(x) && Replay(OpsOf(x)).db == PlainReplay(Dedup(OpsOf(x)))
  {
    StreamsAreOrderly(peers, acts, x);
    ExactlyOnce(OpsOf(x));
  }

  /** Replicas agree: two servers that have applied equally many entries hold the same store. */
  lemma ReplicasAgree(peers: nat, run: seq<Event>, a: nat, x: seq<ApplyMsg>, y: seq<ApplyMsg>)
    requires peers >= 2 && a <= |run| && HandedOut(Exec(peers, run[..a]), x) && HandedOut(Exec(peers, run), y)
    requires |x| == |y| && forall k | 0 <= k < |run| && run[k].Start? :: run[k].cmd.Client?
    ensures Clients(x) && Clients(y) && Replay(OpsOf(x)) == Replay(OpsOf(y))
  {
    StateMachineSafety(peers, run, a, x, y);
    assert x == y;
    HandedOutFrom(peers, run, y);
    forall k | 0 <= k < |y| ensures y[k].command.Client? {
      assert y[k].command in Started(run);
    }
  }

  /**
   * Across the two modules: any server, fed with the messages of its stream just as they come, while
   * its handlers register, receive and finish as they like, never panics about an unordered index;
   * and its database is exactly-once as long as every Get finishes in time.
   */
  lemma ServersAreExactlyOnce(peers: nat, acts: seq<Act>, x: seq<ApplyMsg>, sections: seq<KvServer.Section>)
    requires StreamOfService(peers, acts, x) && Clients(x) && KvServer.Arrived(sections) == Deliveries(x)
    ensures KvServer.ServerAfter(sections).Some?
    ensures KvServer.Timely(sections) ==>
              KvServer.ServerAfter(sections).value.store.db == PlainReplay(Dedup(OpsOf(x)))
  {
    ServiceIsExactlyOnce(peers, acts, x);
    DeliveryInOrder(peers, Served(acts).run, x);
    KvServer.AlwaysTrue(sections);
    KvServer.FollowsIffTimely(sections);
    assert KvServer.Applied(sections) == OpsOf(x);
    if KvServer.Timely(sections) {
      assert KvServer.FollowsAt(sections, |sections|);
      assert sections[..|sections|] == sections;
    }
  }
}
