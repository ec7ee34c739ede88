/**
 * The progress bookkeeping of the etcd-based node: which committed entries are published, when a
 * snapshot is taken and where the stored log is compacted.  Indexes are 64-bit and wrap.
 */
module EtcdNode {
  const U64: nat := 0x1_0000_0000_0000_0000
  const WINDOW: nat := 10000

  function Wrap(x: int): nat {
    x % U64
  }

  datatype Change = AddNode | RemoveNode | UpdateNode

  datatype Body = Normal(data: string) | ConfChange(change: Change, node: nat)

  datatype Entry = Entry(index: nat, body: Body)

  /** What goes down the commit channel; ReplayDone and LoadSnapshot are both sent as nil. */
  datatype Signal = Value(data: string) | ReplayDone | LoadSnapshot

  datatype Config = Config(id: nat, lastIndex: nat, snapCount: nat)

  /** `offset` is the index the stored log was last cut at; `out` is all that was sent so far. */
  datatype Node = Node(applied: nat, snapshot: nat, offset: nat, out: seq<Signal>)

  /** One turn of the library: snapshot 0 means none. */
  datatype Ready = Ready(snapshot: nat, committed: seq<Entry>)

  datatype Fault = Gap | StaleSnapshot | OutOfDate | Compacted

  datatype Result = Running(node: Node) | Stopped(node: Node) | Fatal(fault: Fault, node: Node)

  /** Whether the k-th send goes through; otherwise the stop signal is seen first. */
  type Taken = nat -> bool

  // ---- The steps ----

  datatype ToApply = Refused | Entries(entries: seq<Entry>)

  function EntriesToApply(ents: seq<Entry>, applied: nat): ToApply {
    if ents == [] then Entries([])
    else if ents[0].index > Wrap(applied + 1) then Refused
    else
      var skip := Wrap(Wrap(applied - ents[0].index) + 1);
      Entries(if skip < |ents| then ents[skip..] else [])
  }

  function Advance(n: Node, e: Entry, cfg: Config, taken: Taken): (Node, bool) {
    var n1 := n.(applied := e.index);
    if e.index != cfg.lastIndex then (n1, true)
    else if taken(|n1.out|) then (n1.(out := n1.out + [ReplayDone]), true)
    else (n1, false)
  }

  function PublishOne(n: Node, e: Entry, cfg: Config, taken: Taken): (Node, bool) {
    match e.body
    case Normal(data) =>
      if data == [] then Advance(n, e, cfg, taken)
      else if !taken(|n.out|) then (n, false)
      else Advance(n.(out := n.out + [Value(data)]), e, cfg, taken)
    case ConfChange(change, node) =>
      if change == RemoveNode && node == cfg.id then (n, false) else Advance(n, e, cfg, taken)
  }

  function PublishAll(n: Node, ents: seq<Entry>, cfg: Config, taken: Taken): (Node, bool) {
    if ents == [] then (n, true)
    else
      var before := PublishAll(n, ents[..|ents| - 1], cfg, taken);
      if before.1 then PublishOne(before.0, ents[|ents| - 1], cfg, taken) else before
  }

  function Install(n: Node, index: nat): Node {
    n.(applied := index, snapshot := index, offset := index, out := n.out + [LoadSnapshot])
  }

  function CompactIndex(applied: nat): nat {
    if applied > WINDOW then applied - WINDOW else 1
  }

  function MaybeSnapshot(n: Node, cfg: Config): Result {
    if Wrap(n.applied - n.snapshot) <= cfg.snapCount then Running(n)
    else if n.applied <= n.snapshot then Fatal(OutOfDate, n)
    else if CompactIndex(n.applied) <= n.offset then Fatal(Compacted, n)
    else Running(n.(snapshot := n.applied, offset := CompactIndex(n.applied)))
  }

  function OnCommitted(n: Node, ents: seq<Entry>, cfg: Config, taken: Taken): Result {
    match EntriesToApply(ents, n.applied)
    case Refused => Fatal(Gap, n)
    case Entries(rest) =>
      var done := PublishAll(n, rest, cfg, taken);
      if done.1 then MaybeSnapshot(done.0, cfg) else Stopped(done.0)
  }

  function OnReady(n: Node, rd: Ready, cfg: Config, taken: Taken): Result {
    if rd.snapshot != 0 && rd.snapshot <= n.applied then Fatal(StaleSnapshot, n)
    else OnCommitted(if rd.snapshot != 0 then Install(n, rd.snapshot) else n, rd.committed, cfg, taken)
  }

  /** With nothing to replay, lastIndex stays 0 and the marker is sent at once. */
  function Greeting(last: nat): seq<Signal> {
    if last == 0 then [ReplayDone] else []
  }

  function Start(index: nat, last: nat): Node {
    Node(index, index, index, Greeting(last))
  }

  /** A node that stopped or died handles no further turn. */
  function Exec(start: nat, run: seq<Ready>, cfg: Config, taken: Taken): Result {
    if run == [] then Running(Start(start, cfg.lastIndex))
    else
      var before := Exec(start, run[..|run| - 1], cfg, taken);
      if before.Running? then OnReady(before.node, run[|run| - 1], cfg, taken) else before
  }

  // ---- What the library hands over ----

  /** A batch is a stretch of the committed log; entry i of the log is at log[i - 1]. */
  ghost predicate FromLog(ents: seq<Entry>, log: seq<Body>) {
    ents != [] ==>
      && 1 <= ents[0].index && ents[0].index + |ents| - 1 <= |log|
      && (forall k | 0 <= k < |ents| :: ents[k] == Entry(ents[0].index + k, log[ents[0].index + k - 1]))
  }

  ghost predicate Turn(rd: Ready, log: seq<Body>) {
    FromLog(rd.committed, log) && rd.snapshot <= |log|
  }

  /** Indexes stay below the last 64-bit value, so `applied + 1` does not wrap to 0. */
  ghost predicate Fits(log: seq<Body>) {
    |log| < U64 - 1
  }

  ghost predicate Turns(run: seq<Ready>, log: seq<Body>) {
    forall i | 0 <= i < |run| :: Turn(run[i], log)
  }

  /** The last index a batch reaches. */
  function End(ents: seq<Entry>): nat {
    if ents == [] then 0 else ents[|ents| - 1].index
  }

  function Max(a: nat, b: nat): nat {
    if a < b then b else a
  }

  /** The furthest index any turn mentions. */
  function Furthest(start: nat, run: seq<Ready>): nat {
    if run == [] then start
    else Max(Max(Furthest(start, run[..|run| - 1]), run[|run| - 1].snapshot), End(run[|run| - 1].committed))
  }

  /** A turn that leaves out nothing: a newer snapshot or none, then a batch from the next index or before. */
  predicate Joins(reached: nat, rd: Ready) {
    && (rd.snapshot == 0 || rd.snapshot > reached)
    && (rd.committed != [] ==> rd.committed[0].index <= Max(reached, rd.snapshot) + 1)
  }

  predicate JoinsAt(start: nat, run: seq<Ready>, i: nat)
    requires i < |run|
  {
    Joins(Furthest(start, run[..i]), run[i])
  }

  /** Every turn joins on to all that came before it, overlapping as it may. */
  ghost predicate Contiguous(start: nat, run: seq<Ready>) {
    forall i | 0 <= i < |run| :: JoinsAt(start, run, i)
  }

  // ---- The wrapping slice ----

  /** The offset is right even where the inner difference has wrapped below 0. */
  lemma SkipOffset(applied: nat, first: nat)
    requires first <= applied + 1 < U64
    ensures Wrap(Wrap(applied - first) + 1) == applied + 1 - first
  {
    if first == applied + 1 {
      assert Wrap(-1) == U64 - 1;
    } else {
      assert Wrap(applied - first) == applied - first;
    }
  }

  lemma RestOfBatch(ents: seq<Entry>, skip: nat, log: seq<Body>)
    requires FromLog(ents, log) && skip < |ents|
    ensures FromLog(ents[skip..], log) && ents[skip..][0].index == ents[0].index + skip
    ensures End(ents[skip..]) == End(ents)
  {
    var rest := ents[skip..];
    assert forall k | 0 <= k < |rest| :: rest[k] == ents[skip + k];
  }

  /** Refused exactly when an entry would be skipped; otherwise what is left is exactly what is new. */
  lemma AppliesExactlyTheRest(ents: seq<Entry>, applied: nat, log: seq<Body>)
    requires Fits(log) && FromLog(ents, log) && applied <= |log|
    ensures EntriesToApply(ents, applied).Refused? <==> ents != [] && ents[0].index > applied + 1
    ensures var a := EntriesToApply(ents, applied);
            a.Entries? ==>
              && FromLog(a.entries, log)
              && (a.entries != [] ==> a.entries[0].index == applied + 1)
              && Max(applied, End(a.entries)) == Max(applied, End(ents))
  {
    if ents != [] && ents[0].index <= applied + 1 {
      var first := ents[0].index;
      SkipOffset(applied, first);
      assert Wrap(applied + 1) == applied + 1;
      var skip := applied + 1 - first;
      if skip < |ents| {
        RestOfBatch(ents, skip, log);
      }
    }
  }

  /** At the very last 64-bit index every batch is refused, even one with nothing new. */
  lemma LastIndexRefusesAll(ents: seq<Entry>)
    requires ents != [] && ents[0].index >= 1
    ensures EntriesToApply(ents, U64 - 1).Refused?
  {
    assert Wrap(U64) == 0;
  }

  // ---- Publishing ----

  /** All that entry `i` sends: its data, and the marker if it is the last entry of the replay. */
  function Signals(b: Body, i: nat, last: nat): seq<Signal> {
    (if b.Normal? && b.data != [] then [Value(b.data)] else []) + (if i == last then [ReplayDone] else [])
  }

  /** All that the entries after `from`, through `to`, send. */
  function Published(log: seq<Body>, from: nat, to: nat, last: nat): seq<Signal>
    requires to <= |log|
  {
    if to <= from then [] else Published(log, from, to - 1, last) + Signals(log[to - 1], to, last)
  }

  /** Stopped in the middle: all was sent, or all but the marker. */
  ghost predicate AllBut(out: seq<Signal>, full: seq<Signal>) {
    out == full || out + [ReplayDone] == full
  }

  /** Publishing the entries that follow `n.applied` moves both the output and the index along the log. */
  ghost predicate Moved(n: Node, m: Node, ok: bool, to: nat, log: seq<Body>, last: nat) {
    && m.snapshot == n.snapshot && m.offset == n.offset
    && n.applied <= m.applied <= to <= |log|
    && (ok ==> m.applied == to && m.out == n.out + Published(log, n.applied, to, last))
    && AllBut(m.out, n.out + Published(log, n.applied, m.applied, last))
  }

  lemma OneMoves(n0: Node, n: Node, e: Entry, log: seq<Body>, cfg: Config, taken: Taken)
    requires Moved(n0, n, true, n.applied, log, cfg.lastIndex)
    requires n.applied < |log| && e == Entry(n.applied + 1, log[n.applied])
    ensures var p := PublishOne(n, e, cfg, taken); Moved(n0, p.0, p.1, e.index, log, cfg.lastIndex)
  {
    var p := PublishOne(n, e, cfg, taken);
    var sent := n0.out + Published(log, n0.applied, n.applied, cfg.lastIndex);
    var s := Signals(e.body, e.index, cfg.lastIndex);
    assert n0.out + Published(log, n0.applied, e.index, cfg.lastIndex) == sent + s;
    var value := if e.body.Normal? && e.body.data != [] then [Value(e.body.data)] else [];
    assert sent + s == sent + value + (if e.index == cfg.lastIndex then [ReplayDone] else []);
    assert sent + value + [] == sent + value && sent + [] == sent;
  }

  lemma {:induction false} AllMove(n: Node, ents: seq<Entry>, log: seq<Body>, cfg: Config, taken: Taken)
    requires FromLog(ents, log) && n.applied <= |log| && (ents != [] ==> ents[0].index == n.applied + 1)
    ensures var p := PublishAll(n, ents, cfg, taken); Moved(n, p.0, p.1, n.applied + |ents|, log, cfg.lastIndex)
  {
    if ents == [] {
      assert n.out + [] == n.out;
    } else {
      var rest := ents[..|ents| - 1];
      AllMove(n, rest, log, cfg, taken);
      var before := PublishAll(n, rest, cfg, taken);
      if before.1 {
        OneMoves(n, before.0, ents[|ents| - 1], log, cfg, taken);
      }
    }
  }

  // ---- Whole runs ----

  /** Entries after `from`, through `to`, were published one after another. */
  datatype Segment = Segment(from: nat, to: nat)

  /** Segments lie in log order, apart: no index is in two, and only installed snapshots leave room between. */
  ghost predicate Ordered(segs: seq<Segment>, log: seq<Body>) {
    && |segs| >= 1
    && (forall i | 0 <= i < |segs| :: segs[i].from <= segs[i].to <= |log|)
    && (forall i, j | 0 <= i < j < |segs| :: segs[i].to < segs[j].from)
  }

  function Told(segs: seq<Segment>, log: seq<Body>, last: nat): seq<Signal>
    requires forall i | 0 <= i < |segs| :: segs[i].to <= |log|
  {
    if segs == [] then Greeting(last)
    else
      var s := segs[|segs| - 1];
      Told(segs[..|segs| - 1], log, last) + (if |segs| > 1 then [LoadSnapshot] else [])
        + Published(log, s.from, s.to, last)
  }

  /** The whole output of a node is the story of its segments, which end where it stands. */
  ghost predicate Story(n: Node, segs: seq<Segment>, start: nat, log: seq<Body>, last: nat) {
    && Ordered(segs, log) && segs[0].from == start && segs[|segs| - 1].to == n.applied
    && n.out == Told(segs, log, last)
  }

  ghost predicate Bounds(n: Node, log: seq<Body>) {
    n.offset <= n.snapshot <= n.applied <= |log|
  }

  function Extended(segs: seq<Segment>, to: nat): seq<Segment>
    requires segs != []
  {
    segs[|segs| - 1 := segs[|segs| - 1].(to := to)]
  }

  lemma {:induction false} PublishedJoins(log: seq<Body>, a: nat, b: nat, c: nat, last: nat)
    requires a <= b <= c <= |log|
    ensures Published(log, a, c, last) == Published(log, a, b, last) + Published(log, b, c, last)
  {
    if b < c {
      PublishedJoins(log, a, b, c - 1, last);
    }
  }

  lemma ExtendedOrdered(segs: seq<Segment>, to: nat, log: seq<Body>)
    requires Ordered(segs, log) && segs[|segs| - 1].to <= to <= |log|
    ensures Ordered(Extended(segs, to), log) && Extended(segs, to)[0].from == segs[0].from
  {}

  lemma ExtendedTold(n: Node, segs: seq<Segment>, to: nat, start: nat, log: seq<Body>, last: nat)
    requires Story(n, segs, start, log, last) && n.applied <= to <= |log|
    ensures Ordered(Extended(segs, to), log) && Extended(segs, to)[0].from == start
    ensures Told(Extended(segs, to), log, last) == n.out + Published(log, n.applied, to, last)
  {
    ExtendedOrdered(segs, to, log);
    ToldSplits(segs, log, last);
    ToldSplits(Extended(segs, to), log, last);
    assert Extended(segs, to)[..|segs| - 1] == segs[..|segs| - 1];
    PublishedJoins(log, segs[|segs| - 1].from, n.applied, to, last);
  }

  /** All that was told before the last segment. */
  function Head(segs: seq<Segment>, log: seq<Body>, last: nat): seq<Signal>
    requires forall i | 0 <= i < |segs| :: segs[i].to <= |log|
  {
    Told(segs, log, last) + if segs != [] then [LoadSnapshot] else []
  }

  lemma ToldSplits(segs: seq<Segment>, log: seq<Body>, last: nat)
    requires Ordered(segs, log)
    ensures var s := segs[|segs| - 1];
            Told(segs, log, last) == Head(segs[..|segs| - 1], log, last) + Published(log, s.from, s.to, last)
  {}

  lemma InstallStory(n: Node, index: nat, segs: seq<Segment>, start: nat, log: seq<Body>, last: nat)
    requires Story(n, segs, start, log, last) && n.applied < index <= |log|
    ensures Story(Install(n, index), segs + [Segment(index, index)], start, log, last)
  {
    var more := segs + [Segment(index, index)];
    assert more[..|more| - 1] == segs;
    assert n.out + [LoadSnapshot] + [] == n.out + [LoadSnapshot];
    forall i, j | 0 <= i < j < |more| ensures more[i].to < more[j].from {
      if j == |segs| && i < |segs| - 1 {
        assert segs[i].to < segs[|segs| - 1].from;
      }
    }
  }

  /** Below the window a compaction can only fail; from the window on it lands exactly the window back. */
  lemma CompactsWindowBack(n: Node, cfg: Config, log: seq<Body>)
    requires Bounds(n, log) && Fits(log)
    ensures Wrap(n.applied - n.snapshot) == n.applied - n.snapshot
    ensures SnapshotOk(n, MaybeSnapshot(n, cfg), cfg, log)
  {
  }

  ghost predicate SnapshotOk(n: Node, r: Result, cfg: Config, log: seq<Body>) {
    && !r.Stopped? && (r.Fatal? ==> r == Fatal(Compacted, n) && cfg.snapCount < WINDOW)
    && (r.Running? ==> Bounds(r.node, log) && r.node.applied == n.applied && r.node.out == n.out)
    && (r.Running? ==> r.node.applied - r.node.snapshot <= cfg.snapCount)
    && (r.Running? ==> (r.node == n <==> n.applied - n.snapshot <= cfg.snapCount))
    && (r.Running? && r.node != n && cfg.snapCount >= WINDOW ==>
          && r.node.snapshot == n.applied && r.node.offset == n.applied - WINDOW
          && r.node.offset > n.snapshot && r.node.offset > n.offset)
  }

  ghost predicate CommittedOk(n: Node, r: Result, ents: seq<Entry>, segs: seq<Segment>, start: nat, log: seq<Body>,
                              cfg: Config)
    requires segs != []
  {
    match r
    case Running(m) =>
      && m.applied == Max(n.applied, End(ents)) && Bounds(m, log)
      && Story(m, Extended(segs, m.applied), start, log, cfg.lastIndex)
    case Stopped(m) =>
      && n.applied <= m.applied && Bounds(m, log) && Ended(m, Extended(segs, m.applied), start, log, cfg.lastIndex)
    case Fatal(f, m) =>
      || (f == Gap && ents != [] && ents[0].index > n.applied + 1 && m == n)
      || (f == Compacted && cfg.snapCount < WINDOW && n.applied <= m.applied && Bounds(m, log)
          && Story(m, Extended(segs, m.applied), start, log, cfg.lastIndex))
  }

  /** The story of a node that stopped: it may lack the final marker. */
  ghost predicate Ended(n: Node, segs: seq<Segment>, start: nat, log: seq<Body>, last: nat) {
    && Ordered(segs, log) && segs[0].from == start && segs[|segs| - 1].to == n.applied
    && AllBut(n.out, Told(segs, log, last))
  }

  lemma CommittedStep(n: Node, ents: seq<Entry>, segs: seq<Segment>, start: nat, log: seq<Body>, cfg: Config,
                      taken: Taken)
    requires Story(n, segs, start, log, cfg.lastIndex) && Bounds(n, log) && Fits(log) && FromLog(ents, log)
    ensures CommittedOk(n, OnCommitted(n, ents, cfg, taken), ents, segs, start, log, cfg)
    ensures ents != [] && ents[0].index > n.applied + 1 ==> OnCommitted(n, ents, cfg, taken) == Fatal(Gap, n)
  {
    AppliesExactlyTheRest(ents, n.applied, log);
    var a := EntriesToApply(ents, n.applied);
    if a.Entries? {
      AllMove(n, a.entries, log, cfg, taken);
      var done := PublishAll(n, a.entries, cfg, taken);
      MovedTold(n, done.0, done.1, n.applied + |a.entries|, ents, segs, start, log, cfg);
    }
  }

  lemma MovedTold(n: Node, m: Node, ok: bool, to: nat, ents: seq<Entry>, segs: seq<Segment>, start: nat, log: seq<Body>,
                  cfg: Config)
    requires Story(n, segs, start, log, cfg.lastIndex) && Bounds(n, log) && Fits(log)
    requires Moved(n, m, ok, to, log, cfg.lastIndex) && to == Max(n.applied, End(ents))
    ensures CommittedOk(n, if ok then MaybeSnapshot(m, cfg) else Stopped(m), ents, segs, start, log, cfg)
  {
    ExtendedTold(n, segs, m.applied, start, log, cfg.lastIndex);
    if ok {
      CompactsWindowBack(m, cfg, log);
    }
  }

  /** What any run tells, up to its end or its death: a story without repeats or gaps. */
  ghost predicate RunOk(r: Result, run: seq<Ready>, segs: seq<Segment>, start: nat, log: seq<Body>, cfg: Config) {
    match r
    case Running(n) =>
      Story(n, segs, start, log, cfg.lastIndex) && Bounds(n, log) && n.applied == Furthest(start, run)
    case Stopped(n) =>
      Bounds(n, log) && Ended(n, segs, start, log, cfg.lastIndex)
    case Fatal(f, n) =>
      && Story(n, segs, start, log, cfg.lastIndex) && Bounds(n, log)
      && f != OutOfDate && (f == Compacted ==> cfg.snapCount < WINDOW)
  }

  ghost predicate TurnOk(n: Node, r: Result, rd: Ready, segs: seq<Segment>, start: nat, log: seq<Body>, cfg: Config) {
    match r
    case Running(m) =>
      && Story(m, segs, start, log, cfg.lastIndex) && Bounds(m, log) && Joins(n.applied, rd)
      && m.applied == Max(Max(n.applied, rd.snapshot), End(rd.committed))
    case Stopped(m) => Bounds(m, log) && Ended(m, segs, start, log, cfg.lastIndex) && Joins(n.applied, rd)
    case Fatal(f, m) =>
      && Story(m, segs, start, log, cfg.lastIndex) && Bounds(m, log)
      && (f == Compacted ==> cfg.snapCount < WINDOW && Joins(n.applied, rd))
      && (f == Gap || f == StaleSnapshot || f == Compacted)
      && (f == Gap || f == StaleSnapshot ==> !Joins(n.applied, rd))
  }

  lemma TurnStep(n: Node, rd: Ready, segs: seq<Segment>, start: nat, log: seq<Body>, cfg: Config, taken: Taken)
    returns (more: seq<Segment>)
    requires Story(n, segs, start, log, cfg.lastIndex) && Bounds(n, log) && Fits(log) && Turn(rd, log)
    ensures TurnOk(n, OnReady(n, rd, cfg, taken), rd, more, start, log, cfg)
  {
    more := segs;
    if rd.snapshot == 0 || rd.snapshot > n.applied {
      var n1 := if rd.snapshot != 0 then Install(n, rd.snapshot) else n;
      if rd.snapshot != 0 {
        InstallStory(n, rd.snapshot, segs, start, log, cfg.lastIndex);
        more := segs + [Segment(rd.snapshot, rd.snapshot)];
      }
      CommittedStep(n1, rd.committed, more, start, log, cfg, taken);
      var r := OnReady(n, rd, cfg, taken);
      if r.Fatal? && r.fault == Gap {
        assert r.node == n1;
      } else {
        more := Extended(more, r.node.applied);
      }
    }
  }

  /** Every run, whatever batches repeat or overlap and wherever the consumer stops listening. */
  lemma {:induction false} EveryRun(start: nat, run: seq<Ready>, log: seq<Body>, cfg: Config, taken: Taken)
    returns (segs: seq<Segment>)
    requires Fits(log) && start <= |log| && Turns(run, log)
    ensures RunOk(Exec(start, run, cfg, taken), run, segs, start, log, cfg)
  {
    if run == [] {
      segs := [Segment(start, start)];
      assert segs[..0] == [];
    } else {
      segs := EveryRun(start, run[..|run| - 1], log, cfg, taken);
      var before := Exec(start, run[..|run| - 1], cfg, taken);
      if before.Running? {
        segs := TurnStep(before.node, run[|run| - 1], segs, start, log, cfg, taken);
      }
    }
  }

  /** How often the end-of-replay marker was sent. */
  function Marks(out: seq<Signal>): nat {
    if out == [] then 0 else Marks(out[..|out| - 1]) + if out[|out| - 1] == ReplayDone then 1 else 0
  }

  lemma {:induction false} MarksJoin(a: seq<Signal>, b: seq<Signal>)
    ensures Marks(a + b) == Marks(a) + Marks(b)
  {
    if b == [] {
      assert a + b == a;
    } else {
      MarksJoin(a, b[..|b| - 1]);
      assert (a + b)[..|a + b| - 1] == a + b[..|b| - 1];
    }
  }

  lemma MarksOf(b: Body, i: nat, last: nat)
    ensures Marks(Signals(b, i, last)) == if i == last then 1 else 0
  {
    var value := if b.Normal? && b.data != [] then [Value(b.data)] else [];
    var mark := if i == last then [ReplayDone] else [];
    MarksJoin(value, mark);
  }

  lemma {:induction false} MarkersIn(log: seq<Body>, from: nat, to: nat, last: nat)
    requires to <= |log|
    ensures Marks(Published(log, from, to, last)) == if from < last <= to then 1 else 0
  {
    if from < to {
      MarkersIn(log, from, to - 1, last);
      MarksOf(log[to - 1], to, last);
      MarksJoin(Published(log, from, to - 1, last), Signals(log[to - 1], to, last));
    }
  }

  lemma {:induction false} ToldMarksOnce(segs: seq<Segment>, log: seq<Body>, last: nat)
    requires segs == [] || Ordered(segs, log)
    ensures Marks(Told(segs, log, last)) <= 1
    ensures Marks(Told(segs, log, last)) == 1 ==> last == 0 || (segs != [] && last <= segs[|segs| - 1].to)
    ensures last == 0 ==> Marks(Told(segs, log, last)) == 1
  {
    if segs == [] {
      assert last == 0 ==> Greeting(last)[..0] == [];
    } else {
      var k := |segs| - 1;
      var s := segs[k];
      ToldMarksOnce(segs[..k], log, last);
      MarkersIn(log, s.from, s.to, last);
      var told := Told(segs[..k], log, last);
      var load := if |segs| > 1 then [LoadSnapshot] else [];
      MarksJoin(told, load);
      MarksJoin(told + load, Published(log, s.from, s.to, last));
      assert k > 0 ==> segs[k - 1].to < s.from;
    }
  }

  /** The end-of-replay marker is sent at most once in any run, however it ends; at once if nothing is replayed. */
  lemma MarkerAtMostOnce(start: nat, run: seq<Ready>, log: seq<Body>, cfg: Config, taken: Taken)
    requires Fits(log) && start <= |log| && Turns(run, log)
    ensures Marks(Exec(start, run, cfg, taken).node.out) <= 1
    ensures cfg.lastIndex == 0 && !Exec(start, run, cfg, taken).Stopped? ==>
              Marks(Exec(start, run, cfg, taken).node.out) == 1
  {
    var segs := EveryRun(start, run, log, cfg, taken);
    ToldMarksOnce(segs, log, cfg.lastIndex);
    MarksJoin(Exec(start, run, cfg, taken).node.out, [ReplayDone]);
  }

  ghost predicate NoSnapshots(run: seq<Ready>) {
    forall i | 0 <= i < |run| :: run[i].snapshot == 0
  }

  /** All that a run without snapshots has to send when it has come to index `to`. */
  function Expected(log: seq<Body>, start: nat, to: nat, last: nat): seq<Signal>
    requires to <= |log|
  {
    Greeting(last) + Published(log, start, to, last)
  }

  ghost predicate OnceOk(r: Result, run: seq<Ready>, start: nat, log: seq<Body>, cfg: Config) {
    && start <= r.node.applied <= |log|
    && match r
       case Running(n) =>
         n.applied == Furthest(start, run) && n.out == Expected(log, start, n.applied, cfg.lastIndex)
       case Stopped(n) => AllBut(n.out, Expected(log, start, n.applied, cfg.lastIndex))
       case Fatal(f, n) =>
         && n.out == Expected(log, start, n.applied, cfg.lastIndex)
         && (f == Gap || f == Compacted)
  }

  /** Without installed snapshots the output, at any end, is exactly the log from the start to where the node stands. */
  lemma {:induction false} ExactlyOnce(start: nat, run: seq<Ready>, log: seq<Body>, cfg: Config, taken: Taken)
    requires Fits(log) && start <= |log| && Turns(run, log) && NoSnapshots(run)
    ensures OnceOk(Exec(start, run, cfg, taken), run, start, log, cfg)
  {
    if run != [] {
      var rest := run[..|run| - 1];
      ExactlyOnce(start, rest, log, cfg, taken);
      var segs := EveryRun(start, rest, log, cfg, taken);
      var before := Exec(start, rest, cfg, taken);
      if before.Running? {
        OnceStep(start, before.node, run[|run| - 1], log, cfg, taken);
      }
    }
  }

  lemma OnceStep(start: nat, n: Node, rd: Ready, log: seq<Body>, cfg: Config, taken: Taken)
    requires Fits(log) && Turn(rd, log) && rd.snapshot == 0 && Bounds(n, log) && start <= n.applied
    requires n.out == Expected(log, start, n.applied, cfg.lastIndex)
    ensures var r := OnReady(n, rd, cfg, taken);
            && start <= r.node.applied <= |log|
            && (r.Running? ==> r.node.applied == Max(n.applied, End(rd.committed)))
            && (r.Stopped? ==> AllBut(r.node.out, Expected(log, start, r.node.applied, cfg.lastIndex)))
            && (!r.Stopped? ==> r.node.out == Expected(log, start, r.node.applied, cfg.lastIndex))
            && (r.Fatal? ==> r.fault == Gap || r.fault == Compacted)
  {
    var segs := [Segment(start, n.applied)];
    OneTold(start, n.applied, log, cfg.lastIndex);
    CommittedStep(n, rd.committed, segs, start, log, cfg, taken);
    var r := OnReady(n, rd, cfg, taken);
    if r.node != n {
      OneTold(start, r.node.applied, log, cfg.lastIndex);
      assert Extended(segs, r.node.applied) == [Segment(start, r.node.applied)];
    }
  }

  lemma OneTold(from: nat, to: nat, log: seq<Body>, last: nat)
    requires to <= |log|
    ensures Told([Segment(from, to)], log, last) == Expected(log, from, to, last)
  {
    var segs := [Segment(from, to)];
    assert segs[..0] == [];
    assert Greeting(last) + [] + Published(log, from, to, last) == Expected(log, from, to, last);
  }

  // ---- When a run goes through ----

  /** A running node dies of a gap or a stale snapshot exactly when the turn does not join on. */
  lemma DiesIffNotJoined(start: nat, run: seq<Ready>, log: seq<Body>, cfg: Config, taken: Taken)
    requires Fits(log) && start <= |log| && Turns(run, log) && run != []
    requires Exec(start, run[..|run| - 1], cfg, taken).Running?
    ensures var r := Exec(start, run, cfg, taken);
            (r.Fatal? && (r.fault == Gap || r.fault == StaleSnapshot)) <==> !JoinsAt(start, run, |run| - 1)
  {
    var rest := run[..|run| - 1];
    var segs := EveryRun(start, rest, log, cfg, taken);
    var n := Exec(start, rest, cfg, taken).node;
    var more := TurnStep(n, run[|run| - 1], segs, start, log, cfg, taken);
  }

  /** With a snapshot count of at least the window, no run dies from a compaction below an earlier cut. */
  lemma CompactionNeverFails(start: nat, run: seq<Ready>, log: seq<Body>, cfg: Config, taken: Taken)
    requires Fits(log) && start <= |log| && Turns(run, log) && cfg.snapCount >= WINDOW
    ensures var r := Exec(start, run, cfg, taken); r.Fatal? ==> r.fault == Gap || r.fault == StaleSnapshot
  {
    var segs := EveryRun(start, run, log, cfg, taken);
  }

  lemma ContiguousPrefix(start: nat, run: seq<Ready>)
    requires run != []
    ensures Contiguous(start, run) <==> Contiguous(start, run[..|run| - 1]) && JoinsAt(start, run, |run| - 1)
  {
    var rest := run[..|run| - 1];
    forall i | 0 <= i < |rest| ensures JoinsAt(start, rest, i) <==> JoinsAt(start, run, i) {
      assert rest[..i] == run[..i];
    }
  }

  /** Contiguous batches never kill a node whose snapshot count is at least the window. */
  lemma {:induction false} ContiguousNeverDies(start: nat, run: seq<Ready>, log: seq<Body>, cfg: Config, taken: Taken)
    requires Fits(log) && start <= |log| && Turns(run, log) && cfg.snapCount >= WINDOW && Contiguous(start, run)
    ensures !Exec(start, run, cfg, taken).Fatal?
  {
    if run != [] {
      ContiguousPrefix(start, run);
      ContiguousNeverDies(start, run[..|run| - 1], log, cfg, taken);
      CompactionNeverFails(start, run, log, cfg, taken);
      if Exec(start, run[..|run| - 1], cfg, taken).Running? {
        DiesIffNotJoined(start, run, log, cfg, taken);
      }
    }
  }

  /** The consumer takes everything and the log never removes this node. */
  ghost predicate Unhindered(log: seq<Body>, cfg: Config, taken: Taken) {
    && (forall k: nat :: taken(k))
    && (forall i | 0 <= i < |log| :: log[i] != ConfChange(RemoveNode, cfg.id))
  }

  lemma {:induction false} UnhinderedPublishes(n: Node, ents: seq<Entry>, log: seq<Body>, cfg: Config, taken: Taken)
    requires FromLog(ents, log) && Unhindered(log, cfg, taken)
    ensures PublishAll(n, ents, cfg, taken).1
  {
    if ents != [] {
      UnhinderedPublishes(n, ents[..|ents| - 1], log, cfg, taken);
    }
  }

  lemma UnhinderedNeverStops(n: Node, rd: Ready, log: seq<Body>, cfg: Config, taken: Taken)
    requires Fits(log) && Turn(rd, log) && n.applied <= |log| && Unhindered(log, cfg, taken)
    ensures !OnReady(n, rd, cfg, taken).Stopped?
  {
    if rd.snapshot == 0 || rd.snapshot > n.applied {
      var n1 := if rd.snapshot != 0 then Install(n, rd.snapshot) else n;
      AppliesExactlyTheRest(rd.committed, n1.applied, log);
      var a := EntriesToApply(rd.committed, n1.applied);
      if a.Entries? {
        UnhinderedPublishes(n1, a.entries, log, cfg, taken);
      }
    }
  }

  /**
   * An unhindered node with a snapshot count of at least the window runs through exactly the
   * contiguous runs; without snapshots it has then sent the whole log through the furthest batch.
   */
  lemma {:induction false} RunsIffContiguous(start: nat, run: seq<Ready>, log: seq<Body>, cfg: Config, taken: Taken)
    requires Fits(log) && start <= |log| && Turns(run, log) && cfg.snapCount >= WINDOW && Unhindered(log, cfg, taken)
    ensures Exec(start, run, cfg, taken).Running? <==> Contiguous(start, run)
    ensures !Exec(start, run, cfg, taken).Stopped?
    ensures Contiguous(start, run) && NoSnapshots(run) ==>
              && Furthest(start, run) <= |log|
              && Exec(start, run, cfg, taken).node.out == Expected(log, start, Furthest(start, run), cfg.lastIndex)
  {
    if run != [] {
      var rest := run[..|run| - 1];
      RunsIffContiguous(start, rest, log, cfg, taken);
      ContiguousPrefix(start, run);
      var before := Exec(start, rest, cfg, taken);
      if before.Running? {
        var segs := EveryRun(start, rest, log, cfg, taken);
        UnhinderedNeverStops(before.node, run[|run| - 1], log, cfg, taken);
        CompactionNeverFails(start, run, log, cfg, taken);
        DiesIffNotJoined(start, run, log, cfg, taken);
      }
    }
    if NoSnapshots(run) {
      ExactlyOnce(start, run, log, cfg, taken);
    }
  }

  // ---- When the node is removed ----

  /** Entry r is the first after `start` that removes this node; the consumer takes everything. */
  ghost predicate RemovedAt(log: seq<Body>, cfg: Config, taken: Taken, start: nat, r: nat) {
    && (forall k: nat :: taken(k))
    && start < r <= |log| && log[r - 1] == ConfChange(RemoveNode, cfg.id)
    && (forall i | start <= i < r - 1 :: log[i] != ConfChange(RemoveNode, cfg.id))
  }

  /** Publishing goes through to the removal and stops right before it, with everything sent. */
  lemma {:induction false} PublishesToRemoval(n: Node, ents: seq<Entry>, log: seq<Body>, cfg: Config, taken: Taken,
                                              start: nat, r: nat)
    requires FromLog(ents, log) && n.applied <= |log| && (ents != [] ==> ents[0].index == n.applied + 1)
    requires RemovedAt(log, cfg, taken, start, r) && start <= n.applied < r
    ensures var p, to := PublishAll(n, ents, cfg, taken), n.applied + |ents|;
            && (p.1 <==> to < r)
            && p.0.applied == (if to < r then to else r - 1) && p.0.applied <= |log|
            && p.0.out == n.out + Published(log, n.applied, p.0.applied, cfg.lastIndex)
            && p.0.snapshot == n.snapshot && p.0.offset == n.offset
  {
    if ents == [] {
      assert n.out + [] == n.out;
    } else {
      var rest, e := ents[..|ents| - 1], ents[|ents| - 1];
      PublishesToRemoval(n, rest, log, cfg, taken, start, r);
      var before := PublishAll(n, rest, cfg, taken);
      if before.1 && e.index < r {
        AllMove(n, ents, log, cfg, taken);
        assert e.body == log[e.index - 1];
        PassesEntry(before.0, e, log, cfg, taken);
      }
    }
  }

  lemma PassesEntry(n: Node, e: Entry, log: seq<Body>, cfg: Config, taken: Taken)
    requires (forall k: nat :: taken(k)) && e.body != ConfChange(RemoveNode, cfg.id)
    ensures PublishOne(n, e, cfg, taken).1
  {}

  ghost predicate RemovalOk(res: Result, run: seq<Ready>, start: nat, log: seq<Body>, cfg: Config, r: nat) {
    && res.node.applied <= |log| && Bounds(res.node, log)
    && res.node.out == Expected(log, start, res.node.applied, cfg.lastIndex)
    && if Furthest(start, run) < r then res.Running? && res.node.applied == Furthest(start, run)
       else res.Stopped? && res.node.applied == r - 1
  }

  lemma RemovalTurn(n: Node, rd: Ready, log: seq<Body>, cfg: Config, taken: Taken, start: nat, r: nat)
    requires Fits(log) && Turn(rd, log) && rd.snapshot == 0 && Joins(n.applied, rd) && cfg.snapCount >= WINDOW
    requires RemovedAt(log, cfg, taken, start, r) && start <= n.applied < r && Bounds(n, log)
    requires n.out == Expected(log, start, n.applied, cfg.lastIndex)
    ensures var res, to := OnReady(n, rd, cfg, taken), Max(n.applied, End(rd.committed));
            && res.node.applied <= |log| && Bounds(res.node, log)
            && res.node.out == Expected(log, start, res.node.applied, cfg.lastIndex)
            && if to < r then res.Running? && res.node.applied == to else res.Stopped? && res.node.applied == r - 1
  {
    AppliesExactlyTheRest(rd.committed, n.applied, log);
    var a := EntriesToApply(rd.committed, n.applied);
    PublishesToRemoval(n, a.entries, log, cfg, taken, start, r);
    var p := PublishAll(n, a.entries, cfg, taken);
    PublishedJoins(log, start, n.applied, p.0.applied, cfg.lastIndex);
    ExpectedJoins(n, p.0, log, start, cfg.lastIndex);
    if p.1 {
      CompactsWindowBack(p.0, cfg, log);
    }
  }

  lemma ExpectedJoins(n: Node, m: Node, log: seq<Body>, start: nat, last: nat)
    requires start <= n.applied <= m.applied <= |log| && n.out == Expected(log, start, n.applied, last)
    requires m.out == n.out + Published(log, n.applied, m.applied, last)
    ensures m.out == Expected(log, start, m.applied, last)
  {
    PublishedJoins(log, start, n.applied, m.applied, last);
  }

  /** In a contiguous run the removal of the node ends it right before that index, with all before it sent. */
  lemma {:induction false} RemovalStops(start: nat, run: seq<Ready>, log: seq<Body>, cfg: Config, taken: Taken, r: nat)
    requires Fits(log) && Turns(run, log) && NoSnapshots(run) && Contiguous(start, run) && cfg.snapCount >= WINDOW
    requires RemovedAt(log, cfg, taken, start, r)
    ensures RemovalOk(Exec(start, run, cfg, taken), run, start, log, cfg, r)
  {
    if run != [] {
      ContiguousPrefix(start, run);
      RemovalStops(start, run[..|run| - 1], log, cfg, taken, r);
      var before := Exec(start, run[..|run| - 1], cfg, taken);
      if before.Running? {
        FurthestGrows(start, run[..|run| - 1]);
        assert JoinsAt(start, run, |run| - 1);
        RemovalTurn(before.node, run[|run| - 1], log, cfg, taken, start, r);
      }
    }
  }

  lemma {:induction false} FurthestGrows(start: nat, run: seq<Ready>)
    ensures start <= Furthest(start, run)
  {
    if run != [] {
      FurthestGrows(start, run[..|run| - 1]);
    }
  }

  function Blank(from: nat, to: nat): (ents: seq<Entry>)
    requires from <= to
  {
    seq(to - from, k requires 0 <= k => Entry(from + 1 + k, Normal("")))
  }

  lemma {:induction false} BlanksPass(n: Node, upto: nat, cfg: Config, taken: Taken)
    requires n.applied <= upto && cfg.lastIndex == 0
    ensures PublishAll(n, Blank(n.applied, upto), cfg, taken) == (n.(applied := upto), true)
    decreases upto
  {
    if n.applied < upto {
      BlanksPass(n, upto - 1, cfg, taken);
      var ents := Blank(n.applied, upto);
      assert ents[..|ents| - 1] == Blank(n.applied, upto - 1);
    }
  }

  /** With any smaller count some run does: an installed snapshot, then one more entry than the count. */
  lemma SmallCountFails(id: nat, snapCount: nat, taken: Taken) returns (run: seq<Ready>, log: seq<Body>)
    requires snapCount < WINDOW
    ensures Fits(log) && Turns(run, log)
    ensures var r := Exec(0, run, Config(id, 0, snapCount), taken); r.Fatal? && r.fault == Compacted
    ensures Contiguous(0, run)
  {
    var cfg := Config(id, 0, snapCount);
    var to := snapCount + 2;
    log := seq(to, _ => Normal(""));
    var rd := Ready(1, Blank(1, to));
    run := [rd];
    assert run[..0] == [];
    var n := Install(Start(0, 0), 1);
    AppliesExactlyTheRest(rd.committed, 1, log);
    assert Wrap(Wrap(1 - 2) + 1) == 0;
    assert EntriesToApply(rd.committed, 1).entries == rd.committed;
    BlanksPass(n, to, cfg, taken);
    assert Wrap(to - 1) == to - 1;
    assert OnCommitted(n, rd.committed, cfg, taken) == Fatal(Compacted, n.(applied := to));
    assert Exec(0, run[..0], cfg, taken) == Running(Start(0, 0));
    assert JoinsAt(0, run, 0);
  }

  // ---- The node ----

  class RaftNode {
    const id: nat
    const snapCount: nat
    const lastIndex: nat
    var appliedIndex: nat
    var snapshotIndex: nat
    var offset: nat
    var commits: seq<Signal>

    function State(): Node
      reads this
    {
      Node(appliedIndex, snapshotIndex, offset, commits)
    }

    function Cfg(): Config {
      Config(id, lastIndex, snapCount)
    }

    /** Progress starts at the index of the stored snapshot. */
    constructor (id: nat, snapCount: nat, lastIndex: nat, stored: nat)
      ensures State() == Start(stored, lastIndex) && Cfg() == Config(id, lastIndex, snapCount)
    {
      this.id, this.snapCount, this.lastIndex := id, snapCount, lastIndex;
      appliedIndex, snapshotIndex, offset := stored, stored, stored;
      commits := Greeting(lastIndex);
    }

    method PublishEntries(ents: seq<Entry>, taken: Taken) returns (ok: bool)
      modifies this
      ensures (State(), ok) == PublishAll(old(State()), ents, Cfg(), taken)
    {
      ghost var n := State();
      for i := 0 to |ents|
        invariant (State(), true) == PublishAll(n, ents[..i], Cfg(), taken)
      {
        assert ents[..i + 1][..i] == ents[..i];
        StopsThere(n, ents, i + 1, Cfg(), taken);
        match ents[i].body {
          case Normal(data) =>
            if data != [] {
              if !taken(|commits|) {
                return false;
              }
              commits := commits + [Value(data)];
            }
          case ConfChange(change, node) =>
            if change == RemoveNode && node == id {
              return false;
            }
        }
        appliedIndex := ents[i].index;
        if ents[i].index == lastIndex {
          if !taken(|commits|) {
            return false;
          }
          commits := commits + [ReplayDone];
        }
      }
      assert ents[..|ents|] == ents;
      ok := true;
    }

    /** False when the snapshot is not ahead of what was applied, which ends the program. */
    method PublishSnapshot(index: nat) returns (ok: bool)
      modifies this
      ensures ok <==> index == 0 || index > old(appliedIndex)
      ensures State() == if ok && index != 0 then Install(old(State()), index) else old(State())
    {
      if index == 0 {
        return true;
      }
      if index <= appliedIndex {
        return false;
      }
      commits := commits + [LoadSnapshot];
      offset := index;
      snapshotIndex := index;
      appliedIndex := index;
      ok := true;
    }

    method MaybeTriggerSnapshot() returns (r: Result)
      modifies this
      ensures r == MaybeSnapshot(old(State()), Cfg()) && State() == r.node
    {
      if Wrap(appliedIndex - snapshotIndex) <= snapCount {
        return Running(State());
      }
      if appliedIndex <= snapshotIndex {
        return Fatal(OutOfDate, State());
      }
      var compactIndex := 1;
      if appliedIndex > WINDOW {
        compactIndex := appliedIndex - WINDOW;
      }
      if compactIndex <= offset {
        return Fatal(Compacted, State());
      }
      offset := compactIndex;
      snapshotIndex := appliedIndex;
      r := Running(State());
    }

    /** One turn of the event loop. */
    method Handle(rd: Ready, taken: Taken) returns (r: Result)
      modifies this
      ensures r == OnReady(old(State()), rd, Cfg(), taken)
      ensures State() == r.node
    {
      if rd.snapshot != 0 {
        var ahead := PublishSnapshot(rd.snapshot);
        if !ahead {
          return Fatal(StaleSnapshot, State());
        }
      }
      var todo := EntriesToApply(rd.committed, appliedIndex);
      if todo.Refused? {
        return Fatal(Gap, State());
      }
      var ok := PublishEntries(todo.entries, taken);
      if !ok {
        return Stopped(State());
      }
      r := MaybeTriggerSnapshot();
    }

    /** The event loop, from the start until the turns run out or the node ends. */
    method Serve(run: seq<Ready>, taken: Taken, ghost stored: nat) returns (r: Result)
      requires State() == Start(stored, lastIndex)
      modifies this
      ensures r == Exec(stored, run, Cfg(), taken) && State() == r.node
    {
      r := Running(State());
      for i := 0 to |run|
        invariant r == Exec(stored, run[..i], Cfg(), taken) && r.Running? && State() == r.node
      {
        r := Handle(run[i], taken);
        assert run[..i + 1][..i] == run[..i];
        if !r.Running? {
          EndsThere(stored, run, i + 1, Cfg(), taken);
          return;
        }
      }
      assert run[..|run|] == run;
    }
  }

  lemma {:induction false} EndsThere(start: nat, run: seq<Ready>, i: nat, cfg: Config, taken: Taken)
    requires i <= |run| && !Exec(start, run[..i], cfg, taken).Running?
    ensures Exec(start, run, cfg, taken) == Exec(start, run[..i], cfg, taken)
    decreases |run|
  {
    if i == |run| {
      assert run[..i] == run;
    } else {
      assert run[..|run| - 1][..i] == run[..i];
      EndsThere(start, run[..|run| - 1], i, cfg, taken);
    }
  }

  /** Once publishing has stopped, the rest of the batch changes nothing. */
  lemma {:induction false} StopsThere(n: Node, ents: seq<Entry>, i: nat, cfg: Config, taken: Taken)
    requires i <= |ents|
    ensures !PublishAll(n, ents[..i], cfg, taken).1 ==>
              PublishAll(n, ents, cfg, taken) == PublishAll(n, ents[..i], cfg, taken)
    decreases |ents|
  {
    if i == |ents| {
      assert ents[..i] == ents;
    } else {
      StopsThere(n, ents[..|ents| - 1], i, cfg, taken);
      assert ents[..|ents| - 1][..i] == ents[..i];
    }
  }
}
