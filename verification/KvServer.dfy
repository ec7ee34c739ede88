/**
 * The key/value server: the apply loop, the one-place result slots and the handlers waiting on them.
 * Its critical sections are atomic, so any interleaving is a sequence of them.
 */
module KvServer {
  import opened KvOp
  import opened KvReplay

  datatype Option<T> = None | Some(value: T)

  /** `slots[i]` is the channel for log index i: absent, empty, or holding one operation. */
  datatype Kv = Kv(store: Store, slots: map<nat, Option<Op>>, prevIndex: nat)

  const EMPTY := Kv(Store(map[], map[]), map[], 0)

  /** One message of getApply; None is the panic about an unordered index. */
  function OnApply(kv: Kv, index: nat, op: Op): Option<Kv> {
    if index > 1 && kv.prevIndex != index - 1 then None
    else Some(Kv(ApplyOp(kv.store, op), kv.slots[index := Some(op)], index))
  }

  /** AppendLog finds or creates the slot of its index. */
  function OnRegister(kv: Kv, index: nat): Kv {
    if index in kv.slots then kv else kv.(slots := kv.slots[index := None])
  }

  /** A waiter empties the slot; it gets nothing from an empty one. */
  function OnReceive(kv: Kv, index: nat): Kv {
    if index in kv.slots then kv.(slots := kv.slots[index := None]) else kv
  }

  function Holding(kv: Kv, index: nat): Option<Op> {
    if index in kv.slots then kv.slots[index] else None
  }

  // ---- Interleavings ----

  /** A message of the apply channel: the log index and the operation. */
  datatype Delivery = Delivery(index: nat, op: Op)

  /** Finish is the end of a Get whose entry was applied at that index: it writes the acknowledgement again. */
  datatype Section = Arrive(d: Delivery) | Register(index: nat) | Receive(index: nat) | Finish(index: nat)

  /** The messages that have come, in order. */
  function Arrived(run: seq<Section>): seq<Delivery> {
    if run == [] then []
    else
      var rest := Arrived(run[..|run| - 1]);
      match run[|run| - 1]
      case Arrive(d) => rest + [d]
      case _ => rest
  }

  function Ops(ds: seq<Delivery>): seq<Op> {
    seq(|ds|, k requires 0 <= k < |ds| => ds[k].op)
  }

  /** The operations applied so far, in order. */
  function Applied(run: seq<Section>): seq<Op> {
    Ops(Arrived(run))
  }

  /** Indexes 1, 2, 3, ... */
  ghost predicate InOrder(ds: seq<Delivery>) {
    forall k | 0 <= k < |ds| :: ds[k].index == k + 1
  }

  /** A Get handler can be answered at index i. */
  predicate Answerable(ops: seq<Op>, i: nat) {
    1 <= i <= |ops| && ops[i - 1].kind == "Get"
  }

  function OnFinish(kv: Kv, ops: seq<Op>, i: nat): Kv {
    if Answerable(ops, i) then kv.(store := GetWrite(kv.store, ops[i - 1])) else kv
  }

  /** The server after an interleaving; None if it has panicked. */
  function ServerAfter(run: seq<Section>): Option<Kv> {
    if run == [] then Some(EMPTY)
    else
      match ServerAfter(run[..|run| - 1])
      case None => None
      case Some(kv) =>
        match run[|run| - 1]
        case Arrive(d) => OnApply(kv, d.index, d.op)
        case Register(i) => Some(OnRegister(kv, i))
        case Receive(i) => Some(OnReceive(kv, i))
        case Finish(i) => Some(OnFinish(kv, Applied(run), i))
  }

  /** Each index is the one after the index before it, or below 2, which the code lets pass. */
  ghost predicate NoJump(ds: seq<Delivery>, k: nat)
    requires k < |ds|
  {
    ds[k].index <= 1 || ds[k].index == (if k == 0 then 0 else ds[k - 1].index) + 1
  }

  /** The panic about an unordered index fires exactly when some index jumps. */
  lemma {:induction false} PanicsIffJump(run: seq<Section>)
    ensures ServerAfter(run).Some? <==> forall k | 0 <= k < |Arrived(run)| :: NoJump(Arrived(run), k)
    ensures ServerAfter(run).Some? ==>
              var ds := Arrived(run); ServerAfter(run).value.prevIndex == if ds == [] then 0 else ds[|ds| - 1].index
  {
    if run != [] {
      var before := run[..|run| - 1];
      PanicsIffJump(before);
      var was, ds := Arrived(before), Arrived(run);
      assert forall k | 0 <= k < |was| :: NoJump(ds, k) <==> NoJump(was, k);
      if run[|run| - 1].Arrive? {
        assert ds == was + [run[|run| - 1].d];
        assert ServerAfter(before).Some? ==> (ServerAfter(run).Some? <==> NoJump(ds, |was|));
      }
    }
  }

  /** A full slot holds the operation applied at its index. */
  ghost predicate SlotsTrue(kv: Kv, ops: seq<Op>) {
    && kv.prevIndex == |ops|
    && (forall i | i in kv.slots && kv.slots[i].Some? :: 1 <= i <= |ops| && kv.slots[i].value == ops[i - 1])
  }

  /** Besides, the store is the replay of `ops`. */
  ghost predicate Faithful(kv: Kv, ops: seq<Op>) {
    kv.store == Replay(ops) && SlotsTrue(kv, ops)
  }

  lemma ApplyFaithful(kv: Kv, ops: seq<Op>, op: Op)
    requires Faithful(kv, ops)
    ensures OnApply(kv, |ops| + 1, op).Some? && Faithful(OnApply(kv, |ops| + 1, op).value, ops + [op])
  {
    assert (ops + [op])[..|ops|] == ops;
  }

  lemma ArrivedSnoc(run: seq<Section>)
    requires run != [] && InOrder(Arrived(run))
    ensures var before, last := run[..|run| - 1], run[|run| - 1];
            && InOrder(Arrived(before))
            && (last.Arrive? ==> Applied(run) == Applied(before) + [last.d.op] && last.d.index == |Applied(before)| + 1)
            && (!last.Arrive? ==> Applied(run) == Applied(before))
  {
    var before, last := Arrived(run[..|run| - 1]), run[|run| - 1];
    assert forall k | 0 <= k < |before| :: before[k] == Arrived(run)[k];
    if last.Arrive? {
      assert Arrived(run)[|before|] == last.d;
    }
  }

  /** When the messages come in order, the panic never fires and full slots are true, in every interleaving. */
  lemma {:induction false} AlwaysTrue(run: seq<Section>)
    requires InOrder(Arrived(run))
    ensures ServerAfter(run).Some? && SlotsTrue(ServerAfter(run).value, Applied(run))
  {
    if run != [] {
      ArrivedSnoc(run);
      AlwaysTrue(run[..|run| - 1]);
    }
  }

  /** Every Get finished before a later request of its client was applied. */
  ghost predicate Timely(run: seq<Section>) {
    forall k | 0 <= k < |run| && run[k].Finish? :: TimelyAt(run, k)
  }

  ghost predicate TimelyAt(run: seq<Section>, k: nat)
    requires k < |run| && run[k].Finish?
  {
    var ops := Applied(run[..k]);
    Answerable(ops, run[k].index) ==> NoLaterRequest(ops, ops[run[k].index - 1])
  }

  /** All along an interleaving the store is the replay of what was applied. */
  ghost predicate StoreFollows(run: seq<Section>) {
    forall k | 0 <= k <= |run| :: FollowsAt(run, k)
  }

  ghost predicate FollowsAt(run: seq<Section>, k: nat)
    requires k <= |run|
  {
    ServerAfter(run[..k]).Some? && ServerAfter(run[..k]).value.store == Replay(Applied(run[..k]))
  }

  /** One more section keeps the store right exactly if it is not a late Finish. */
  lemma SectionFollows(run: seq<Section>)
    requires run != [] && InOrder(Arrived(run)) && FollowsAt(run, |run| - 1)
    ensures FollowsAt(run, |run|) <==> (run[|run| - 1].Finish? ==> TimelyAt(run, |run| - 1))
  {
    var n := |run| - 1;
    AlwaysTrue(run);
    ArrivedSnoc(run);
    assert run[..|run|] == run;
    var kv, ops := ServerAfter(run[..n]).value, Applied(run[..n]);
    if run[n].Arrive? {
      ReplaySnoc(ops, run[n].d.op);
    } else if run[n].Finish? {
      FinishFollows(kv, ops, run[n].index);
    }
  }

  lemma ReplaySnoc(ops: seq<Op>, op: Op)
    ensures Replay(ops + [op]) == ApplyOp(Replay(ops), op)
  {
    assert (ops + [op])[..|ops|] == ops;
  }

  lemma FinishFollows(kv: Kv, ops: seq<Op>, i: nat)
    requires kv.store == Replay(ops)
    ensures OnFinish(kv, ops, i).store == Replay(ops) <==> (Answerable(ops, i) ==> NoLaterRequest(ops, ops[i - 1]))
  {
    if Answerable(ops, i) {
      GetWriteHarmlessIff(ops, i - 1);
    }
  }

  /** The store follows the log all along exactly when every Get finishes in time. */
  lemma {:induction false} FollowsIffTimely(run: seq<Section>)
    requires InOrder(Arrived(run))
    ensures StoreFollows(run) <==> Timely(run)
  {
    if run == [] {
      assert run[..0] == [];
    } else {
      var n := |run| - 1;
      var before := run[..n];
      ArrivedSnoc(run);
      FollowsIffTimely(before);
      forall k | 0 <= k <= n ensures before[..k] == run[..k] {}
      assert StoreFollows(before) <==> forall k | 0 <= k <= n :: FollowsAt(run, k) by {
        assert forall k | 0 <= k <= n :: FollowsAt(before, k) <==> FollowsAt(run, k);
      }
      assert Timely(before) <==> forall k | 0 <= k < n && run[k].Finish? :: TimelyAt(run, k) by {
        assert forall k | 0 <= k < n && run[k].Finish? :: TimelyAt(before, k) <==> TimelyAt(run, k);
        assert forall k | 0 <= k < n :: before[k] == run[k];
      }
      if FollowsAt(run, n) {
        SectionFollows(run);
      }
    }
  }

  /** When a Get finishes too late, an Append that is retried after that takes effect twice. */
  lemma LateGetRepeatsAppend()
    ensures var get, app := Op("Get", "k", "", 7, 0), Op("Append", "k", "x", 7, 1);
            var run := [Arrive(Delivery(1, get)), Arrive(Delivery(2, app)), Finish(1), Arrive(Delivery(3, app))];
            && InOrder(Arrived(run)) && !Timely(run)
            && Lookup(Replay(Applied(run)).db, "k") == "x"
            && ServerAfter(run).Some? && Lookup(ServerAfter(run).value.store.db, "k") == "xx"
  {
    var get, app := Op("Get", "k", "", 7, 0), Op("Append", "k", "x", 7, 1);
    var one, two, three := Delivery(1, get), Delivery(2, app), Delivery(3, app);
    var r1, r2 := [Arrive(one)], [Arrive(one), Arrive(two)];
    var r3 := [Arrive(one), Arrive(two), Finish(1)];
    var r4 := [Arrive(one), Arrive(two), Finish(1), Arrive(three)];
    assert r1[..0] == [] && r2[..1] == r1 && r3[..2] == r2 && r4[..3] == r3;
    assert [one] + [two] == [one, two] && [one, two] + [three] == [one, two, three];
    assert Arrived(r1) == [one];
    assert Arrived(r2) == [one, two];
    assert Arrived(r3) == [one, two];
    assert Arrived(r4) == [one, two, three];
    assert Applied(r2) == [get, app] && Applied(r3) == [get, app] && Applied(r4) == [get, app, app];
    AppendOnce(get, app);
    AppendTwice(get, app, r1, r2, r3, r4);
    assert r4[..2] == r2 && r4[2] == Finish(1);
    assert [get, app][1].reqId > get.reqId;
    assert !TimelyAt(r4, 2);
  }

  lemma AppendOnce(get: Op, app: Op)
    requires get == Op("Get", "k", "", 7, 0) && app == Op("Append", "k", "x", 7, 1)
    ensures Replay([get, app, app]) == Store(map["k" := "x"], map[7 := 1])
  {
    assert [get, app, app][..2] == [get, app] && [get, app][..1] == [get] && [get][..0] == [];
    assert |app.kind| != |"Put"| && Lookup(map[], "k") + "x" == "x";
    assert Replay([get]) == Store(map[], map[7 := 0]);
    assert Execute(map[], app) == map["k" := "x"];
    assert Replay([get, app]) == Store(map["k" := "x"], map[7 := 1]);
  }

  lemma AppendTwice(get: Op, app: Op, r1: seq<Section>, r2: seq<Section>, r3: seq<Section>, r4: seq<Section>)
    requires get == Op("Get", "k", "", 7, 0) && app == Op("Append", "k", "x", 7, 1)
    requires r1 == [Arrive(Delivery(1, get))] && r2 == r1 + [Arrive(Delivery(2, app))]
    requires r3 == r2 + [Finish(1)] && r4 == r3 + [Arrive(Delivery(3, app))] && Applied(r3) == [get, app]
    ensures ServerAfter(r4).Some? && Lookup(ServerAfter(r4).value.store.db, "k") == "xx"
  {
    assert r1[..0] == [] && r2[..1] == r1 && r3[..2] == r2 && r4[..3] == r3;
    assert |app.kind| != |"Put"| && Lookup(map[], "k") + "x" == "x" && "x" + "x" == "xx";
    assert Execute(map[], app) == map["k" := "x"] && Execute(map["k" := "x"], app) == map["k" := "xx"];
    assert ServerAfter(r1).Some? && ServerAfter(r1).value.store == Store(map[], map[7 := 0]);
    assert ServerAfter(r2).Some? && ServerAfter(r2).value.store == Store(map["k" := "x"], map[7 := 1]);
    assert ServerAfter(r3).Some? && ServerAfter(r3).value.store == Store(map["k" := "x"], map[7 := 0]);
  }

  lemma {:induction false} ArrivedGrows(run: seq<Section>, more: seq<Section>)
    ensures Arrived(run) <= Arrived(run + more)
  {
    if more == [] {
      assert run + more == run;
    } else {
      var all := run + more;
      assert all[..|all| - 1] == run + more[..|more| - 1];
      ArrivedGrows(run, more[..|more| - 1]);
    }
  }

  /** A slot that was true stays true: what was applied at an index does not change. */
  lemma AppliedGrows(run: seq<Section>, more: seq<Section>)
    ensures |Applied(run)| <= |Applied(run + more)| && Applied(run) == Applied(run + more)[..|Applied(run)|]
    ensures InOrder(Arrived(run + more)) ==> InOrder(Arrived(run))
  {
    ArrivedGrows(run, more);
    assert forall k | 0 <= k < |Arrived(run)| :: Arrived(run)[k] == Arrived(run + more)[k];
  }

  /**
   * Answers are justified by the log.  A handler that put `entry` at log index i and finds it in
   * slot i answers OK: `entry` was applied at that very index.  When it then reads the database,
   * however much later, it reads the replay of a prefix that includes its own entry, as long as no
   * Get has finished too late.
   */
  lemma AnswersAreJustified(run: seq<Section>, more: seq<Section>, i: nat, entry: Op)
    requires InOrder(Arrived(run + more))
    requires ServerAfter(run).Some? && Holding(ServerAfter(run).value, i) == Some(entry)
    ensures ServerAfter(run + more).Some?
    ensures var prefix := Applied(run + more);
            && 1 <= i <= |prefix| && prefix[i - 1] == entry
            && (Timely(run + more) ==> ServerAfter(run + more).value.store == Replay(prefix))
  {
    var all := run + more;
    AppliedGrows(run, more);
    AlwaysTrue(run);
    AlwaysTrue(all);
    FollowsIffTimely(all);
    assert Applied(run)[i - 1] == Applied(all)[i - 1];
    if Timely(all) {
      assert FollowsAt(all, |all|);
      assert all[..|all|] == all;
    }
  }

  /** Since index i arrived, a waiter has taken it. */
  ghost predicate TakenSince(run: seq<Section>, i: nat) {
    exists k | 0 <= k < |run| :: run[k] == Receive(i) && |Arrived(run[..k])| >= i
  }

  lemma TakenSnoc(run: seq<Section>, i: nat)
    requires run != []
    ensures var before, last := run[..|run| - 1], run[|run| - 1];
            TakenSince(run, i) <==> TakenSince(before, i) || (last == Receive(i) && |Arrived(before)| >= i)
  {
    var n := |run| - 1;
    var before := run[..n];
    if TakenSince(run, i) {
      var k :| 0 <= k < |run| && run[k] == Receive(i) && |Arrived(run[..k])| >= i;
      if k < n {
        assert before[k] == run[k] && before[..k] == run[..k];
      }
    }
    if TakenSince(before, i) {
      var k :| 0 <= k < n && before[k] == Receive(i) && |Arrived(before[..k])| >= i;
      assert run[k] == before[k] && run[..k] == before[..k];
    }
    if run[n] == Receive(i) && |Arrived(before)| >= i {
      assert run[..n] == before;
    }
  }

  lemma TakenLater(run: seq<Section>, i: nat)
    requires TakenSince(run, i)
    ensures i <= |Arrived(run)|
  {
    var k :| 0 <= k < |run| && run[k] == Receive(i) && |Arrived(run[..k])| >= i;
    ArrivedGrows(run[..k], run[k..]);
    assert run[..k] + run[k..] == run;
  }

  /** Once index i has arrived, its slot holds the operation applied there exactly until a waiter takes it. */
  lemma {:induction false} HeldIffNotTaken(run: seq<Section>, i: nat)
    requires InOrder(Arrived(run)) && 1 <= i <= |Applied(run)|
    ensures ServerAfter(run).Some?
    ensures Holding(ServerAfter(run).value, i) == Some(Applied(run)[i - 1]) <==> !TakenSince(run, i)
  {
    AlwaysTrue(run);
    ArrivedSnoc(run);
    TakenSnoc(run, i);
    var before, last := run[..|run| - 1], run[|run| - 1];
    AlwaysTrue(before);
    if i <= |Applied(before)| {
      HeldIffNotTaken(before, i);
      assert Applied(before)[i - 1] == Applied(run)[i - 1];
    } else if TakenSince(before, i) {
      TakenLater(before, i);
      assert false;
    }
  }

  /** The first waiter on an applied index is told that its entry, if it is the one applied there, is committed. */
  lemma FirstWaiterIsTold(run: seq<Section>, i: nat, entry: Op)
    requires InOrder(Arrived(run)) && 1 <= i <= |Applied(run)| && !TakenSince(run, i)
    ensures ServerAfter(run).Some?
    ensures Holding(ServerAfter(run).value, i) == Some(entry) <==> Applied(run)[i - 1] == entry
  {
    HeldIffNotTaken(run, i);
  }

  /** An operation is handed to at most one waiter: each slot fills once and a waiter empties it. */
  lemma {:induction false} AnswersOnce(run: seq<Section>, more: seq<Section>, i: nat)
    requires InOrder(Arrived(run + [Receive(i)] + more)) && 1 <= i <= |Applied(run)|
    ensures ServerAfter(run + [Receive(i)] + more).Some?
    ensures Holding(ServerAfter(run + [Receive(i)] + more).value, i) == None
  {
    var first := run + [Receive(i)];
    assert first[..|first| - 1] == run;
    var all := first + more;
    AlwaysTrue(all);
    ArrivedSnoc(all);
    if more == [] {
      assert all == first;
      AlwaysTrue(run);
    } else {
      var before := first + more[..|more| - 1];
      assert all[..|all| - 1] == before;
      AnswersOnce(run, more[..|more| - 1], i);
      AlwaysTrue(before);
      AppliedGrows(run, [Receive(i)] + more[..|more| - 1]);
      assert run + ([Receive(i)] + more[..|more| - 1]) == before;
    }
  }

  // ---- The server object ----

  class RaftKV {
    var db: map<string, string>
    var ack: map<int, int>
    var result: map<nat, Option<Op>>
    var prevIndex: nat

    ghost function View(): Kv
      reads this
    {
      Kv(Store(db, ack), result, prevIndex)
    }

    constructor ()
      ensures View() == EMPTY && Faithful(View(), [])
    {
      db, ack, result, prevIndex := map[], map[], map[], 0;
    }

    /** One round of the apply loop; false when it panics, with the server untouched. */
    method ApplyMessage(index: nat, op: Op) returns (ok: bool)
      modifies this
      ensures ok <==> OnApply(old(View()), index, op).Some?
      ensures if ok then Some(View()) == OnApply(old(View()), index, op) else View() == old(View())
    {
      if index > 1 && prevIndex != index - 1 {
        return false;
      }
      prevIndex := index;
      if !(op.id in ack && ack[op.id] >= op.reqId) {
        if op.kind == "Put" {
          db := db[op.key := op.value];
        } else if op.kind == "Append" {
          db := db[op.key := (if op.key in db then db[op.key] else "") + op.value];
        }
        ack := ack[op.id := op.reqId];
      }
      result := result[index := Some(op)];
      ok := true;
    }

    /** The loop over a stream of messages, from wherever the server stands; false if one makes it panic. */
    method ApplyStream(ds: seq<Delivery>, ghost before: seq<Op>) returns (ok: bool)
      requires Faithful(View(), before)
      requires forall k | 0 <= k < |ds| :: ds[k].index == |before| + k + 1
      modifies this
      ensures ok && Faithful(View(), before + Ops(ds))
    {
      assert before + Ops(ds)[..0] == before;
      for k := 0 to |ds|
        invariant Faithful(View(), before + Ops(ds)[..k])
      {
        ghost var sofar := before + Ops(ds)[..k];
        ApplyFaithful(View(), sofar, ds[k].op);
        var fine := ApplyMessage(ds[k].index, ds[k].op);
        if !fine {
          return false;
        }
        assert before + Ops(ds)[..k + 1] == sofar + [ds[k].op];
      }
      assert before + Ops(ds)[..|ds|] == before + Ops(ds);
      ok := true;
    }

    /** The first critical section of AppendLog. */
    method FindSlot(index: nat)
      modifies this`result
      ensures View() == OnRegister(old(View()), index)
    {
      if index !in result {
        result := result[index := None];
      }
    }

    /** A waiter takes what its slot holds and compares it with its own entry. */
    method TakeResult(index: nat, entry: Op) returns (committed: bool)
      modifies this`result
      ensures committed <==> Holding(old(View()), index) == Some(entry)
      ensures View() == OnReceive(old(View()), index)
    {
      committed := false;
      if index in result {
        committed := result[index] == Some(entry);
        result := result[index := None];
      }
    }

    /**
     * Get, once its entry at log index `index` has come back: the value read is that of the replayed
     * prefix, and the extra acknowledgement changes nothing exactly when no later request of the
     * client has been applied meanwhile.
     */
    method FinishGet(entry: Op, index: nat, ghost ops: seq<Op>) returns (value: string)
      requires Faithful(View(), ops) && 1 <= index <= |ops| && ops[index - 1] == entry
      modifies this`ack
      ensures value == Lookup(Replay(ops).db, entry.key)
      ensures View() == old(View()).(store := GetWrite(Replay(ops), entry))
      ensures View() == old(View()) <==> NoLaterRequest(ops, entry)
    {
      value := if entry.key in db then db[entry.key] else "";
      GetWriteHarmlessIff(ops, index - 1);
      ack := ack[entry.id := entry.reqId];
    }
  }
}
