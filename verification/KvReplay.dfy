/** Replaying the agreed log into a key/value store, with and without duplicate suppression. */
module KvReplay {
  import opened KvOp

  /** The database and, per client, the request number last executed. */
  datatype Store = Store(db: map<string, string>, ack: map<int, int>)

  function Lookup(db: map<string, string>, key: string): string {
    if key in db then db[key] else ""
  }

  /** The effect of one operation; anything but Put and Append leaves the database alone. */
  function Execute(db: map<string, string>, op: Op): map<string, string> {
    if op.kind == "Put" then db[op.key := op.value]
    else if op.kind == "Append" then db[op.key := Lookup(db, op.key) + op.value]
    else db
  }

  /** checkDup */
  predicate CheckDup(ack: map<int, int>, op: Op) {
    op.id in ack && ack[op.id] >= op.reqId
  }

  /** One message of the apply loop. */
  function ApplyOp(s: Store, op: Op): Store {
    if CheckDup(s.ack, op) then s else Store(Execute(s.db, op), s.ack[op.id := op.reqId])
  }

  function Replay(ops: seq<Op>): Store {
    if ops == [] then Store(map[], map[]) else ApplyOp(Replay(ops[..|ops| - 1]), ops[|ops| - 1])
  }

  /** The simple machine: every operation takes effect. */
  function PlainReplay(ops: seq<Op>): map<string, string> {
    if ops == [] then map[] else Execute(PlainReplay(ops[..|ops| - 1]), ops[|ops| - 1])
  }

  // ---- Requests and their repeats ----

  predicate SameRequest(a: Op, b: Op) {
    a.id == b.id && a.reqId == b.reqId
  }

  /** Position i is the first with its client and request number. */
  predicate First(ops: seq<Op>, i: nat)
    requires i < |ops|
  {
    forall j | 0 <= j < i :: !SameRequest(ops[j], ops[i])
  }

  /** The log with repeats removed. */
  function Dedup(ops: seq<Op>): seq<Op> {
    if ops == [] then []
    else
      var rest := Dedup(ops[..|ops| - 1]);
      if First(ops, |ops| - 1) then rest + [ops[|ops| - 1]] else rest
  }

  /** First occurrences of one client's requests come in increasing order of request number. */
  predicate Orderly(ops: seq<Op>) {
    forall i, j | 0 <= i < j < |ops| && ops[i].id == ops[j].id && First(ops, i) && First(ops, j) ::
      ops[i].reqId < ops[j].reqId
  }

  /** Position i exceeds every earlier request of its client. */
  predicate Exceeds(ops: seq<Op>, i: nat)
    requires i < |ops|
  {
    forall j | 0 <= j < i && ops[j].id == ops[i].id :: ops[j].reqId < ops[i].reqId
  }

  /** Position i takes effect when the log is replayed with duplicate suppression. */
  ghost predicate Executed(ops: seq<Op>, i: nat)
    requires i < |ops|
  {
    !CheckDup(Replay(ops[..i]).ack, ops[i])
  }

  // ---- What the acknowledgement table means ----

  /** `ack` holds exactly the greatest request number of every client in `ops`. */
  ghost predicate AckIsMax(ops: seq<Op>, ack: map<int, int>) {
    && (forall j | 0 <= j < |ops| :: ops[j].id in ack && ops[j].reqId <= ack[ops[j].id])
    && (forall id | id in ack :: Latest(ops, id, ack[id]))
  }

  ghost predicate Latest(ops: seq<Op>, id: int, reqId: int) {
    exists j | 0 <= j < |ops| :: ops[j].id == id && ops[j].reqId == reqId
  }

  lemma LatestGrows(ops: seq<Op>, n: nat, id: int, reqId: int)
    requires n <= |ops| && Latest(ops[..n], id, reqId)
    ensures Latest(ops, id, reqId)
  {
    var j :| 0 <= j < n && ops[..n][j].id == id && ops[..n][j].reqId == reqId;
    assert ops[j].id == id;
  }

  lemma {:induction false} ReplayAck(ops: seq<Op>)
    ensures AckIsMax(ops, Replay(ops).ack)
  {
    if ops != [] {
      var n := |ops| - 1;
      var before, op := ops[..n], ops[n];
      ReplayAck(before);
      var ack, now := Replay(before).ack, Replay(ops).ack;
      forall j | 0 <= j < |ops| ensures ops[j].id in now && ops[j].reqId <= now[ops[j].id] {
        if j < n { assert before[j] == ops[j]; }
      }
      forall id | id in now ensures Latest(ops, id, now[id]) {
        if id in ack && now[id] == ack[id] {
          assert Latest(before, id, ack[id]);
          LatestGrows(ops, n, id, ack[id]);
        } else {
          assert ops[n].id == id && ops[n].reqId == now[id];
        }
      }
    }
  }

  /** An operation takes effect exactly when it exceeds all its client sent before. */
  lemma ExecutedIffExceeds(ops: seq<Op>, i: nat)
    requires i < |ops|
    ensures Executed(ops, i) <==> Exceeds(ops, i)
  {
    ReplayAck(ops[..i]);
    var ack, id := Replay(ops[..i]).ack, ops[i].id;
    if Executed(ops, i) {
      forall j | 0 <= j < i && ops[j].id == id ensures ops[j].reqId < ops[i].reqId {
        assert ops[..i][j] == ops[j];
      }
    } else {
      assert Latest(ops[..i], id, ack[id]);
      var j :| 0 <= j < i && ops[..i][j].id == id && ops[..i][j].reqId == ack[id];
      assert ops[j].id == id && ops[j].reqId >= ops[i].reqId;
    }
  }

  /** The first occurrence of the request at position j. */
  lemma {:induction false} FirstOccurrence(ops: seq<Op>, j: nat) returns (f: nat)
    requires j < |ops|
    ensures f <= j && SameRequest(ops[f], ops[j]) && First(ops, f)
    decreases j
  {
    if First(ops, j) {
      f := j;
    } else {
      var k :| 0 <= k < j && SameRequest(ops[k], ops[j]);
      f := FirstOccurrence(ops, k);
    }
  }

  lemma OrderlyFirstExceeds(ops: seq<Op>, i: nat)
    requires Orderly(ops) && i < |ops|
    ensures First(ops, i) <==> Exceeds(ops, i)
  {
    if First(ops, i) {
      forall j | 0 <= j < i && ops[j].id == ops[i].id ensures ops[j].reqId < ops[i].reqId {
        var f := FirstOccurrence(ops, j);
      }
    }
  }

  /** Each request takes effect once, at its first occurrence and nowhere else, exactly for orderly logs. */
  lemma ExactlyOnceIffOrderly(ops: seq<Op>)
    ensures Orderly(ops) <==> forall i | 0 <= i < |ops| :: Executed(ops, i) <==> First(ops, i)
  {
    if Orderly(ops) {
      forall i | 0 <= i < |ops| ensures Executed(ops, i) <==> First(ops, i) {
        ExecutedIffExceeds(ops, i);
        OrderlyFirstExceeds(ops, i);
      }
    }
    if forall i | 0 <= i < |ops| :: Executed(ops, i) <==> First(ops, i) {
      forall i, j | 0 <= i < j < |ops| && ops[i].id == ops[j].id && First(ops, i) && First(ops, j)
        ensures ops[i].reqId < ops[j].reqId
      {
        assert Executed(ops, j);
        ExecutedIffExceeds(ops, j);
      }
    }
  }

  lemma OrderlyPrefix(ops: seq<Op>, n: nat)
    requires Orderly(ops) && n <= |ops|
    ensures Orderly(ops[..n])
  {
    forall i | 0 <= i < n ensures First(ops[..n], i) <==> First(ops, i) {
      assert forall j | 0 <= j < i :: ops[..n][j] == ops[j];
      if !First(ops, i) {
        var j :| 0 <= j < i && SameRequest(ops[j], ops[i]);
        assert SameRequest(ops[..n][j], ops[..n][i]);
      }
    }
  }

  /** Exactly-once: replay with duplicate suppression is plain replay of the log with repeats removed. */
  lemma {:induction false} ExactlyOnce(ops: seq<Op>)
    requires Orderly(ops)
    ensures Replay(ops).db == PlainReplay(Dedup(ops))
  {
    if ops != [] {
      var n := |ops| - 1;
      OrderlyPrefix(ops, n);
      ExactlyOnce(ops[..n]);
      ExecutedIffExceeds(ops, n);
      OrderlyFirstExceeds(ops, n);
      var kept := Dedup(ops[..n]);
      assert (kept + [ops[n]])[..|kept|] == kept;
    }
  }

  // ---- What a key holds ----

  /** Position i is the first occurrence of a request of that kind on the key. */
  predicate WriteAt(ops: seq<Op>, i: nat, kind: string, key: string) {
    i < |ops| && First(ops, i) && ops[i].kind == kind && ops[i].key == key
  }

  /** The last Put on the key among the first n operations. */
  ghost predicate LastPut(ops: seq<Op>, key: string, n: nat, p: nat) {
    p < n && WriteAt(ops, p, "Put", key) && forall j: nat | p < j < n :: !WriteAt(ops, j, "Put", key)
  }

  ghost predicate NoPut(ops: seq<Op>, key: string, n: nat) {
    forall j: nat | j < n :: !WriteAt(ops, j, "Put", key)
  }

  ghost predicate SomeAppend(ops: seq<Op>, key: string, n: nat) {
    exists j: nat :: j < n && WriteAt(ops, j, "Append", key)
  }

  /** The values of the Appends on the key at positions a, ..., b - 1, in that order. */
  function AppendedFrom(ops: seq<Op>, key: string, a: nat, b: nat): string
    requires b <= |ops|
  {
    if b <= a then ""
    else AppendedFrom(ops, key, a, b - 1) + if WriteAt(ops, b - 1, "Append", key) then ops[b - 1].value else ""
  }

  /** A key holds its last Put and then, in order, the Appends after that; without either it is absent. */
  ghost predicate HoldsWrites(db: map<string, string>, ops: seq<Op>, key: string, n: nat)
    requires n <= |ops|
  {
    && (forall p: nat {:trigger LastPut(ops, key, n, p)} | LastPut(ops, key, n, p) ::
          key in db && db[key] == ops[p].value + AppendedFrom(ops, key, p + 1, n))
    && (NoPut(ops, key, n) ==>
          && (key in db <==> SomeAppend(ops, key, n))
          && (key in db ==> db[key] == AppendedFrom(ops, key, 0, n)))
  }

  lemma SomePutOrNone(ops: seq<Op>, key: string, n: nat) returns (p: nat)
    ensures NoPut(ops, key, n) || LastPut(ops, key, n, p)
    decreases n
  {
    p := 0;
    if n > 0 {
      if WriteAt(ops, n - 1, "Put", key) {
        p := n - 1;
      } else {
        p := SomePutOrNone(ops, key, n - 1);
      }
    }
  }

  lemma {:induction false} AppendedEmpty(ops: seq<Op>, key: string, a: nat, b: nat)
    requires b <= |ops| && forall j: nat | a <= j < b :: !WriteAt(ops, j, "Append", key)
    ensures AppendedFrom(ops, key, a, b) == ""
  {
    if a < b {
      AppendedEmpty(ops, key, a, b - 1);
    }
  }

  /** What an operation does to one key. */
  lemma ExecuteOnKey(db: map<string, string>, op: Op, key: string)
    ensures var now := Execute(db, op);
            && (op.key == key && op.kind == "Put" ==> key in now && now[key] == op.value)
            && (op.key == key && op.kind == "Append" ==> key in now && now[key] == Lookup(db, key) + op.value)
            && (op.key != key || (op.kind != "Put" && op.kind != "Append") ==> SameOn(db, now, key))
  {
    assert |"Put"| != |"Append"|;
  }

  ghost predicate SameOn(db: map<string, string>, now: map<string, string>, key: string) {
    (key in now <==> key in db) && (key in now ==> now[key] == db[key])
  }

  /** One more operation on a database that holds the writes so far. */
  lemma WritesStep(db: map<string, string>, now: map<string, string>, ops: seq<Op>, key: string, n: nat)
    requires n < |ops| && HoldsWrites(db, ops, key, n)
    requires now == if First(ops, n) then Execute(db, ops[n]) else db
    ensures HoldsWrites(now, ops, key, n + 1)
  {
    ExecuteOnKey(db, ops[n], key);
    assert |"Put"| != |"Append"|;
    if WriteAt(ops, n, "Put", key) {
      PutStep(now, ops, key, n);
    } else if WriteAt(ops, n, "Append", key) {
      AppendStep(db, now, ops, key, n);
    } else {
      OtherStep(db, now, ops, key, n);
    }
  }

  lemma PutStep(now: map<string, string>, ops: seq<Op>, key: string, n: nat)
    requires n < |ops| && WriteAt(ops, n, "Put", key) && key in now && now[key] == ops[n].value
    ensures HoldsWrites(now, ops, key, n + 1)
  {
    forall p: nat | LastPut(ops, key, n + 1, p)
      ensures key in now && now[key] == ops[p].value + AppendedFrom(ops, key, p + 1, n + 1)
    {
      assert p == n;
    }
    assert !NoPut(ops, key, n + 1);
  }

  lemma AppendStep(db: map<string, string>, now: map<string, string>, ops: seq<Op>, key: string, n: nat)
    requires n < |ops| && HoldsWrites(db, ops, key, n) && WriteAt(ops, n, "Append", key)
    requires !WriteAt(ops, n, "Put", key) && key in now && now[key] == Lookup(db, key) + ops[n].value
    ensures HoldsWrites(now, ops, key, n + 1)
  {
    forall p: nat | LastPut(ops, key, n + 1, p)
      ensures key in now && now[key] == ops[p].value + AppendedFrom(ops, key, p + 1, n + 1)
    {
      assert LastPut(ops, key, n, p);
      OneMoreAppend(ops, key, p + 1, n, ops[p].value);
    }
    if NoPut(ops, key, n + 1) {
      assert NoPut(ops, key, n) && SomeAppend(ops, key, n + 1);
      NoPutAppend(db, ops, key, n);
    }
  }

  lemma OneMoreAppend(ops: seq<Op>, key: string, a: nat, n: nat, head: string)
    requires a <= n < |ops| && WriteAt(ops, n, "Append", key)
    ensures head + AppendedFrom(ops, key, a, n + 1) == head + AppendedFrom(ops, key, a, n) + ops[n].value
  {}

  lemma NoPutAppend(db: map<string, string>, ops: seq<Op>, key: string, n: nat)
    requires n < |ops| && HoldsWrites(db, ops, key, n) && NoPut(ops, key, n) && WriteAt(ops, n, "Append", key)
    ensures Lookup(db, key) + ops[n].value == AppendedFrom(ops, key, 0, n + 1)
  {
    if key !in db {
      assert !SomeAppend(ops, key, n);
      AppendedEmpty(ops, key, 0, n);
    }
  }

  lemma OtherStep(db: map<string, string>, now: map<string, string>, ops: seq<Op>, key: string, n: nat)
    requires n < |ops| && HoldsWrites(db, ops, key, n) && SameOn(db, now, key)
    requires !WriteAt(ops, n, "Put", key) && !WriteAt(ops, n, "Append", key)
    ensures HoldsWrites(now, ops, key, n + 1)
  {
    forall p: nat | LastPut(ops, key, n + 1, p)
      ensures key in now && now[key] == ops[p].value + AppendedFrom(ops, key, p + 1, n + 1)
    {
      assert LastPut(ops, key, n, p);
    }
    if NoPut(ops, key, n + 1) {
      assert NoPut(ops, key, n);
      SameAppends(ops, key, n);
    }
  }

  lemma SameAppends(ops: seq<Op>, key: string, n: nat)
    requires n < |ops| && !WriteAt(ops, n, "Append", key)
    ensures SomeAppend(ops, key, n + 1) <==> SomeAppend(ops, key, n)
    ensures AppendedFrom(ops, key, 0, n + 1) == AppendedFrom(ops, key, 0, n)
  {
    if SomeAppend(ops, key, n + 1) {
      var j: nat :| j < n + 1 && WriteAt(ops, j, "Append", key);
      assert j < n;
    }
    if SomeAppend(ops, key, n) {
      var j: nat :| j < n && WriteAt(ops, j, "Append", key);
    }
  }

  lemma ReplayStep(ops: seq<Op>, n: nat)
    requires Orderly(ops) && n < |ops|
    ensures var db := Replay(ops[..n]).db;
            Replay(ops[..n + 1]).db == if First(ops, n) then Execute(db, ops[n]) else db
  {
    ExecutedIffExceeds(ops, n);
    OrderlyFirstExceeds(ops, n);
    assert ops[..n + 1][..n] == ops[..n];
  }

  /** Executing the first occurrences among the first n operations. */
  function FirstsOnly(ops: seq<Op>, n: nat): map<string, string>
    requires n <= |ops|
  {
    if n == 0 then map[]
    else
      var db := FirstsOnly(ops, n - 1);
      if First(ops, n - 1) then Execute(db, ops[n - 1]) else db
  }

  lemma {:induction false} ReplayIsFirstsOnly(ops: seq<Op>, n: nat)
    requires Orderly(ops) && n <= |ops|
    ensures Replay(ops[..n]).db == FirstsOnly(ops, n)
  {
    if n > 0 {
      ReplayIsFirstsOnly(ops, n - 1);
      ReplayStep(ops, n - 1);
    }
  }

  lemma {:induction false} FirstsHoldWrites(ops: seq<Op>, key: string, n: nat)
    requires n <= |ops|
    ensures HoldsWrites(FirstsOnly(ops, n), ops, key, n)
  {
    if n == 0 {
      NothingWritten(ops, key);
    } else {
      FirstsHoldWrites(ops, key, n - 1);
      WritesStep(FirstsOnly(ops, n - 1), FirstsOnly(ops, n), ops, key, n - 1);
    }
  }

  lemma NothingWritten(ops: seq<Op>, key: string)
    ensures HoldsWrites(map[], ops, key, 0)
  {}

  /**
   * What a Get sees: after any orderly log, retries and all, a key holds the value of its last Put
   * followed by the values of the Appends after that, each request counted once, in log order.
   */
  lemma KeyHoldsItsWrites(ops: seq<Op>, key: string)
    requires Orderly(ops)
    ensures NoPut(ops, key, |ops|) || exists p: nat :: LastPut(ops, key, |ops|, p)
    ensures var db := Replay(ops).db;
            && (forall p: nat | LastPut(ops, key, |ops|, p) ::
                  key in db && db[key] == ops[p].value + AppendedFrom(ops, key, p + 1, |ops|))
            && (NoPut(ops, key, |ops|) ==>
                  && (key in db <==> SomeAppend(ops, key, |ops|))
                  && Lookup(db, key) == AppendedFrom(ops, key, 0, |ops|))
  {
    var p := SomePutOrNone(ops, key, |ops|);
    ReplayIsFirstsOnly(ops, |ops|);
    assert ops[..|ops|] == ops;
    WritesSeen(ops, key);
  }

  lemma WritesSeen(ops: seq<Op>, key: string)
    ensures var db := FirstsOnly(ops, |ops|);
            && (forall p: nat | LastPut(ops, key, |ops|, p) ::
                  key in db && db[key] == ops[p].value + AppendedFrom(ops, key, p + 1, |ops|))
            && (NoPut(ops, key, |ops|) ==>
                  && (key in db <==> SomeAppend(ops, key, |ops|))
                  && Lookup(db, key) == AppendedFrom(ops, key, 0, |ops|))
  {
    FirstsHoldWrites(ops, key, |ops|);
    if !SomeAppend(ops, key, |ops|) {
      AppendedEmpty(ops, key, 0, |ops|);
    }
  }

  ghost predicate Contains(ops: seq<Op>, op: Op) {
    exists j | 0 <= j < |ops| :: SameRequest(ops[j], op)
  }

  /** Repeating requests already in the log changes nothing. */
  lemma {:induction false} RepeatsChangeNothing(ops: seq<Op>, repeats: seq<Op>)
    requires forall k | 0 <= k < |repeats| :: Contains(ops, repeats[k])
    ensures Replay(ops + repeats) == Replay(ops)
  {
    if repeats == [] {
      assert ops + repeats == ops;
    } else {
      var n := |repeats| - 1;
      var all := ops + repeats;
      assert all[..|all| - 1] == ops + repeats[..n];
      forall k | 0 <= k < n ensures Contains(ops, repeats[..n][k]) {
        assert repeats[..n][k] == repeats[k];
      }
      RepeatsChangeNothing(ops, repeats[..n]);
      ReplayAck(ops);
      assert Contains(ops, repeats[n]);
      assert all[|all| - 1] == repeats[n];
    }
  }

  // ---- The extra write of Get ----

  /** The acknowledgement a Get handler writes after it has been answered (server.go:112). */
  function GetWrite(s: Store, op: Op): Store {
    s.(ack := s.ack[op.id := op.reqId])
  }

  ghost predicate NoLaterRequest(ops: seq<Op>, op: Op) {
    forall j | 0 <= j < |ops| && ops[j].id == op.id :: ops[j].reqId <= op.reqId
  }

  /** The extra write changes nothing exactly while no later request of that client has been applied. */
  lemma GetWriteHarmlessIff(ops: seq<Op>, i: nat)
    requires i < |ops|
    ensures GetWrite(Replay(ops), ops[i]) == Replay(ops) <==> NoLaterRequest(ops, ops[i])
  {
    ReplayAck(ops);
    SameAckIff(ops, Replay(ops).ack, ops[i]);
  }

  lemma SameAckIff(ops: seq<Op>, ack: map<int, int>, op: Op)
    requires AckIsMax(ops, ack) && op in ops
    ensures ack[op.id := op.reqId] == ack <==> NoLaterRequest(ops, op)
  {
    if ack[op.id := op.reqId] == ack {
      assert ack[op.id] == op.reqId;
    }
    if NoLaterRequest(ops, op) {
      assert Latest(ops, op.id, ack[op.id]);
    }
  }
}
