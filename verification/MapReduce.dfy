/**
 * The sequential MapReduce job: map tasks split their pairs over intermediate files by the hash of
 * the key, reduce tasks group the pairs of their files by key, and merge puts the reduced pairs in
 * key order.  Files hold key/value records; the map, reduce and hash functions are parameters.
 */
module MapReduce {
  import opened Text

  datatype KeyValue = KeyValue(key: string, value: string)

  type Files = map<string, seq<KeyValue>>
  type Hash = string -> nat
  type ReduceF = (string, seq<string>) -> string

  // ---- File names ----

  function ReduceName(job: string, mapTask: nat, reduceTask: nat): string {
    "mrtmp." + job + "-" + Itoa(mapTask) + "-" + Itoa(reduceTask)
  }

  function MergeName(job: string, reduceTask: nat): string {
    "mrtmp." + job + "-res-" + Itoa(reduceTask)
  }

  lemma {:induction false} SplitAtDash(a: string, b: string, x: string, y: string)
    requires AllDigits(a) && AllDigits(x) && a + "-" + b == x + "-" + y
    ensures a == x && b == y
  {
    var s, t := a + "-" + b, x + "-" + y;
    assert s[|a|] == '-' && t[|x|] == '-';
    assert forall i | 0 <= i < |a| :: IsDigit(s[i]);
    assert forall i | 0 <= i < |x| :: IsDigit(t[i]);
    assert |a| == |x|;
    assert s[..|a|] == a && t[..|x|] == x;
    assert s[|a| + 1..] == b && t[|x| + 1..] == y;
  }

  /** No two tasks of a job share an intermediate file. */
  lemma ReduceNamesDistinct(job: string, m: nat, r: nat, m': nat, r': nat)
    requires ReduceName(job, m, r) == ReduceName(job, m', r')
    ensures m == m' && r == r'
  {
    var head := "mrtmp." + job + "-";
    var a, b := Itoa(m) + "-" + Itoa(r), Itoa(m') + "-" + Itoa(r');
    assert ReduceName(job, m, r) == head + a && ReduceName(job, m', r') == head + b;
    assert (head + a)[|head|..] == a && (head + b)[|head|..] == b;
    ItoaDigits(m);
    ItoaDigits(m');
    SplitAtDash(Itoa(m), Itoa(r), Itoa(m'), Itoa(r'));
    ItoaInjective(m, m');
    ItoaInjective(r, r');
  }

  lemma MergeNamesDistinct(job: string, r: nat, r': nat)
    requires MergeName(job, r) == MergeName(job, r')
    ensures r == r'
  {
    var head := "mrtmp." + job + "-res-";
    assert MergeName(job, r)[|head|..] == Itoa(r) && MergeName(job, r')[|head|..] == Itoa(r');
    ItoaInjective(r, r');
  }

  /** An intermediate file is never an output file. */
  lemma IntermediateIsNotOutput(job: string, m: nat, r: nat, r': nat)
    ensures ReduceName(job, m, r) != MergeName(job, r')
  {
    var head := "mrtmp." + job + "-";
    ItoaDigits(m);
    assert ReduceName(job, m, r)[|head|] == Itoa(m)[0];
    assert MergeName(job, r')[|head|] == 'r';
    assert IsDigit(Itoa(m)[0]);
  }

  // ---- What the phases compute ----

  /** The pairs of one reduce task. */
  function Partition(pairs: seq<KeyValue>, r: nat, n: nat, hash: Hash): seq<KeyValue>
    requires n >= 1
  {
    if pairs == [] then []
    else
      var rest := Partition(pairs[..|pairs| - 1], r, n, hash);
      var last := pairs[|pairs| - 1];
      if hash(last.key) % n == r then rest + [last] else rest
  }

  /** All values of one key, in order. */
  function ValuesOf(pairs: seq<KeyValue>, key: string): seq<string> {
    if pairs == [] then []
    else
      var rest := ValuesOf(pairs[..|pairs| - 1], key);
      var last := pairs[|pairs| - 1];
      if last.key == key then rest + [last.value] else rest
  }

  function Keys(pairs: seq<KeyValue>): set<string> {
    set i | 0 <= i < |pairs| :: pairs[i].key
  }

  function Concat(parts: seq<seq<KeyValue>>): seq<KeyValue> {
    if parts == [] then [] else Concat(parts[..|parts| - 1]) + parts[|parts| - 1]
  }

  /** The simple specification of a job: group all pairs by key and reduce each group. */
  function GroupReduce(pairs: seq<KeyValue>, reduceF: ReduceF): map<string, string> {
    map k | k in Keys(pairs) :: reduceF(k, ValuesOf(pairs, k))
  }

  /** Map outputs follow one another in order. */
  lemma {:induction false} ConcatJoins(a: seq<seq<KeyValue>>, b: seq<seq<KeyValue>>)
    ensures Concat(a + b) == Concat(a) + Concat(b)
    ensures forall x: seq<KeyValue> :: Concat([x]) == x
  {
    if b == [] {
      assert a + b == a;
    } else {
      ConcatJoins(a, b[..|b| - 1]);
      assert (a + b)[..|a + b| - 1] == a + b[..|b| - 1];
    }
    forall x: seq<KeyValue> ensures Concat([x]) == x {
      assert [x][..0] == [];
    }
  }

  lemma {:induction false} ValuesOfConcat(a: seq<KeyValue>, b: seq<KeyValue>, key: string)
    ensures ValuesOf(a + b, key) == ValuesOf(a, key) + ValuesOf(b, key)
  {
    if b == [] {
      assert a + b == a;
    } else {
      ValuesOfConcat(a, b[..|b| - 1], key);
      assert (a + b)[..|a + b| - 1] == a + b[..|b| - 1];
    }
  }

  lemma {:induction false} KeyHasValue(pairs: seq<KeyValue>, key: string)
    ensures key in Keys(pairs) <==> ValuesOf(pairs, key) != []
  {
    if pairs != [] {
      var n := |pairs| - 1;
      KeyHasValue(pairs[..n], key);
      assert forall i | 0 <= i < n :: pairs[..n][i] == pairs[i];
      if key in Keys(pairs[..n]) {
        var i :| 0 <= i < n && pairs[..n][i].key == key;
        assert pairs[i].key == key;
      }
      if key in Keys(pairs) && pairs[n].key != key {
        var i :| 0 <= i < |pairs| && pairs[i].key == key;
        assert pairs[..n][i].key == key;
      }
    }
  }

  /** A key's values all go to one reduce task, in order, and to no other. */
  lemma {:induction false} PartitionValues(pairs: seq<KeyValue>, r: nat, n: nat, hash: Hash, key: string)
    requires n >= 1
    ensures ValuesOf(Partition(pairs, r, n, hash), key) == if hash(key) % n == r then ValuesOf(pairs, key) else []
  {
    if pairs != [] {
      PartitionValues(pairs[..|pairs| - 1], r, n, hash, key);
      var rest := Partition(pairs[..|pairs| - 1], r, n, hash);
      var last := pairs[|pairs| - 1];
      assert (rest + [last])[..|rest|] == rest;
    }
  }

  /** What reduce task r reads: its part of every map task's output. */
  function Parts(outs: seq<seq<KeyValue>>, r: nat, n: nat, hash: Hash): seq<seq<KeyValue>>
    requires n >= 1
  {
    seq(|outs|, i requires 0 <= i < |outs| => Partition(outs[i], r, n, hash))
  }

  lemma {:induction false} PartsValues(outs: seq<seq<KeyValue>>, r: nat, n: nat, hash: Hash, key: string)
    requires n >= 1
    ensures ValuesOf(Concat(Parts(outs, r, n, hash)), key) ==
            if hash(key) % n == r then ValuesOf(Concat(outs), key) else []
  {
    if outs != [] {
      var m := |outs| - 1;
      var parts := Parts(outs, r, n, hash);
      assert parts[..m] == Parts(outs[..m], r, n, hash);
      PartsValues(outs[..m], r, n, hash, key);
      PartitionValues(outs[m], r, n, hash, key);
      ValuesOfConcat(Concat(parts[..m]), parts[m], key);
      ValuesOfConcat(Concat(outs[..m]), outs[m], key);
    }
  }

  /** `listing` holds each key of `m` once, with its value, in some order. */
  ghost predicate Lists(listing: seq<KeyValue>, m: map<string, string>) {
    && (forall i | 0 <= i < |listing| :: listing[i].key in m && listing[i].value == m[listing[i].key])
    && (forall k | k in m :: Listed(listing, k))
    && (forall i, j | 0 <= i < j < |listing| :: listing[i].key != listing[j].key)
  }

  ghost predicate Listed(listing: seq<KeyValue>, key: string) {
    exists i | 0 <= i < |listing| :: listing[i].key == key
  }

  /** The union of what the reduce tasks write is the grouping of all pairs, whatever their number. */
  ghost predicate Covers(kvs: map<string, string>, outs: seq<seq<KeyValue>>, upto: nat, n: nat, hash: Hash,
                         reduceF: ReduceF)
    requires n >= 1
  {
    forall k :: (k in kvs <==> k in Keys(Concat(outs)) && hash(k) % n < upto) &&
                (k in kvs ==> kvs[k] == reduceF(k, ValuesOf(Concat(outs), k)))
  }

  lemma ReducedTask(outs: seq<seq<KeyValue>>, r: nat, n: nat, hash: Hash, reduceF: ReduceF, k: string)
    requires n >= 1
    ensures var m := GroupReduce(Concat(Parts(outs, r, n, hash)), reduceF);
            (k in m <==> k in Keys(Concat(outs)) && hash(k) % n == r) &&
            (k in m ==> m[k] == reduceF(k, ValuesOf(Concat(outs), k)))
  {
    PartsValues(outs, r, n, hash, k);
    KeyHasValue(Concat(Parts(outs, r, n, hash)), k);
    KeyHasValue(Concat(outs), k);
  }

  lemma CoversAll(kvs: map<string, string>, outs: seq<seq<KeyValue>>, n: nat, hash: Hash, reduceF: ReduceF)
    requires n >= 1 && Covers(kvs, outs, n, n, hash, reduceF)
    ensures kvs == GroupReduce(Concat(outs), reduceF)
  {
    var g := GroupReduce(Concat(outs), reduceF);
    forall k ensures k in kvs <==> k in g {
      assert k in kvs <==> k in Keys(Concat(outs)) && hash(k) % n < n;
    }
    assert kvs.Keys == g.Keys;
  }

  // ---- What the files hold between the phases ----

  /** What reduce task r finds of map task m; a missing file is skipped. */
  function Input(fs: Files, job: string, m: nat, r: nat): seq<KeyValue> {
    if ReduceName(job, m, r) in fs then fs[ReduceName(job, m, r)] else []
  }

  function Inputs(fs: Files, job: string, maps: nat, r: nat): seq<seq<KeyValue>> {
    seq(maps, m requires 0 <= m < maps => Input(fs, job, m, r))
  }

  ghost predicate SameFile(fs: Files, was: Files, name: string) {
    (name in fs <==> name in was) && (name in fs ==> fs[name] == was[name])
  }

  /** Map task m has written the non-empty parts of its pairs and nothing else. */
  ghost predicate AfterMap(fs: Files, was: Files, job: string, m: nat, pairs: seq<KeyValue>, n: nat, hash: Hash)
    requires n >= 1
  {
    && (forall r: nat {:trigger ReduceName(job, m, r)} | r < n && Partition(pairs, r, n, hash) != [] ::
          ReduceName(job, m, r) in fs && fs[ReduceName(job, m, r)] == Partition(pairs, r, n, hash))
    && (forall name {:trigger SameFile(fs, was, name)} | !Writes(job, m, pairs, n, hash, name) ::
          SameFile(fs, was, name))
  }

  ghost predicate Writes(job: string, m: nat, pairs: seq<KeyValue>, n: nat, hash: Hash, name: string)
    requires n >= 1
  {
    exists r: nat | r < n :: name == ReduceName(job, m, r) && Partition(pairs, r, n, hash) != []
  }

  /** A map task's part replaces what lay in its place; without pairs it leaves that as it is. */
  lemma OwnTaskWritten(fs: Files, was: Files, job: string, m: nat, pairs: seq<KeyValue>, n: nat, hash: Hash, r: nat)
    requires n >= 1 && AfterMap(fs, was, job, m, pairs, n, hash) && r < n
    ensures Input(fs, job, m, r) ==
            if Partition(pairs, r, n, hash) != [] then Partition(pairs, r, n, hash) else Input(was, job, m, r)
  {
    var name := ReduceName(job, m, r);
    if Partition(pairs, r, n, hash) == [] {
      if Writes(job, m, pairs, n, hash, name) {
        var r': nat :| r' < n && name == ReduceName(job, m, r') && Partition(pairs, r', n, hash) != [];
        ReduceNamesDistinct(job, m, r, m, r');
        assert false;
      }
      assert SameFile(fs, was, name);
    }
  }

  /** Other map tasks' files are left alone. */
  lemma OtherTasksKept(fs: Files, was: Files, job: string, m: nat, pairs: seq<KeyValue>, n: nat, hash: Hash, m': nat,
                       r: nat)
    requires n >= 1 && AfterMap(fs, was, job, m, pairs, n, hash) && m' != m
    ensures Input(fs, job, m', r) == Input(was, job, m', r)
  {
    var name := ReduceName(job, m', r);
    if Writes(job, m, pairs, n, hash, name) {
      var r': nat :| r' < n && name == ReduceName(job, m, r') && Partition(pairs, r', n, hash) != [];
      ReduceNamesDistinct(job, m', r, m, r');
      assert false;
    }
    assert SameFile(fs, was, name);
  }

  /** Merging reads listings one after another, later records overwriting earlier ones. */
  function AddAll(kvs: map<string, string>, listing: seq<KeyValue>): map<string, string> {
    if listing == [] then kvs
    else
      var last := listing[|listing| - 1];
      AddAll(kvs, listing[..|listing| - 1])[last.key := last.value]
  }

  lemma {:induction false} AddAllKeys(kvs: map<string, string>, listing: seq<KeyValue>, m: map<string, string>)
    requires forall i | 0 <= i < |listing| :: listing[i].key in m && listing[i].value == m[listing[i].key]
    ensures forall k :: k in AddAll(kvs, listing) <==> k in kvs || Listed(listing, k)
    ensures forall k | k in AddAll(kvs, listing) ::
              AddAll(kvs, listing)[k] == if Listed(listing, k) && k in m then m[k] else if k in kvs then kvs[k] else ""
  {
    if listing != [] {
      var n := |listing| - 1;
      var rest := listing[..n];
      AddAllKeys(kvs, rest, m);
      forall k ensures Listed(listing, k) <==> Listed(rest, k) || k == listing[n].key {
        ListedSnoc(listing, k);
      }
    }
  }

  lemma ListedSnoc(listing: seq<KeyValue>, k: string)
    requires listing != []
    ensures Listed(listing, k) <==> Listed(listing[..|listing| - 1], k) || k == listing[|listing| - 1].key
  {
    var n := |listing| - 1;
    if Listed(listing[..n], k) {
      var i :| 0 <= i < n && listing[..n][i].key == k;
      assert listing[i].key == k;
    }
    if Listed(listing, k) {
      var i :| 0 <= i < |listing| && listing[i].key == k;
      if i < n { assert listing[..n][i].key == k; }
    }
    if listing[n].key == k {
      assert Listed(listing, k);
    }
  }

  lemma AddAllLists(kvs: map<string, string>, listing: seq<KeyValue>, m: map<string, string>)
    requires Lists(listing, m)
    ensures AddAll(kvs, listing) == kvs + m
  {
    AddAllKeys(kvs, listing, m);
    var all := AddAll(kvs, listing);
    forall k ensures k in all <==> k in kvs + m {
      if Listed(listing, k) {
        var i :| 0 <= i < |listing| && listing[i].key == k;
      }
    }
    assert all.Keys == (kvs + m).Keys;
  }

  lemma CoversNext(kvs: map<string, string>, outs: seq<seq<KeyValue>>, r: nat, n: nat, hash: Hash, reduceF: ReduceF)
    requires n >= 1 && Covers(kvs, outs, r, n, hash, reduceF)
    ensures Covers(kvs + GroupReduce(Concat(Parts(outs, r, n, hash)), reduceF), outs, r + 1, n, hash, reduceF)
  {
    var m := GroupReduce(Concat(Parts(outs, r, n, hash)), reduceF);
    forall k ensures (k in kvs + m <==> k in Keys(Concat(outs)) && hash(k) % n < r + 1) &&
                     (k in kvs + m ==> (kvs + m)[k] == reduceF(k, ValuesOf(Concat(outs), k)))
    {
      ReducedTask(outs, r, n, hash, reduceF, k);
    }
  }

  // ---- The tasks ----

  ghost predicate Grouped(kvs: map<string, seq<string>>, pairs: seq<KeyValue>) {
    forall k :: (k in kvs <==> k in Keys(pairs)) && (k in kvs ==> kvs[k] == ValuesOf(pairs, k))
  }

  lemma GroupedSnoc(kvs: map<string, seq<string>>, pairs: seq<KeyValue>, kv: KeyValue)
    requires Grouped(kvs, pairs)
    ensures Grouped(kvs[kv.key := (if kv.key in kvs then kvs[kv.key] else []) + [kv.value]], pairs + [kv])
  {
    var all := pairs + [kv];
    assert all[..|all| - 1] == pairs;
    forall k ensures k in Keys(all) <==> k in Keys(pairs) || k == kv.key {
      KeyHasValue(all, k);
      KeyHasValue(pairs, k);
    }
    KeyHasValue(pairs, kv.key);
  }

  ghost predicate MapsDone(fs: Files, job: string, outs: seq<seq<KeyValue>>, n: nat, hash: Hash)
    requires n >= 1
  {
    forall m: nat, r: nat {:trigger Input(fs, job, m, r)} | m < |outs| && r < n ::
      Input(fs, job, m, r) == Partition(outs[m], r, n, hash)
  }

  /** What reduce task r will find of map task m: the task's own part, or else what lay there before. */
  ghost function Found(was: Files, job: string, outs: seq<seq<KeyValue>>, m: nat, r: nat, n: nat,
                       hash: Hash): seq<KeyValue>
    requires n >= 1 && m < |outs|
  {
    var part := Partition(outs[m], r, n, hash);
    if part != [] then part else Input(was, job, m, r)
  }

  /** Wherever a map task has no pairs for a reduce task, no older file with records lies in that place. */
  ghost predicate NothingStale(fs: Files, job: string, outs: seq<seq<KeyValue>>, n: nat, hash: Hash)
    requires n >= 1
  {
    forall m: nat, r: nat {:trigger Input(fs, job, m, r)} | m < |outs| && r < n ::
      Partition(outs[m], r, n, hash) != [] || Input(fs, job, m, r) == []
  }

  /** The first `k` map tasks have run. */
  ghost predicate MapsRun(fs: Files, was: Files, job: string, outs: seq<seq<KeyValue>>, k: nat, n: nat, hash: Hash)
    requires n >= 1 && k <= |outs|
  {
    forall m: nat, r: nat {:trigger Input(fs, job, m, r)} | r < n ::
      Input(fs, job, m, r) == if m < k then Found(was, job, outs, m, r, n, hash) else Input(was, job, m, r)
  }

  /** The reduce tasks find what they should exactly if nothing stale was in the way. */
  lemma MapsDoneIffNothingStale(fs: Files, was: Files, job: string, outs: seq<seq<KeyValue>>, n: nat, hash: Hash)
    requires n >= 1 && MapsRun(fs, was, job, outs, |outs|, n, hash)
    ensures MapsDone(fs, job, outs, n, hash) <==> NothingStale(was, job, outs, n, hash)
  {
    if MapsDone(fs, job, outs, n, hash) {
      forall m: nat, r: nat | m < |outs| && r < n
        ensures Partition(outs[m], r, n, hash) != [] || Input(was, job, m, r) == []
      {
        assert Input(fs, job, m, r) == Found(was, job, outs, m, r, n, hash);
      }
    }
    if NothingStale(was, job, outs, n, hash) {
      forall m: nat, r: nat | m < |outs| && r < n ensures Input(fs, job, m, r) == Partition(outs[m], r, n, hash) {
        assert Partition(outs[m], r, n, hash) != [] || Input(was, job, m, r) == [];
      }
    }
  }

  /** A job that has run leaves nothing stale for another run of the same job. */
  lemma DoneIsNotStale(fs: Files, job: string, outs: seq<seq<KeyValue>>, n: nat, hash: Hash)
    requires n >= 1 && MapsDone(fs, job, outs, n, hash)
    ensures NothingStale(fs, job, outs, n, hash)
  {}

  /** The part of a task's pairs that the loop has spilled so far. */
  ghost predicate Spilled(fs: Files, was: Files, created: set<string>, job: string, m: nat, pairs: seq<KeyValue>,
                          n: nat, hash: Hash)
    requires n >= 1
  {
    && (forall r: nat {:trigger ReduceName(job, m, r)} | r < n ::
          && (ReduceName(job, m, r) in created <==> Partition(pairs, r, n, hash) != [])
          && (ReduceName(job, m, r) in created ==>
                ReduceName(job, m, r) in fs && fs[ReduceName(job, m, r)] == Partition(pairs, r, n, hash)))
    && (forall name {:trigger SameFile(fs, was, name)} | name !in created :: SameFile(fs, was, name))
    && (forall name | name in created :: Writes(job, m, pairs, n, hash, name))
  }

  /** One more record in a file, which is emptied first unless it was created before. */
  function Appended(fs: Files, created: set<string>, name: string, kv: KeyValue): Files {
    fs[name := (if name in created && name in fs then fs[name] else []) + [kv]]
  }

  lemma SpillOne(fs: Files, was: Files, created: set<string>, job: string, m: nat, pairs: seq<KeyValue>, n: nat,
                 hash: Hash, kv: KeyValue)
    requires n >= 1 && Spilled(fs, was, created, job, m, pairs, n, hash)
    ensures var name := ReduceName(job, m, hash(kv.key) % n);
            && (name in created ==> name in fs)
            && Spilled(Appended(fs, created, name, kv), was, created + {name}, job, m, pairs + [kv], n, hash)
  {
    var r0 := hash(kv.key) % n;
    var name := ReduceName(job, m, r0);
    var all := pairs + [kv];
    assert all[..|all| - 1] == pairs;
    assert name in created ==> name in fs;
    var fs' := Appended(fs, created, name, kv);
    forall r: nat | r < n
      ensures ReduceName(job, m, r) in created + {name} <==> Partition(all, r, n, hash) != []
      ensures ReduceName(job, m, r) in created + {name} ==>
                ReduceName(job, m, r) in fs' && fs'[ReduceName(job, m, r)] == Partition(all, r, n, hash)
    {
      if r != r0 && ReduceName(job, m, r) == name {
        ReduceNamesDistinct(job, m, r, m, r0);
        assert false;
      }
    }
    forall x | x !in created + {name} ensures SameFile(fs', was, x) {
      assert SameFile(fs, was, x);
    }
    forall x | x in created + {name} ensures Writes(job, m, all, n, hash, x) {
      if x == name {
        assert Partition(all, r0, n, hash) != [];
      } else {
        assert Writes(job, m, pairs, n, hash, x);
        var r: nat :| r < n && x == ReduceName(job, m, r) && Partition(pairs, r, n, hash) != [];
        assert Partition(all, r, n, hash) != [];
      }
    }
  }

  lemma SpilledIsAfterMap(fs: Files, was: Files, created: set<string>, job: string, m: nat, pairs: seq<KeyValue>,
                          n: nat, hash: Hash)
    requires n >= 1 && Spilled(fs, was, created, job, m, pairs, n, hash)
    ensures AfterMap(fs, was, job, m, pairs, n, hash)
  {
    forall name | !Writes(job, m, pairs, n, hash, name) ensures SameFile(fs, was, name) {
      if name in created {
        assert false;
      }
    }
  }

  lemma MapStep(fs: Files, mid: Files, was: Files, job: string, outs: seq<seq<KeyValue>>, k: nat, n: nat, hash: Hash)
    requires n >= 1 && k < |outs| && AfterMap(fs, mid, job, k, outs[k], n, hash)
    requires MapsRun(mid, was, job, outs, k, n, hash)
    ensures MapsRun(fs, was, job, outs, k + 1, n, hash)
  {
    forall m: nat, r: nat | r < n
      ensures Input(fs, job, m, r) == if m < k + 1 then Found(was, job, outs, m, r, n, hash) else Input(was, job, m, r)
    {
      if m == k {
        OwnTaskWritten(fs, mid, job, k, outs[k], n, hash, r);
      } else {
        OtherTasksKept(fs, mid, job, k, outs[k], n, hash, m, r);
      }
      assert Input(mid, job, m, r) == if m < k then Found(was, job, outs, m, r, n, hash) else Input(was, job, m, r);
    }
  }

  ghost predicate OnlyChanged(fs: Files, was: Files, name: string) {
    forall x {:trigger SameFile(fs, was, x)} | x != name :: SameFile(fs, was, x)
  }

  lemma OutputsLeaveInputs(fs: Files, was: Files, job: string, r: nat)
    requires OnlyChanged(fs, was, MergeName(job, r))
    ensures forall m: nat, r': nat {:trigger Input(fs, job, m, r')} :: Input(fs, job, m, r') == Input(was, job, m, r')
  {
    forall m: nat, r': nat ensures Input(fs, job, m, r') == Input(was, job, m, r') {
      IntermediateIsNotOutput(job, m, r', r);
      assert SameFile(fs, was, ReduceName(job, m, r'));
    }
  }

  /** The first `upto` output files list what their tasks reduce. */
  ghost predicate ReducesDone(fs: Files, job: string, outs: seq<seq<KeyValue>>, upto: nat, n: nat, hash: Hash,
                              reduceF: ReduceF)
    requires n >= 1
  {
    forall r: nat {:trigger MergeName(job, r)} | r < upto ::
      MergeName(job, r) in fs && Lists(fs[MergeName(job, r)], GroupReduce(Concat(Parts(outs, r, n, hash)), reduceF))
  }

  lemma InputsAreParts(fs: Files, job: string, outs: seq<seq<KeyValue>>, r: nat, n: nat, hash: Hash)
    requires n >= 1 && MapsDone(fs, job, outs, n, hash) && r < n
    ensures Inputs(fs, job, |outs|, r) == Parts(outs, r, n, hash)
  {
    forall m | 0 <= m < |outs| ensures Inputs(fs, job, |outs|, r)[m] == Parts(outs, r, n, hash)[m] {
      assert Input(fs, job, m, r) == Partition(outs[m], r, n, hash);
    }
  }

  lemma ReduceStep(fs: Files, was: Files, job: string, outs: seq<seq<KeyValue>>, r: nat, n: nat, hash: Hash,
                   reduceF: ReduceF)
    requires n >= 1 && r < n && MapsDone(was, job, outs, n, hash) && ReducesDone(was, job, outs, r, n, hash, reduceF)
    requires OnlyChanged(fs, was, MergeName(job, r)) && MergeName(job, r) in fs
    requires Lists(fs[MergeName(job, r)], GroupReduce(Concat(Inputs(was, job, |outs|, r)), reduceF))
    ensures MapsDone(fs, job, outs, n, hash) && ReducesDone(fs, job, outs, r + 1, n, hash, reduceF)
  {
    InputsAreParts(was, job, outs, r, n, hash);
    OutputsLeaveInputs(fs, was, job, r);
    forall r': nat | r' < r + 1
      ensures MergeName(job, r') in fs
      ensures Lists(fs[MergeName(job, r')], GroupReduce(Concat(Parts(outs, r', n, hash)), reduceF))
    {
      if r' < r {
        if MergeName(job, r') == MergeName(job, r) {
          MergeNamesDistinct(job, r', r);
          assert false;
        }
        assert SameFile(fs, was, MergeName(job, r'));
      }
    }
  }

  /** The map outputs of all input files, in order. */
  function MapOutputs(inputs: seq<(string, string)>, mapF: (string, string) -> seq<KeyValue>): seq<seq<KeyValue>> {
    seq(|inputs|, i requires 0 <= i < |inputs| => mapF(inputs[i].0, inputs[i].1))
  }

  ghost predicate KeysAscend(listing: seq<KeyValue>) {
    forall i, j | 0 <= i < j < |listing| :: LexLe(listing[i].key, listing[j].key) && listing[i].key != listing[j].key
  }

  /** A job's working directory and its tasks, run one after another. */
  class Job {
    var fs: Files

    constructor (files: Files)
      ensures fs == files
    {
      fs := files;
    }

    method DoMap(job: string, mapTask: nat, file: string, contents: string, nReduce: nat,
                 mapF: (string, string) -> seq<KeyValue>, hash: Hash)
      requires nReduce >= 1
      modifies this
      ensures AfterMap(fs, old(fs), job, mapTask, mapF(file, contents), nReduce, hash)
    {
      var pairs := mapF(file, contents);
      var created: set<string> := {};
      for i := 0 to |pairs|
        invariant Spilled(fs, old(fs), created, job, mapTask, pairs[..i], nReduce, hash)
      {
        var kv := pairs[i];
        var name := ReduceName(job, mapTask, hash(kv.key) % nReduce);
        SpillOne(fs, old(fs), created, job, mapTask, pairs[..i], nReduce, hash, kv);
        assert pairs[..i + 1] == pairs[..i] + [kv];
        ghost var next := Appended(fs, created, name, kv);
        if name !in created {
          assert [] + [kv] == [kv];
          fs := fs[name := [kv]];
          created := created + {name};
        } else {
          fs := fs[name := fs[name] + [kv]];
          assert created + {name} == created;
        }
        assert fs == next;
      }
      assert pairs[..|pairs|] == pairs;
      SpilledIsAfterMap(fs, old(fs), created, job, mapTask, pairs, nReduce, hash);
    }

    method DoReduce(job: string, reduceTask: nat, nMap: nat, reduceF: ReduceF)
      modifies this
      ensures OnlyChanged(fs, old(fs), MergeName(job, reduceTask)) && MergeName(job, reduceTask) in fs
      ensures var pairs := Concat(Inputs(old(fs), job, nMap, reduceTask));
              Lists(fs[MergeName(job, reduceTask)], GroupReduce(pairs, reduceF))
    {
      ghost var inputs := Inputs(fs, job, nMap, reduceTask);
      var keyValues: map<string, seq<string>> := map[];
      for i := 0 to nMap
        invariant fs == old(fs) && Grouped(keyValues, Concat(inputs[..i]))
      {
        assert inputs[..i + 1][..i] == inputs[..i] && inputs[..i + 1][i] == Input(fs, job, i, reduceTask);
        var name := ReduceName(job, i, reduceTask);
        if name in fs {
          keyValues := AddRecords(keyValues, fs[name], Concat(inputs[..i]));
        } else {
          assert Concat(inputs[..i]) + [] == Concat(inputs[..i]);
        }
      }
      assert inputs[..nMap] == inputs;
      var out := WriteAll(keyValues, reduceF, Concat(inputs));
      fs := fs[MergeName(job, reduceTask) := out];
      forall x | x != MergeName(job, reduceTask) ensures SameFile(fs, old(fs), x) {
      }
    }

    /** A missing output file ends the program; otherwise the union of the outputs comes out in key order. */
    method Merge(job: string, nReduce: nat) returns (ok: bool, listing: seq<KeyValue>)
      ensures ok <==> Outputs(fs, job, nReduce)
      ensures ok ==> Lists(listing, Merged(fs, job, nReduce)) && KeysAscend(listing)
    {
      var kvs: map<string, string> := map[];
      for i := 0 to nReduce
        invariant Outputs(fs, job, i) && kvs == Merged(fs, job, i)
      {
        if MergeName(job, i) !in fs {
          return false, [];
        }
        var records := fs[MergeName(job, i)];
        ghost var before := kvs;
        for j := 0 to |records|
          invariant kvs == AddAll(before, records[..j])
        {
          assert records[..j + 1][..j] == records[..j];
          kvs := kvs[records[j].key := records[j].value];
        }
        assert records[..|records|] == records;
      }
      listing := InKeyOrder(kvs);
      ok := true;
    }

    /** The map phase leaves the reduce tasks the right pairs exactly if nothing stale was in the way. */
    method MapPhase(job: string, inputs: seq<(string, string)>, nReduce: nat,
                    mapF: (string, string) -> seq<KeyValue>, hash: Hash)
      requires nReduce >= 1
      modifies this
      ensures var outs := MapOutputs(inputs, mapF);
              MapsDone(fs, job, outs, nReduce, hash) <==> NothingStale(old(fs), job, outs, nReduce, hash)
    {
      ghost var outs := MapOutputs(inputs, mapF);
      for i := 0 to |inputs|
        invariant MapsRun(fs, old(fs), job, outs, i, nReduce, hash)
      {
        ghost var mid := fs;
        DoMap(job, i, inputs[i].0, inputs[i].1, nReduce, mapF, hash);
        MapStep(fs, mid, old(fs), job, outs, i, nReduce, hash);
      }
      MapsDoneIffNothingStale(fs, old(fs), job, outs, nReduce, hash);
    }

    /**
     * The sequential driver: all map tasks, all reduce tasks, then the merge.  What an older job left
     * behind does no harm where this job has pairs of its own, and so not to another run of the same job.
     */
    method Sequential(job: string, inputs: seq<(string, string)>, nReduce: nat,
                      mapF: (string, string) -> seq<KeyValue>, reduceF: ReduceF, hash: Hash)
      returns (listing: seq<KeyValue>)
      requires nReduce >= 1
      modifies this
      ensures KeysAscend(listing)
      ensures var outs := MapOutputs(inputs, mapF);
              NothingStale(old(fs), job, outs, nReduce, hash) ==>
                Lists(listing, GroupReduce(Concat(outs), reduceF)) && NothingStale(fs, job, outs, nReduce, hash)
    {
      ghost var outs := MapOutputs(inputs, mapF);
      ghost var clean := NothingStale(old(fs), job, outs, nReduce, hash);
      MapPhase(job, inputs, nReduce, mapF, hash);
      for r := 0 to nReduce
        invariant Outputs(fs, job, r)
        invariant clean ==> MapsDone(fs, job, outs, nReduce, hash)
        invariant clean ==> ReducesDone(fs, job, outs, r, nReduce, hash, reduceF)
      {
        ghost var was := fs;
        DoReduce(job, r, |inputs|, reduceF);
        OutputsGrow(fs, was, job, r);
        if clean {
          ReduceStep(fs, was, job, outs, r, nReduce, hash, reduceF);
        }
      }
      var ok;
      ok, listing := Merge(job, nReduce);
      if clean {
        MergedCovers(fs, job, outs, nReduce, nReduce, hash, reduceF);
        CoversAll(Merged(fs, job, nReduce), outs, nReduce, hash, reduceF);
        DoneIsNotStale(fs, job, outs, nReduce, hash);
      }
    }
  }

  lemma OutputsGrow(fs: Files, was: Files, job: string, r: nat)
    requires Outputs(was, job, r) && OnlyChanged(fs, was, MergeName(job, r)) && MergeName(job, r) in fs
    ensures Outputs(fs, job, r + 1)
  {
    forall r': nat | r' < r + 1 ensures MergeName(job, r') in fs {
      if MergeName(job, r') != MergeName(job, r) {
        assert SameFile(fs, was, MergeName(job, r'));
      }
    }
  }

  ghost predicate Outputs(fs: Files, job: string, n: nat) {
    forall r: nat {:trigger MergeName(job, r)} | r < n :: MergeName(job, r) in fs
  }

  ghost function Merged(fs: Files, job: string, n: nat): map<string, string>
    requires Outputs(fs, job, n)
  {
    if n == 0 then map[] else AddAll(Merged(fs, job, n - 1), fs[MergeName(job, n - 1)])
  }

  lemma {:induction false} MergedCovers(fs: Files, job: string, outs: seq<seq<KeyValue>>, upto: nat, n: nat, hash: Hash,
                                        reduceF: ReduceF)
    requires n >= 1 && upto <= n && ReducesDone(fs, job, outs, upto, n, hash, reduceF)
    ensures Covers(Merged(fs, job, upto), outs, upto, n, hash, reduceF)
    decreases upto
  {
    if upto > 0 {
      MergedCovers(fs, job, outs, upto - 1, n, hash, reduceF);
      var g := GroupReduce(Concat(Parts(outs, upto - 1, n, hash)), reduceF);
      AddAllLists(Merged(fs, job, upto - 1), fs[MergeName(job, upto - 1)], g);
      CoversNext(Merged(fs, job, upto - 1), outs, upto - 1, n, hash, reduceF);
    }
  }

  /** Reads one intermediate file into the groups. */
  method AddRecords(groups: map<string, seq<string>>, records: seq<KeyValue>, ghost pairs: seq<KeyValue>)
    returns (kvs: map<string, seq<string>>)
    requires Grouped(groups, pairs)
    ensures Grouped(kvs, pairs + records)
  {
    kvs := groups;
    assert pairs + [] == pairs;
    for j := 0 to |records|
      invariant Grouped(kvs, pairs + records[..j])
    {
      var kv := records[j];
      GroupedSnoc(kvs, pairs + records[..j], kv);
      assert pairs + records[..j + 1] == pairs + records[..j] + [kv];
      if kv.key in kvs {
        kvs := kvs[kv.key := kvs[kv.key] + [kv.value]];
      } else {
        assert [] + [kv.value] == [kv.value];
        kvs := kvs[kv.key := [kv.value]];
      }
    }
    assert records[..|records|] == records;
  }

  /** Reduces every group, in whatever order the groups are met. */
  method WriteAll(groups: map<string, seq<string>>, reduceF: ReduceF, ghost pairs: seq<KeyValue>)
    returns (out: seq<KeyValue>)
    requires Grouped(groups, pairs)
    ensures Lists(out, GroupReduce(pairs, reduceF))
  {
    out := [];
    var rest := groups.Keys;
    ghost var g := GroupReduce(pairs, reduceF);
    while rest != {}
      invariant forall i | 0 <= i < |out| :: out[i].key in g && out[i].value == g[out[i].key] && out[i].key !in rest
      invariant rest <= groups.Keys
      invariant forall k | k in groups :: k in rest || Listed(out, k)
      invariant forall i, j | 0 <= i < j < |out| :: out[i].key != out[j].key
      decreases |rest|
    {
      var k :| k in rest;
      ghost var was := out;
      out := out + [KeyValue(k, reduceF(k, groups[k]))];
      rest := rest - {k};
      forall x | x in groups ensures x in rest || Listed(out, x) {
        ListedSnoc(out, x);
        assert out[..|out| - 1] == was;
      }
    }
  }

  /** The keys of a map, each once, in whatever order they are met. */
  method CollectKeys(kvs: map<string, string>) returns (keys: seq<string>)
    ensures forall k :: k in keys <==> k in kvs
    ensures forall i, j | 0 <= i < j < |keys| :: keys[i] != keys[j]
  {
    keys := [];
    var rest := kvs.Keys;
    while rest != {}
      invariant rest <= kvs.Keys
      invariant forall k :: k in keys <==> k in kvs && k !in rest
      invariant forall i, j | 0 <= i < j < |keys| :: keys[i] != keys[j]
      decreases |rest|
    {
      var k :| k in rest;
      assert k !in keys;
      keys := keys + [k];
      rest := rest - {k};
    }
  }

  /** Collects the keys, sorts them, and lists the map in that order. */
  method InKeyOrder(kvs: map<string, string>) returns (listing: seq<KeyValue>)
    ensures Lists(listing, kvs) && KeysAscend(listing)
  {
    var keys := CollectKeys(kvs);
    var sorted := SortedCopy(keys);
    SortedStaysDistinct(keys, sorted);
    listing := [];
    for i := 0 to |sorted|
      invariant |listing| == i
      invariant forall j | 0 <= j < i :: sorted[j] in kvs && listing[j] == KeyValue(sorted[j], kvs[sorted[j]])
    {
      assert sorted[i] in sorted;
      listing := listing + [KeyValue(sorted[i], kvs[sorted[i]])];
    }
    AllListed(kvs, sorted, listing);
  }

  lemma AllListed(kvs: map<string, string>, sorted: seq<string>, listing: seq<KeyValue>)
    requires |listing| == |sorted| && forall k :: k in sorted <==> k in kvs
    requires forall j | 0 <= j < |sorted| :: sorted[j] in kvs && listing[j] == KeyValue(sorted[j], kvs[sorted[j]])
    ensures forall k | k in kvs :: Listed(listing, k)
  {
    forall k | k in kvs ensures Listed(listing, k) {
      assert k in sorted;
      var i :| 0 <= i < |sorted| && sorted[i] == k;
      assert listing[i].key == k;
    }
  }

  function KeysInOrder(listing: seq<KeyValue>): seq<string> {
    seq(|listing|, i requires 0 <= i < |listing| => listing[i].key)
  }

  /**
   * So the merged output depends on the pairs alone: not on the hash, the number of reduce tasks or
   * the order in which Go walks its maps.
   */
  lemma OneOrderedListing(a: seq<KeyValue>, b: seq<KeyValue>, m: map<string, string>)
    requires Lists(a, m) && KeysAscend(a) && Lists(b, m) && KeysAscend(b)
    ensures a == b
  {
    var s, t := KeysInOrder(a), KeysInOrder(b);
    KeysListed(a, m);
    KeysListed(b, m);
    SameDistinct(s, t);
    AscendingUnique(s, t);
    assert |a| == |b|;
    forall i | 0 <= i < |a| ensures a[i] == b[i] {
      assert s[i] == t[i];
    }
  }

  lemma KeysListed(listing: seq<KeyValue>, m: map<string, string>)
    requires Lists(listing, m)
    ensures forall k :: k in KeysInOrder(listing) <==> k in m
  {
    var s := KeysInOrder(listing);
    forall k | k in m ensures k in s {
      assert Listed(listing, k);
      var i :| 0 <= i < |listing| && listing[i].key == k;
      assert s[i] == k;
    }
  }
}
