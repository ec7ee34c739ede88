/** The inverted-index job: for every word, how many documents hold it and which, in order. */
module InvertedIndex {
  import opened MapReduce
  import opened Text
  import opened Words

  // ---- The map side ----

  /** First occurrences, in order. */
  function Unique(s: seq<string>): seq<string> {
    if s == [] then []
    else
      var rest := Unique(s[..|s| - 1]);
      if s[|s| - 1] in rest then rest else rest + [s[|s| - 1]]
  }

  lemma {:induction false} UniqueOk(s: seq<string>)
    ensures forall x :: x in Unique(s) <==> x in s
    ensures forall i, j | 0 <= i < j < |Unique(s)| :: Unique(s)[i] != Unique(s)[j]
  {
    if s != [] {
      UniqueOk(s[..|s| - 1]);
      assert s == s[..|s| - 1] + [s[|s| - 1]];
    }
  }

  /** What is kept of a beginning stays in front, so first occurrences are kept, in order. */
  lemma {:induction false} UniqueKeepsOrder(s: seq<string>, k: nat)
    requires k <= |s|
    ensures Unique(s[..k]) <= Unique(s)
  {
    if k == |s| {
      assert s[..k] == s;
    } else {
      UniqueKeepsOrder(s[..|s| - 1], k);
      assert s[..|s| - 1][..k] == s[..k];
    }
  }

  method SliceUnique(slice: seq<string>) returns (unique: seq<string>)
    ensures unique == Unique(slice)
  {
    var seen: map<string, bool> := map[];
    unique := [];
    for i := 0 to |slice|
      invariant unique == Unique(slice[..i]) && forall x :: x in seen <==> x in unique
    {
      assert slice[..i + 1][..i] == slice[..i];
      if slice[i] !in seen {
        seen := seen[slice[i] := true];
        unique := unique + [slice[i]];
      }
    }
    assert slice[..|slice|] == slice;
  }

  function Tagged(words: seq<string>, document: string): seq<KeyValue> {
    seq(|words|, i requires 0 <= i < |words| => KeyValue(words[i], document))
  }

  function MapF(document: string, value: string, isLetter: Letters): seq<KeyValue> {
    Tagged(Unique(Fields(value, isLetter)), document)
  }

  method RunMapF(document: string, value: string, isLetter: Letters) returns (res: seq<KeyValue>)
    ensures res == MapF(document, value, isLetter)
  {
    var unique := SliceUnique(Fields(value, isLetter));
    res := [];
    for i := 0 to |unique|
      invariant res == Tagged(unique, document)[..i]
    {
      res := res + [KeyValue(unique[i], document)];
    }
  }

  // ---- The reduce side ----

  function ReduceF(key: string, values: seq<string>): string {
    Itoa(|values|) + " " + Join(SortStrings(values), ",")
  }

  method RunReduceF(key: string, values: seq<string>) returns (r: string)
    ensures r == ReduceF(key, values)
  {
    var sorted := SortedCopy(values);
    SortStringsOk(values);
    var buffer := "";
    for i := 0 to |sorted|
      invariant buffer == Join(sorted[..i], ",") + if 0 < i < |sorted| then "," else ""
    {
      ghost var was := sorted[..i];
      assert sorted[..i + 1][..i] == was;
      buffer := buffer + sorted[i];
      assert buffer == Join(sorted[..i + 1], ",");
      if i != |sorted| - 1 {
        buffer := buffer + ",";
      }
    }
    assert sorted[..|sorted|] == sorted;
    r := Itoa(|sorted|) + " " + buffer;
  }

  // ---- What the job lists ----

  /** The documents that hold `w` as a whole word, in input order. */
  function Holding(inputs: seq<(string, string)>, w: string, isLetter: Letters): seq<string> {
    if inputs == [] then []
    else
      var last := inputs[|inputs| - 1];
      Holding(inputs[..|inputs| - 1], w, isLetter) + if Places(last.1, w, isLetter) != {} then [last.0] else []
  }

  lemma {:induction false} OneTag(words: seq<string>, document: string, w: string)
    requires forall i, j | 0 <= i < j < |words| :: words[i] != words[j]
    ensures ValuesOf(Tagged(words, document), w) == if w in words then [document] else []
  {
    if words != [] {
      var n := |words| - 1;
      OneTag(words[..n], document, w);
      assert Tagged(words, document)[..n] == Tagged(words[..n], document);
      assert words == words[..n] + [words[n]];
    }
  }

  lemma TagIffHeld(document: string, value: string, isLetter: Letters, w: string)
    ensures ValuesOf(MapF(document, value, isLetter), w) == if Places(value, w, isLetter) != {} then [document] else []
  {
    var words := Fields(value, isLetter);
    UniqueOk(words);
    OneTag(Unique(words), document, w);
    FieldsCountPlaces(value, w, isLetter);
    assert w in words <==> w in multiset(words);
  }

  lemma {:induction false} GatheredDocuments(inputs: seq<(string, string)>, isLetter: Letters, w: string)
    ensures ValuesOf(Concat(MapOutputs(inputs, (d, v) => MapF(d, v, isLetter))), w) == Holding(inputs, w, isLetter)
  {
    var mapF := (d, v) => MapF(d, v, isLetter);
    var outs := MapOutputs(inputs, mapF);
    if inputs != [] {
      var n := |inputs| - 1;
      GatheredDocuments(inputs[..n], isLetter, w);
      assert outs[..n] == MapOutputs(inputs[..n], mapF);
      assert outs[n] == MapF(inputs[n].0, inputs[n].1, isLetter);
      TagIffHeld(inputs[n].0, inputs[n].1, isLetter, w);
      ValuesOfConcat(Concat(outs[..n]), outs[n], w);
    }
  }

  /** A count and the names, with commas between. */
  function Line(docs: seq<string>): string {
    Itoa(|docs|) + " " + Join(docs, ",")
  }

  /** A line tells its documents, as long as no name has a comma in it. */
  lemma LineTellsDocuments(docs: seq<string>, others: seq<string>)
    requires docs != [] && others != [] && Line(docs) == Line(others)
    requires forall i | 0 <= i < |docs| :: NoComma(docs[i])
    requires forall i | 0 <= i < |others| :: NoComma(others[i])
    ensures docs == others
  {
    var a, b, x, y := Itoa(|docs|), Join(docs, ","), Itoa(|others|), Join(others, ",");
    ItoaDigits(|docs|);
    ItoaDigits(|others|);
    var s, t := Line(docs), Line(others);
    assert s[|a|] == ' ' && t[|x|] == ' ';
    assert forall i | 0 <= i < |a| :: s[i] == a[i];
    assert forall i | 0 <= i < |x| :: t[i] == x[i];
    assert |a| == |x|;
    assert s[|a| + 1..] == b && t[|x| + 1..] == y;
    SplitJoin(docs);
    SplitJoin(others);
  }

  /** `docs` is the ascending list of the documents that hold `w`; with distinct names, each once. */
  ghost predicate IndexLine(docs: seq<string>, inputs: seq<(string, string)>, w: string, isLetter: Letters) {
    Ascending(docs) && multiset(docs) == multiset(Holding(inputs, w, isLetter))
  }

  /** Each word of the inputs, and no other key, with the count and the ascending list of its documents. */
  ghost predicate Indexes(m: map<string, string>, inputs: seq<(string, string)>, isLetter: Letters) {
    forall w :: (w in m <==> Holding(inputs, w, isLetter) != []) &&
                (w in m ==> exists docs :: IndexLine(docs, inputs, w, isLetter) && m[w] == Line(docs))
  }

  lemma GroupsIndex(inputs: seq<(string, string)>, isLetter: Letters)
    ensures Indexes(GroupReduce(Concat(MapOutputs(inputs, (d, v) => MapF(d, v, isLetter))), ReduceF), inputs, isLetter)
  {
    var all := Concat(MapOutputs(inputs, (d, v) => MapF(d, v, isLetter)));
    var m := GroupReduce(all, ReduceF);
    forall w ensures w in m <==> Holding(inputs, w, isLetter) != []
             ensures w in m ==> exists docs :: IndexLine(docs, inputs, w, isLetter) && m[w] == Line(docs)
    {
      GatheredDocuments(inputs, isLetter, w);
      KeyHasValue(all, w);
      var docs := SortStrings(ValuesOf(all, w));
      SortStringsOk(ValuesOf(all, w));
      assert IndexLine(docs, inputs, w, isLetter);
    }
  }

  ghost predicate Distinct(names: seq<string>) {
    forall i, j | 0 <= i < j < |names| :: names[i] != names[j]
  }

  ghost predicate Named(inputs: seq<(string, string)>, d: string) {
    exists i :: 0 <= i < |inputs| && inputs[i].0 == d
  }

  lemma {:induction false} HoldingIsNamed(inputs: seq<(string, string)>, w: string, isLetter: Letters)
    ensures forall d | d in Holding(inputs, w, isLetter) :: Named(inputs, d)
  {
    if inputs != [] {
      var n := |inputs| - 1;
      HoldingIsNamed(inputs[..n], w, isLetter);
      forall d | d in Holding(inputs, w, isLetter) ensures Named(inputs, d) {
        if d in Holding(inputs[..n], w, isLetter) {
          assert Named(inputs[..n], d);
          var i :| 0 <= i < n && inputs[..n][i].0 == d;
          assert inputs[i].0 == d;
        } else {
          assert inputs[n].0 == d;
        }
      }
    }
  }

  lemma LastIsNew(inputs: seq<(string, string)>, w: string, isLetter: Letters)
    requires inputs != [] && forall i, j | 0 <= i < j < |inputs| :: inputs[i].0 != inputs[j].0
    ensures inputs[|inputs| - 1].0 !in Holding(inputs[..|inputs| - 1], w, isLetter)
  {
    var n := |inputs| - 1;
    HoldingIsNamed(inputs[..n], w, isLetter);
    assert !Named(inputs[..n], inputs[n].0);
  }

  lemma {:induction false} HoldingDistinct(inputs: seq<(string, string)>, w: string, isLetter: Letters)
    requires forall i, j | 0 <= i < j < |inputs| :: inputs[i].0 != inputs[j].0
    ensures Distinct(Holding(inputs, w, isLetter))
  {
    if inputs != [] {
      var n := |inputs| - 1;
      HoldingDistinct(inputs[..n], w, isLetter);
      LastIsNew(inputs, w, isLetter);
      var rest := Holding(inputs[..n], w, isLetter);
      assert Distinct(rest + [inputs[n].0]);
    }
  }

  lemma {:induction false} HoldingMembers(inputs: seq<(string, string)>, w: string, isLetter: Letters, i: nat)
    requires forall i, j | 0 <= i < j < |inputs| :: inputs[i].0 != inputs[j].0
    requires i < |inputs|
    ensures inputs[i].0 in Holding(inputs, w, isLetter) <==> Places(inputs[i].1, w, isLetter) != {}
  {
    var n := |inputs| - 1;
    if i < n {
      HoldingMembers(inputs[..n], w, isLetter, i);
    } else {
      LastIsNew(inputs, w, isLetter);
    }
  }

  /** With distinct document names a line names each document at most once, and exactly those that hold the word. */
  lemma HoldingIsExact(inputs: seq<(string, string)>, w: string, isLetter: Letters)
    requires forall i, j | 0 <= i < j < |inputs| :: inputs[i].0 != inputs[j].0
    ensures forall i | 0 <= i < |inputs| ::
              inputs[i].0 in Holding(inputs, w, isLetter) <==> Places(inputs[i].1, w, isLetter) != {}
    ensures Distinct(Holding(inputs, w, isLetter))
  {
    HoldingDistinct(inputs, w, isLetter);
    forall i | 0 <= i < |inputs|
      ensures inputs[i].0 in Holding(inputs, w, isLetter) <==> Places(inputs[i].1, w, isLetter) != {}
    {
      HoldingMembers(inputs, w, isLetter, i);
    }
  }

  /** What a job left in its directory is out of the way of indexing these inputs. */
  ghost predicate Indexable(fs: Files, inputs: seq<(string, string)>, isLetter: Letters, hash: Hash) {
    NothingStale(fs, "iiseq", MapOutputs(inputs, (d, v) => MapF(d, v, isLetter)), 3, hash)
  }

  /** The sequential program, as often as you like: every word once, in order, with its documents. */
  method Index(j: Job, inputs: seq<(string, string)>, isLetter: Letters, hash: Hash)
    returns (listing: seq<KeyValue>, ghost m: map<string, string>)
    modifies j
    ensures KeysAscend(listing) && Indexes(m, inputs, isLetter)
    ensures old(Indexable(j.fs, inputs, isLetter, hash)) ==>
              Lists(listing, m) && Indexable(j.fs, inputs, isLetter, hash)
  {
    var mapF := (d, v) => MapF(d, v, isLetter);
    listing := j.Sequential("iiseq", inputs, 3, mapF, ReduceF, hash);
    m := GroupReduce(Concat(MapOutputs(inputs, mapF)), ReduceF);
    GroupsIndex(inputs, isLetter);
  }
}
