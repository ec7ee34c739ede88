/** The word-count job: a pair (word, "1") for every word, and the sum of the ones for every word. */
module WordCount {
  import opened MapReduce
  import opened Text
  import opened Words

  function Ones(words: seq<string>): seq<KeyValue> {
    seq(|words|, i requires 0 <= i < |words| => KeyValue(words[i], "1"))
  }

  function MapF(document: string, value: string, isLetter: Letters): seq<KeyValue> {
    Ones(Fields(value, isLetter))
  }

  method RunMapF(document: string, value: string, isLetter: Letters) returns (res: seq<KeyValue>)
    ensures res == MapF(document, value, isLetter)
  {
    var values := Fields(value, isLetter);
    res := [];
    for i := 0 to |values|
      invariant res == Ones(values)[..i]
    {
      res := res + [KeyValue(values[i], "1")];
    }
  }

  /** The sum as Go computes it, in an int that wraps. */
  function Sum(values: seq<string>): int {
    if values == [] then 0 else Wrapped(Sum(values[..|values| - 1]) + Atoi(values[|values| - 1]))
  }

  function ReduceF(key: string, values: seq<string>): string {
    ItoaInt(Sum(values))
  }

  method RunReduceF(key: string, values: seq<string>) returns (r: string)
    ensures r == ReduceF(key, values)
  {
    var cnt := 0;
    for i := 0 to |values|
      invariant cnt == Sum(values[..i])
    {
      assert values[..i + 1][..i] == values[..i];
      cnt := Wrapped(cnt + Atoi(values[i]));
    }
    assert values[..|values|] == values;
    r := ItoaInt(cnt);
  }

  // ---- What the job counts ----

  /** How often `w` stands as a whole word in the input texts. */
  function Total(inputs: seq<(string, string)>, w: string, isLetter: Letters): nat {
    if inputs == [] then 0
    else Total(inputs[..|inputs| - 1], w, isLetter) + |Places(inputs[|inputs| - 1].1, w, isLetter)|
  }

  ghost predicate AllOnes(values: seq<string>) {
    forall i | 0 <= i < |values| :: values[i] == "1"
  }

  lemma {:induction false} OnesOf(words: seq<string>, w: string)
    ensures AllOnes(ValuesOf(Ones(words), w)) && |ValuesOf(Ones(words), w)| == multiset(words)[w]
  {
    if words == [] {
    } else {
      var n := |words| - 1;
      OnesOf(words[..n], w);
      assert Ones(words)[..n] == Ones(words[..n]);
      assert words == words[..n] + [words[n]];
    }
  }

  lemma {:induction false} SumOfOnes(values: seq<string>)
    requires AllOnes(values)
    ensures Sum(values) == Wrapped(|values|)
  {
    if values != [] {
      SumOfOnes(values[..|values| - 1]);
      WrappedStep(|values| - 1);
      AtoiItoa(1);
      assert Itoa(1) == "1";
    }
  }

  lemma {:induction false} CountedOnes(inputs: seq<(string, string)>, w: string, isLetter: Letters)
    ensures var all := Concat(MapOutputs(inputs, (d, v) => MapF(d, v, isLetter)));
            AllOnes(ValuesOf(all, w)) && |ValuesOf(all, w)| == Total(inputs, w, isLetter)
  {
    var mapF := (d, v) => MapF(d, v, isLetter);
    var outs := MapOutputs(inputs, mapF);
    if inputs != [] {
      var n := |inputs| - 1;
      CountedOnes(inputs[..n], w, isLetter);
      assert outs[..n] == MapOutputs(inputs[..n], mapF);
      var words := Fields(inputs[n].1, isLetter);
      assert outs[n] == Ones(words);
      ValuesOfConcat(Concat(outs[..n]), outs[n], w);
      OnesOf(words, w);
      FieldsCountPlaces(inputs[n].1, w, isLetter);
    }
  }

  /** Each word of the inputs, and no other key, with the number of its places as an int holds it. */
  ghost predicate CountsWords(m: map<string, string>, inputs: seq<(string, string)>, isLetter: Letters) {
    forall w ::
      && (w in m <==> Total(inputs, w, isLetter) > 0)
      && (w in m ==> m[w] == ItoaInt(Wrapped(Total(inputs, w, isLetter))))
  }

  /** Any number of places below 2^63 is printed as it is. */
  lemma CountsAreExact(m: map<string, string>, inputs: seq<(string, string)>, isLetter: Letters, w: string)
    requires CountsWords(m, inputs, isLetter) && w in m
    ensures m[w] == Itoa(Total(inputs, w, isLetter)) <==> Total(inputs, w, isLetter) < INT_LIMIT
  {
    PrintedExactly(Total(inputs, w, isLetter));
  }

  lemma GroupsCountWords(inputs: seq<(string, string)>, isLetter: Letters)
    ensures var outs := MapOutputs(inputs, (d, v) => MapF(d, v, isLetter));
            CountsWords(GroupReduce(Concat(outs), ReduceF), inputs, isLetter)
  {
    var all := Concat(MapOutputs(inputs, (d, v) => MapF(d, v, isLetter)));
    forall w ensures (w in GroupReduce(all, ReduceF) <==> Total(inputs, w, isLetter) > 0)
             ensures w in GroupReduce(all, ReduceF) ==>
                       GroupReduce(all, ReduceF)[w] == ItoaInt(Wrapped(Total(inputs, w, isLetter)))
    {
      CountedOnes(inputs, w, isLetter);
      KeyHasValue(all, w);
      SumOfOnes(ValuesOf(all, w));
    }
  }

  /** What a job left in its directory is out of the way of counting these inputs. */
  ghost predicate Countable(fs: Files, inputs: seq<(string, string)>, isLetter: Letters, hash: Hash) {
    NothingStale(fs, "wcseq", MapOutputs(inputs, (d, v) => MapF(d, v, isLetter)), 3, hash)
  }

  /** The sequential program, as often as you like: every word once, in order, with its number of places. */
  method Count(j: Job, inputs: seq<(string, string)>, isLetter: Letters, hash: Hash)
    returns (listing: seq<KeyValue>, ghost m: map<string, string>)
    modifies j
    ensures KeysAscend(listing) && CountsWords(m, inputs, isLetter)
    ensures old(Countable(j.fs, inputs, isLetter, hash)) ==>
              Lists(listing, m) && Countable(j.fs, inputs, isLetter, hash)
  {
    var mapF := (d, v) => MapF(d, v, isLetter);
    listing := j.Sequential("wcseq", inputs, 3, mapF, ReduceF, hash);
    m := GroupReduce(Concat(MapOutputs(inputs, mapF)), ReduceF);
    GroupsCountWords(inputs, isLetter);
  }
}
