/** Splitting a text into words: the maximal runs of letters, in order. */
module Words {
  type Letters = char -> bool

  function RunLength(s: string, isLetter: Letters): (n: nat)
    ensures n <= |s| && (forall i | 0 <= i < n :: isLetter(s[i])) && (n < |s| ==> !isLetter(s[n]))
  {
    if s == [] || !isLetter(s[0]) then 0 else 1 + RunLength(s[1..], isLetter)
  }

  function Fields(s: string, isLetter: Letters): seq<string> {
    if s == [] then []
    else if !isLetter(s[0]) then Fields(s[1..], isLetter)
    else
      var n := RunLength(s, isLetter);
      [s[..n]] + Fields(s[n..], isLetter)
  }

  /** A whole word stands at position i: letters all through, and no letter on either side. */
  predicate WordAt(s: string, i: nat, w: string, isLetter: Letters) {
    && w != [] && i + |w| <= |s| && s[i..i + |w|] == w
    && (forall j | 0 <= j < |w| :: isLetter(w[j]))
    && (i == 0 || !isLetter(s[i - 1]))
    && (i + |w| == |s| || !isLetter(s[i + |w|]))
  }

  function Places(s: string, w: string, isLetter: Letters): set<nat> {
    set i: nat | i < |s| && WordAt(s, i, w, isLetter)
  }

  function Shifted(places: set<nat>, n: nat): set<nat> {
    set i | i in places :: i + n
  }

  lemma {:induction false} ShiftedSize(places: set<nat>, n: nat)
    ensures |Shifted(places, n)| == |places|
  {
    if places != {} {
      var i :| i in places;
      ShiftedSize(places - {i}, n);
      forall x | x in Shifted(places, n) ensures x in Shifted(places - {i}, n) + {i + n} {
        var j :| j in places && x == j + n;
        assert j == i || j in places - {i};
      }
      assert Shifted(places, n) == Shifted(places - {i}, n) + {i + n};
    }
  }

  /** A word stands at the same letters of a suffix, where the cut does not make a new word start. */
  lemma SuffixWord(s: string, n: nat, i: nat, w: string, isLetter: Letters)
    requires 1 <= n && n + i < |s|
    requires i > 0 || !isLetter(s[n]) || !isLetter(s[n - 1])
    ensures WordAt(s, i + n, w, isLetter) <==> WordAt(s[n..], i, w, isLetter)
  {
    var t := s[n..];
    if w != [] && i + n + |w| <= |s| {
      assert s[i + n..i + n + |w|] == t[i..i + |w|];
      assert t[i..i + |w|][0] == s[i + n];
    }
  }

  lemma SkipPlaces(s: string, w: string, isLetter: Letters)
    requires s != [] && !isLetter(s[0])
    ensures Places(s, w, isLetter) == Shifted(Places(s[1..], w, isLetter), 1)
  {
    forall i: nat | i < |s| - 1 ensures WordAt(s, i + 1, w, isLetter) <==> WordAt(s[1..], i, w, isLetter) {
      SuffixWord(s, 1, i, w, isLetter);
    }
    assert !WordAt(s, 0, w, isLetter) by {
      if w != [] && |w| <= |s| { assert s[0..|w|][0] == s[0]; }
    }
    forall i | i in Places(s, w, isLetter) ensures i in Shifted(Places(s[1..], w, isLetter), 1) {
      assert i - 1 in Places(s[1..], w, isLetter);
    }
  }

  lemma RunAtStart(s: string, w: string, isLetter: Letters)
    requires s != [] && isLetter(s[0])
    ensures WordAt(s, 0, w, isLetter) <==> w == s[..RunLength(s, isLetter)]
  {
    var n := RunLength(s, isLetter);
    if WordAt(s, 0, w, isLetter) {
      assert forall j | 0 <= j < |w| :: s[0..|w|][j] == s[j];
      assert |w| == n;
      assert s[0..|w|] == s[..n];
    }
    if w == s[..n] {
      assert s[0..|w|] == w;
    }
  }

  lemma NoWordInsideRun(s: string, w: string, isLetter: Letters, i: nat)
    requires s != [] && isLetter(s[0]) && 0 < i <= RunLength(s, isLetter)
    ensures !WordAt(s, i, w, isLetter)
  {
  }

  /** Beyond its first run, a text has its words where the rest has them. */
  lemma PlacesAfterRun(s: string, w: string, isLetter: Letters, i: nat)
    requires s != [] && isLetter(s[0]) && i > 0
    ensures var n := RunLength(s, isLetter);
            i in Places(s, w, isLetter) <==> i in Shifted(Places(s[n..], w, isLetter), n)
  {
    var n := RunLength(s, isLetter);
    if i <= n {
      NoWordInsideRun(s, w, isLetter, i);
      if n < |s| {
        SuffixWord(s, n, 0, w, isLetter);
        NoWordInsideRun(s, w, isLetter, n);
      }
    } else if i < |s| {
      SuffixWord(s, n, i - n, w, isLetter);
      assert i - n in Places(s[n..], w, isLetter) <==> i in Places(s, w, isLetter);
    }
  }

  lemma RunPlaces(s: string, w: string, isLetter: Letters)
    requires s != [] && isLetter(s[0])
    ensures var n := RunLength(s, isLetter);
            var tail := Shifted(Places(s[n..], w, isLetter), n);
            0 !in tail && Places(s, w, isLetter) == (if s[..n] == w then {0} else {}) + tail
  {
    var n := RunLength(s, isLetter);
    var tail := Shifted(Places(s[n..], w, isLetter), n);
    RunAtStart(s, w, isLetter);
    forall i: nat | i > 0 ensures i in Places(s, w, isLetter) <==> i in tail {
      PlacesAfterRun(s, w, isLetter, i);
    }
  }

  /** Splitting finds every whole word exactly as often as it stands in the text. */
  lemma {:induction false} FieldsCountPlaces(s: string, w: string, isLetter: Letters)
    ensures multiset(Fields(s, isLetter))[w] == |Places(s, w, isLetter)|
    decreases |s|
  {
    if s == [] {
      assert Places(s, w, isLetter) == {};
    } else if !isLetter(s[0]) {
      FieldsCountPlaces(s[1..], w, isLetter);
      SkipPlaces(s, w, isLetter);
      ShiftedSize(Places(s[1..], w, isLetter), 1);
    } else {
      var n := RunLength(s, isLetter);
      FieldsCountPlaces(s[n..], w, isLetter);
      RunPlaces(s, w, isLetter);
      ShiftedSize(Places(s[n..], w, isLetter), n);
      assert multiset([s[..n]] + Fields(s[n..], isLetter)) == multiset{s[..n]} + multiset(Fields(s[n..], isLetter));
    }
  }
}
