/** Decimal numerals, the order on strings and joining: the small library calls the jobs rely on. */
module Text {

  // ---- Numerals ----

  function Digit(d: nat): char
    requires d < 10
  {
    '0' + d as char
  }

  predicate IsDigit(c: char) {
    '0' <= c <= '9'
  }

  /** strconv.Itoa, first for numbers that are not negative. */
  function Itoa(n: nat): string {
    if n < 10 then [Digit(n)] else Itoa(n / 10) + [Digit(n % 10)]
  }

  function ItoaInt(n: int): string {
    if n < 0 then "-" + Itoa(-n) else Itoa(n)
  }

  predicate AllDigits(s: string) {
    forall i | 0 <= i < |s| :: IsDigit(s[i])
  }

  function Value(s: string): nat
    requires AllDigits(s)
  {
    if s == [] then 0 else Value(s[..|s| - 1]) * 10 + (s[|s| - 1] - '0') as nat
  }

  const INT_LIMIT: int := 0x8000_0000_0000_0000

  /** Go's int wraps at 64 bits. */
  function Wrapped(x: int): int {
    (x + INT_LIMIT) % (2 * INT_LIMIT) - INT_LIMIT
  }

  /** strconv.Atoi, with the value it returns beside an error: 0 for malformed text, the nearest int out of range. */
  function Atoi(s: string): int {
    var digits := if s != [] && (s[0] == '-' || s[0] == '+') then s[1..] else s;
    if digits == [] || !AllDigits(digits) then 0
    else
      var v: int := Value(digits);
      if s[0] == '-' then (if v > INT_LIMIT then -INT_LIMIT else -v)
      else if v >= INT_LIMIT then INT_LIMIT - 1
      else v
  }

  lemma {:induction false} ItoaDigits(n: nat)
    ensures |Itoa(n)| >= 1 && AllDigits(Itoa(n)) && Value(Itoa(n)) == n
  {
    if n < 10 {
      assert Itoa(n)[..0] == [];
    } else {
      ItoaDigits(n / 10);
      var s := Itoa(n);
      assert s[..|s| - 1] == Itoa(n / 10);
    }
  }

  function Pow10(k: nat): nat {
    if k == 0 then 1 else 10 * Pow10(k - 1)
  }

  /** Decimal notation: what stands in front of k digits counts 10^k times. */
  lemma {:induction false} ValueJoins(a: string, b: string)
    requires AllDigits(a) && AllDigits(b)
    ensures AllDigits(a + b) && Value(a + b) == Value(a) * Pow10(|b|) + Value(b)
  {
    if b == [] {
      assert a + b == a;
    } else {
      var t := b[..|b| - 1];
      ValueJoins(a, t);
      assert (a + b)[..|a + b| - 1] == a + t && (a + b)[|a + b| - 1] == b[|b| - 1];
      TenTimes(Value(a), Pow10(|t|), Value(t));
    }
  }

  lemma TenTimes(v: nat, p: nat, x: nat)
    ensures (v * p + x) * 10 == v * (10 * p) + x * 10
  {}

  /** Numerals have no leading zero. */
  lemma {:induction false} ItoaCanonical(n: nat)
    ensures |Itoa(n)| >= 1 && (Itoa(n)[0] == '0' <==> n == 0) && (n == 0 ==> Itoa(n) == "0")
  {
    if n >= 10 {
      ItoaCanonical(n / 10);
    }
  }

  /** Printing and reading an int gives it back. */
  lemma AtoiItoa(n: nat)
    requires n < INT_LIMIT
    ensures Atoi(Itoa(n)) == n
  {
    ItoaDigits(n);
    assert IsDigit(Itoa(n)[0]);
  }

  lemma ItoaInjective(m: nat, n: nat)
    requires Itoa(m) == Itoa(n)
    ensures m == n
  {
    ItoaDigits(m);
    ItoaDigits(n);
  }

  lemma WrappedStep(x: int)
    ensures Wrapped(Wrapped(x) + 1) == Wrapped(x + 1)
  {
    var m := 2 * INT_LIMIT;
    var q, r := (x + INT_LIMIT) / m, (x + INT_LIMIT) % m;
    assert x + INT_LIMIT == q * m + r;
    if r + 1 < m {
      assert (q * m + r + 1) % m == r + 1;
    } else {
      assert q * m + r + 1 == (q + 1) * m;
      assert ((q + 1) * m) % m == 0;
    }
  }

  lemma WrappedRange(t: nat)
    ensures Wrapped(t) == t <==> t < INT_LIMIT
    ensures -INT_LIMIT <= Wrapped(t) < INT_LIMIT
  {}

  /** A count is printed as it is exactly below 2^63. */
  lemma PrintedExactly(t: nat)
    ensures ItoaInt(Wrapped(t)) == Itoa(t) <==> t < INT_LIMIT
  {
    WrappedRange(t);
    var v := Wrapped(t);
    if v < 0 {
      ItoaDigits(t);
      assert IsDigit(Itoa(t)[0]) && ItoaInt(v)[0] == '-';
    } else if Itoa(v) == Itoa(t) {
      ItoaInjective(v, t);
    }
  }

  // ---- The order on strings ----

  predicate LexLe(a: string, b: string) {
    a == [] || (b != [] && (a[0] < b[0] || (a[0] == b[0] && LexLe(a[1..], b[1..]))))
  }

  /** The first place at which two strings differ. */
  ghost predicate DifferAt(a: string, b: string, i: nat) {
    i < |a| && i < |b| && a[..i] == b[..i] && a[i] != b[i]
  }

  /** Dictionary order: a prefix comes first, and otherwise the first difference decides. */
  lemma {:induction false} LexLeIff(a: string, b: string)
    ensures LexLe(a, b) <==> a <= b || exists i: nat :: DifferAt(a, b, i) && a[i] < b[i]
  {
    if a != [] && b != [] {
      if a[0] == b[0] {
        LexLeIff(a[1..], b[1..]);
        assert a == [a[0]] + a[1..] && b == [b[0]] + b[1..];
        assert a <= b <==> a[1..] <= b[1..];
        if i: nat :| DifferAt(a[1..], b[1..], i) && a[1..][i] < b[1..][i] {
          assert a[..i + 1] == [a[0]] + a[1..][..i] && b[..i + 1] == [b[0]] + b[1..][..i];
          assert DifferAt(a, b, i + 1);
        }
        if i: nat :| DifferAt(a, b, i) && a[i] < b[i] {
          assert i > 0 && a[1..][..i - 1] == a[..i][1..] && b[1..][..i - 1] == b[..i][1..];
          assert DifferAt(a[1..], b[1..], i - 1);
        }
      } else {
        assert DifferAt(a, b, 0);
        forall i: nat | DifferAt(a, b, i) ensures i == 0 {}
      }
    }
  }

  lemma {:induction false} LexTotal(a: string, b: string)
    ensures LexLe(a, b) || LexLe(b, a)
  {
    if a != [] && b != [] && a[0] == b[0] {
      LexTotal(a[1..], b[1..]);
    }
  }

  lemma {:induction false} LexAntisymmetric(a: string, b: string)
    requires LexLe(a, b) && LexLe(b, a)
    ensures a == b
  {
    if a != [] && b != [] {
      LexAntisymmetric(a[1..], b[1..]);
      assert a == [a[0]] + a[1..] && b == [b[0]] + b[1..];
    }
  }

  lemma {:induction false} LexTransitive(a: string, b: string, c: string)
    requires LexLe(a, b) && LexLe(b, c)
    ensures LexLe(a, c)
  {
    if a != [] && b != [] && c != [] && a[0] == b[0] == c[0] {
      LexTransitive(a[1..], b[1..], c[1..]);
    }
  }

  ghost predicate Ascending(s: seq<string>) {
    forall i, j | 0 <= i < j < |s| :: LexLe(s[i], s[j])
  }

  // ---- sort.Strings ----

  function InsertString(x: string, s: seq<string>): seq<string> {
    if s == [] || LexLe(x, s[0]) then [x] + s else [s[0]] + InsertString(x, s[1..])
  }

  function SortStrings(s: seq<string>): seq<string> {
    if s == [] then [] else InsertString(s[0], SortStrings(s[1..]))
  }

  lemma {:induction false} InsertStringKeeps(x: string, s: seq<string>)
    ensures multiset(InsertString(x, s)) == multiset{x} + multiset(s)
  {
    if s != [] && !LexLe(x, s[0]) {
      InsertStringKeeps(x, s[1..]);
      assert s == [s[0]] + s[1..];
    }
  }

  lemma {:induction false} InsertStringOk(x: string, s: seq<string>)
    requires Ascending(s)
    ensures Ascending(InsertString(x, s))
  {
    if s == [] {
    } else if LexLe(x, s[0]) {
      forall j | 0 <= j < |s| ensures LexLe(x, s[j]) {
        if j > 0 { LexTransitive(x, s[0], s[j]); }
      }
    } else {
      LexTotal(x, s[0]);
      InsertStringOk(x, s[1..]);
      InsertStringAbove(x, s[1..], s[0]);
    }
  }

  lemma {:induction false} InsertStringAbove(x: string, s: seq<string>, low: string)
    requires LexLe(low, x) && forall i | 0 <= i < |s| :: LexLe(low, s[i])
    ensures forall i | 0 <= i < |InsertString(x, s)| :: LexLe(low, InsertString(x, s)[i])
  {
    if s != [] && !LexLe(x, s[0]) {
      InsertStringAbove(x, s[1..], low);
    }
  }

  lemma {:induction false} SortStringsOk(s: seq<string>)
    ensures Ascending(SortStrings(s)) && multiset(SortStrings(s)) == multiset(s)
    ensures |SortStrings(s)| == |s|
  {
    if s != [] {
      SortStringsOk(s[1..]);
      InsertStringOk(s[0], SortStrings(s[1..]));
      InsertStringKeeps(s[0], SortStrings(s[1..]));
      assert s == [s[0]] + s[1..];
    }
    assert |multiset(SortStrings(s))| == |multiset(s)|;
  }

  /** Sorting in a loop: each string in turn goes in before the first that is not below it. */
  method SortedCopy(s: seq<string>) returns (r: seq<string>)
    ensures r == SortStrings(s)
  {
    r := [];
    for i := |s| downto 0
      invariant r == SortStrings(s[i..])
    {
      var p := 0;
      while p < |r| && !LexLe(s[i], r[p])
        invariant 0 <= p <= |r| && forall k | 0 <= k < p :: !LexLe(s[i], r[k])
      {
        p := p + 1;
      }
      InsertedAt(s[i], r, p);
      assert s[i..][1..] == s[i + 1..];
      r := r[..p] + [s[i]] + r[p..];
    }
    assert s[0..] == s;
  }

  lemma {:induction false} InsertedAt(x: string, s: seq<string>, p: nat)
    requires p <= |s| && (forall k | 0 <= k < p :: !LexLe(x, s[k])) && (p < |s| ==> LexLe(x, s[p]))
    ensures InsertString(x, s) == s[..p] + [x] + s[p..]
  {
    if p > 0 {
      InsertedAt(x, s[1..], p - 1);
      assert s[..p] == [s[0]] + s[1..][..p - 1];
      assert s[p..] == s[1..][p - 1..];
    }
  }

  /** Distinct strings come out strictly ascending, so a set has one sorted listing. */
  lemma {:induction false} AscendingUnique(a: seq<string>, b: seq<string>)
    requires Ascending(a) && Ascending(b) && multiset(a) == multiset(b)
    ensures a == b
  {
    if a == [] {
      assert |multiset(b)| == 0;
    } else {
      assert a[0] in multiset(b);
      assert b != [];
      HeadIsLeast(a, b);
      HeadIsLeast(b, a);
      LexAntisymmetric(a[0], b[0]);
      TailOf(a);
      TailOf(b);
      AscendingUnique(a[1..], b[1..]);
    }
  }

  lemma TailOf(s: seq<string>)
    requires s != []
    ensures s == [s[0]] + s[1..] && multiset(s[1..]) == multiset(s) - multiset{s[0]}
  {
    assert s == [s[0]] + s[1..];
  }

  lemma HeadIsLeast(a: seq<string>, b: seq<string>)
    requires Ascending(a) && |a| >= 1 && |b| >= 1 && multiset(a) == multiset(b)
    ensures LexLe(a[0], b[0])
  {
    assert b[0] in multiset(b);
    assert b[0] in a;
    var i :| 0 <= i < |a| && a[i] == b[0];
    if i == 0 {
      LexTotal(a[0], a[0]);
    }
  }

  /** Sorting keeps what is in the sequence, and keeps it distinct. */
  lemma SortedStaysDistinct(s: seq<string>, r: seq<string>)
    requires r == SortStrings(s) && forall i, j | 0 <= i < j < |s| :: s[i] != s[j]
    ensures forall x :: x in r <==> x in s
    ensures forall i, j | 0 <= i < j < |r| :: LexLe(r[i], r[j]) && r[i] != r[j]
  {
    SortStringsOk(s);
    forall x ensures x in r <==> x in s {
      assert x in multiset(r) <==> x in multiset(s);
    }
    forall i, j | 0 <= i < j < |r| ensures r[i] != r[j] {
      DistinctCounts(s, r[i]);
      if r[i] == r[j] {
        CountsTwice(r, i, j);
        assert false;
      }
    }
  }

  lemma {:induction false} DistinctCounts(s: seq<string>, x: string)
    requires forall i, j | 0 <= i < j < |s| :: s[i] != s[j]
    ensures multiset(s)[x] <= 1
  {
    if s != [] {
      DistinctCounts(s[1..], x);
      assert s == [s[0]] + s[1..];
      assert multiset(s[1..])[x] > 0 ==> x in s[1..];
    }
  }

  lemma SameDistinct(s: seq<string>, t: seq<string>)
    requires forall i, j | 0 <= i < j < |s| :: s[i] != s[j]
    requires forall i, j | 0 <= i < j < |t| :: t[i] != t[j]
    requires forall x :: x in s <==> x in t
    ensures multiset(s) == multiset(t)
  {
    forall x ensures multiset(s)[x] == multiset(t)[x] {
      DistinctCounts(s, x);
      DistinctCounts(t, x);
      assert x in multiset(s) <==> x in s;
      assert x in multiset(t) <==> x in t;
    }
  }

  lemma CountsTwice(s: seq<string>, i: nat, j: nat)
    requires i < j < |s| && s[i] == s[j]
    ensures multiset(s)[s[i]] >= 2
  {
    assert s == s[..j] + [s[j]] + s[j + 1..];
    assert s[..j][i] == s[i];
    assert s[i] in multiset(s[..j]);
  }

  // ---- Joining ----

  function Join(s: seq<string>, sep: string): string {
    if s == [] then [] else if |s| == 1 then s[0] else Join(s[..|s| - 1], sep) + sep + s[|s| - 1]
  }

  ghost predicate NoComma(s: string) {
    forall i | 0 <= i < |s| :: s[i] != ','
  }

  /** Reading a list back: cut at every comma. */
  function Split(s: string): seq<string>
    decreases |s|
  {
    if s == [] then [""]
    else
      var rest := Split(s[..|s| - 1]);
      var c := s[|s| - 1];
      if c == ',' then rest + [""]
      else if rest == [] then [[c]]
      else rest[..|rest| - 1] + [rest[|rest| - 1] + [c]]
  }

  lemma {:induction false} SplitWord(s: string, w: string)
    requires NoComma(w)
    ensures Split(s + "," + w) == Split(s) + [w]
  {
    var t := s + "," + w;
    if w == [] {
      assert t == s + "," && t[..|t| - 1] == s;
    } else {
      var v := w[..|w| - 1];
      SplitWord(s, v);
      assert t[..|t| - 1] == s + "," + v && t[|t| - 1] == w[|w| - 1];
      assert w == v + [w[|w| - 1]];
      assert (Split(s) + [v])[..|Split(s)|] == Split(s);
    }
  }

  lemma {:induction false} SplitOne(w: string)
    requires NoComma(w)
    ensures Split(w) == [w]
  {
    if w != [] {
      SplitOne(w[..|w| - 1]);
      assert w == w[..|w| - 1] + [w[|w| - 1]];
    }
  }

  /** Names without commas can be read back from their list. */
  lemma {:induction false} SplitJoin(names: seq<string>)
    requires names != [] && forall i | 0 <= i < |names| :: NoComma(names[i])
    ensures Split(Join(names, ",")) == names
  {
    if |names| == 1 {
      SplitOne(names[0]);
      assert names == [names[0]];
    } else {
      var n := |names| - 1;
      var front := names[..n];
      assert forall i | 0 <= i < |front| :: front[i] == names[i];
      SplitJoin(front);
      SplitWord(Join(front, ","), names[n]);
      assert Join(names, ",") == Join(front, ",") + "," + names[n];
      assert names == front + [names[n]];
    }
  }
}
