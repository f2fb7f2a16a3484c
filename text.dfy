/**
 * The pieces of Go's `strings` package that the transform relies on, specialised
 * to a one-character separator: `Index`, `SplitN` (for n > 0), `Split` and `Join`.
 */
module Text {

  /** Number of occurrences of `c` in `s`. */
  function Count(s: string, c: char): nat {
    multiset(s)[c]
  }

  /** `strings.Index(s, string(c))`, with `|s|` standing for Go's -1. */
  function IndexOf(s: string, c: char): (i: nat)
    ensures i <= |s|
    ensures i < |s| ==> s[i] == c
    ensures forall j | 0 <= j < i :: s[j] != c
  {
    IndexFrom(s, c, 0)
  }

  /** The first index at or after k holding `c`, or |s|. */
  function IndexFrom(s: string, c: char, k: nat): (i: nat)
    requires k <= |s|
    ensures k <= i <= |s|
    ensures i < |s| ==> s[i] == c
    ensures forall j | k <= j < i :: s[j] != c
    decreases |s| - k
  {
    if k == |s| then k
    else if s[k] == c then k
    else IndexFrom(s, c, k + 1)
  }

  /** The index is short of the end exactly when `c` occurs. */
  lemma IndexOfFound(s: string, c: char)
    ensures IndexOf(s, c) < |s| <==> c in s
  {
  }

  /** The text before the first `c` (all of `s` when there is none). */
  function BeforeFirst(s: string, c: char): (r: string)
    ensures c !in r
    ensures r <= s
    ensures c in s ==> s[|r|] == c
  {
    IndexOfFound(s, c);
    s[..IndexOf(s, c)]
  }

  /** `strings.SplitN(s, string(c), n)` for n > 0: at most n parts, the last one unsplit. */
  function SplitN(s: string, c: char, n: nat): (parts: seq<string>)
    requires n > 0
    decreases n
  {
    var i := IndexOf(s, c);
    if n == 1 || i == |s| then [s]
    else [s[..i]] + SplitN(s[i + 1..], c, n - 1)
  }

  /** `strings.Split(s, string(c))`: every separator splits. */
  function Split(s: string, c: char): (parts: seq<string>)
    decreases |s|
  {
    var i := IndexOf(s, c);
    if i == |s| then [s]
    else [s[..i]] + Split(s[i + 1..], c)
  }

  /** `strings.Join(parts, string(c))`. */
  function Join(parts: seq<string>, c: char): string {
    if |parts| == 0 then ""
    else if |parts| == 1 then parts[0]
    else parts[0] + [c] + Join(parts[1..], c)
  }

  function Min(a: nat, b: nat): nat {
    if a <= b then a else b
  }

  /** Split at a first separator: the text before it, then the parts of the rest. */
  lemma SplitCons(s: string, c: char)
    requires IndexOf(s, c) < |s|
    ensures Split(s, c) == [s[..IndexOf(s, c)]] + Split(s[IndexOf(s, c) + 1..], c)
  {
  }

  /** SplitN with room for more than one part, at a first separator. */
  lemma SplitNCons(s: string, c: char, n: nat)
    requires n > 1 && IndexOf(s, c) < |s|
    ensures SplitN(s, c, n) == [s[..IndexOf(s, c)]] + SplitN(s[IndexOf(s, c) + 1..], c, n - 1)
  {
  }

  /** Split without a separator: the string itself. */
  lemma SplitWhole(s: string, c: char)
    requires IndexOf(s, c) == |s|
    ensures Split(s, c) == [s]
  {
  }

  /** SplitN with room for one part only, or without a separator: the string itself. */
  lemma SplitNWhole(s: string, c: char, n: nat)
    requires n == 1 || (n > 1 && IndexOf(s, c) == |s|)
    ensures SplitN(s, c, n) == [s]
  {
  }

  /** A string without `c` counts none. */
  lemma CountAbsent(s: string, c: char)
    requires c !in s
    ensures Count(s, c) == 0
  {
    assert c !in multiset(s);
  }

  /** Cutting `s` at its first `c` removes exactly one occurrence of `c`. */
  lemma CountAtFirst(s: string, c: char)
    requires IndexOf(s, c) < |s|
    ensures Count(s, c) == 1 + Count(s[IndexOf(s, c) + 1..], c)
  {
    var i := IndexOf(s, c);
    var before, after := s[..i], s[i + 1..];
    assert s == before + [c] + after;
    assert c !in before by {
      forall j | 0 <= j < |before| ensures before[j] != c {
        assert before[j] == s[j];
      }
    }
    CountAbsent(before, c);
    assert multiset(s) == multiset(before) + multiset([c]) + multiset(after);
  }

  /** SplitN yields one part per separator, plus one, capped at n. */
  lemma {:induction false} SplitNLength(s: string, c: char, n: nat)
    requires n > 0
    ensures |SplitN(s, c, n)| == Min(n, Count(s, c) + 1)
    decreases n
  {
    var i := IndexOf(s, c);
    if i == |s| {
      SplitNWhole(s, c, n);
      IndexOfFound(s, c);
      CountAbsent(s, c);
    } else if n > 1 {
      var rest := s[i + 1..];
      SplitNCons(s, c, n);
      CountAtFirst(s, c);
      SplitNLength(rest, c, n - 1);
      assert |SplitN(s, c, n)| == 1 + |SplitN(rest, c, n - 1)|;
    } else {
      SplitNWhole(s, c, n);
    }
  }

  /** Split yields one part per separator, plus one. */
  lemma {:induction false} SplitLength(s: string, c: char)
    ensures |Split(s, c)| == Count(s, c) + 1
    decreases |s|
  {
    var i := IndexOf(s, c);
    if i == |s| {
      SplitWhole(s, c);
      IndexOfFound(s, c);
      CountAbsent(s, c);
    } else {
      var rest := s[i + 1..];
      SplitCons(s, c);
      CountAtFirst(s, c);
      SplitLength(rest, c);
    }
  }

  /** Joining the parts of SplitN with the separator gives back the input. */
  lemma {:induction false} SplitNJoin(s: string, c: char, n: nat)
    requires n > 0
    ensures Join(SplitN(s, c, n), c) == s
    decreases n
  {
    var i := IndexOf(s, c);
    if n > 1 && i < |s| {
      SplitNJoin(s[i + 1..], c, n - 1);
      SplitNJoinStep(s, c, n);
    } else {
      SplitNWhole(s, c, n);
    }
  }

  /** One step of SplitNJoin: the first cut, given the rest rejoins. */
  lemma SplitNJoinStep(s: string, c: char, n: nat)
    requires n > 1 && IndexOf(s, c) < |s|
    requires Join(SplitN(s[IndexOf(s, c) + 1..], c, n - 1), c) == s[IndexOf(s, c) + 1..]
    ensures Join(SplitN(s, c, n), c) == s
  {
    var i := IndexOf(s, c);
    var tail := s[i + 1..];
    var rest := SplitN(tail, c, n - 1);
    IndexOfFound(s, c);
    SplitNCons(s, c, n);
    SplitNNonEmpty(tail, c, n - 1);
    JoinCons(s[..i], rest, c);
    assert s == s[..i] + [c] + tail;
  }

  lemma JoinCons(p: string, rest: seq<string>, c: char)
    requires |rest| >= 1
    ensures Join([p] + rest, c) == p + [c] + Join(rest, c)
  {
    assert ([p] + rest)[1..] == rest;
  }

  /** SplitN never returns an empty list. */
  lemma {:induction false} SplitNNonEmpty(s: string, c: char, n: nat)
    requires n > 0
    ensures |SplitN(s, c, n)| >= 1
  {
    SplitNLength(s, c, n);
  }

  /** Joining the parts of Split with the separator gives back the input, and no part holds a separator. */
  lemma {:induction false} SplitJoin(s: string, c: char)
    ensures Join(Split(s, c), c) == s
    ensures forall k | 0 <= k < |Split(s, c)| :: c !in Split(s, c)[k]
    decreases |s|
  {
    var i := IndexOf(s, c);
    if i < |s| {
      var tail := s[i + 1..];
      var rest := Split(tail, c);
      SplitCons(s, c);
      SplitJoin(tail, c);
      SplitLength(tail, c);
      JoinCons(s[..i], rest, c);
      assert s == s[..i] + [c] + tail;
    }
  }

  /** With n >= 2 the first part is the text before the first separator and the second part the rest. */
  lemma SplitNFirstCut(s: string, c: char, n: nat)
    requires n >= 2
    ensures SplitN(s, c, n)[0] == BeforeFirst(s, c)
    ensures c in s ==> |SplitN(s, c, n)| >= 2
    ensures c in s && n == 2 ==> SplitN(s, c, n)[1] == s[IndexOf(s, c) + 1..]
  {
    var i := IndexOf(s, c);
    if i < |s| {
      SplitNNonEmpty(s[i + 1..], c, n - 1);
    }
  }

  /** The first part of Split is the text before the first separator. */
  lemma SplitHead(s: string, c: char)
    ensures Split(s, c)[0] == BeforeFirst(s, c)
  {
  }

  /** The first two parts of Split: before the first separator, and between the first and the second. */
  lemma SplitFirstCuts(s: string, c: char)
    ensures Split(s, c)[0] == BeforeFirst(s, c)
    ensures c in s ==> |Split(s, c)| >= 2 && Split(s, c)[1] == BeforeFirst(s[IndexOf(s, c) + 1..], c)
  {
    SplitHead(s, c);
    IndexOfFound(s, c);
    var i := IndexOf(s, c);
    if i < |s| {
      SplitCons(s, c);
      SplitHead(s[i + 1..], c);
    }
  }

  /** SplitN with n = 2 cuts at the first separator when there is one and leaves the string whole otherwise. */
  lemma SplitNTwo(s: string, c: char)
    ensures |SplitN(s, c, 2)| == (if c in s then 2 else 1)
    ensures SplitN(s, c, 2)[0] == BeforeFirst(s, c)
    ensures c in s ==> SplitN(s, c, 2)[1] == s[IndexOf(s, c) + 1..]
  {
    SplitNFirstCut(s, c, 2);
    if c in s {
      var i := IndexOf(s, c);
      assert SplitN(s[i + 1..], c, 1) == [s[i + 1..]];
    }
  }
}
