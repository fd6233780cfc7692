/** Lists sorted by descending score, ties in their original order: the one order that routing and
    rank fusion both sort into. */
module Ranking {
  /** An entry with its position in the list before sorting. */
  datatype Scored = Scored(index: nat, score: real)

  predicate Before(a: Scored, b: Scored) {
    a.score > b.score || (a.score == b.score && a.index < b.index)
  }

  ghost predicate Ranked(s: seq<Scored>) {
    forall i, j | 0 <= i < j < |s| :: Before(s[i], s[j])
  }

  ghost predicate DistinctIndices(s: seq<Scored>) {
    forall i, j | 0 <= i < j < |s| :: s[i].index != s[j].index
  }

  function Place(x: Scored, s: seq<Scored>): (r: seq<Scored>)
    ensures multiset(r) == multiset(s) + multiset{x}
  {
    if s == [] then [x]
    else if Before(s[0], x) then
      assert s == [s[0]] + s[1..];
      [s[0]] + Place(x, s[1..])
    else [x] + s
  }

  function Rank(s: seq<Scored>): (r: seq<Scored>)
    ensures multiset(r) == multiset(s)
  {
    if s == [] then [] else
      assert s == [s[0]] + s[1..];
      Place(s[0], Rank(s[1..]))
  }

  lemma {:induction false} PlaceIsRanked(x: Scored, s: seq<Scored>)
    requires Ranked(s) && forall y | y in s :: y.index != x.index
    ensures Ranked(Place(x, s))
  {
    if s != [] && Before(s[0], x) {
      PlaceIsRanked(x, s[1..]);
      var r := Place(x, s[1..]);
      forall y | y in r
        ensures Before(s[0], y)
      {
        assert y in multiset(r);
        assert y == x || y in s[1..];
      }
    }
  }

  lemma {:induction false} RankIsRanked(s: seq<Scored>)
    requires DistinctIndices(s)
    ensures Ranked(Rank(s))
  {
    if s != [] {
      RankIsRanked(s[1..]);
      forall y | y in Rank(s[1..])
        ensures y.index != s[0].index
      {
        assert y in multiset(s[1..]);
      }
      PlaceIsRanked(s[0], Rank(s[1..]));
    }
  }

  /** A ranked list is determined by its entries. */
  lemma {:induction false} RankedIsUnique(a: seq<Scored>, b: seq<Scored>)
    requires Ranked(a) && Ranked(b) && multiset(a) == multiset(b)
    ensures a == b
  {
    if a != [] {
      assert a[0] in multiset(b) && |multiset(a)| == |a| && |multiset(b)| == |b|;
      assert b[0] in multiset(a);
      assert a[0] == b[0];
      assert a == [a[0]] + a[1..] && b == [b[0]] + b[1..];
      assert multiset(a[1..]) == multiset(a) - multiset{a[0]};
      RankedIsUnique(a[1..], b[1..]);
    } else {
      assert |multiset(b)| == 0;
    }
  }

  function AtLeast(threshold: real, s: seq<Scored>): seq<Scored> {
    if s == [] then []
    else if s[0].score >= threshold then [s[0]] + AtLeast(threshold, s[1..])
    else AtLeast(threshold, s[1..])
  }

  /** The list `s[:n]` as Python has it: a negative bound counts from the end. */
  function Head(s: seq<Scored>, n: int): seq<Scored> {
    var bound := if n < 0 then |s| + n else n;
    if bound <= 0 then [] else if bound >= |s| then s else s[..bound]
  }

  lemma {:induction false} NoneAtLeast(threshold: real, s: seq<Scored>)
    requires forall i | 0 <= i < |s| :: s[i].score < threshold
    ensures AtLeast(threshold, s) == []
  {
    if s != [] {
      NoneAtLeast(threshold, s[1..]);
    }
  }

  /** Filtering a ranked list by score keeps a prefix of it. */
  lemma {:induction false} AtLeastIsPrefix(threshold: real, s: seq<Scored>) returns (n: nat)
    requires Ranked(s)
    ensures n <= |s| && AtLeast(threshold, s) == s[..n]
    ensures forall i | 0 <= i < n :: s[i].score >= threshold
    ensures forall i | n <= i < |s| :: s[i].score < threshold
  {
    if s == [] {
      n := 0;
    } else if s[0].score >= threshold {
      var rest := AtLeastIsPrefix(threshold, s[1..]);
      n := rest + 1;
      assert s[..n] == [s[0]] + s[1..][..rest];
      assert forall i | n <= i < |s| :: s[i] == s[1..][i - 1];
    } else {
      n := 0;
      assert forall i | 0 < i < |s| :: Before(s[0], s[i]);
      NoneAtLeast(threshold, s);
    }
  }

  /** The top of a ranked list by threshold and number is a prefix, and as long as it may be. */
  lemma TopIsPrefix(threshold: real, s: seq<Scored>, count: nat) returns (n: nat)
    requires Ranked(s)
    ensures n <= |s| && n <= count && Head(AtLeast(threshold, s), count) == s[..n]
    ensures forall i | 0 <= i < n :: s[i].score >= threshold
    ensures n < count ==> forall i | n <= i < |s| :: s[i].score < threshold
  {
    var m := AtLeastIsPrefix(threshold, s);
    n := if m <= count then m else count;
    assert s[..m][..n] == s[..n];
  }
}
