/** Reciprocal rank fusion of two result lists, over exact scores. */
module Hybrid {
  import opened Lists
  import opened Messages
  import opened Ranking
  import opened Text
  import opened VectorStore

  datatype Hit = Hit(id: string, score: real, metadata: Metadata)

  // ---- What a fused list is --------------------------------------------------------------------

  function HitIds(hits: seq<Hit>): seq<string> {
    seq(|hits|, i requires 0 <= i < |hits| => hits[i].id)
  }

  /** What the rank at position `rank` is worth. */
  function RankScore(k: nat, rank: nat): real {
    1.0 / (k + rank + 1) as real
  }

  /** What a list contributes to the score of a document. */
  function ListScore(hits: seq<Hit>, k: nat, id: string): real {
    if hits == [] then 0.0
    else
      var last := |hits| - 1;
      ListScore(hits[..last], k, id) + if hits[last].id == id then RankScore(k, last) else 0.0
  }

  function FusedScore(dense: seq<Hit>, sparse: seq<Hit>, k: nat, id: string): real {
    ListScore(dense, k, id) + ListScore(sparse, k, id)
  }

  /** Every id once, in the order of first sight. */
  function FirstSeen(ids: seq<string>): (seen: seq<string>) {
    if ids == [] then []
    else
      var last := ids[|ids| - 1];
      var before := FirstSeen(ids[..|ids| - 1]);
      if last in before then before else before + [last]
  }

  function Union(dense: seq<Hit>, sparse: seq<Hit>): seq<string> {
    FirstSeen(HitIds(dense) + HitIds(sparse))
  }

  /** The last hit of this id. */
  function LastHit(hits: seq<Hit>, id: string): Option<Hit> {
    if hits == [] then None
    else if hits[|hits| - 1].id == id then Some(hits[|hits| - 1])
    else LastHit(hits[..|hits| - 1], id)
  }

  /** The first hit of this id. */
  function FirstHit(hits: seq<Hit>, id: string): Option<Hit> {
    if hits == [] then None
    else
      var before := FirstHit(hits[..|hits| - 1], id);
      if before.Some? then before
      else if hits[|hits| - 1].id == id then Some(hits[|hits| - 1])
      else None
  }

  /** The hit whose metadata is shown: the dense one when there is one. */
  function ShownHit(dense: seq<Hit>, sparse: seq<Hit>, id: string): Option<Hit> {
    if LastHit(dense, id).Some? then LastHit(dense, id) else FirstHit(sparse, id)
  }

  function ScoredIds(ids: seq<string>, score: string -> real): seq<Scored> {
    seq(|ids|, i requires 0 <= i < |ids| => Scored(i, score(ids[i])))
  }

  // ---- The two loops ---------------------------------------------------------------------------

  /** The two dicts, `order` the keys of both, after these parts of the lists. */
  ghost predicate SeenOne(scores: map<string, real>, shown: map<string, Hit>, order: seq<string>, dense: seq<Hit>, sparse: seq<Hit>, k: nat, id: string) {
    && (id in scores <==> id in order)
    && (id in shown <==> id in order)
    && (id !in scores ==> FusedScore(dense, sparse, k, id) == 0.0)
    && (id in scores ==> scores[id] == FusedScore(dense, sparse, k, id))
    && ShownHit(dense, sparse, id) == if id in shown then Some(shown[id]) else None
  }

  ghost predicate Seen(scores: map<string, real>, shown: map<string, Hit>, order: seq<string>, dense: seq<Hit>, sparse: seq<Hit>, k: nat) {
    order == Union(dense, sparse) && forall id :: SeenOne(scores, shown, order, dense, sparse, k, id)
  }

  function Accumulate(scores: map<string, real>, id: string, score: real): map<string, real> {
    scores[id := (if id in scores then scores[id] else 0.0) + score]
  }

  function Remember(order: seq<string>, id: string): seq<string> {
    if id in order then order else order + [id]
  }

  lemma ListScoreSnoc(hits: seq<Hit>, h: Hit, k: nat, id: string)
    ensures ListScore(hits + [h], k, id) == ListScore(hits, k, id) + if h.id == id then RankScore(k, |hits|) else 0.0
    ensures LastHit(hits + [h], id) == if h.id == id then Some(h) else LastHit(hits, id)
    ensures FirstHit(hits + [h], id) == if FirstHit(hits, id).Some? then FirstHit(hits, id) else if h.id == id then Some(h) else None
  {
    assert (hits + [h])[..|hits|] == hits;
  }

  lemma FirstSeenSnoc(ids: seq<string>, id: string)
    ensures FirstSeen(ids + [id]) == Remember(FirstSeen(ids), id)
  {
    assert (ids + [id])[..|ids|] == ids;
  }

  lemma DenseStep(scores: map<string, real>, shown: map<string, Hit>, order: seq<string>, dense: seq<Hit>, h: Hit, k: nat)
    requires Seen(scores, shown, order, dense, [], k)
    ensures Seen(Accumulate(scores, h.id, RankScore(k, |dense|)), shown[h.id := h], Remember(order, h.id), dense + [h], [], k)
  {
    var scores', shown', order' := Accumulate(scores, h.id, RankScore(k, |dense|)), shown[h.id := h], Remember(order, h.id);
    assert HitIds(dense + [h]) + HitIds([]) == (HitIds(dense) + HitIds([])) + [h.id];
    FirstSeenSnoc(HitIds(dense) + HitIds([]), h.id);
    forall id
      ensures SeenOne(scores', shown', order', dense + [h], [], k, id)
    {
      assert SeenOne(scores, shown, order, dense, [], k, id);
      ListScoreSnoc(dense, h, k, id);
    }
  }

  lemma SparseStep(scores: map<string, real>, shown: map<string, Hit>, order: seq<string>, dense: seq<Hit>, sparse: seq<Hit>, h: Hit, k: nat)
    requires Seen(scores, shown, order, dense, sparse, k)
    ensures Seen(Accumulate(scores, h.id, RankScore(k, |sparse|)), if h.id in shown then shown else shown[h.id := h], Remember(order, h.id), dense, sparse + [h], k)
  {
    var scores', order' := Accumulate(scores, h.id, RankScore(k, |sparse|)), Remember(order, h.id);
    var shown' := if h.id in shown then shown else shown[h.id := h];
    assert HitIds(dense) + HitIds(sparse + [h]) == (HitIds(dense) + HitIds(sparse)) + [h.id];
    FirstSeenSnoc(HitIds(dense) + HitIds(sparse), h.id);
    forall id
      ensures SeenOne(scores', shown', order', dense, sparse + [h], k, id)
    {
      assert SeenOne(scores, shown, order, dense, sparse, k, id);
      ListScoreSnoc(sparse, h, k, id);
    }
  }

  lemma NothingSeen(k: nat)
    ensures Seen(map[], map[], [], [], [], k)
  {
    forall id
      ensures SeenOne(map[], map[], [], [], [], k, id)
    {
    }
  }

  /** The documents of both lists, ranked by fused score, ties in order of first sight. */
  function Fused(dense: seq<Hit>, sparse: seq<Hit>, k: nat): seq<Scored> {
    Rank(ScoredIds(Union(dense, sparse), id => FusedScore(dense, sparse, k, id)))
  }

  ghost predicate IsHitFor(hit: Hit, dense: seq<Hit>, sparse: seq<Hit>, entry: Scored) {
    var ids := Union(dense, sparse);
    && entry.index < |ids| && hit.id == ids[entry.index] && hit.score == entry.score
    && ShownHit(dense, sparse, hit.id).Some? && hit.metadata == ShownHit(dense, sparse, hit.id).value.metadata
  }

  lemma TopIsListed(list: seq<Scored>, topK: int)
    requires forall i | 0 <= i < |list| :: list[i].index == i
    ensures forall e | e in Head(Rank(list), topK) :: e.index < |list| && list[e.index] == e
  {
    forall e | e in Head(Rank(list), topK)
      ensures e.index < |list| && list[e.index] == e
    {
      assert e in multiset(Rank(list));
      assert e in list;
    }
  }

  method Show(scores: map<string, real>, shown: map<string, Hit>, order: seq<string>, ghost dense: seq<Hit>, ghost sparse: seq<Hit>, topK: int, k: nat)
    returns (hits: seq<Hit>)
    requires Seen(scores, shown, order, dense, sparse, k)
    ensures var top := Head(Fused(dense, sparse, k), topK);
      |hits| == |top| && forall i | 0 <= i < |hits| :: IsHitFor(hits[i], dense, sparse, top[i])
  {
    forall id | id in order
      ensures id in scores && id in shown && scores[id] == FusedScore(dense, sparse, k, id) && ShownHit(dense, sparse, id) == Some(shown[id])
    {
      assert SeenOne(scores, shown, order, dense, sparse, k, id);
    }
    var list := seq(|order|, i requires 0 <= i < |order| => assert order[i] in order; Scored(i, scores[order[i]]));
    assert list == ScoredIds(Union(dense, sparse), id => FusedScore(dense, sparse, k, id));
    var top := Head(Rank(list), topK);
    TopIsListed(list, topK);
    hits := seq(|top|, i requires 0 <= i < |top| =>
      Hit(order[top[i].index], top[i].score, shown[order[top[i].index]].metadata));
  }

  method RrfFuse(dense: seq<Hit>, sparse: seq<Hit>, topK: int, k: nat) returns (hits: seq<Hit>)
    ensures var top := Head(Fused(dense, sparse, k), topK);
      |hits| == |top| && forall i | 0 <= i < |hits| :: IsHitFor(hits[i], dense, sparse, top[i])
  {
    var scores: map<string, real>, shown: map<string, Hit>, order: seq<string> := map[], map[], [];
    NothingSeen(k);
    for rank := 0 to |dense|
      invariant Seen(scores, shown, order, dense[..rank], [], k)
    {
      var hit := dense[rank];
      DenseStep(scores, shown, order, dense[..rank], hit, k);
      assert dense[..rank + 1] == dense[..rank] + [hit];
      shown := shown[hit.id := hit];
      scores := Accumulate(scores, hit.id, RankScore(k, rank));
      order := Remember(order, hit.id);
    }
    assert dense[..|dense|] == dense;
    assert sparse[..0] == [];
    for rank := 0 to |sparse|
      invariant Seen(scores, shown, order, dense, sparse[..rank], k)
    {
      var hit := sparse[rank];
      SparseStep(scores, shown, order, dense, sparse[..rank], hit, k);
      assert sparse[..rank + 1] == sparse[..rank] + [hit];
      if hit.id !in shown {
        shown := shown[hit.id := hit];
      }
      scores := Accumulate(scores, hit.id, RankScore(k, rank));
      order := Remember(order, hit.id);
    }
    assert sparse[..|sparse|] == sparse;
    hits := Show(scores, shown, order, dense, sparse, topK, k);
  }

  // ---- The order ---------------------------------------------------------------------------------

  lemma {:induction false} FirstSeenFacts(ids: seq<string>)
    ensures NoRepeats(FirstSeen(ids)) && forall id :: id in FirstSeen(ids) <==> id in ids
  {
    if ids != [] {
      FirstSeenFacts(ids[..|ids| - 1]);
      assert ids == ids[..|ids| - 1] + [ids[|ids| - 1]];
    }
  }

  /** The fused list names every document of either list once, in ranked order. */
  lemma FusedRanksUnion(dense: seq<Hit>, sparse: seq<Hit>, k: nat)
    ensures var ids := Union(dense, sparse); var fused := Fused(dense, sparse, k);
      && NoRepeats(ids) && (forall id :: id in ids <==> id in HitIds(dense) || id in HitIds(sparse))
      && Ranked(fused) && |fused| == |ids|
      && multiset(fused) == multiset(ScoredIds(ids, id => FusedScore(dense, sparse, k, id)))
      && forall i | 0 <= i < |fused| :: fused[i].index < |ids| && fused[i].score == FusedScore(dense, sparse, k, ids[fused[i].index])
  {
    var ids := Union(dense, sparse);
    var list := ScoredIds(ids, id => FusedScore(dense, sparse, k, id));
    var fused := Fused(dense, sparse, k);
    FirstSeenFacts(HitIds(dense) + HitIds(sparse));
    RankIsRanked(list);
    assert |multiset(fused)| == |fused| && |multiset(list)| == |list|;
    forall i | 0 <= i < |fused|
      ensures fused[i].index < |ids| && fused[i].score == FusedScore(dense, sparse, k, ids[fused[i].index])
    {
      assert fused[i] in multiset(list);
      assert fused[i] in list;
    }
  }

  predicate FirstAt(ids: seq<string>, id: string, p: nat) {
    p < |ids| && ids[p] == id && id !in ids[..p]
  }

  lemma FirstOfMore(ids: seq<string>, id: string, p: nat)
    requires ids != [] && FirstAt(ids[..|ids| - 1], id, p)
    ensures FirstAt(ids, id, p)
  {
    assert ids[..|ids| - 1][..p] == ids[..p];
  }

  /** The documents stand in the order in which they are first seen, the dense list first. */
  lemma {:induction false} FirstSeenAt(ids: seq<string>) returns (at: seq<nat>)
    ensures |at| == |FirstSeen(ids)|
    ensures forall i | 0 <= i < |at| :: FirstAt(ids, FirstSeen(ids)[i], at[i])
    ensures forall i, j | 0 <= i < j < |at| :: at[i] < at[j]
  {
    at := [];
    if ids != [] {
      var n := |ids| - 1;
      var before := FirstSeenAt(ids[..n]);
      var seen := FirstSeen(ids[..n]);
      FirstSeenFacts(ids[..n]);
      forall i | 0 <= i < |before|
        ensures FirstAt(ids, seen[i], before[i]) && before[i] < n
      {
        assert FirstAt(ids[..n], seen[i], before[i]);
        FirstOfMore(ids, seen[i], before[i]);
      }
      if ids[n] in seen {
        at := before;
      } else {
        at := before + [n];
        assert FirstAt(ids, ids[n], n);
      }
    }
  }

  lemma {:induction false} LastHitAt(hits: seq<Hit>, id: string) returns (i: nat)
    ensures LastHit(hits, id).None? <==> id !in HitIds(hits)
    ensures LastHit(hits, id).Some? ==> i < |hits| && LastHit(hits, id) == Some(hits[i]) && hits[i].id == id && id !in HitIds(hits[i + 1..])
  {
    i := 0;
    if hits != [] {
      var n := |hits| - 1;
      assert HitIds(hits) == HitIds(hits[..n]) + [hits[n].id];
      if hits[n].id == id {
        i := n;
      } else {
        i := LastHitAt(hits[..n], id);
        if LastHit(hits, id).Some? {
          assert hits[i + 1..] == hits[..n][i + 1..] + [hits[n]];
          assert HitIds(hits[i + 1..]) == HitIds(hits[..n][i + 1..]) + [hits[n].id];
        }
      }
    }
  }

  lemma {:induction false} FirstHitAt(hits: seq<Hit>, id: string) returns (i: nat)
    ensures FirstHit(hits, id).None? <==> id !in HitIds(hits)
    ensures FirstHit(hits, id).Some? ==> i < |hits| && FirstHit(hits, id) == Some(hits[i]) && hits[i].id == id && id !in HitIds(hits[..i])
  {
    i := 0;
    if hits != [] {
      var n := |hits| - 1;
      assert HitIds(hits) == HitIds(hits[..n]) + [hits[n].id];
      i := FirstHitAt(hits[..n], id);
      if FirstHit(hits[..n], id).Some? {
        assert hits[..n][..i] == hits[..i];
      } else {
        i := n;
      }
    }
  }

  /** A document shows the metadata of its last dense hit, or of its first sparse one if it has no dense. */
  lemma ShownSays(dense: seq<Hit>, sparse: seq<Hit>, id: string) returns (i: nat)
    requires id in HitIds(dense) || id in HitIds(sparse)
    ensures ShownHit(dense, sparse, id).Some?
    ensures var hit := ShownHit(dense, sparse, id).value;
      if id in HitIds(dense) then i < |dense| && hit == dense[i] && hit.id == id && id !in HitIds(dense[i + 1..])
      else i < |sparse| && hit == sparse[i] && hit.id == id && id !in HitIds(sparse[..i])
  {
    i := LastHitAt(dense, id);
    if id !in HitIds(dense) {
      i := FirstHitAt(sparse, id);
    }
  }

  /** Where a document stands in the fused list. */
  lemma PlaceOf(dense: seq<Hit>, sparse: seq<Hit>, k: nat, id: string) returns (p: nat)
    requires id in HitIds(dense) || id in HitIds(sparse)
    ensures p < |Fused(dense, sparse, k)| && Fused(dense, sparse, k)[p].index < |Union(dense, sparse)|
    ensures Union(dense, sparse)[Fused(dense, sparse, k)[p].index] == id
  {
    var ids := Union(dense, sparse);
    var list := ScoredIds(ids, id => FusedScore(dense, sparse, k, id));
    FusedRanksUnion(dense, sparse, k);
    var i :| 0 <= i < |ids| && ids[i] == id;
    assert list[i] in multiset(Fused(dense, sparse, k));
    p :| 0 <= p < |Fused(dense, sparse, k)| && Fused(dense, sparse, k)[p] == list[i];
  }

  // ---- Both lists first ------------------------------------------------------------------------

  lemma {:induction false} ListScoreAbsent(hits: seq<Hit>, k: nat, id: string)
    requires id !in HitIds(hits)
    ensures ListScore(hits, k, id) == 0.0
  {
    if hits != [] {
      assert HitIds(hits)[|hits| - 1] == hits[|hits| - 1].id;
      assert HitIds(hits) == HitIds(hits[..|hits| - 1]) + [hits[|hits| - 1].id];
      ListScoreAbsent(hits[..|hits| - 1], k, id);
    }
  }

  lemma {:induction false} ListScoreAt(hits: seq<Hit>, k: nat, i: nat)
    requires NoRepeats(HitIds(hits)) && i < |hits|
    ensures ListScore(hits, k, hits[i].id) == RankScore(k, i)
  {
    var last := |hits| - 1;
    var ids := HitIds(hits);
    assert HitIds(hits[..last]) == ids[..last];
    if i == last {
      forall j | 0 <= j < last
        ensures ids[..last][j] != hits[i].id
      {
        assert ids[j] != ids[last];
      }
      ListScoreAbsent(hits[..last], k, hits[i].id);
    } else {
      assert ids[i] != ids[last];
      ListScoreAt(hits[..last], k, i);
    }
  }

  lemma RankScoreDescends(k: nat, i: nat, j: nat)
    requires i <= j
    ensures RankScore(k, i) >= RankScore(k, j) > 0.0
  {
    var x, y := (k + i + 1) as real, (k + j + 1) as real;
    assert 0.0 < x <= y;
    assert (1.0 / x) * x == 1.0 && (1.0 / y) * y == 1.0;
    if 1.0 / x < 1.0 / y {
      assert (1.0 / x) * x <= (1.0 / x) * y;
      assert (1.0 / x) * y < (1.0 / y) * y;
    }
  }

  lemma CancelFactor(x: real, y: real, factor: real)
    requires factor > 0.0 && x * factor > y * factor
    ensures x > y
  {
  }

  /** Two ranks among the first `k + 1` are together worth more than any one. */
  lemma TwoBeatOne(k: nat, i: nat, j: nat, r: nat)
    requires i <= k && j <= k
    ensures RankScore(k, i) + RankScore(k, j) > RankScore(k, r)
  {
    RankScoreDescends(k, i, k);
    RankScoreDescends(k, j, k);
    RankScoreDescends(k, 0, r);
    var n := k as real;
    var a := 1.0 / (2.0 * n + 1.0);
    assert RankScore(k, k) == a && RankScore(k, 0) == 1.0 / (n + 1.0);
    assert a * (2.0 * n + 1.0) == 1.0;
    assert (a + a) * (n + 1.0) == 1.0 + a;
    assert 1.0 / (n + 1.0) * (n + 1.0) == 1.0;
    CancelFactor(a + a, 1.0 / (n + 1.0), n + 1.0);
  }

  /** In a ranked list the better entry comes first. */
  lemma BetterComesFirst(s: seq<Scored>, p: nat, q: nat)
    requires Ranked(s) && p < |s| && q < |s| && Before(s[p], s[q])
    ensures p < q
  {
  }

  /** Main result: with lists of at most k + 1 distinct documents, one that both lists found comes
      before every one that only one of them found. */
  lemma FoundByBothComesFirst(dense: seq<Hit>, sparse: seq<Hit>, k: nat, both: string, one: string, p: nat, q: nat)
    requires NoRepeats(HitIds(dense)) && NoRepeats(HitIds(sparse)) && |dense| <= k + 1 && |sparse| <= k + 1
    requires both in HitIds(dense) && both in HitIds(sparse)
    requires one in HitIds(dense) <==> one !in HitIds(sparse)
    requires var fused := Fused(dense, sparse, k); var ids := Union(dense, sparse);
      p < |fused| && q < |fused| && fused[p].index < |ids| && fused[q].index < |ids|
      && ids[fused[p].index] == both && ids[fused[q].index] == one
    ensures p < q
  {
    FusedRanksUnion(dense, sparse, k);
    var i :| 0 <= i < |dense| && HitIds(dense)[i] == both;
    var j :| 0 <= j < |sparse| && HitIds(sparse)[j] == both;
    ListScoreAt(dense, k, i);
    ListScoreAt(sparse, k, j);
    if one in HitIds(dense) {
      var r :| 0 <= r < |dense| && HitIds(dense)[r] == one;
      ListScoreAt(dense, k, r);
      ListScoreAbsent(sparse, k, one);
      TwoBeatOne(k, i, j, r);
    } else {
      var r :| 0 <= r < |sparse| && HitIds(sparse)[r] == one;
      ListScoreAt(sparse, k, r);
      ListScoreAbsent(dense, k, one);
      TwoBeatOne(k, i, j, r);
    }
    var fused := Fused(dense, sparse, k);
    assert fused[p].score > fused[q].score;
    BetterComesFirst(fused, p, q);
  }

  // ---- The bound is sharp ----------------------------------------------------------------------

  /** `n` hits of one list only, then one that both lists share. */
  function SharedLast(prefix: string, n: nat): (hits: seq<Hit>)
    ensures |hits| == n + 1
  {
    seq(n + 1, i requires 0 <= i < n + 1 => Hit(if i < n then prefix + Decimal(i) else "shared", 0.0, BLANK))
  }

  lemma SharedLastFacts(prefix: string, n: nat)
    requires prefix == "d" || prefix == "k"
    ensures NoRepeats(HitIds(SharedLast(prefix, n)))
    ensures forall i | 0 <= i < n :: HitIds(SharedLast(prefix, n))[i] == prefix + Decimal(i)
    ensures HitIds(SharedLast(prefix, n))[n] == "shared"
  {
    var ids := HitIds(SharedLast(prefix, n));
    forall i, j | 0 <= i < j < |ids|
      ensures ids[i] != ids[j]
    {
      if j < n {
        if Decimal(i) == Decimal(j) {
          DecimalIsInjective(i, j);
        }
        assert ids[i][1..] == Decimal(i) && ids[j][1..] == Decimal(j);
      } else {
        assert ids[i][0] == prefix[0] && ids[j][0] == 's';
      }
    }
  }

  lemma SharedLastIds(k: nat)
    ensures var dense, sparse := HitIds(SharedLast("d", k + 1)), HitIds(SharedLast("k", k + 1));
      && |dense| == |sparse| == k + 2 && NoRepeats(dense) && NoRepeats(sparse)
      && dense[0] == "d0" && dense[k + 1] == "shared" && sparse[k + 1] == "shared" && "d0" !in sparse
  {
    SharedLastFacts("d", k + 1);
    SharedLastFacts("k", k + 1);
    var dense, sparse := HitIds(SharedLast("d", k + 1)), HitIds(SharedLast("k", k + 1));
    assert Decimal(0) == "0" && dense[0] == "d0";
    forall i | 0 <= i < |sparse|
      ensures sparse[i] != "d0"
    {
      assert sparse[i][0] != 'd';
    }
  }

  lemma CancelEqual(x: real, y: real, factor: real)
    requires factor > 0.0 && x * factor == y * factor
    ensures x == y
  {
  }

  lemma HalfOfFirst(k: nat)
    ensures RankScore(k, k + 1) + RankScore(k, k + 1) == RankScore(k, 0)
  {
    var n := (k + 1) as real;
    assert (k + (k + 1) + 1) as real == 2.0 * n;
    assert 1.0 / (2.0 * n) * (2.0 * n) == 1.0 && 1.0 / n * n == 1.0;
    CancelEqual(1.0 / (2.0 * n) + 1.0 / (2.0 * n), 1.0 / n, n);
  }

  lemma SharedLastScores(k: nat)
    ensures var dense, sparse := SharedLast("d", k + 1), SharedLast("k", k + 1);
      FusedScore(dense, sparse, k, "d0") == FusedScore(dense, sparse, k, "shared")
  {
    var dense, sparse := SharedLast("d", k + 1), SharedLast("k", k + 1);
    SharedLastIds(k);
    assert dense[0].id == HitIds(dense)[0] && dense[k + 1].id == HitIds(dense)[k + 1] && sparse[k + 1].id == HitIds(sparse)[k + 1];
    ListScoreAt(dense, k, 0);
    ListScoreAt(dense, k, k + 1);
    ListScoreAt(sparse, k, k + 1);
    ListScoreAbsent(sparse, k, "d0");
    HalfOfFirst(k);
  }

  lemma {:induction false} FirstStaysFirst(ids: seq<string>)
    requires ids != []
    ensures FirstSeen(ids) != [] && FirstSeen(ids)[0] == ids[0]
  {
    if |ids| > 1 {
      FirstStaysFirst(ids[..|ids| - 1]);
    }
  }

  /** One document more, and a shared one can come after one that only the dense list found. */
  lemma LongerListsBreakIt(k: nat) returns (p: nat, q: nat)
    ensures var dense, sparse := SharedLast("d", k + 1), SharedLast("k", k + 1);
      var fused := Fused(dense, sparse, k); var ids := Union(dense, sparse);
      && |dense| == |sparse| == k + 2 && NoRepeats(HitIds(dense)) && NoRepeats(HitIds(sparse))
      && "d0" in HitIds(dense) && "d0" !in HitIds(sparse) && "shared" in HitIds(dense) && "shared" in HitIds(sparse)
      && p < |fused| && q < |fused| && fused[p].index < |ids| && fused[q].index < |ids|
      && ids[fused[p].index] == "d0" && ids[fused[q].index] == "shared" && p < q
  {
    var dense, sparse := SharedLast("d", k + 1), SharedLast("k", k + 1);
    SharedLastIds(k);
    SharedLastScores(k);
    FusedRanksUnion(dense, sparse, k);
    assert HitIds(dense)[0] == "d0" && HitIds(dense)[k + 1] == "shared";
    p := PlaceOf(dense, sparse, k, "d0");
    q := PlaceOf(dense, sparse, k, "shared");
    FirstStaysFirst(HitIds(dense) + HitIds(sparse));
    assert Union(dense, sparse)[0] == "d0";
    BetterComesFirst(Fused(dense, sparse, k), p, q);
  }
}
