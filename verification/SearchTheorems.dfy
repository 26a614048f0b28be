/**
 What a search returns: distinct chunks ranked from one, nothing better left out, dominance
 in both channels respected, reranking confined to the head of the fused list, and a failed
 reranker the same as none.
 */
module SearchTheorems {
  import opened Wrappers
  import opened Ordering
  import opened HybridSearch

  /* ---------- the two orders ---------- */

  lemma FusionLeTransitive(x: Entry, y: Entry, z: Entry)
    requires FusionLe(x, y) && FusionLe(y, z)
    ensures FusionLe(x, z)
  {
    StringLeTotal(x.candidate.docId, y.candidate.docId);
    StringLeTotal(y.candidate.docId, z.candidate.docId);
    if StringLe(x.candidate.docId, y.candidate.docId) && StringLe(y.candidate.docId, z.candidate.docId) {
      StringLeTransitive(x.candidate.docId, y.candidate.docId, z.candidate.docId);
    }
    if StringLe(x.candidate.chunkId, y.candidate.chunkId) && StringLe(y.candidate.chunkId, z.candidate.chunkId) {
      StringLeTransitive(x.candidate.chunkId, y.candidate.chunkId, z.candidate.chunkId);
    }
  }

  lemma FusionLeTotal(x: Entry, y: Entry)
    ensures FusionLe(x, y) || FusionLe(y, x)
    ensures FusionLe(x, y) && FusionLe(y, x) ==> x.candidate.chunkId == y.candidate.chunkId
  {
    StringLeTotal(x.candidate.docId, y.candidate.docId);
    StringLeTotal(x.candidate.chunkId, y.candidate.chunkId);
  }

  /** Both sort keys are total orders, and entries they cannot order share their chunk id. */
  lemma SearchKeyOrders()
    ensures KeyOrder(FusionLe) && KeyOrder(RerankLe)
    ensures forall x, y :: FusionLe(x, y) && FusionLe(y, x) ==> x.candidate.chunkId == y.candidate.chunkId
    ensures forall x, y :: RerankLe(x, y) && RerankLe(y, x) ==> x.candidate.chunkId == y.candidate.chunkId
  {
    forall x, y
      ensures FusionLe(x, y) && FusionLe(y, x) ==> x.candidate.chunkId == y.candidate.chunkId
      ensures RerankLe(x, y) && RerankLe(y, x) ==> x.candidate.chunkId == y.candidate.chunkId
    {
      FusionLeTotal(x, y);
    }
    forall x, y ensures FusionLe(x, y) || FusionLe(y, x) {
      FusionLeTotal(x, y);
    }
    forall x, y, z | FusionLe(x, y) && FusionLe(y, z) ensures FusionLe(x, z) {
      FusionLeTransitive(x, y, z);
    }
    forall x, y ensures RerankLe(x, y) || RerankLe(y, x) {
      FusionLeTotal(x, y);
    }
    forall x, y, z | RerankLe(x, y) && RerankLe(y, z) ensures RerankLe(x, z) {
      if FusionLe(x, y) && FusionLe(y, z) {
        FusionLeTransitive(x, y, z);
      }
    }
  }

  /* ---------- distinct chunks ---------- */

  ghost predicate DistinctChunks(s: seq<Entry>) {
    forall i, j | 0 <= i < j < |s| :: s[i].candidate.chunkId != s[j].candidate.chunkId
  }

  lemma DistinctByCount(s: seq<Entry>)
    ensures DistinctChunks(s) <==>
            (forall x, y | x in s && y in s && x.candidate.chunkId == y.candidate.chunkId :: x == y)
            && forall x | x in s :: multiset(s)[x] == 1
  {
    if DistinctChunks(s) {
      forall x | x in s ensures multiset(s)[x] == 1 {
        OccursOnce(s, x);
      }
    } else {
      var i, j :| 0 <= i < j < |s| && s[i].candidate.chunkId == s[j].candidate.chunkId;
      if s[i] == s[j] {
        assert s == s[..j] + [s[j]] + s[j + 1..];
        assert s[i] in s[..j];
        assert s[i] in multiset(s[..j]);
        assert multiset(s)[s[i]] >= 2;
      }
    }
  }

  lemma {:induction false} OccursOnce(s: seq<Entry>, x: Entry)
    requires DistinctChunks(s) && x in s
    ensures multiset(s)[x] == 1
  {
    var n := |s| - 1;
    assert s == s[..n] + [s[n]];
    if x in s[..n] {
      OccursOnce(s[..n], x);
    } else {
      assert x !in multiset(s[..n]);
    }
  }

  lemma SameMembersDistinct(a: seq<Entry>, b: seq<Entry>)
    requires multiset(a) == multiset(b) && DistinctChunks(a)
    ensures DistinctChunks(b)
  {
    DistinctByCount(a);
    DistinctByCount(b);
    SameElements(a, b);
  }

  /** The sorted list of a search: the merged entries, each once, best first. */
  lemma FusedIsSorted(lexical: seq<Candidate>, vector: seq<Candidate>, o: Options, g: Signals)
    requires Dictionary(Merge(lexical, vector, o))
    ensures DistinctChunks(Fused(lexical, vector, o, g)) && SortedBy(FusionLe, Fused(lexical, vector, o, g))
    ensures multiset(Fused(lexical, vector, o, g)) == multiset(Values(Merge(lexical, vector, o), g))
  {
    var m := Merge(lexical, vector, o);
    var values := Values(m, g);
    forall i | 0 <= i < |values| ensures values[i].candidate.chunkId == m.order[i] {
      assert m.order[i] in m.order;
    }
    SearchKeyOrders();
    SortBySorts(FusionLe, values);
    SameMembersDistinct(values, SortBy(FusionLe, values));
  }

  /** In a sorted list of distinct chunks, earlier means strictly better. */
  lemma EarlierIsBetter(s: seq<Entry>, i: nat, j: nat)
    requires SortedBy(FusionLe, s) && DistinctChunks(s) && i < |s| && j < |s|
    ensures i < j <==> FusionLe(s[i], s[j]) && !FusionLe(s[j], s[i])
  {
    FusionLeTotal(s[i], s[j]);
    if j < i {
      assert FusionLe(s[j], s[i]);
    }
  }

  /* ---------- what is returned ---------- */

  ghost predicate Shows(hits: seq<Hit>, id: string) {
    exists i :: 0 <= i < |hits| && hits[i].candidate.chunkId == id
  }

  /** The key fields of a hit, as an entry. */
  function EntryOf(h: Hit): Entry {
    Entry(h.candidate, h.fusion, None, None, h.rerankerScore)
  }

  ghost predicate Better(h: Hit, x: Entry) {
    FusionLe(EntryOf(h), x) && !FusionLe(x, EntryOf(h))
  }

  /** However the list was ordered, its chunks come out ranked 1, 2, ... and all different. */
  lemma HitsAreRanked(lexical: seq<Candidate>, vector: seq<Candidate>, o: Options, g: Signals, rr: Reranking,
                      limit: int)
    requires SearchHits(lexical, vector, o, g, rr, limit).Ok?
    ensures var hits := SearchHits(lexical, vector, o, g, rr, limit).value;
            && |hits| <= 20 && (limit >= 1 ==> |hits| <= limit)
            && (forall i :: 0 <= i < |hits| ==> hits[i].rank == i + 1)
            && (forall i, j | 0 <= i < j < |hits| :: hits[i].candidate.chunkId != hits[j].candidate.chunkId)
  {
    MergeIsRankFusion(lexical, vector, o, "");
    FusedIsSorted(lexical, vector, o, g);
    RankingIsDistinct(Fused(lexical, vector, o, g), o, rr);
  }

  lemma RankingIsDistinct(fused: seq<Entry>, o: Options, rr: Reranking)
    requires DistinctChunks(fused) && Ranking(fused, o, rr).Ok?
    ensures DistinctChunks(Ranking(fused, o, rr).value)
  {
    if rr.Scored? && fused != [] {
      var scored := WithScores(Pool(fused, o), rr.scores);
      assert DistinctChunks(scored);
      SameMembersDistinct(scored, SortBy(RerankLe, scored));
    }
  }

  /** A listed chunk's entry before sorting. */
  ghost predicate IsEntry(lexical: seq<Candidate>, vector: seq<Candidate>, o: Options, g: Signals, x: Entry) {
    Dictionary(Merge(lexical, vector, o)) && x in Values(Merge(lexical, vector, o), g)
  }

  /** An entry's score is its reciprocal ranks in both channels plus the bonus of its text. */
  lemma EntryFusion(lexical: seq<Candidate>, vector: seq<Candidate>, o: Options, g: Signals, x: Entry)
    requires IsEntry(lexical, vector, o, g, x)
    ensures x.fusion == RankSum(lexical, x.candidate.chunkId, o) + RankSum(vector, x.candidate.chunkId, o)
                        + Bonus(g, x.candidate.text)
    ensures Listed(lexical, x.candidate.chunkId, o) || Listed(vector, x.candidate.chunkId, o)
  {
    var m := Merge(lexical, vector, o);
    var i :| 0 <= i < |m.order| && Values(m, g)[i] == x;
    assert m.order[i] in m.order;
    MergeIsRankFusion(lexical, vector, o, m.order[i]);
  }

  /** The best scores that a list gives a chunk, starting from those it has. */
  function BestScores(list: seq<Candidate>, id: string, o: Options, from: Option<(real, real)>): Option<(real, real)> {
    if list == [] then from
    else
      var c, before := list[|list| - 1], BestScores(list[..|list| - 1], id, o, from);
      if !Counts(c, o) || c.chunkId != id then before
      else if before.None? then Some((c.lexicalScore, c.vectorScore))
      else Some((Greater(before.value.0, c.lexicalScore), Greater(before.value.1, c.vectorScore)))
  }

  function ScoresOf(m: Merged, id: string): Option<(real, real)> {
    if id in m.entries then Some((m.entries[id].candidate.lexicalScore, m.entries[id].candidate.vectorScore)) else None
  }

  lemma {:induction false} MergeChannelScores(m: Merged, list: seq<Candidate>, channel: Channel, o: Options, id: string)
    ensures ScoresOf(MergeChannel(m, list, channel, o), id) == BestScores(list, id, o, ScoresOf(m, id))
  {
    if list != [] {
      MergeChannelScores(m, list[..|list| - 1], channel, o, id);
    }
  }

  /** No occurrence exceeds the best scores. */
  lemma {:induction false} BestScoresBound(list: seq<Candidate>, id: string, o: Options, from: Option<(real, real)>,
                                          i: nat)
    requires i < |list| && Counts(list[i], o) && list[i].chunkId == id
    ensures BestScores(list, id, o, from).Some?
    ensures BestScores(list, id, o, from).value.0 >= list[i].lexicalScore
    ensures BestScores(list, id, o, from).value.1 >= list[i].vectorScore
    decreases |list|
  {
    if i < |list| - 1 {
      BestScoresBound(list[..|list| - 1], id, o, from, i);
    }
  }

  lemma {:induction false} BestScoresStart(list: seq<Candidate>, id: string, o: Options, from: Option<(real, real)>)
    requires from.Some?
    ensures BestScores(list, id, o, from).Some?
    ensures BestScores(list, id, o, from).value.0 >= from.value.0
    ensures BestScores(list, id, o, from).value.1 >= from.value.1
  {
    if list != [] {
      BestScoresStart(list[..|list| - 1], id, o, from);
    }
  }

  /** A merged chunk carries the greatest lexical and vector scores of its places in both channels. */
  lemma MergedScoresAreBest(lexical: seq<Candidate>, vector: seq<Candidate>, o: Options, list: seq<Candidate>, i: nat)
    requires list in {lexical, vector} && i < |list| && Counts(list[i], o)
    ensures var e := Merge(lexical, vector, o).entries; var id := list[i].chunkId;
            && id in e && e[id].candidate.lexicalScore >= list[i].lexicalScore
            && e[id].candidate.vectorScore >= list[i].vectorScore
    ensures ScoresOf(Merge(lexical, vector, o), list[i].chunkId)
         == BestScores(vector, list[i].chunkId, o, BestScores(lexical, list[i].chunkId, o, None))
  {
    var id := list[i].chunkId;
    var first := BestScores(lexical, id, o, None);
    MergeChannelScores(Merged([], map[]), lexical, Lexical, o, id);
    MergeChannelScores(MergeChannel(Merged([], map[]), lexical, Lexical, o), vector, Vector, o, id);
    if list == lexical {
      BestScoresBound(lexical, id, o, None, i);
      BestScoresStart(vector, id, o, first);
    } else {
      BestScoresBound(vector, id, o, first, i);
    }
  }

  /** Every listed chunk has an entry. */
  lemma ListedHasEntry(lexical: seq<Candidate>, vector: seq<Candidate>, o: Options, g: Signals, id: string)
    requires Listed(lexical, id, o) || Listed(vector, id, o)
    ensures exists x :: IsEntry(lexical, vector, o, g, x) && x.candidate.chunkId == id
  {
    MergeIsRankFusion(lexical, vector, o, id);
    var m := Merge(lexical, vector, o);
    assert id in m.order;
    var i :| 0 <= i < |m.order| && m.order[i] == id;
    assert IsEntry(lexical, vector, o, g, Values(m, g)[i]);
  }

  /** Where an entry stands in the fused list. */
  lemma Place(lexical: seq<Candidate>, vector: seq<Candidate>, o: Options, g: Signals, x: Entry) returns (i: nat)
    requires IsEntry(lexical, vector, o, g, x)
    ensures i < |Fused(lexical, vector, o, g)| && Fused(lexical, vector, o, g)[i] == x
  {
    SortByMembers(FusionLe, Values(Merge(lexical, vector, o), g));
    i :| 0 <= i < |Fused(lexical, vector, o, g)| && Fused(lexical, vector, o, g)[i] == x;
  }

  /**
   A reranker that raised leaves the hits as they are without one, and then nothing better is
   left out: every entry is either returned or worse than all returned ones, and there are as
   many hits as the limit allows.
   */
  lemma NothingBetterIsOmitted(lexical: seq<Candidate>, vector: seq<Candidate>, o: Options, g: Signals,
                               rr: Reranking, limit: int, x: Entry)
    requires !rr.Scored? && IsEntry(lexical, vector, o, g, x)
    ensures SearchHits(lexical, vector, o, g, rr, limit).Ok?
    ensures SearchHits(lexical, vector, o, g, rr, limit) == SearchHits(lexical, vector, o, g, Absent, limit)
    ensures var hits := SearchHits(lexical, vector, o, g, rr, limit).value;
            && (Shows(hits, x.candidate.chunkId) || (|hits| == Requested(limit)
                                                     && forall i | 0 <= i < |hits| :: Better(hits[i], x)))
  {
    var fused, n := Fused(lexical, vector, o, g), Requested(limit);
    var hits := SearchHits(lexical, vector, o, g, rr, limit).value;
    FusedIsSorted(lexical, vector, o, g);
    assert hits == HitsOf(Take(fused, n));
    var at := Place(lexical, vector, o, g, x);
    if at < n {
      assert hits[at].candidate.chunkId == x.candidate.chunkId;
    } else {
      forall i | 0 <= i < |hits| ensures Better(hits[i], x) {
        EarlierIsBetter(fused, i, at);
      }
    }
  }

  /** Without a reranker a chunk listed in either channel is left out only when the limit is used up. */
  lemma ListedIsReturned(lexical: seq<Candidate>, vector: seq<Candidate>, o: Options, g: Signals,
                         rr: Reranking, limit: int, id: string)
    requires !rr.Scored? && (Listed(lexical, id, o) || Listed(vector, id, o))
    ensures SearchHits(lexical, vector, o, g, rr, limit).Ok?
    ensures Shows(SearchHits(lexical, vector, o, g, rr, limit).value, id)
            || |SearchHits(lexical, vector, o, g, rr, limit).value| == Requested(limit)
  {
    ListedHasEntry(lexical, vector, o, g, id);
    var x :| IsEntry(lexical, vector, o, g, x) && x.candidate.chunkId == id;
    NothingBetterIsOmitted(lexical, vector, o, g, rr, limit, x);
  }

  /* ---------- dominance ---------- */

  /** No chunk is listed twice. */
  ghost predicate Once(list: seq<Candidate>) {
    forall i, j | 0 <= i < j < |list| :: list[i].chunkId != list[j].chunkId
  }

  /** The chunk's place in the channel. */
  predicate At(list: seq<Candidate>, i: nat, id: string, o: Options)
    requires i < |list|
  {
    Counts(list[i], o) && list[i].chunkId == id
  }

  lemma {:induction false} RankSumOf(list: seq<Candidate>, id: string, o: Options)
    requires Once(list)
    ensures !Listed(list, id, o) ==> RankSum(list, id, o) == 0.0
    ensures forall i | 0 <= i < |list| && At(list, i, id, o) :: RankSum(list, id, o) == Share(o, i + 1)
  {
    if list != [] {
      var n := |list| - 1;
      var front := list[..n];
      assert forall i :: 0 <= i < n ==> front[i] == list[i] && At(front, i, id, o) == At(list, i, id, o);
      RankSumOf(front, id, o);
      ListedStep(list, id, o);
    }
  }

  /** `a` comes before `b` in the channel, or `b` is not there. */
  ghost predicate Leads(list: seq<Candidate>, a: string, b: string, o: Options) {
    !Listed(list, b, o)
    || exists i, j | 0 <= i < j < |list| :: At(list, i, a, o) && At(list, j, b, o)
  }

  lemma ShareFalls(o: Options, p: nat, q: nat)
    requires 1 <= p < q
    ensures Share(o, p) > Share(o, q) > 0.0
  {
    var x, y := (o.rrfConstant + p) as real, (o.rrfConstant + q) as real;
    assert 0.0 < x < y;
    assert 1.0 / x - 1.0 / y == (y - x) / (x * y) by {
      assert x * y > 0.0;
      assert (1.0 / x - 1.0 / y) * (x * y) == y - x by {
        assert (1.0 / x) * x == 1.0 && (1.0 / y) * y == 1.0;
      }
    }
  }

  lemma LeadsScoresMore(list: seq<Candidate>, a: string, b: string, o: Options)
    requires Once(list) && Leads(list, a, b, o)
    ensures RankSum(list, a, o) >= RankSum(list, b, o)
    ensures Listed(list, a, o) ==> RankSum(list, a, o) > RankSum(list, b, o)
  {
    RankSumOf(list, a, o);
    RankSumOf(list, b, o);
    if Listed(list, b, o) {
      var i: nat, j: nat :| 0 <= i < j < |list| && At(list, i, a, o) && At(list, j, b, o);
      ShareFalls(o, i + 1, j + 1);
    } else if Listed(list, a, o) {
      var i :| 0 <= i < |list| && Counts(list[i], o) && list[i].chunkId == a;
      assert At(list, i, a, o);
      ShareFalls(o, i + 1, i + 2);
    }
  }

  ghost predicate ShownBefore(hits: seq<Hit>, id: string, rank: nat) {
    exists i :: 0 <= i < |hits| && hits[i].candidate.chunkId == id && hits[i].rank < rank
  }

  /**
   A chunk that leads another in both channels, with at least its bonus, is never ranked after
   it: if the other one is returned so is the leader, with a smaller rank.
   */
  lemma DominanceIsRespected(lexical: seq<Candidate>, vector: seq<Candidate>, o: Options, g: Signals, rr: Reranking,
                             limit: int, x: Entry, y: Entry)
    requires !rr.Scored? && Once(lexical) && Once(vector)
    requires IsEntry(lexical, vector, o, g, x) && IsEntry(lexical, vector, o, g, y)
    requires Leads(lexical, x.candidate.chunkId, y.candidate.chunkId, o)
    requires Leads(vector, x.candidate.chunkId, y.candidate.chunkId, o)
    requires Bonus(g, x.candidate.text) >= Bonus(g, y.candidate.text)
    ensures var hits := SearchHits(lexical, vector, o, g, rr, limit).value;
            forall j | 0 <= j < |hits| && hits[j].candidate.chunkId == y.candidate.chunkId ::
              ShownBefore(hits, x.candidate.chunkId, hits[j].rank)
  {
    var hits := SearchHits(lexical, vector, o, g, rr, limit).value;
    var fused := Fused(lexical, vector, o, g);
    FusedIsSorted(lexical, vector, o, g);
    EntryFusion(lexical, vector, o, g, x);
    EntryFusion(lexical, vector, o, g, y);
    LeadsScoresMore(lexical, x.candidate.chunkId, y.candidate.chunkId, o);
    LeadsScoresMore(vector, x.candidate.chunkId, y.candidate.chunkId, o);
    assert x.fusion > y.fusion;
    var px := Place(lexical, vector, o, g, x);
    var py := Place(lexical, vector, o, g, y);
    EarlierIsBetter(fused, px, py);
    forall j | 0 <= j < |hits| && hits[j].candidate.chunkId == y.candidate.chunkId
      ensures ShownBefore(hits, x.candidate.chunkId, hits[j].rank)
    {
      assert fused[j].candidate.chunkId == y.candidate.chunkId;
      assert j == py;
      assert hits[px].candidate.chunkId == x.candidate.chunkId;
    }
  }

  /* ---------- reranking ---------- */

  /** The pool is the head of the fused list: everything in it beats everything behind it. */
  lemma PoolIsTheHead(lexical: seq<Candidate>, vector: seq<Candidate>, o: Options, g: Signals, x: Entry, y: Entry)
    requires Dictionary(Merge(lexical, vector, o))
    requires x in Pool(Fused(lexical, vector, o, g), o) && IsEntry(lexical, vector, o, g, y)
    requires y !in Pool(Fused(lexical, vector, o, g), o)
    ensures FusionLe(x, y) && !FusionLe(y, x)
  {
    var fused := Fused(lexical, vector, o, g);
    FusedIsSorted(lexical, vector, o, g);
    var i :| 0 <= i < |Pool(fused, o)| && Pool(fused, o)[i] == x;
    var j := Place(lexical, vector, o, g, y);
    assert forall m :: 0 <= m < |Pool(fused, o)| ==> Pool(fused, o)[m] == fused[m];
    EarlierIsBetter(fused, i, j);
  }

  ghost predicate ShowsScored(hits: seq<Hit>, x: Entry, score: real) {
    exists i :: 0 <= i < |hits| && hits[i].candidate == x.candidate && hits[i].rerankerScore == Some(score)
  }

  ghost predicate FromPool(h: Hit, pool: seq<Entry>, scores: seq<real>)
    requires |pool| == |scores|
  {
    exists m :: 0 <= m < |pool| && h.candidate == pool[m].candidate && h.rerankerScore == Some(scores[m])
  }

  lemma TopOfPool(pool: seq<Entry>, scores: seq<real>, n: nat, k: nat)
    requires k < |scores| == |pool|
    ensures var hits := HitsOf(Take(SortBy(RerankLe, WithScores(pool, scores)), n));
            && (forall i | 0 <= i < |hits| :: FromPool(hits[i], pool, scores))
            && (ShowsScored(hits, pool[k], scores[k])
                || forall i | 0 <= i < |hits| :: RerankLe(EntryOf(hits[i]), pool[k].(rerankerScore := Some(scores[k]))))
  {
    var scored := WithScores(pool, scores);
    var ranked := SortBy(RerankLe, scored);
    var hits := HitsOf(Take(ranked, n));
    SearchKeyOrders();
    SortBySorts(RerankLe, scored);
    SortByMembers(RerankLe, scored);
    forall i | 0 <= i < |hits| ensures FromPool(hits[i], pool, scores) {
      assert ranked[i] in ranked;
      var m :| 0 <= m < |scored| && scored[m] == ranked[i];
      assert hits[i].candidate == pool[m].candidate;
    }
    assert scored[k] in ranked;
    var at :| 0 <= at < |ranked| && ranked[at] == scored[k];
    if at < |hits| {
      assert hits[at].candidate == pool[k].candidate;
    }
  }

  /**
   With a reranker the hits are the best of the pool by reranker score, then by fusion: each
   pool entry is returned with its own score or is no better than any hit, and no chunk from
   outside the pool is returned, even when the limit would leave room.
   */
  lemma RerankedTop(lexical: seq<Candidate>, vector: seq<Candidate>, o: Options, g: Signals, scores: seq<real>,
                    limit: int, k: nat)
    requires Dictionary(Merge(lexical, vector, o)) && Fused(lexical, vector, o, g) != []
    requires |scores| == |Pool(Fused(lexical, vector, o, g), o)| && k < |scores|
    ensures SearchHits(lexical, vector, o, g, Scored(scores), limit).Ok?
    ensures var pool := Pool(Fused(lexical, vector, o, g), o);
            var hits := SearchHits(lexical, vector, o, g, Scored(scores), limit).value;
            && |hits| == (if Requested(limit) <= |pool| then Requested(limit) else |pool|)
            && (forall i | 0 <= i < |hits| :: FromPool(hits[i], pool, scores))
            && (ShowsScored(hits, pool[k], scores[k])
                || forall i | 0 <= i < |hits| :: RerankLe(EntryOf(hits[i]), pool[k].(rerankerScore := Some(scores[k]))))
  {
    TopOfPool(Pool(Fused(lexical, vector, o, g), o), scores, Requested(limit), k);
  }
}
