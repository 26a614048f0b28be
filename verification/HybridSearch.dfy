/**
 `HybridRagSearchService.search`: merge a lexical and a vector result list by reciprocal rank,
 add bonuses, sort, optionally rerank the head of the list, and cut to the requested length.
 Scores are reals; the term matchers behind the bonus are parameters.
 */
module HybridSearch {
  import opened Wrappers
  import opened Ordering
  import opened Texts

  datatype Candidate = Candidate(chunkId: string, docId: string, superseded: bool, text: string,
                                 lexicalScore: real, vectorScore: real)

  datatype Channel = Lexical | Vector

  datatype Entry = Entry(candidate: Candidate, fusion: real, lexicalRank: Option<nat>, vectorRank: Option<nat>,
                         rerankerScore: Option<real>)

  /** A dictionary with its insertion order. */
  datatype Merged = Merged(order: seq<string>, entries: map<string, Entry>)

  datatype Options = Options(rrfConstant: nat, rerankCandidates: int, includeSuperseded: bool)

  /* ---------- merging ---------- */

  function Greater(a: real, b: real): real {
    if b > a then b else a
  }

  predicate Counts(c: Candidate, o: Options) {
    !c.superseded || o.includeSuperseded
  }

  function Share(o: Options, position: nat): real
    requires position >= 1
  {
    1.0 / (o.rrfConstant + position) as real
  }

  /** Credit the entry for a candidate found at `position` of a channel. */
  function Credit(e: Entry, c: Candidate, position: nat, channel: Channel, o: Options): Entry
    requires position >= 1
  {
    var scored := e.candidate.(lexicalScore := Greater(e.candidate.lexicalScore, c.lexicalScore),
                               vectorScore := Greater(e.candidate.vectorScore, c.vectorScore));
    var credited := e.(candidate := scored, fusion := e.fusion + Share(o, position));
    if channel == Lexical then credited.(lexicalRank := Some(position)) else credited.(vectorRank := Some(position))
  }

  function MergeOne(m: Merged, c: Candidate, position: nat, channel: Channel, o: Options): Merged
    requires position >= 1
  {
    if !Counts(c, o) then m
    else if c.chunkId in m.entries then
      m.(entries := m.entries[c.chunkId := Credit(m.entries[c.chunkId], c, position, channel, o)])
    else
      Merged(m.order + [c.chunkId],
             m.entries[c.chunkId := Credit(Entry(c, 0.0, None, None, None), c, position, channel, o)])
  }

  function MergeChannel(m: Merged, list: seq<Candidate>, channel: Channel, o: Options): Merged {
    if list == [] then m
    else MergeOne(MergeChannel(m, list[..|list| - 1], channel, o), list[|list| - 1], |list|, channel, o)
  }

  function Merge(lexical: seq<Candidate>, vector: seq<Candidate>, o: Options): Merged {
    MergeChannel(MergeChannel(Merged([], map[]), lexical, Lexical, o), vector, Vector, o)
  }

  method MergeLoop(m: Merged, list: seq<Candidate>, channel: Channel, o: Options) returns (merged: Merged)
    ensures merged == MergeChannel(m, list, channel, o)
  {
    var order, entries := m.order, m.entries;
    for i := 0 to |list|
      invariant Merged(order, entries) == MergeChannel(m, list[..i], channel, o)
    {
      assert list[..i + 1][..i] == list[..i];
      var c := list[i];
      if c.superseded && !o.includeSuperseded {
        continue;
      }
      if c.chunkId !in entries {
        order, entries := order + [c.chunkId], entries[c.chunkId := Entry(c, 0.0, None, None, None)];
      }
      entries := entries[c.chunkId := Credit(entries[c.chunkId], c, i + 1, channel, o)];
    }
    assert list[..|list|] == list;
    merged := Merged(order, entries);
  }

  /** A dictionary lists every key once. */
  ghost predicate Dictionary(m: Merged) {
    && (forall i, j | 0 <= i < j < |m.order| :: m.order[i] != m.order[j])
    && (forall k :: k in m.order <==> k in m.entries)
    && (forall k :: k in m.entries ==> m.entries[k].candidate.chunkId == k)
  }

  /** The reciprocal ranks of a chunk's places in a list. */
  function RankSum(list: seq<Candidate>, id: string, o: Options): real {
    if list == [] then 0.0
    else
      var c := list[|list| - 1];
      RankSum(list[..|list| - 1], id, o) + if Counts(c, o) && c.chunkId == id then Share(o, |list|) else 0.0
  }

  predicate Listed(list: seq<Candidate>, id: string, o: Options) {
    exists i :: 0 <= i < |list| && Counts(list[i], o) && list[i].chunkId == id
  }

  function FusionOf(m: Merged, id: string): real {
    if id in m.entries then m.entries[id].fusion else 0.0
  }

  lemma ListedStep(list: seq<Candidate>, id: string, o: Options)
    requires list != []
    ensures Listed(list, id, o) <==> Listed(list[..|list| - 1], id, o)
                                     || (Counts(list[|list| - 1], o) && list[|list| - 1].chunkId == id)
  {
    var front := list[..|list| - 1];
    assert forall i :: 0 <= i < |front| ==> front[i] == list[i];
  }

  lemma {:induction false} MergeChannelSums(m: Merged, list: seq<Candidate>, channel: Channel, o: Options, id: string)
    ensures id in MergeChannel(m, list, channel, o).entries <==> id in m.entries || Listed(list, id, o)
    ensures FusionOf(MergeChannel(m, list, channel, o), id) == FusionOf(m, id) + RankSum(list, id, o)
  {
    if list != [] {
      MergeChannelSums(m, list[..|list| - 1], channel, o, id);
      ListedStep(list, id, o);
    }
  }

  lemma {:induction false} MergeChannelIsDictionary(m: Merged, list: seq<Candidate>, channel: Channel, o: Options)
    requires Dictionary(m)
    ensures Dictionary(MergeChannel(m, list, channel, o))
  {
    if list != [] {
      MergeChannelIsDictionary(m, list[..|list| - 1], channel, o);
    }
  }

  /**
   Merging is reciprocal-rank fusion: the chunks are those listed in either channel, each once,
   and a chunk's score is the sum of its reciprocal ranks.
   */
  lemma MergeIsRankFusion(lexical: seq<Candidate>, vector: seq<Candidate>, o: Options, id: string)
    ensures Dictionary(Merge(lexical, vector, o))
    ensures id in Merge(lexical, vector, o).entries <==> Listed(lexical, id, o) || Listed(vector, id, o)
    ensures FusionOf(Merge(lexical, vector, o), id) == RankSum(lexical, id, o) + RankSum(vector, id, o)
  {
    var first := MergeChannel(Merged([], map[]), lexical, Lexical, o);
    MergeChannelIsDictionary(Merged([], map[]), lexical, Lexical, o);
    MergeChannelIsDictionary(first, vector, Vector, o);
    MergeChannelSums(Merged([], map[]), lexical, Lexical, o, id);
    MergeChannelSums(first, vector, Vector, o, id);
  }

  /* ---------- bonus and ranking ---------- */

  /** How many exact terms and Chinese phrases of the query a text holds. */
  datatype Signals = Signals(exact: string -> nat, overlap: string -> nat)

  function Bonus(g: Signals, text: string): real {
    var phrases := 0.004 * g.overlap(text) as real;
    0.02 * g.exact(text) as real + if phrases < 0.04 then phrases else 0.04
  }

  function Boosted(e: Entry, g: Signals): Entry {
    e.(fusion := e.fusion + Bonus(g, e.candidate.text))
  }

  function Values(m: Merged, g: Signals): seq<Entry>
    requires Dictionary(m)
  {
    seq(|m.order|, i requires 0 <= i < |m.order| => Boosted(m.entries[m.order[i]], g))
  }

  predicate FusionLe(x: Entry, y: Entry) {
    if x.fusion != y.fusion then x.fusion > y.fusion
    else if x.candidate.docId != y.candidate.docId then StringLe(x.candidate.docId, y.candidate.docId)
    else StringLe(x.candidate.chunkId, y.candidate.chunkId)
  }

  predicate RerankLe(x: Entry, y: Entry) {
    if x.rerankerScore.GetOr(0.0) != y.rerankerScore.GetOr(0.0) then
      x.rerankerScore.GetOr(0.0) > y.rerankerScore.GetOr(0.0)
    else FusionLe(x, y)
  }

  /** What the reranker did: not configured, raised, or scored the pool. */
  datatype Reranking = Absent | Unavailable | Scored(scores: seq<real>)

  function Take<T>(s: seq<T>, n: nat): seq<T> {
    if n <= |s| then s[..n] else s
  }

  function Pool(fused: seq<Entry>, o: Options): seq<Entry> {
    Take(fused, if o.rerankCandidates > 1 then o.rerankCandidates else 1)
  }

  function WithScores(pool: seq<Entry>, scores: seq<real>): seq<Entry>
    requires |pool| == |scores|
  {
    seq(|pool|, i requires 0 <= i < |pool| => pool[i].(rerankerScore := Some(scores[i])))
  }

  /** The order of the results; a score list of the wrong length raises. */
  function Ranking(fused: seq<Entry>, o: Options, rr: Reranking): Result<seq<Entry>> {
    if !rr.Scored? || fused == [] then Ok(fused)
    else if |rr.scores| != |Pool(fused, o)| then Err("zip_length")
    else Ok(SortBy(RerankLe, WithScores(Pool(fused, o), rr.scores)))
  }

  datatype Hit = Hit(rank: nat, candidate: Candidate, fusion: real, rerankerScore: Option<real>)

  function HitsOf(ranked: seq<Entry>): seq<Hit> {
    seq(|ranked|, i requires 0 <= i < |ranked| =>
      Hit(i + 1, ranked[i].candidate, ranked[i].fusion, ranked[i].rerankerScore))
  }

  function Requested(limit: int): nat {
    if limit < 1 then 1 else if limit > 20 then 20 else limit
  }

  function Fused(lexical: seq<Candidate>, vector: seq<Candidate>, o: Options, g: Signals): seq<Entry>
    requires Dictionary(Merge(lexical, vector, o))
  {
    SortBy(FusionLe, Values(Merge(lexical, vector, o), g))
  }

  ghost function SearchHits(lexical: seq<Candidate>, vector: seq<Candidate>, o: Options, g: Signals, rr: Reranking,
                            limit: int): Result<seq<Hit>> {
    MergeIsRankFusion(lexical, vector, o, "");
    var ranked := Ranking(Fused(lexical, vector, o, g), o, rr);
    if ranked.Err? then Err(ranked.error) else Ok(HitsOf(Take(ranked.value, Requested(limit))))
  }

  /** The bonus loop. */
  method BonusLoop(m: Merged, g: Signals) returns (values: seq<Entry>)
    requires Dictionary(m)
    ensures values == Values(m, g)
  {
    values := [];
    for i := 0 to |m.order|
      invariant values == Values(m, g)[..i]
    {
      assert m.order[i] in m.order;
      var e := m.entries[m.order[i]];
      values := values + [e.(fusion := e.fusion + Bonus(g, e.candidate.text))];
    }
  }

  /** The loop that builds the results. */
  method HitLoop(ranked: seq<Entry>) returns (hits: seq<Hit>)
    ensures hits == HitsOf(ranked)
  {
    hits := [];
    for i := 0 to |ranked|
      invariant hits == HitsOf(ranked)[..i]
    {
      hits := hits + [Hit(i + 1, ranked[i].candidate, ranked[i].fusion, ranked[i].rerankerScore)];
    }
  }

  const FALLBACK_WARNING := "reranker_unavailable_fusion_fallback"

  datatype Response = Response(hits: seq<Hit>, warnings: seq<string>)

  /** `search`, given what the two repository queries and the reranker return. */
  method Search(query: string, lexical: seq<Candidate>, vector: seq<Candidate>, o: Options, g: Signals,
                rr: Reranking, limit: int) returns (r: Result<Response>)
    ensures AllBlank(query) ==> r == Ok(Response([], ["empty_query"]))
    ensures !AllBlank(query) ==>
              (r.Ok? <==> SearchHits(lexical, vector, o, g, rr, limit).Ok?)
              && (r.Ok? ==> r.value.hits == SearchHits(lexical, vector, o, g, rr, limit).value)
    ensures !AllBlank(query) && r.Ok? ==>
              r.value.warnings == if rr.Unavailable? && r.value.hits != [] then [FALLBACK_WARNING] else []
  {
    if AllBlank(query) {
      return Ok(Response([], ["empty_query"]));
    }
    var merged := MergeLoop(Merged([], map[]), lexical, Lexical, o);
    merged := MergeLoop(merged, vector, Vector, o);
    MergeIsRankFusion(lexical, vector, o, "");
    var values := BonusLoop(merged, g);
    var fused := SortBy(FusionLe, values);
    var warnings, ranked := [], fused;
    if !rr.Absent? && fused != [] {
      var pool := Pool(fused, o);
      if rr.Unavailable? {
        warnings := [FALLBACK_WARNING];
      } else {
        if |rr.scores| != |pool| {
          return Err("zip_length");
        }
        ranked := SortBy(RerankLe, WithScores(pool, rr.scores));
      }
    }
    var hits := HitLoop(Take(ranked, Requested(limit)));
    r := Ok(Response(hits, warnings));
  }
}
