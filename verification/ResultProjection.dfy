/**
 `bounded_tool_result`: a tool result too long for the model is replaced by a pointer, or, for
 search results, by a compacted copy that keeps the first hits and shortens their texts until
 the serialised value fits. Values are JSON; what matters of serialising is its length.
 */
module ResultProjection {
  import opened Wrappers
  import opened Texts

  const MODEL_TOOL_RESULT_LIMIT := 6000
  const RAG_COMPACT_TARGET := 5600
  const RAG_HIT_TEXT_LIMIT := 900
  const RAG_MAX_HITS := 6

  /* ---------- JSON and its serialised length ---------- */

  /** Objects keep their fields in order; a number is its literal. */
  datatype Json = Null | Bool(value: bool) | Num(literal: string) | Str(text: string)
                | Arr(items: seq<Json>) | Obj(fields: seq<Field>)

  datatype Field = Field(key: string, value: Json)

  function CharLen(c: char): nat {
    if c == '"' || c == '\\' || c == '\n' || c == '\r' || c == '\t' || c == '\U{8}' || c == '\U{C}' then 2
    else if c < ' ' then 6
    else 1
  }

  function StringLen(s: string): nat {
    if s == "" then 2 else StringLen(s[..|s| - 1]) + CharLen(s[|s| - 1])
  }

  /** The length of the compact serialisation. */
  function Len(j: Json): nat
    decreases j, 1
  {
    match j
    case Null => 4
    case Bool(b) => if b then 4 else 5
    case Num(literal) => |literal|
    case Str(s) => StringLen(s)
    case Arr(items) => 2 + ItemsLen(items)
    case Obj(fields) => 2 + FieldsLen(fields)
  }

  function ItemsLen(items: seq<Json>): nat
    decreases items, 0
  {
    if items == [] then 0
    else ItemsLen(items[..|items| - 1]) + (if |items| > 1 then 1 else 0) + Len(items[|items| - 1])
  }

  function FieldsLen(fields: seq<Field>): nat
    decreases fields, 0
  {
    if fields == [] then 0
    else
      var last := fields[|fields| - 1];
      FieldsLen(fields[..|fields| - 1]) + (if |fields| > 1 then 1 else 0) + StringLen(last.key) + 1 + Len(last.value)
  }

  /** `dict.get`: null when the key is missing. */
  function Get(fields: seq<Field>, key: string): Json {
    if fields == [] then Null
    else if fields[|fields| - 1].key == key then fields[|fields| - 1].value
    else Get(fields[..|fields| - 1], key)
  }

  predicate Falsy(j: Json) {
    match j
    case Null => true
    case Bool(b) => !b
    case Num(literal) => forall i :: 0 <= i < |literal| ==> literal[i] in "0.-"
    case Str(s) => s == ""
    case Arr(items) => items == []
    case Obj(fields) => fields == []
  }

  /** Python's `str`, with `show` for what is not a string. */
  function Text(j: Json, show: Json -> string): string {
    if j.Str? then j.text else show(j)
  }

  /* ---------- projecting a hit ---------- */

  const HIT_KEYS := ["rank", "title", "heading", "document_id", "chunk_id", "version", "status", "source_ref",
                     "reranker_score", "relevance_score"]

  const CITATION_KEYS := ["document_id", "chunk_id", "source_ref", "version", "content_hash", "heading",
                          "line_start", "line_end"]

  function Pick(fields: seq<Field>, keys: seq<string>): seq<Field> {
    if keys == [] then []
    else
      var last := keys[|keys| - 1];
      Pick(fields, keys[..|keys| - 1]) + if Get(fields, last).Null? then [] else [Field(last, Get(fields, last))]
  }

  function Clip(value: string, limit: nat): string {
    if |value| <= limit then value
    else RStrip(value[..if limit > 3 then limit - 3 else 0]) + "..."
  }

  datatype Projected = Projected(head: seq<Field>, text: string, tail: seq<Field>)

  function HitText(hit: Json, show: Json -> string): string
    requires hit.Obj?
  {
    var text := Get(hit.fields, "text");
    if Falsy(text) then "" else Text(text, show)
  }

  function Project(hit: Json, limit: nat, show: Json -> string): Projected
    requires hit.Obj?
  {
    var citation := Get(hit.fields, "citation");
    Projected(Pick(hit.fields, HIT_KEYS), Clip(HitText(hit, show), limit),
              if citation.Obj? then [Field("citation", Obj(Pick(citation.fields, CITATION_KEYS)))] else [])
  }

  function HitJson(p: Projected): Json {
    Obj(p.head + [Field("text", Str(p.text))] + p.tail)
  }

  function HitsJson(ps: seq<Projected>): seq<Json> {
    seq(|ps|, i requires 0 <= i < |ps| => HitJson(ps[i]))
  }

  /* ---------- the compacted value ---------- */

  /** The parts of a compacted value around the hits. */
  datatype Frame = Frame(pointer: seq<Field>, status: Json, quality: Json, total: nat)

  function CountField(count: Option<nat>): seq<Field> {
    if count.None? then [] else [Field("returned_hit_count", Num(Decimal(count.value)))]
  }

  /** The inner result: the kept hits and, once known, their number. */
  function Inner(f: Frame, hits: seq<Projected>, count: Option<nat>): seq<Field> {
    [Field("status", f.status), Field("quality", f.quality), Field("data", Arr(HitsJson(hits))),
     Field("original_hit_count", Num(Decimal(f.total)))] + CountField(count)
  }

  function CompactedJson(f: Frame, hits: seq<Projected>, count: Option<nat>): Json {
    Obj(f.pointer + [Field("compaction", Str("rag_chunks")), Field("result", Obj(Inner(f, hits, count)))])
  }

  predicate Fits(f: Frame, hits: seq<Projected>, count: Option<nat>) {
    Len(CompactedJson(f, hits, count)) <= RAG_COMPACT_TARGET
  }

  /** The collecting loop: dictionary hits in order, up to the first that does not fit. */
  function Collect(f: Frame, hits: seq<Json>, kept: seq<Projected>, show: Json -> string): seq<Projected>
    decreases |hits|
  {
    if hits == [] then kept
    else if !hits[0].Obj? then Collect(f, hits[1..], kept, show)
    else
      var longer := kept + [Project(hits[0], RAG_HIT_TEXT_LIMIT, show)];
      if Fits(f, longer, None) then Collect(f, hits[1..], longer, show) else kept
  }

  function Halved(n: nat): nat {
    if n / 2 > 120 then n / 2 else 120
  }

  lemma ClipIsShorter(text: string)
    requires |text| > 120
    ensures |Clip(text, Halved(|text|))| < |text|
  {
  }

  /** The shrinking loop: drop hits, then halve the last one's text; none when that is not enough. */
  function Shrink(f: Frame, hits: seq<Projected>): Option<seq<Projected>>
    decreases |hits|, if hits == [] then 0 else |hits[0].text|
  {
    if Fits(f, hits, Some(|hits|)) || hits == [] then Some(hits)
    else if |hits| > 1 then Shrink(f, hits[..|hits| - 1])
    else if |hits[0].text| <= 120 then None
    else
      ClipIsShorter(hits[0].text);
      Shrink(f, [hits[0].(text := Clip(hits[0].text, Halved(|hits[0].text|)))])
  }

  function Head(hits: seq<Json>): seq<Json> {
    if |hits| <= RAG_MAX_HITS then hits else hits[..RAG_MAX_HITS]
  }

  /** `_compact_rag_result` on a non-empty list of hits. */
  function CompactHits(f: Frame, hits: seq<Json>, show: Json -> string): Option<seq<Projected>>
    requires hits != []
  {
    var collected := Collect(f, Head(hits), [], show);
    if collected != [] then Shrink(f, collected)
    else if !hits[0].Obj? then None
    else Shrink(f, [Project(hits[0], 240, show)])
  }

  method CompactLoop(f: Frame, hits: seq<Json>, show: Json -> string) returns (r: Option<seq<Projected>>)
    requires hits != []
    ensures r == CompactHits(f, hits, show)
  {
    var head := Head(hits);
    var kept := [];
    for i := 0 to |head|
      invariant Collect(f, head[i..], kept, show) == Collect(f, head, [], show)
    {
      assert head[i..][1..] == head[i + 1..];
      if !head[i].Obj? {
        continue;
      }
      var longer := kept + [Project(head[i], RAG_HIT_TEXT_LIMIT, show)];
      if !Fits(f, longer, None) {
        assert Collect(f, head, [], show) == kept;
        break;
      }
      kept := longer;
    }
    assert kept == Collect(f, head, [], show);
    if kept == [] {
      if !hits[0].Obj? {
        return None;
      }
      kept := [Project(hits[0], 240, show)];
    }
    while !Fits(f, kept, Some(|kept|)) && kept != []
      invariant Shrink(f, kept) == CompactHits(f, hits, show)
      decreases |kept|, if kept == [] then 0 else |kept[0].text|
    {
      if |kept| > 1 {
        kept := kept[..|kept| - 1];
        continue;
      }
      if |kept[0].text| <= 120 {
        return None;
      }
      ClipIsShorter(kept[0].text);
      kept := [kept[0].(text := Clip(kept[0].text, Halved(|kept[0].text|)))];
    }
    r := Some(kept);
  }

  /* ---------- the bounded result ---------- */

  function SourceRef(result: seq<Field>, show: Json -> string): string {
    var observation, evidence := Get(result, "observation_id"), Get(result, "evidence_id");
    if !Falsy(observation) then "observation:" + Text(observation, show)
    else if !Falsy(evidence) then "evidence:" + Text(evidence, show)
    else "tool-result:unpersisted"
  }

  function PointerTo(result: seq<Field>, show: Json -> string): seq<Field> {
    [Field("tool_id", Get(result, "tool_id")), Field("status", Get(result, "status")),
     Field("observation_id", Get(result, "observation_id")), Field("evidence_id", Get(result, "evidence_id")),
     Field("truncated", Bool(true)), Field("source_ref", Str(SourceRef(result, show))),
     Field("original_characters", Num(Decimal(Len(Obj(result)))))]
  }

  /** The hits of a search result, none when the result has another shape. */
  function SearchHitsOf(result: seq<Field>): Option<seq<Json>> {
    var inner := Get(result, "result");
    if !inner.Obj? then None
    else
      var data := Get(inner.fields, "data");
      if !data.Arr? || data.items == [] then None else Some(data.items)
  }

  function FrameOf(result: seq<Field>, show: Json -> string): Frame
    requires SearchHitsOf(result).Some?
  {
    var inner := Get(result, "result").fields;
    Frame(PointerTo(result, show), Get(inner, "status"), Get(inner, "quality"), |SearchHitsOf(result).value|)
  }

  /** `bounded_tool_result`. */
  function Bounded(result: seq<Field>, show: Json -> string): Json {
    if Len(Obj(result)) <= MODEL_TOOL_RESULT_LIMIT then Obj(result)
    else if Get(result, "tool_id") != Str("search.search_sop") || SearchHitsOf(result).None? then
      Obj(PointerTo(result, show))
    else
      var f := FrameOf(result, show);
      var compacted := CompactHits(f, SearchHitsOf(result).value, show);
      if compacted.None? then Obj(PointerTo(result, show))
      else CompactedJson(f, compacted.value, Some(|compacted.value|))
  }

  /* ---------- theorems ---------- */

  /** The text itself, or a prefix of it and an ellipsis. */
  ghost predicate Shortened(t: string, original: string) {
    t == original || exists k | 0 <= k <= |original| :: t == original[..k] + "..."
  }

  lemma ClipShortens(t: string, original: string, limit: nat)
    requires Shortened(t, original)
    ensures Shortened(Clip(t, limit), original)
  {
    if |t| > limit {
      var cut := if limit > 3 then limit - 3 else 0;
      var k := Trail(t[..cut]);
      assert RStrip(t[..cut]) == t[..k];
      assert t[..k] == original[..k];
    }
  }

  /** The dictionaries among the hits. */
  function Dicts(hits: seq<Json>): seq<Json> {
    if hits == [] then []
    else (if hits[0].Obj? then [hits[0]] else []) + Dicts(hits[1..])
  }

  ghost predicate AllObjects(dicts: seq<Json>) {
    forall i :: 0 <= i < |dicts| ==> dicts[i].Obj?
  }

  function FullProjections(dicts: seq<Json>, n: nat, show: Json -> string): seq<Projected>
    requires n <= |dicts| && AllObjects(dicts)
  {
    seq(n, i requires 0 <= i < n => Project(dicts[i], RAG_HIT_TEXT_LIMIT, show))
  }

  lemma {:induction false} DictsAreObjects(hits: seq<Json>)
    ensures AllObjects(Dicts(hits))
  {
    if hits != [] {
      DictsAreObjects(hits[1..]);
    }
  }

  /** Collecting keeps a prefix of the dictionary hits, stopping only at one that does not fit. */
  lemma {:induction false} CollectTakesPrefix(f: Frame, hits: seq<Json>, before: seq<Json>, show: Json -> string)
    requires AllObjects(before)
    ensures AllObjects(before + Dicts(hits))
    ensures var all, got := before + Dicts(hits), Collect(f, hits, FullProjections(before, |before|, show), show);
            && |before| <= |got| <= |all| && got == FullProjections(all, |got|, show)
            && (|got| < |all| ==> !Fits(f, FullProjections(all, |got| + 1, show), None))
            && (|got| > |before| ==> Fits(f, got, None))
    decreases |hits|
  {
    DictsAreObjects(hits);
    var all, kept := before + Dicts(hits), FullProjections(before, |before|, show);
    if hits == [] {
      assert all == before;
    } else if !hits[0].Obj? {
      assert Dicts(hits) == Dicts(hits[1..]);
      CollectTakesPrefix(f, hits[1..], before, show);
    } else {
      var longer := before + [hits[0]];
      assert all == longer + Dicts(hits[1..]);
      assert kept + [Project(hits[0], RAG_HIT_TEXT_LIMIT, show)] == FullProjections(longer, |longer|, show);
      assert FullProjections(longer, |longer|, show) == FullProjections(all, |longer|, show);
      if Fits(f, FullProjections(longer, |longer|, show), None) {
        CollectTakesPrefix(f, hits[1..], longer, show);
      } else {
        assert kept == FullProjections(all, |kept|, show);
      }
    }
  }

  /** The collecting loop as it is started. */
  lemma CollectedHits(f: Frame, hits: seq<Json>, show: Json -> string)
    ensures AllObjects(Dicts(hits))
    ensures var all, got := Dicts(hits), Collect(f, hits, [], show);
            && |got| <= |all| && got == FullProjections(all, |got|, show)
            && (|got| < |all| ==> !Fits(f, FullProjections(all, |got| + 1, show), None))
            && (got != [] ==> Fits(f, got, None))
  {
    CollectTakesPrefix(f, hits, [], show);
    assert [] + Dicts(hits) == Dicts(hits);
    assert FullProjections([], 0, show) == [];
  }

  /* What one more hit or the count adds to the length. */

  lemma {:induction false} FieldsLenAppend(a: seq<Field>, b: seq<Field>)
    ensures FieldsLen(a + b) == FieldsLen(a) + FieldsLen(b) + (if a == [] || b == [] then 0 else 1)
  {
    if b == [] {
      assert a + b == a;
    } else {
      assert (a + b)[..|a + b| - 1] == a + b[..|b| - 1];
      FieldsLenAppend(a, b[..|b| - 1]);
    }
  }

  lemma OneFieldLen(x: Field)
    ensures FieldsLen([x]) == StringLen(x.key) + 1 + Len(x.value)
  {
    assert [x][..0] == [];
  }

  lemma AroundData(status: Field, quality: Field, data: Field, total: Field, rest: seq<Field>)
    ensures FieldsLen([status, quality, data, total] + rest)
         == FieldsLen([status, quality]) + FieldsLen([data]) + FieldsLen([total]) + 2
            + (if rest == [] then 0 else 1) + FieldsLen(rest)
  {
    assert [status, quality, data, total] + rest == [status, quality] + ([data] + ([total] + rest));
    FieldsLenAppend([status, quality], [data] + ([total] + rest));
    FieldsLenAppend([data], [total] + rest);
    FieldsLenAppend([total], rest);
  }

  /** The length around the hits, the hits, and the count, add up. */
  lemma CompactedLen(f: Frame, hits: seq<Projected>, count: Option<nat>)
    ensures Len(CompactedJson(f, hits, count))
         == Len(CompactedJson(f, [], None)) + ItemsLen(HitsJson(hits)) + FieldsLen(CountField(count))
            + (if count.None? then 0 else 1)
  {
    InnerLen(f, hits, count);
    InnerLen(f, [], None);
    OuterLen(f, hits, count);
    OuterLen(f, [], None);
  }

  lemma InnerLen(f: Frame, hits: seq<Projected>, count: Option<nat>)
    ensures FieldsLen(Inner(f, hits, count))
         == FieldsLen([Field("status", f.status), Field("quality", f.quality)]) + StringLen("data") + 5
            + ItemsLen(HitsJson(hits)) + FieldsLen([Field("original_hit_count", Num(Decimal(f.total)))])
            + (if count.None? then 0 else 1) + FieldsLen(CountField(count))
  {
    AroundData(Field("status", f.status), Field("quality", f.quality), Field("data", Arr(HitsJson(hits))),
               Field("original_hit_count", Num(Decimal(f.total))), CountField(count));
    OneFieldLen(Field("data", Arr(HitsJson(hits))));
  }

  lemma OuterLen(f: Frame, hits: seq<Projected>, count: Option<nat>)
    ensures Len(CompactedJson(f, hits, count))
         == 4 + FieldsLen(f.pointer + [Field("compaction", Str("rag_chunks"))]) + StringLen("result") + 2
            + FieldsLen(Inner(f, hits, count))
  {
    var front := f.pointer + [Field("compaction", Str("rag_chunks"))];
    var inner := Field("result", Obj(Inner(f, hits, count)));
    FieldsLenAppend(front, [inner]);
    OneFieldLen(inner);
    assert CompactedJson(f, hits, count) == Obj(front + [inner]);
  }

  lemma {:induction false} ItemsLenPrefix(a: seq<Json>, b: seq<Json>)
    requires a <= b
    ensures ItemsLen(a) <= ItemsLen(b)
  {
    if a != b {
      assert a <= b[..|b| - 1];
      ItemsLenPrefix(a, b[..|b| - 1]);
    }
  }

  /** What does not fit does not fit with more hits and the count either. */
  lemma UnfitGrows(f: Frame, fewer: seq<Projected>, more: seq<Projected>, count: Option<nat>)
    requires fewer <= more && !Fits(f, fewer, None)
    ensures !Fits(f, more, count)
  {
    CompactedLen(f, fewer, None);
    CompactedLen(f, more, count);
    assert HitsJson(fewer) <= HitsJson(more);
    ItemsLenPrefix(HitsJson(fewer), HitsJson(more));
    assert FieldsLen(CountField(None)) == 0;
  }

  /* The shrinking loop. */

  ghost predicate Retexted(p: Projected, q: Projected, original: string) {
    p.head == q.head && p.tail == q.tail && Shortened(p.text, original)
  }

  /** What is left fits; only the last hit's text was shortened; one hit more would not fit. */
  lemma {:induction false} ShrinkFits(f: Frame, hits: seq<Projected>, original: string)
    requires hits != [] && Shortened(hits[0].text, original)
    ensures Shrink(f, hits).Some? ==>
              var ps := Shrink(f, hits).value;
              && Fits(f, ps, Some(|ps|)) && 1 <= |ps| <= |hits|
              && (|ps| > 1 ==> ps <= hits)
              && Retexted(ps[0], hits[0], original)
              && (|ps| < |hits| ==> !Fits(f, hits[..|ps| + 1], Some(|ps| + 1)))
              && (ps[0] != hits[0] ==> !Fits(f, [hits[0]], Some(1)))
    ensures Shrink(f, hits).None? ==>
              exists p :: Retexted(p, hits[0], original) && |p.text| <= 120 && !Fits(f, [p], Some(1))
    decreases |hits|, |hits[0].text|
  {
    if !Fits(f, hits, Some(|hits|)) {
      if |hits| > 1 {
        var front := hits[..|hits| - 1];
        ShrinkFits(f, front, original);
        assert hits[..|hits|] == hits;
        assert forall n: nat | n <= |front| :: front[..n] == hits[..n];
      } else if |hits[0].text| > 120 {
        ClipIsShorter(hits[0].text);
        ClipShortens(hits[0].text, original, Halved(|hits[0].text|));
        ShrinkFits(f, [hits[0].(text := Clip(hits[0].text, Halved(|hits[0].text|)))], original);
        assert hits == [hits[0]];
      } else {
        assert hits == [hits[0]];
        assert Retexted(hits[0], hits[0], original);
      }
    }
  }

  /* The compacted result. */

  ghost predicate KeepsHits(ps: seq<Projected>, dicts: seq<Json>, show: Json -> string)
    requires AllObjects(dicts)
  {
    && 1 <= |ps| <= |dicts|
    && Retexted(ps[0], Project(dicts[0], RAG_HIT_TEXT_LIMIT, show), HitText(dicts[0], show))
    && (|ps| > 1 ==> ps == FullProjections(dicts, |ps|, show))
  }

  lemma DictsStartWith(hits: seq<Json>)
    requires hits != [] && hits[0].Obj?
    ensures Dicts(Head(hits)) != [] && Dicts(Head(hits))[0] == hits[0]
  {
    assert Head(hits)[0] == hits[0];
  }

  /** The hits fit and are the head of the dictionary hits, and with one more they would not fit. */
  ghost predicate BestHead(f: Frame, ps: seq<Projected>, dicts: seq<Json>, show: Json -> string) {
    && AllObjects(dicts) && Fits(f, ps, Some(|ps|)) && KeepsHits(ps, dicts, show)
    && (|ps| < |dicts| ==> !Fits(f, FullProjections(dicts, |ps| + 1, show), Some(|ps| + 1)))
  }

  lemma CollectedIsBest(f: Frame, got: seq<Projected>, dicts: seq<Json>, show: Json -> string)
    requires AllObjects(dicts) && 1 <= |got| <= |dicts| && got == FullProjections(dicts, |got|, show)
    requires |got| < |dicts| ==> !Fits(f, FullProjections(dicts, |got| + 1, show), None)
    requires Shrink(f, got).Some?
    ensures BestHead(f, Shrink(f, got).value, dicts, show)
  {
    var ps, original := Shrink(f, got).value, HitText(dicts[0], show);
    ClipShortens(original, original, RAG_HIT_TEXT_LIMIT);
    ShrinkFits(f, got, original);
    var more := |ps| + 1;
    if |ps| < |got| {
      assert got[..more] == FullProjections(dicts, more, show);
    } else if |got| < |dicts| {
      UnfitGrows(f, FullProjections(dicts, more, show), FullProjections(dicts, more, show), Some(more));
    }
    assert |ps| > 1 ==> ps == FullProjections(dicts, |ps|, show);
  }

  lemma ShortFirstIsBest(f: Frame, dicts: seq<Json>, show: Json -> string)
    requires AllObjects(dicts) && dicts != [] && !Fits(f, FullProjections(dicts, 1, show), None)
    requires Shrink(f, [Project(dicts[0], 240, show)]).Some?
    ensures BestHead(f, Shrink(f, [Project(dicts[0], 240, show)]).value, dicts, show)
  {
    var original := HitText(dicts[0], show);
    ClipShortens(original, original, 240);
    ShrinkFits(f, [Project(dicts[0], 240, show)], original);
    if |dicts| > 1 {
      UnfitGrows(f, FullProjections(dicts, 1, show), FullProjections(dicts, 2, show), Some(2));
    }
  }

  /**
   A compacted value fits the target and holds the first of the six leading dictionary hits,
   at least one, with only texts shortened; and no hit was dropped that would have fitted.
   */
  lemma CompactionKeepsTheHead(f: Frame, hits: seq<Json>, show: Json -> string)
    requires hits != [] && CompactHits(f, hits, show).Some?
    ensures BestHead(f, CompactHits(f, hits, show).value, Dicts(Head(hits)), show)
  {
    var dicts, got := Dicts(Head(hits)), Collect(f, Head(hits), [], show);
    CollectedHits(f, Head(hits), show);
    if got == [] {
      DictsStartWith(hits);
      ShortFirstIsBest(f, dicts, show);
    } else {
      CollectedIsBest(f, got, dicts, show);
    }
  }

  /* When compaction gives up. */

  /** What repeated halving leaves of a text. */
  function Shortest(text: string): string
    decreases |text|
  {
    if |text| <= 120 then text
    else
      ClipIsShorter(text);
      Shortest(Clip(text, Halved(|text|)))
  }

  lemma {:induction false} StringLenAppend(a: string, b: string)
    ensures StringLen(a + b) == StringLen(a) + StringLen(b) - 2
    ensures StringLen(b) >= |b| + 2
  {
    if b == "" {
      assert a + b == a;
    } else {
      assert (a + b)[..|a + b| - 1] == a + b[..|b| - 1];
      StringLenAppend(a, b[..|b| - 1]);
    }
  }

  lemma ClipCostsLess(text: string)
    requires |text| > 120
    ensures StringLen(Clip(text, Halved(|text|))) <= StringLen(text)
  {
    var cut := text[..Halved(|text|) - 3];
    var k := Trail(cut);
    assert RStrip(cut) == text[..k];
    PrefixCostsLess(text, k);
  }

  lemma PrefixCostsLess(text: string, k: nat)
    requires k + 3 <= |text|
    ensures StringLen(text[..k] + "...") <= StringLen(text)
  {
    assert text == text[..k] + text[k..];
    StringLenAppend(text[..k], text[k..]);
    StringLenAppend(text[..k], "...");
    assert "..."[..2] == ".." && ".."[..1] == "." && "."[..0] == "";
  }

  lemma {:induction false} ShortestCostsLess(text: string)
    ensures StringLen(Shortest(text)) <= StringLen(text)
    decreases |text|
  {
    if |text| > 120 {
      ClipIsShorter(text);
      ClipCostsLess(text);
      ShortestCostsLess(Clip(text, Halved(|text|)));
    }
  }

  lemma HitLen(p: Projected)
    ensures Len(HitJson(p)) == Len(HitJson(p.(text := ""))) + StringLen(p.text) - 2
  {
    var q := p.(text := "");
    FieldsLenAppend(p.head + [Field("text", Str(p.text))], p.tail);
    FieldsLenAppend(p.head, [Field("text", Str(p.text))]);
    OneFieldLen(Field("text", Str(p.text)));
    FieldsLenAppend(q.head + [Field("text", Str(q.text))], q.tail);
    FieldsLenAppend(q.head, [Field("text", Str(q.text))]);
    OneFieldLen(Field("text", Str(q.text)));
  }

  /** A first hit whose text costs less fits on its own where any list that starts with it fits. */
  lemma FewerFit(f: Frame, hits: seq<Projected>, n: nat, text: string)
    requires hits != [] && Fits(f, hits, Some(n)) && StringLen(text) <= StringLen(hits[0].text)
    ensures Fits(f, [hits[0].(text := text)], Some(1))
  {
    var one, first := [hits[0].(text := text)], [hits[0]];
    CompactedLen(f, hits, Some(n));
    CompactedLen(f, one, Some(1));
    HitLen(one[0]);
    HitLen(hits[0]);
    assert HitsJson(first) == [HitJson(hits[0])] && HitsJson(one) == [HitJson(one[0])];
    OneItemLen(HitJson(hits[0]));
    OneItemLen(HitJson(one[0]));
    assert HitsJson(first) <= HitsJson(hits);
    ItemsLenPrefix(HitsJson(first), HitsJson(hits));
    CountLen(1);
    CountLen(n);
  }

  lemma OneItemLen(x: Json)
    ensures ItemsLen([x]) == Len(x)
  {
    assert [x][..0] == [];
  }

  lemma CountLen(n: nat)
    ensures FieldsLen(CountField(Some(n))) == StringLen("returned_hit_count") + 1 + |Decimal(n)|
    ensures |Decimal(n)| >= 1 && |Decimal(1)| == 1
  {
    OneFieldLen(Field("returned_hit_count", Num(Decimal(n))));
  }

  /** Shrinking fails exactly when the first hit does not fit even with the shortest of its texts. */
  lemma {:induction false} ShrinkFailsExactly(f: Frame, hits: seq<Projected>)
    requires hits != []
    ensures Shrink(f, hits).None? <==> !Fits(f, [hits[0].(text := Shortest(hits[0].text))], Some(1))
    decreases |hits|, |hits[0].text|
  {
    if Fits(f, hits, Some(|hits|)) {
      ShortestCostsLess(hits[0].text);
      FewerFit(f, hits, |hits|, Shortest(hits[0].text));
    } else if |hits| > 1 {
      ShrinkFailsExactly(f, hits[..|hits| - 1]);
    } else if |hits[0].text| > 120 {
      ClipIsShorter(hits[0].text);
      ShrinkFailsExactly(f, [hits[0].(text := Clip(hits[0].text, Halved(|hits[0].text|)))]);
    } else {
      assert hits == [hits[0]];
    }
  }

  /** The hit fits on its own once its text, clipped to `limit`, is halved as often as allowed. */
  ghost predicate FitsShortened(f: Frame, hit: Json, limit: nat, show: Json -> string)
    requires hit.Obj?
  {
    var p := Project(hit, limit, show);
    Fits(f, [p.(text := Shortest(p.text))], Some(1))
  }

  /**
   Compaction gives up exactly when none of the leading hits is a dictionary, or the first one
   does not fit shortened, or it does not fit in full and the very first hit is no dictionary.
   */
  lemma CompactionGivesUpExactly(f: Frame, hits: seq<Json>, show: Json -> string)
    requires hits != []
    ensures AllObjects(Dicts(Head(hits)))
    ensures var dicts := Dicts(Head(hits));
            CompactHits(f, hits, show).None?
            <==> (dicts == []
                  || (if Fits(f, FullProjections(dicts, 1, show), None)
                      then !FitsShortened(f, dicts[0], RAG_HIT_TEXT_LIMIT, show)
                      else !hits[0].Obj? || !FitsShortened(f, dicts[0], 240, show)))
  {
    var dicts, got := Dicts(Head(hits)), Collect(f, Head(hits), [], show);
    CollectedHits(f, Head(hits), show);
    if got == [] {
      if hits[0].Obj? {
        DictsStartWith(hits);
        ShrinkFailsExactly(f, [Project(hits[0], 240, show)]);
      }
    } else {
      if !Fits(f, FullProjections(dicts, 1, show), None) {
        UnfitGrows(f, FullProjections(dicts, 1, show), got, None);
      }
      ShrinkFailsExactly(f, got);
    }
  }

  /** What the model sees is short enough, unless it is a pointer, whose ids are not bounded here. */
  lemma BoundedMeetsLimit(result: seq<Field>, show: Json -> string)
    ensures Len(Bounded(result, show)) <= MODEL_TOOL_RESULT_LIMIT
            || Bounded(result, show) == Obj(PointerTo(result, show))
    ensures Bounded(result, show) == Obj(result) || Bounded(result, show) == Obj(PointerTo(result, show))
            || Len(Bounded(result, show)) <= RAG_COMPACT_TARGET
  {
    if SearchHitsOf(result).Some? {
      var f, hits := FrameOf(result, show), SearchHitsOf(result).value;
      if CompactHits(f, hits, show).Some? {
        CompactionKeepsTheHead(f, hits, show);
      }
    }
  }
}
