/**
 The context compiler: filter, de-duplicate, fold old session items into one summary,
 fold many compactable items into one summary, then fill the token budget greedily in
 sort-key order. The summariser, the digest and the fact reader are functions of their
 arguments; everything else is computed here as `ContextCompiler` computes it.
 */
module ContextCompiler {
  import opened Wrappers
  import opened Ordering
  import opened Texts
  import opened ContextItems
  import opened ContextDedup

  datatype Scope = Scope(tenantId: string, siteId: string, userId: string, role: string, assetId: string)

  datatype Request = Request(
    scope: Scope,
    now: int,
    contextWindow: Positive,
    reservedTokens: nat,
    slidingWindowItems: Positive,
    hierarchicalItems: Positive,
    summaryTokenLimit: Positive)
  {
    /** What the window leaves after the reserved tokens, and at least one token. */
    function Budget(): Positive {
      if contextWindow > reservedTokens then contextWindow - reservedTokens else 1
    }
  }

  datatype Plan = Plan(required: seq<Kind>, excluded: set<Kind>)

  datatype Level = ItemLevel | WindowLevel | ParagraphLevel | GlobalLevel

  /** The fact an item states; an empty key means that it states none. */
  datatype Fact = Fact(key: string, value: string)

  datatype Compiler = Compiler(
    summarize: (seq<Item>, nat, Level) -> string,
    digest: seq<string> -> string,
    fact: Item -> Fact)

  /** A pipeline stage: the items it passes on, the ids it excludes, the steps it logs. */
  datatype Stage = Stage(items: seq<Item>, excluded: seq<string>, steps: seq<string>)

  /* ---------- filter ---------- */

  predicate Mismatch(field: string, expected: string) {
    field != "" && field != expected
  }

  predicate Rejected(r: Request, plan: Plan, x: Item) {
    || x.kind in plan.excluded
    || x.sensitive
    || (x.metadata.allowedRoles != {} && r.scope.role !in x.metadata.allowedRoles)
    || (x.metadata.allowedUserIds != {} && r.scope.userId !in x.metadata.allowedUserIds)
    || (x.expiresAt.Some? && x.expiresAt.value <= r.now)
    || Mismatch(x.metadata.tenantId, r.scope.tenantId)
    || Mismatch(x.metadata.siteId, r.scope.siteId)
    || Mismatch(x.metadata.userId, r.scope.userId)
    || Mismatch(x.metadata.assetId, r.scope.assetId)
  }

  /** An item that the model may not see stays a candidate for the tools. */
  function Filter(r: Request, plan: Plan, items: seq<Item>): Stage {
    Stage(Where(items, x => !Rejected(r, plan, x)),
          Ids(Where(items, x => Rejected(r, plan, x) || !x.modelVisible)),
          [])
  }

  /* ---------- sliding window ---------- */

  function Largest(items: seq<Item>, of: Item -> real): real
    requires items != []
  {
    var last := of(items[|items| - 1]);
    if |items| == 1 then last
    else
      var rest := Largest(items[..|items| - 1], of);
      if last > rest then last else rest
  }

  function Latest(items: seq<Item>, of: Item -> int): int
    requires items != []
  {
    var last := of(items[|items| - 1]);
    if |items| == 1 then last
    else
      var rest := Latest(items[..|items| - 1], of);
      if last > rest then last else rest
  }

  /** An item that stands for the non-empty sequence `sources`. */
  function SummaryItem(c: Compiler, r: Request, sources: seq<Item>, id: string, ref: string, kind: Kind,
                       createdAt: int, at: Option<int>, text: string, how: string): Item
    requires sources != []
  {
    Item(id, kind, Text(text), "", "context_compaction", ref, "", createdAt, at, r.now, None,
         Largest(sources, (x: Item) => x.relevance), Largest(sources, (x: Item) => x.authority),
         Largest(sources, (x: Item) => x.freshness), Largest(sources, (x: Item) => x.utility),
         EstimateTokens(text), false, false, true, true,
         NO_METADATA.(compaction := how, sourceIds := Ids(sources)))
  }

  const WINDOW_PREFIX := "session-window:"
  const HIERARCHY_PREFIX := "hierarchy:"

  function Sessions(items: seq<Item>): seq<Item> {
    SortBy(SessionLe, Where(items, (x: Item) => x.kind.Session?))
  }

  function WindowSummary(c: Compiler, r: Request, older: seq<Item>): Item
    requires older != []
  {
    var text := LimitSummary(c.summarize(older, r.summaryTokenLimit, WindowLevel), r.summaryTokenLimit);
    var digest := c.digest(Ids(older));
    SummaryItem(c, r, older, WINDOW_PREFIX + digest, "compaction:sliding-window:" + digest, Session,
                Latest(older, (x: Item) => x.createdAt), Some(Latest(older, SessionTime)),
                text, "sliding_window")
  }

  /** All but the newest `slidingWindowItems` session items give way to one summary. */
  function SlidingWindow(c: Compiler, r: Request, items: seq<Item>): Stage {
    var sessions := Sessions(items);
    if |sessions| <= r.slidingWindowItems then Stage(items, [], [])
    else
      var split := |sessions| - r.slidingWindowItems;
      var older, newer := sessions[..split], sessions[split..];
      Stage(Where(items, (x: Item) => !x.kind.Session? || x.id in Ids(newer)) + [WindowSummary(c, r, older)],
            Ids(older), ["sliding_window"])
  }

  /* ---------- hierarchical compaction ---------- */

  predicate Foldable(x: Item) {
    !x.pinned && x.kind.Compactable()
  }

  function TotalCost(items: seq<Item>): nat {
    if items == [] then 0 else TotalCost(items[..|items| - 1]) + Cost(items[|items| - 1])
  }

  function Paragraph(c: Compiler, r: Request, chunk: seq<Item>, index: nat): Item {
    var text := LimitSummary(c.summarize(chunk, r.summaryTokenLimit, ParagraphLevel), r.summaryTokenLimit);
    Item("paragraph:" + Decimal(index), Retrieval, Text(text), "", "context_compaction",
         "compaction:paragraph:" + Decimal(index), "", r.now, None, r.now, None,
         0.5, 0.5, 1.0, 0.5, 0, false, false, true, true, NO_METADATA.(sourceIds := Ids(chunk)))
  }

  /** The paragraphs of the chunks of `items`, numbered from `index`. */
  function Paragraphs(c: Compiler, r: Request, items: seq<Item>, size: Positive, index: nat): seq<Item> {
    if items == [] then []
    else
      var end := if size < |items| then size else |items|;
      [Paragraph(c, r, items[..end], index)] + Paragraphs(c, r, items[end..], size, index + 1)
  }

  function ChunkSize(r: Request): Positive {
    if r.hierarchicalItems / 2 < 2 then 2 else r.hierarchicalItems / 2
  }

  function GlobalSummary(c: Compiler, r: Request, folded: seq<Item>): Item
    requires folded != []
  {
    var paragraphs := Paragraphs(c, r, folded, ChunkSize(r), 0);
    var text := LimitSummary(c.summarize(paragraphs, r.summaryTokenLimit, GlobalLevel), r.summaryTokenLimit);
    var digest := c.digest(Ids(folded));
    SummaryItem(c, r, folded, HIERARCHY_PREFIX + digest, "compaction:hierarchical:" + digest, Retrieval,
                r.now, None, text, "hierarchical")
  }

  /** `max(items, key=context_score)`: the first item with the greatest score. */
  function MostRelevant(items: seq<Item>): (x: Item)
    requires items != []
    ensures x in items
    ensures forall y :: y in items ==> Score(y) <= Score(x)
  {
    var last := items[|items| - 1];
    if |items| == 1 then last
    else
      var rest := MostRelevant(items[..|items| - 1]);
      assert items == items[..|items| - 1] + [last];
      if Score(last) > Score(rest) then last else rest
  }

  /** The items whose id is not listed. */
  function Without(items: seq<Item>, ids: seq<string>): seq<Item> {
    Where(items, (x: Item) => x.id !in ids)
  }

  /** Many costly foldable items give way to the most relevant one and one summary. */
  function Hierarchical(c: Compiler, r: Request, items: seq<Item>): Stage {
    var folded := Where(items, Foldable);
    if |folded| < r.hierarchicalItems || TotalCost(folded) <= r.Budget() then Stage(items, [], [])
    else
      var best := MostRelevant(folded);
      Stage(Without(items, Ids(folded)) + [best, GlobalSummary(c, r, folded)],
            Ids(Without(folded, [best.id])),
            ["hierarchical", "selective_recall"])
  }

  /* ---------- budgeted selection ---------- */

  function Compressed(c: Compiler, r: Request, x: Item): Option<Item> {
    if !x.kind.Compactable() then None
    else
      var full := if x.summary != "" then x.summary else c.summarize([x], r.summaryTokenLimit, ItemLevel);
      var text := LimitSummary(full, r.summaryTokenLimit);
      Some(x.(content := Text(text), tokenEstimate := EstimateTokens(text),
              metadata := x.metadata.(compressed := true, compaction := "summarization")))
  }

  datatype Selection = Selection(
    chosen: seq<Item>, used: nat, summarized: bool, steps: seq<string>, excluded: seq<string>)

  function LogStep(steps: seq<string>, step: string): seq<string> {
    if step in steps then steps else steps + [step]
  }

  function Take(s: Selection, x: Item): Selection {
    s.(chosen := s.chosen + [x], used := s.used + x.tokenEstimate)
  }

  function TakeCompressed(s: Selection, x: Item): Selection {
    Take(s, x).(summarized := true, steps := LogStep(s.steps, "summarization"))
  }

  function Fits(r: Request, s: Selection, cost: nat): bool {
    s.used + cost <= r.Budget()
  }

  /** What the selection loop does with one item. */
  function SelectItem(c: Compiler, r: Request, s: Selection, item: Item): Selection {
    var cost := Cost(item);
    var x := item.(tokenEstimate := cost);
    var small := Compressed(c, r, x);
    var crowded := (s.used + cost) as real / r.Budget() as real >= 0.6;
    if x.pinned then Take(s, x)
    else if crowded && small.Some? && small.value.tokenEstimate < cost && Fits(r, s, small.value.tokenEstimate) then
      TakeCompressed(s, small.value)
    else if Fits(r, s, cost) then Take(s, x)
    else if small.Some? && Fits(r, s, small.value.tokenEstimate) then TakeCompressed(s, small.value)
    else s.(excluded := s.excluded + [item.id], steps := LogStep(s.steps, "selective_recall"))
  }

  function SelectAll(c: Compiler, r: Request, start: Selection, ordered: seq<Item>): Selection {
    if ordered == [] then start
    else SelectItem(c, r, SelectAll(c, r, start, ordered[..|ordered| - 1]), ordered[|ordered| - 1])
  }

  /* ---------- conflicts ---------- */

  datatype Conflict = Conflict(field: string, candidateIds: seq<string>)

  function FactKeys(c: Compiler, items: seq<Item>): seq<string> {
    if items == [] then []
    else
      var keys := FactKeys(c, items[..|items| - 1]);
      var key := c.fact(items[|items| - 1]).key;
      if key != "" && key !in keys then keys + [key] else keys
  }

  function Stating(c: Compiler, items: seq<Item>, key: string): seq<Item> {
    Where(items, (x: Item) => c.fact(x).key == key)
  }

  function ConflictsAt(c: Compiler, items: seq<Item>, keys: seq<string>): seq<Conflict> {
    if keys == [] then []
    else
      var key := keys[|keys| - 1];
      var group := Stating(c, items, key);
      ConflictsAt(c, items, keys[..|keys| - 1])
      + if |set x | x in group :: c.fact(x).value| > 1
        then [Conflict(key, SortBy(StringLe, Ids(group)))] else []
  }

  function Conflicts(c: Compiler, items: seq<Item>): seq<Conflict> {
    ConflictsAt(c, items, SortBy(StringLe, FactKeys(c, items)))
  }

  /* ---------- the whole compilation ---------- */

  datatype Compression = Uncompressed | Summarized | Forced

  datatype Bundle = Bundle(
    modelItems: seq<Item>,
    toolItems: seq<Item>,
    excludedIds: set<string>,
    missing: seq<Kind>,
    conflicts: seq<Conflict>,
    tokensUsed: nat,
    compression: Compression,
    steps: seq<string>,
    allowToolCalls: bool,
    warnings: seq<string>)

  predicate KindLe(a: Kind, b: Kind) {
    StringLe(a.Name(), b.Name())
  }

  /** The required kinds, with repetitions, that no chosen item has. */
  function Missing(required: seq<Kind>, chosen: seq<Item>): seq<Kind> {
    if required == [] then []
    else
      var k := required[|required| - 1];
      Missing(required[..|required| - 1], chosen) + if exists x :: x in chosen && x.kind == k then [] else [k]
  }

  function Warnings(missing: seq<Kind>, conflicts: seq<Conflict>, chosen: seq<Item>, exhausted: bool): seq<string> {
    var stale := Where(chosen, (x: Item) => x.freshness < 0.4 || x.metadata.stale);
    seq(|missing|, i requires 0 <= i < |missing| => "missing_context:" + missing[i].Name())
    + seq(|conflicts|, i requires 0 <= i < |conflicts| => "context_conflict:" + conflicts[i].field)
    + seq(|stale|, i requires 0 <= i < |stale| => "stale_context:" + stale[i].id)
    + if exhausted then ["context_budget_exhausted"] else []
  }

  function Visible(items: seq<Item>): seq<Item> {
    SortBy(KeyLe, Where(items, (x: Item) => x.modelVisible))
  }

  /** The candidates before selection: after de-duplication, sliding window and folding. */
  datatype Prepared = Prepared(filtered: Stage, dedup: Deduplicated, window: Stage, folded: Stage)

  function Prepare(c: Compiler, r: Request, plan: Plan, items: seq<Item>): Prepared {
    var filtered := Filter(r, plan, items);
    var dedup := Dedup(filtered.items);
    var window := SlidingWindow(c, r, dedup.kept);
    Prepared(filtered, dedup, window, Hierarchical(c, r, window.items))
  }

  function Finish(c: Compiler, r: Request, plan: Plan, p: Prepared, s: Selection): Bundle {
    var conflicts := Conflicts(c, p.dedup.kept);
    var missing := SortBy(KindLe, Missing(plan.required, s.chosen));
    var utilization := s.used as real / r.Budget() as real;
    Bundle(
      s.chosen,
      Where(SortBy(KeyLe, p.dedup.kept), (x: Item) => x.toolVisible),
      (set e | e in p.filtered.excluded + p.dedup.excluded + p.window.excluded + p.folded.excluded + s.excluded),
      missing,
      conflicts,
      s.used,
      if s.summarized then Summarized else if utilization >= 0.8 then Forced else Uncompressed,
      s.steps,
      utilization < 0.95,
      Warnings(missing, conflicts, s.chosen, utilization >= 0.95))
  }

  function Start(p: Prepared): Selection {
    Selection([], 0, false, p.window.steps + p.folded.steps, [])
  }

  /** `ContextCompiler.compile`. */
  function Compile(c: Compiler, r: Request, plan: Plan, items: seq<Item>): Bundle {
    var p := Prepare(c, r, plan, items);
    Finish(c, r, plan, p, SelectAll(c, r, Start(p), Visible(p.folded.items)))
  }

  /* ---------- the loops ---------- */

  /** `_filter`. */
  method FilterLoop(r: Request, plan: Plan, items: seq<Item>) returns (stage: Stage)
    ensures stage == Filter(r, plan, items)
  {
    var candidates: seq<Item> := [];
    var excluded: seq<string> := [];
    for i := 0 to |items|
      invariant candidates == Filter(r, plan, items[..i]).items
      invariant excluded == Filter(r, plan, items[..i]).excluded
    {
      assert items[..i + 1][..i] == items[..i];
      var item := items[i];
      if Rejected(r, plan, item) {
        excluded := excluded + [item.id];
      } else {
        if !item.modelVisible {
          excluded := excluded + [item.id];
        }
        candidates := candidates + [item];
      }
    }
    assert items[..|items|] == items;
    stage := Stage(candidates, excluded, []);
  }

  /** The paragraph loop of `_hierarchical`. */
  method ParagraphLoop(c: Compiler, r: Request, items: seq<Item>, size: Positive)
    returns (paragraphs: seq<Item>)
    ensures paragraphs == Paragraphs(c, r, items, size, 0)
  {
    paragraphs := [];
    var offset: nat, index: nat := 0, 0;
    ghost var rest := Paragraphs(c, r, items, size, 0);
    while offset < |items|
      invariant offset <= |items|
      invariant rest == Paragraphs(c, r, items[offset..], size, index)
      invariant paragraphs + rest == Paragraphs(c, r, items, size, 0)
    {
      var end := if offset + size < |items| then offset + size else |items|;
      ParagraphsUnfold(c, r, items, size, index, offset, end);
      paragraphs := paragraphs + [Paragraph(c, r, items[offset..end], index)];
      rest := Paragraphs(c, r, items[end..], size, index + 1);
      offset, index := end, index + 1;
    }
  }

  lemma ParagraphsUnfold(c: Compiler, r: Request, items: seq<Item>, size: Positive, index: nat, offset: nat, end: nat)
    requires offset < |items| && end == if offset + size < |items| then offset + size else |items|
    ensures Paragraphs(c, r, items[offset..], size, index)
         == [Paragraph(c, r, items[offset..end], index)] + Paragraphs(c, r, items[end..], size, index + 1)
  {
    var rest, n := items[offset..], end - offset;
    assert rest[..n] == items[offset..end] && rest[n..] == items[end..];
  }

  /** An item that the selection left out fits nowhere in what is left of the budget. */
  ghost predicate DoesNotFit(c: Compiler, r: Request, used: nat, x: Item) {
    var small := Compressed(c, r, x.(tokenEstimate := Cost(x)));
    && !x.pinned
    && used + Cost(x) > r.Budget()
    && (small.Some? ==> used + small.value.tokenEstimate > r.Budget())
  }

  /**
   The item, verbatim or compressed, was added at the end and its estimate to the sum, within
   the budget unless it is pinned.
   */
  ghost predicate TookItem(r: Request, s: Selection, x: Item, next: Selection) {
    && |next.chosen| == |s.chosen| + 1 && next.chosen[..|s.chosen|] == s.chosen && next.excluded == s.excluded
    && next.chosen[|s.chosen|].id == x.id && next.chosen[|s.chosen|].pinned == x.pinned
    && next.used == s.used + next.chosen[|s.chosen|].tokenEstimate
    && (x.pinned || next.used <= r.Budget())
  }

  /** The item's id was excluded, and no form of it fits; nothing else changed in the selection. */
  ghost predicate LeftItemOut(c: Compiler, r: Request, s: Selection, x: Item, next: Selection) {
    && next.excluded == s.excluded + [x.id] && next.chosen == s.chosen && next.used == s.used
    && DoesNotFit(c, r, s.used, x)
  }

  /**
   One round of the selection loop: the item goes to exactly one side, and is left out only
   when no form of it fits.
   */
  method SelectOne(c: Compiler, r: Request, s: Selection, item: Item) returns (next: Selection)
    ensures TookItem(r, s, item, next) || LeftItemOut(c, r, s, item, next)
    ensures next == SelectItem(c, r, s, item)
  {
    var cost := Cost(item);
    var normalized := item.(tokenEstimate := cost);
    if item.pinned {
      return Take(s, normalized);
    }
    var small := Compressed(c, r, normalized);
    if (s.used + cost) as real / r.Budget() as real >= 0.6 {
      if small.Some? && small.value.tokenEstimate < cost && s.used + small.value.tokenEstimate <= r.Budget() {
        return TakeCompressed(s, small.value);
      }
    }
    if s.used + cost <= r.Budget() {
      return Take(s, normalized);
    }
    if small.Some? && s.used + small.value.tokenEstimate <= r.Budget() {
      return TakeCompressed(s, small.value);
    }
    next := s.(excluded := s.excluded + [item.id], steps := LogStep(s.steps, "selective_recall"));
  }

  /** The selection loop of `compile`. */
  method SelectLoop(c: Compiler, r: Request, start: Selection, ordered: seq<Item>) returns (s: Selection)
    ensures s == SelectAll(c, r, start, ordered)
  {
    s := start;
    for i := 0 to |ordered|
      invariant s == SelectAll(c, r, start, ordered[..i])
    {
      assert ordered[..i + 1][..i] == ordered[..i];
      s := SelectOne(c, r, s, ordered[i]);
    }
    assert ordered[..|ordered|] == ordered;
  }

  /** `compile`, stage by stage. */
  method CompileContext(c: Compiler, r: Request, plan: Plan, items: seq<Item>) returns (b: Bundle)
    ensures b == Compile(c, r, plan, items)
  {
    var filtered := FilterLoop(r, plan, items);
    var dedup := Deduplicate(filtered.items);
    var window := SlidingWindow(c, r, dedup.kept);
    var folded := Hierarchical(c, r, window.items);
    var p := Prepared(filtered, dedup, window, folded);
    var s := SelectLoop(c, r, Start(p), Visible(folded.items));
    b := Finish(c, r, plan, p, s);
  }
}
