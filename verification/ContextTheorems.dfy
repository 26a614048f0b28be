/**
 What a compilation guarantees: it does not depend on the order in which the providers
 delivered the items, it accounts for every item once, and it respects the token budget.
 */
module ContextTheorems {
  import opened Wrappers
  import opened Ordering
  import opened ContextItems
  import opened ContextDedup
  import opened ContextCompiler

  /* ---------- replay ---------- */

  lemma IdsMembers(items: seq<Item>, s: string)
    ensures s in Ids(items) <==> exists x :: x in items && x.id == s
  {
    if s in Ids(items) {
      var i :| 0 <= i < |items| && Ids(items)[i] == s;
      assert items[i] in items;
    }
    if x :| x in items && x.id == s {
      var i :| 0 <= i < |items| && items[i] == x;
      assert Ids(items)[i] == s;
    }
  }

  lemma FilterMembers(r: Request, plan: Plan, items: seq<Item>)
    requires UniqueIds(items)
    ensures UniqueIds(Filter(r, plan, items).items)
    ensures forall x :: x in Filter(r, plan, items).items <==> x in items && !Rejected(r, plan, x)
    ensures forall s :: s in Filter(r, plan, items).excluded
              <==> exists x :: x in items && x.id == s && (Rejected(r, plan, x) || !x.modelVisible)
  {
    SubsequenceUniqueIds(items, x => !Rejected(r, plan, x));
    var out := x => Rejected(r, plan, x) || !x.modelVisible;
    WhereMembers(items, out);
    forall s { IdsMembers(Where(items, out), s); }
  }

  /**
   Replay: compiling any rearrangement of the same items, their ids being unique, gives the
   same bundle, down to the order of the items and the wording of the warnings.
   */
  lemma CompileIgnoresOrder(c: Compiler, r: Request, plan: Plan, a: seq<Item>, b: seq<Item>)
    requires UniqueIds(a) && multiset(a) == multiset(b)
    ensures Compile(c, r, plan, a) == Compile(c, r, plan, b)
  {
    RearrangedUniqueIds(a, b);
    SameElements(a, b);
    FilterMembers(r, plan, a);
    FilterMembers(r, plan, b);
    assert forall e :: e in Filter(r, plan, a).excluded <==> e in Filter(r, plan, b).excluded;
    WhereKeepsMultiset(a, b, x => !Rejected(r, plan, x));
    var p, q := Prepare(c, r, plan, a), Prepare(c, r, plan, b);
    DedupIgnoresOrder(p.filtered.items, q.filtered.items);
    FinishIgnoresRepeats(c, r, plan, p, q, SelectAll(c, r, Start(p), Visible(p.folded.items)));
  }

  lemma FinishIgnoresRepeats(c: Compiler, r: Request, plan: Plan, p: Prepared, q: Prepared, s: Selection)
    requires p.dedup.kept == q.dedup.kept && p.window == q.window && p.folded == q.folded
    requires forall e :: e in p.filtered.excluded <==> e in q.filtered.excluded
    requires forall e :: e in p.dedup.excluded <==> e in q.dedup.excluded
    ensures Finish(c, r, plan, p, s) == Finish(c, r, plan, q, s)
  {
    assert Finish(c, r, plan, p, s).excludedIds == Finish(c, r, plan, q, s).excludedIds;
  }

  /* ---------- every item is accounted for ---------- */

  /** Ids that only the compiler's own summaries carry. */
  predicate Reserved(id: string) {
    WINDOW_PREFIX <= id || HIERARCHY_PREFIX <= id
  }

  /**
   A stage passes an item on exactly when it does not exclude its id, excludes only ids it
   was given, and adds only items whose id has the stage's prefix.
   */
  ghost predicate Splits(before: seq<Item>, stage: Stage, prefix: string) {
    && UniqueIds(stage.items)
    && (forall x :: x in before ==> (x in stage.items <==> x.id !in stage.excluded))
    && (forall x :: x in stage.items ==> x in before || (prefix <= x.id && x.modelVisible))
    && (forall s :: s in stage.excluded ==> exists x :: x in before && x.id == s)
  }

  lemma AppendFresh(items: seq<Item>, x: Item)
    requires UniqueIds(items) && forall y :: y in items ==> y.id != x.id
    ensures UniqueIds(items + [x])
  {
    forall i, j | 0 <= i < j < |items + [x]| ensures (items + [x])[i].id != (items + [x])[j].id {
      assert (items + [x])[i] in items;
    }
  }

  lemma SplitIdsDiffer(items: seq<Item>, split: nat, id: string)
    requires UniqueIds(items) && split <= |items| && id in Ids(items[..split])
    ensures id !in Ids(items[split..])
  {
    var i :| 0 <= i < split && Ids(items[..split])[i] == id;
    forall j | 0 <= j < |items| - split ensures Ids(items[split..])[j] != id {
      assert items[i].id != items[split + j].id;
    }
  }

  lemma SessionsMembers(items: seq<Item>)
    requires UniqueIds(items)
    ensures UniqueIds(Sessions(items))
    ensures forall x :: x in Sessions(items) <==> x in items && x.kind.Session?
  {
    var isSession := (x: Item) => x.kind.Session?;
    SubsequenceUniqueIds(items, isSession);
    SortByMembers(SessionLe, Where(items, isSession));
    RearrangedUniqueIds(Where(items, isSession), Sessions(items));
  }

  lemma SessionsSplit(items: seq<Item>, split: nat)
    requires UniqueIds(items) && split <= |Sessions(items)|
    ensures forall x :: x in items && x.kind.Session?
              ==> (x.id in Ids(Sessions(items)[..split]) <==> x.id !in Ids(Sessions(items)[split..]))
    ensures forall s :: s in Ids(Sessions(items)[..split])
              ==> exists x :: x in items && x.kind.Session? && x.id == s
  {
    var sessions := Sessions(items);
    var older, newer := sessions[..split], sessions[split..];
    assert sessions == older + newer;
    SessionsMembers(items);
    forall x | x in items && x.kind.Session? ensures x.id in Ids(older) <==> x.id !in Ids(newer) {
      SideOfSplit(sessions, split, x);
    }
    forall s | s in Ids(older) ensures exists x :: x in items && x.kind.Session? && x.id == s {
      IdsMembers(older, s);
    }
  }

  lemma SideOfSplit(items: seq<Item>, split: nat, x: Item)
    requires UniqueIds(items) && split <= |items| && x in items
    ensures x.id in Ids(items[..split]) <==> x.id !in Ids(items[split..])
  {
    assert items == items[..split] + items[split..];
    IdsMembers(items[..split], x.id);
    IdsMembers(items[split..], x.id);
    if x.id in Ids(items[..split]) {
      SplitIdsDiffer(items, split, x.id);
    }
  }

  lemma WindowSplits(c: Compiler, r: Request, items: seq<Item>)
    requires UniqueIds(items) && forall x :: x in items ==> !Reserved(x.id)
    ensures Splits(items, SlidingWindow(c, r, items), WINDOW_PREFIX)
  {
    var sessions := Sessions(items);
    if |sessions| > r.slidingWindowItems {
      var split := |sessions| - r.slidingWindowItems;
      var older, newer := sessions[..split], sessions[split..];
      var keep := (x: Item) => !x.kind.Session? || x.id in Ids(newer);
      SessionsSplit(items, split);
      SubsequenceUniqueIds(items, keep);
      AppendFresh(Where(items, keep), WindowSummary(c, r, older));
      forall x | x in items && !x.kind.Session? ensures x.id !in Ids(older) {
        if y :| y in items && y.kind.Session? && y.id == x.id {
          IdNamesItem(items, x, y);
        }
      }
    }
  }

  /** The window folds away the oldest sessions, and as many as exceed its size. */
  lemma WindowKeepsNewest(c: Compiler, r: Request, items: seq<Item>)
    requires UniqueIds(items)
    ensures var excluded := SlidingWindow(c, r, items).excluded;
            && |excluded| == Max(|Sessions(items)|, r.slidingWindowItems) - r.slidingWindowItems
            && (forall x, y | x in items && y in items && x.kind.Session? && y.kind.Session?
                              && x.id in excluded && y.id !in excluded :: SessionLe(x, y))
  {
    var sessions := Sessions(items);
    var isSession := (x: Item) => x.kind.Session?;
    if |sessions| > r.slidingWindowItems {
      var split := |sessions| - r.slidingWindowItems;
      SessionOrder();
      SortBySorts(SessionLe, Where(items, isSession));
      SortByMembers(SessionLe, Where(items, isSession));
      WhereMembers(items, isSession);
      forall x, y | x in items && y in items && x.kind.Session? && y.kind.Session?
                    && x.id in Ids(sessions[..split]) && y.id !in Ids(sessions[..split])
        ensures SessionLe(x, y)
      {
        assert x in sessions && y in sessions;
        OlderComesFirst(items, sessions, split, x, y);
      }
    }
  }

  lemma OlderComesFirst(items: seq<Item>, sessions: seq<Item>, split: nat, x: Item, y: Item)
    requires UniqueIds(items) && SortedBy(SessionLe, sessions) && split <= |sessions|
    requires forall z :: z in sessions ==> z in items
    requires x in sessions && y in sessions
    requires x.id in Ids(sessions[..split]) && y.id !in Ids(sessions[..split])
    ensures SessionLe(x, y)
  {
    var i :| 0 <= i < split && Ids(sessions[..split])[i] == x.id;
    assert sessions[i] in sessions;
    IdNamesItem(items, x, sessions[i]);
    var j :| 0 <= j < |sessions| && sessions[j] == y;
    IdsMembers(sessions[..split], y.id);
  }

  lemma FoldedDiffers(items: seq<Item>, x: Item, y: Item)
    requires UniqueIds(items) && x in items && y in items && x != y
    ensures x.id != y.id
  {
    if x.id == y.id {
      IdNamesItem(items, x, y);
    }
  }

  /** Replacing the folded items by the best of them and a summary is a split. */
  lemma FoldSplits(items: seq<Item>, folded: seq<Item>, retained: seq<Item>, best: Item, summary: Item, stage: Stage)
    requires UniqueIds(items) && UniqueIds(retained)
    requires best in folded && forall x :: x in folded ==> x in items
    requires forall x :: x in retained <==> x in items && x !in folded
    requires HIERARCHY_PREFIX <= summary.id && summary.modelVisible
    requires forall x :: x in items ==> !(HIERARCHY_PREFIX <= x.id)
    requires stage.items == retained + [best] + [summary]
    requires forall s :: s in stage.excluded <==> exists x :: x in folded && x.id == s && x != best
    ensures Splits(items, stage, HIERARCHY_PREFIX)
  {
    forall y | y in retained ensures y.id != best.id {
      FoldedDiffers(items, y, best);
    }
    AppendFresh(retained, best);
    forall y | y in retained + [best] ensures y.id != summary.id {
      assert y in items;
    }
    AppendFresh(retained + [best], summary);
    forall x | x in items ensures x in stage.items <==> x.id !in stage.excluded {
      assert x != summary;
      if y :| y in folded && y.id == x.id && y != best {
        IdNamesItem(items, x, y);
      }
    }
  }

  lemma WithoutMembers(items: seq<Item>, ids: seq<string>)
    requires UniqueIds(items)
    ensures UniqueIds(Without(items, ids))
    ensures forall x :: x in Without(items, ids) <==> x in items && x.id !in ids
  {
    SubsequenceUniqueIds(items, (x: Item) => x.id !in ids);
  }

  /** The ids that folding excludes: all folded ones but the best. */
  lemma FoldExcludes(items: seq<Item>, folded: seq<Item>, best: Item)
    requires UniqueIds(items) && UniqueIds(folded) && best in folded && forall x :: x in folded ==> x in items
    ensures forall s :: s in Ids(Without(folded, [best.id]))
              <==> exists x :: x in folded && x.id == s && x != best
  {
    WithoutMembers(folded, [best.id]);
    forall s ensures s in Ids(Without(folded, [best.id])) <==> exists x :: x in folded && x.id == s && x != best {
      IdsMembers(Without(folded, [best.id]), s);
      if x :| x in folded && x.id == s && x != best {
        FoldedDiffers(items, x, best);
      }
    }
  }

  lemma RetainedAreNotFolded(items: seq<Item>, folded: seq<Item>)
    requires UniqueIds(items) && forall x :: x in folded ==> x in items
    ensures UniqueIds(Without(items, Ids(folded)))
    ensures forall x :: x in Without(items, Ids(folded)) <==> x in items && x !in folded
  {
    WithoutMembers(items, Ids(folded));
    forall x | x in items ensures x.id in Ids(folded) <==> x in folded {
      IdsMembers(folded, x.id);
      if y :| y in folded && y.id == x.id {
        IdNamesItem(items, x, y);
      }
    }
  }

  lemma HierarchySplits(c: Compiler, r: Request, items: seq<Item>)
    requires UniqueIds(items) && forall x :: x in items ==> !(HIERARCHY_PREFIX <= x.id)
    ensures Splits(items, Hierarchical(c, r, items), HIERARCHY_PREFIX)
  {
    var folded := Where(items, Foldable);
    SubsequenceUniqueIds(items, Foldable);
    if |folded| >= r.hierarchicalItems && TotalCost(folded) > r.Budget() {
      var best := MostRelevant(folded);
      RetainedAreNotFolded(items, folded);
      FoldExcludes(items, folded, best);
      FoldSplits(items, folded, Without(items, Ids(folded)), best, GlobalSummary(c, r, folded),
                 Hierarchical(c, r, items));
    }
  }

  /** One round either takes a form of the item, within the budget, or excludes it. */
  lemma SelectItemCases(c: Compiler, r: Request, s: Selection, x: Item) returns (taken: bool, y: Item)
    ensures var next := SelectItem(c, r, s, x);
            if taken then
              && next.chosen == s.chosen + [y] && next.excluded == s.excluded
              && next.used == s.used + y.tokenEstimate && y.id == x.id && y.pinned == x.pinned
              && (x.pinned || next.used <= r.Budget())
            else
              && next.chosen == s.chosen && next.used == s.used
              && next.excluded == s.excluded + [x.id] && DoesNotFit(c, r, s.used, x)
  {
    var next := SelectItem(c, r, s, x);
    taken := |next.chosen| > |s.chosen|;
    y := if taken then next.chosen[|next.chosen| - 1] else x;
  }

  ghost function IdsOf(items: seq<Item>): set<string> {
    set s | s in Ids(items)
  }

  ghost function Elements(ids: seq<string>): set<string> {
    set s | s in ids
  }

  lemma IdsOfAppend(items: seq<Item>, x: Item)
    ensures IdsOf(items + [x]) == IdsOf(items) + {x.id}
  {
    assert Ids(items + [x]) == Ids(items) + [x.id];
  }

  ghost predicate Partitioned(s: Selection, ids: set<string>) {
    IdsOf(s.chosen) !! Elements(s.excluded) && IdsOf(s.chosen) + Elements(s.excluded) == ids
  }

  lemma SelectItemPartitions(c: Compiler, r: Request, s: Selection, x: Item, ids: set<string>)
    requires Partitioned(s, ids) && x.id !in ids
    ensures Partitioned(SelectItem(c, r, s, x), ids + {x.id})
  {
    var taken, y := SelectItemCases(c, r, s, x);
    if taken {
      IdsOfAppend(s.chosen, y);
    } else {
      assert Elements(s.excluded + [x.id]) == Elements(s.excluded) + {x.id};
    }
  }

  /** Selection sends every id it is given to exactly one side. */
  lemma {:induction false} SelectionPartitions(c: Compiler, r: Request, start: Selection, ordered: seq<Item>)
    requires UniqueIds(ordered) && start.chosen == [] && start.excluded == []
    ensures Partitioned(SelectAll(c, r, start, ordered), IdsOf(ordered))
  {
    if ordered != [] {
      var before, x := ordered[..|ordered| - 1], ordered[|ordered| - 1];
      assert ordered == before + [x];
      LastIdIsNew(before, x);
      SelectionPartitions(c, r, start, before);
      IdsOfAppend(before, x);
      IdsMembers(before, x.id);
      SelectItemPartitions(c, r, SelectAll(c, r, start, before), x, IdsOf(before));
    }
  }

  /** Which items reach the selection, and where the others were excluded. */
  lemma PreparedItems(c: Compiler, r: Request, plan: Plan, items: seq<Item>)
    requires UniqueIds(items) && forall x :: x in items ==> !Reserved(x.id)
    ensures var p := Prepare(c, r, plan, items);
            && UniqueIds(p.folded.items)
            && (forall x :: x in p.dedup.kept ==> x in items && !Rejected(r, plan, x))
            && Splits(p.dedup.kept, p.window, WINDOW_PREFIX)
            && Splits(p.window.items, p.folded, HIERARCHY_PREFIX)
  {
    var p := Prepare(c, r, plan, items);
    FilterMembers(r, plan, items);
    DedupKeepsChampions(p.filtered.items);
    forall x | x in p.dedup.kept ensures x in items && !Rejected(r, plan, x) {
      assert x in ItemSet(p.filtered.items);
    }
    WindowSplits(c, r, p.dedup.kept);
    forall x | x in p.window.items ensures !(HIERARCHY_PREFIX <= x.id) {
      if WINDOW_PREFIX <= x.id {
        assert x.id[0] == 's' && HIERARCHY_PREFIX[0] == 'h';
      }
    }
    HierarchySplits(c, r, p.window.items);
  }

  /** The filter excludes an input item's id when it rejects the item or hides it from the model. */
  lemma FilteredExactly(r: Request, plan: Plan, items: seq<Item>, x: Item)
    requires UniqueIds(items) && x in items
    ensures x.id in Filter(r, plan, items).excluded <==> Rejected(r, plan, x) || !x.modelVisible
  {
    FilterMembers(r, plan, items);
    if y :| y in items && y.id == x.id && (Rejected(r, plan, y) || !y.modelVisible) {
      IdNamesItem(items, x, y);
    }
  }

  /** De-duplication excludes a candidate's id when it drops the candidate, and no other input's id. */
  lemma DedupExactly(r: Request, plan: Plan, items: seq<Item>, x: Item)
    requires UniqueIds(items) && x in items
    ensures var f := Filter(r, plan, items).items;
            x in Dedup(f).kept <==> !Rejected(r, plan, x) && x.id !in Dedup(f).excluded
  {
    var f := Filter(r, plan, items).items;
    FilterMembers(r, plan, items);
    DedupExcludesTheRest(f);
    DedupKeepsChampions(f);
    assert x in Dedup(f).kept ==> x in ItemSet(f);
    if y :| y in f && y.id == x.id && y !in Dedup(f).kept {
      IdNamesItem(items, x, y);
    }
  }

  /** An input item is among the prepared ones exactly when no stage excluded it. */
  lemma PreparedExactly(c: Compiler, r: Request, plan: Plan, items: seq<Item>, x: Item)
    requires UniqueIds(items) && forall y :: y in items ==> !Reserved(y.id)
    requires x in items
    ensures var p := Prepare(c, r, plan, items);
            x in p.folded.items <==> !Rejected(r, plan, x) && x.id !in p.dedup.excluded
                                     && x.id !in p.window.excluded && x.id !in p.folded.excluded
  {
    PreparedItems(c, r, plan, items);
    DedupExactly(r, plan, items, x);
  }

  /** A prepared item that carries an input item's id is that item. */
  lemma PreparedIdNamesInput(c: Compiler, r: Request, plan: Plan, items: seq<Item>, x: Item, y: Item)
    requires UniqueIds(items) && forall z :: z in items ==> !Reserved(z.id)
    requires x in items && y in Prepare(c, r, plan, items).folded.items && y.id == x.id
    ensures y == x
  {
    PreparedItems(c, r, plan, items);
    IdNamesItem(items, x, y);
  }

  /**
   Conservation: every item that goes in ends in exactly one place, among the model items
   (verbatim or compressed, under its own id) or among the excluded ids.
   */
  lemma EveryItemIsAccountedFor(c: Compiler, r: Request, plan: Plan, items: seq<Item>, x: Item)
    requires UniqueIds(items) && forall y :: y in items ==> !Reserved(y.id)
    requires x in items
    ensures var b := Compile(c, r, plan, items);
            x.id in Ids(b.modelItems) <==> x.id !in b.excludedIds
  {
    var p := Prepare(c, r, plan, items);
    var ordered := Visible(p.folded.items);
    var s := SelectAll(c, r, Start(p), ordered);
    PreparedItems(c, r, plan, items);
    PreparedExactly(c, r, plan, items, x);
    FilteredExactly(r, plan, items, x);
    forall y | y in p.folded.items && y.id == x.id ensures y == x {
      PreparedIdNamesInput(c, r, plan, items, x, y);
    }
    VisibleMembers(p.folded.items);
    SelectionPartitions(c, r, Start(p), ordered);
    IdsMembers(ordered, x.id);
    assert x.id in IdsOf(ordered) <==> x in p.folded.items && x.modelVisible;
    assert x.id in IdsOf(s.chosen) <==> x.id in Ids(s.chosen);
    assert x.id in Elements(s.excluded) <==> x.id in s.excluded;
  }

  lemma VisibleMembers(items: seq<Item>)
    requires UniqueIds(items)
    ensures UniqueIds(Visible(items))
    ensures forall x :: x in Visible(items) <==> x in items && x.modelVisible
    ensures SortedBy(KeyLe, Visible(items))
  {
    var seen := (x: Item) => x.modelVisible;
    SubsequenceUniqueIds(items, seen);
    SortByMembers(KeyLe, Where(items, seen));
    RearrangedUniqueIds(Where(items, seen), Visible(items));
    SortKeyOrder();
    SortBySorts(KeyLe, Where(items, seen));
  }

  /* ---------- the token budget ---------- */

  function Estimates(items: seq<Item>): nat {
    if items == [] then 0 else Estimates(items[..|items| - 1]) + items[|items| - 1].tokenEstimate
  }

  function PinnedEstimates(items: seq<Item>): nat {
    if items == [] then 0
    else PinnedEstimates(items[..|items| - 1])
         + if items[|items| - 1].pinned then items[|items| - 1].tokenEstimate else 0
  }

  lemma EstimatesAppend(items: seq<Item>, x: Item)
    ensures Estimates(items + [x]) == Estimates(items) + x.tokenEstimate
    ensures PinnedEstimates(items + [x]) == PinnedEstimates(items) + if x.pinned then x.tokenEstimate else 0
  {
    assert (items + [x])[..|items|] == items;
  }

  ghost predicate PinnedFirst(items: seq<Item>) {
    forall i, j :: 0 <= i < j < |items| && items[j].pinned ==> items[i].pinned
  }

  lemma PinnedFirstPrefix(before: seq<Item>, x: Item)
    requires PinnedFirst(before + [x])
    ensures PinnedFirst(before)
    ensures x.pinned ==> forall y :: y in before ==> y.pinned
  {
    var all := before + [x];
    forall i, j | 0 <= i < j < |before| && before[j].pinned ensures before[i].pinned {
      assert all[i] == before[i] && all[j] == before[j];
    }
    if x.pinned {
      forall y | y in before ensures y.pinned {
        var i :| 0 <= i < |before| && before[i] == y;
        assert all[i] == y && all[|before|] == x;
      }
    }
  }

  /** The running sum, and how far the pinned items may push it. */
  ghost predicate WithinBudget(r: Request, s: Selection, onlyPinned: bool) {
    && s.used == Estimates(s.chosen)
    && s.used <= Max(r.Budget(), PinnedEstimates(s.chosen))
    && (onlyPinned ==> s.used == PinnedEstimates(s.chosen))
  }

  lemma SelectItemWithinBudget(c: Compiler, r: Request, s: Selection, x: Item, onlyPinned: bool)
    requires WithinBudget(r, s, onlyPinned) && (x.pinned ==> onlyPinned)
    ensures WithinBudget(r, SelectItem(c, r, s, x), onlyPinned && x.pinned)
  {
    var taken, y := SelectItemCases(c, r, s, x);
    EstimatesAppend(s.chosen, y);
  }

  lemma {:induction false} SelectionBudget(c: Compiler, r: Request, start: Selection, ordered: seq<Item>)
    requires PinnedFirst(ordered) && start.chosen == [] && start.used == 0
    ensures WithinBudget(r, SelectAll(c, r, start, ordered), forall x :: x in ordered ==> x.pinned)
  {
    if ordered != [] {
      var before, x := ordered[..|ordered| - 1], ordered[|ordered| - 1];
      assert ordered == before + [x];
      PinnedFirstPrefix(before, x);
      SelectionBudget(c, r, start, before);
      SelectItemWithinBudget(c, r, SelectAll(c, r, start, before), x, forall y :: y in before ==> y.pinned);
    }
  }

  /**
   `tokens_used` is the sum of the chosen estimates and exceeds the budget only as far as
   the pinned items alone do, because the sort key puts those first.
   */
  lemma BudgetHolds(c: Compiler, r: Request, plan: Plan, items: seq<Item>)
    ensures var b := Compile(c, r, plan, items);
            && b.tokensUsed == Estimates(b.modelItems)
            && b.tokensUsed <= Max(r.Budget(), PinnedEstimates(b.modelItems))
  {
    var p := Prepare(c, r, plan, items);
    var ordered := Visible(p.folded.items);
    SortKeyOrder();
    SortBySorts(KeyLe, Where(p.folded.items, (x: Item) => x.modelVisible));
    forall i, j | 0 <= i < j < |ordered| && ordered[j].pinned ensures ordered[i].pinned {
      assert KeyLe(ordered[i], ordered[j]);
    }
    SelectionBudget(c, r, Start(p), ordered);
  }

  lemma {:induction false} UsedOnlyGrows(c: Compiler, r: Request, start: Selection, ordered: seq<Item>, n: nat)
    requires n <= |ordered|
    ensures SelectAll(c, r, start, ordered[..n]).used <= SelectAll(c, r, start, ordered).used
    decreases |ordered|
  {
    if n < |ordered| {
      assert ordered[..|ordered| - 1][..n] == ordered[..n];
      UsedOnlyGrows(c, r, start, ordered[..|ordered| - 1], n);
      var _, _ := SelectItemCases(c, r, SelectAll(c, r, start, ordered[..|ordered| - 1]), ordered[|ordered| - 1]);
    } else {
      assert ordered[..n] == ordered;
    }
  }

  lemma {:induction false} LeftOutDoesNotFit(c: Compiler, r: Request, start: Selection, ordered: seq<Item>, k: nat)
    requires UniqueIds(ordered) && start.chosen == [] && start.excluded == [] && k < |ordered|
    requires ordered[k].id !in Ids(SelectAll(c, r, start, ordered).chosen)
    ensures DoesNotFit(c, r, SelectAll(c, r, start, ordered).used, ordered[k])
  {
    var s := SelectAll(c, r, start, ordered[..k]);
    var taken, y := SelectItemCases(c, r, s, ordered[k]);
    assert ordered[..k + 1][..k] == ordered[..k];
    UsedOnlyGrows(c, r, start, ordered, k + 1);
    ChosenStays(c, r, start, ordered, k + 1);
    if taken {
      assert y in SelectItem(c, r, s, ordered[k]).chosen;
      IdsMembers(SelectAll(c, r, start, ordered).chosen, ordered[k].id);
    }
  }

  lemma {:induction false} ChosenStays(c: Compiler, r: Request, start: Selection, ordered: seq<Item>, n: nat)
    requires n <= |ordered|
    ensures forall x :: x in SelectAll(c, r, start, ordered[..n]).chosen
                        ==> x in SelectAll(c, r, start, ordered).chosen
    decreases |ordered|
  {
    if n < |ordered| {
      assert ordered[..|ordered| - 1][..n] == ordered[..n];
      ChosenStays(c, r, start, ordered[..|ordered| - 1], n);
      var _, _ := SelectItemCases(c, r, SelectAll(c, r, start, ordered[..|ordered| - 1]), ordered[|ordered| - 1]);
    } else {
      assert ordered[..n] == ordered;
    }
  }

  /**
   Selective recall drops nothing that would have fitted: a visible prepared item that is
   not among the model items is too large for the final remaining budget, even compressed.
   */
  lemma NothingThatFitsIsLeftOut(c: Compiler, r: Request, plan: Plan, items: seq<Item>, x: Item)
    requires UniqueIds(items) && forall y :: y in items ==> !Reserved(y.id)
    ensures x in Prepare(c, r, plan, items).folded.items && x.modelVisible
            && x.id !in Ids(Compile(c, r, plan, items).modelItems)
            ==> DoesNotFit(c, r, Compile(c, r, plan, items).tokensUsed, x)
  {
    var p := Prepare(c, r, plan, items);
    if x in p.folded.items && x.modelVisible && x.id !in Ids(Compile(c, r, plan, items).modelItems) {
      PreparedItems(c, r, plan, items);
      VisibleMembers(p.folded.items);
      var ordered := Visible(p.folded.items);
      var k :| 0 <= k < |ordered| && ordered[k] == x;
      LeftOutDoesNotFit(c, r, Start(p), ordered, k);
    }
  }

  /**
   A pinned, visible item that survives filtering and de-duplication reaches the model,
   unless it is a session item that the sliding window folds away.
   */
  lemma PinnedItemsReachTheModel(c: Compiler, r: Request, plan: Plan, items: seq<Item>, x: Item)
    requires UniqueIds(items) && forall y :: y in items ==> !Reserved(y.id)
    ensures x in Prepare(c, r, plan, items).dedup.kept && x.pinned && x.modelVisible ==>
              (x.id in Ids(Compile(c, r, plan, items).modelItems)
               <==> x.id !in Prepare(c, r, plan, items).window.excluded)
    ensures x in Prepare(c, r, plan, items).dedup.kept && x.pinned && x.modelVisible && !x.kind.Session? ==>
              x.id in Ids(Compile(c, r, plan, items).modelItems)
  {
    var p := Prepare(c, r, plan, items);
    if x in p.dedup.kept && x.pinned && x.modelVisible {
      PreparedItems(c, r, plan, items);
      if x.id in p.window.excluded {
        EveryItemIsAccountedFor(c, r, plan, items, x);
      } else {
        PinnedIsNotFolded(c, r, p.window.items, x);
        NothingThatFitsIsLeftOut(c, r, plan, items, x);
      }
      KeptHasUniqueIds(r, plan, items);
      if !x.kind.Session? {
        OnlySessionsSlide(c, r, p.dedup.kept, x);
      }
    }
  }

  lemma KeptHasUniqueIds(r: Request, plan: Plan, items: seq<Item>)
    requires UniqueIds(items)
    ensures UniqueIds(Dedup(Filter(r, plan, items).items).kept)
  {
    FilterMembers(r, plan, items);
    DedupKeepsChampions(Filter(r, plan, items).items);
  }

  lemma PinnedIsNotFolded(c: Compiler, r: Request, items: seq<Item>, x: Item)
    requires UniqueIds(items) && x in items && x.pinned
    ensures x.id !in Hierarchical(c, r, items).excluded
  {
    var folded := Where(items, Foldable);
    WhereMembers(items, Foldable);
    if x.id in Hierarchical(c, r, items).excluded {
      var best := MostRelevant(folded);
      WhereMembers(folded, (y: Item) => y.id !in [best.id]);
      IdsMembers(Without(folded, [best.id]), x.id);
      if y :| y in folded && y.id == x.id {
        IdNamesItem(items, x, y);
      }
    }
  }

  lemma OnlySessionsSlide(c: Compiler, r: Request, items: seq<Item>, x: Item)
    requires UniqueIds(items) && x in items && !x.kind.Session?
    ensures x.id !in SlidingWindow(c, r, items).excluded
  {
    if |Sessions(items)| > r.slidingWindowItems {
      SessionsSplit(items, |Sessions(items)| - r.slidingWindowItems);
      if y :| y in items && y.kind.Session? && y.id == x.id {
        IdNamesItem(items, x, y);
      }
    }
  }

  /* ---------- conflicts ---------- */

  lemma {:induction false} FactKeysMembers(c: Compiler, items: seq<Item>, key: string)
    ensures key in FactKeys(c, items) <==> key != "" && exists x :: x in items && c.fact(x).key == key
  {
    if items != [] {
      var n := |items| - 1;
      assert items == items[..n] + [items[n]];
      FactKeysMembers(c, items[..n], key);
    }
  }

  /** Two values are enough for a disagreement, and needed. */
  lemma MoreThanOneValue(values: set<string>)
    ensures |values| > 1 <==> exists v, w :: v in values && w in values && v != w
  {
    if |values| > 1 {
      var v :| v in values;
      assert |values - {v}| > 0;
      var w :| w in values - {v};
    }
    if v, w :| v in values && w in values && v != w {
      assert {v, w} <= values;
      SubsetSize({v, w}, values);
    }
  }

  lemma {:induction false} SubsetSize(a: set<string>, b: set<string>)
    requires a <= b
    ensures |a| <= |b|
  {
    if a != {} {
      var v :| v in a;
      SubsetSize(a - {v}, b - {v});
    }
  }

  ghost predicate Disagree(c: Compiler, items: seq<Item>, key: string) {
    exists x, y :: x in items && y in items && c.fact(x).key == key == c.fact(y).key
                   && c.fact(x).value != c.fact(y).value
  }

  lemma ManyValuesIffDisagree(c: Compiler, items: seq<Item>, key: string)
    ensures |set x | x in Stating(c, items, key) :: c.fact(x).value| > 1 <==> Disagree(c, items, key)
  {
    var group := Stating(c, items, key);
    WhereMembers(items, (x: Item) => c.fact(x).key == key);
    var values := set x | x in group :: c.fact(x).value;
    MoreThanOneValue(values);
    if v, w :| v in values && w in values && v != w {
      var x :| x in group && c.fact(x).value == v;
      var y :| y in group && c.fact(y).value == w;
      assert Disagree(c, items, key);
    }
    if Disagree(c, items, key) {
      var x, y :| x in items && y in items && c.fact(x).key == key == c.fact(y).key
                  && c.fact(x).value != c.fact(y).value;
      assert x in group && y in group;
      assert c.fact(x).value in values && c.fact(y).value in values;
    }
  }

  lemma {:induction false} ConflictsAtKeys(c: Compiler, items: seq<Item>, keys: seq<string>, f: Conflict)
    ensures f in ConflictsAt(c, items, keys)
       <==> f.field in keys && Disagree(c, items, f.field)
            && f.candidateIds == SortBy(StringLe, Ids(Stating(c, items, f.field)))
  {
    if keys != [] {
      var n := |keys| - 1;
      assert keys == keys[..n] + [keys[n]];
      ConflictsAtKeys(c, items, keys[..n], f);
      ManyValuesIffDisagree(c, items, keys[n]);
    }
  }

  /**
   A conflict is disclosed for a fact exactly when two surviving items state it with
   different values, and it names every item that states the fact.
   */
  lemma ConflictsAreExactlyDisagreements(c: Compiler, r: Request, plan: Plan, items: seq<Item>, f: Conflict)
    ensures f in Compile(c, r, plan, items).conflicts
       <==> f.field != "" && Disagree(c, Prepare(c, r, plan, items).dedup.kept, f.field)
            && f.candidateIds == SortBy(StringLe, Ids(Stating(c, Prepare(c, r, plan, items).dedup.kept, f.field)))
  {
    var kept := Prepare(c, r, plan, items).dedup.kept;
    var keys := FactKeys(c, kept);
    SortByMembers(StringLe, keys);
    ConflictsAtKeys(c, kept, SortBy(StringLe, keys), f);
    FactKeysMembers(c, kept, f.field);
  }
}
