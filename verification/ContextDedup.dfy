/**
 Two-stage de-duplication. Items with a source reference and a version are first grouped
 by that pair and de-duplicated by content inside their group; the survivors and all other
 items are then sorted by id and de-duplicated by content again. A Python dictionary from
 content hash to item is an insertion-ordered sequence of items with distinct contents.
 */
module ContextDedup {
  import opened Ordering
  import opened ContextItems

  /** Position of the entry for content `c`, or the length when there is none. */
  function Find(entries: seq<Item>, c: Content): (i: nat)
    ensures i <= |entries|
    ensures i < |entries| ==> entries[i].content == c
    ensures forall j :: 0 <= j < i ==> entries[j].content != c
  {
    if entries == [] then 0
    else if entries[0].content == c then 0
    else 1 + Find(entries[1..], c)
  }

  /** One dictionary step: add the item, or keep the better of the two. */
  function Absorb(entries: seq<Item>, x: Item): seq<Item> {
    var i := Find(entries, x.content);
    if i == |entries| then entries + [x] else entries[i := Winner(entries[i], x)]
  }

  /** The item that a dictionary step gives up, if any. */
  function Dropped(entries: seq<Item>, x: Item): seq<string> {
    var i := Find(entries, x.content);
    if i == |entries| then []
    else if Beats(x, entries[i]) then [entries[i].id]
    else [x.id]
  }

  /** The dictionary after all items, in insertion order. */
  function KeepBest(items: seq<Item>): seq<Item> {
    if items == [] then []
    else Absorb(KeepBest(items[..|items| - 1]), items[|items| - 1])
  }

  /** The ids given up along the way. */
  function Beaten(items: seq<Item>): seq<string> {
    if items == [] then []
    else Beaten(items[..|items| - 1])
         + Dropped(KeepBest(items[..|items| - 1]), items[|items| - 1])
  }

  /** `x` beats every other item of `items` that has its content. */
  ghost predicate Champion(x: Item, items: set<Item>) {
    x in items && forall y :: y in items && y.content == x.content && y != x ==> Beats(x, y)
  }

  ghost predicate DistinctContents(items: seq<Item>) {
    forall i, j :: 0 <= i < j < |items| ==> items[i].content != items[j].content
  }

  /** What is known of a dictionary built from `items`. */
  ghost predicate Summarises(entries: seq<Item>, items: seq<Item>) {
    && DistinctContents(entries)
    && (forall i :: 0 <= i < |entries| ==> Champion(entries[i], ItemSet(items)))
    && (forall y :: y in items ==> Find(entries, y.content) < |entries|)
  }

  lemma LastIdIsNew(items: seq<Item>, x: Item)
    requires UniqueIds(items + [x])
    ensures UniqueIds(items) && forall y :: y in items ==> y.id != x.id
  {
    var all := items + [x];
    forall i, j | 0 <= i < j < |items| ensures items[i].id != items[j].id {
      assert all[i] == items[i] && all[j] == items[j];
    }
    forall y | y in items ensures y.id != x.id {
      var k :| 0 <= k < |items| && items[k] == y;
      assert all[k] == y && all[|items|] == x;
    }
  }

  /** A champion that meets an equal content yields its place to the winner of the two. */
  lemma WinnerIsChampion(items: set<Item>, e: Item, x: Item)
    requires Champion(e, items) && e.content == x.content
    requires forall y :: y in items ==> y.id != x.id
    ensures Champion(Winner(e, x), items + {x})
  {
    forall y | y in items + {x} && y.content == e.content && y != Winner(e, x)
      ensures Beats(Winner(e, x), y)
    {
      BeatsIsStrictOrder(x, e, y);
    }
  }

  lemma AbsorbKeepsChampions(entries: seq<Item>, items: set<Item>, x: Item, k: nat)
    requires forall y :: y in items ==> y.id != x.id
    requires k < |Absorb(entries, x)|
    requires k < |entries| ==> Champion(entries[k], items)
    requires k < |entries| && k != Find(entries, x.content) ==> entries[k].content != x.content
    requires k == |entries| ==> forall y :: y in items ==> y.content != x.content
    ensures Champion(Absorb(entries, x)[k], items + {x})
  {
    if k < |entries| && k == Find(entries, x.content) {
      WinnerIsChampion(items, entries[k], x);
    }
  }

  lemma AbsorbCovers(entries: seq<Item>, x: Item, c: Content)
    requires x.content == c || Find(entries, c) < |entries|
    ensures Find(Absorb(entries, x), c) < |Absorb(entries, x)|
  {
    assert Absorb(entries, x)[Find(entries, c)].content == c;
  }

  lemma AbsorbIsDistinct(entries: seq<Item>, x: Item)
    requires DistinctContents(entries)
    ensures DistinctContents(Absorb(entries, x))
  {
  }

  lemma AbsorbSummarises(entries: seq<Item>, items: seq<Item>, x: Item)
    requires Summarises(entries, items) && UniqueIds(items + [x])
    ensures Summarises(Absorb(entries, x), items + [x])
  {
    LastIdIsNew(items, x);
    AbsorbIsDistinct(entries, x);
    assert ItemSet(items + [x]) == ItemSet(items) + {x};
    forall k | 0 <= k < |Absorb(entries, x)|
      ensures Champion(Absorb(entries, x)[k], ItemSet(items + [x]))
    {
      AbsorbKeepsChampions(entries, ItemSet(items), x, k);
    }
    forall y | y in items + [x]
      ensures Find(Absorb(entries, x), y.content) < |Absorb(entries, x)|
    {
      AbsorbCovers(entries, x, y.content);
    }
  }

  lemma {:induction false} KeepBestSummarises(items: seq<Item>)
    requires UniqueIds(items)
    ensures Summarises(KeepBest(items), items)
  {
    if items != [] {
      var n := |items| - 1;
      KeepBestSummarises(items[..n]);
      assert items == items[..n] + [items[n]];
      AbsorbSummarises(KeepBest(items[..n]), items[..n], items[n]);
    }
  }

  /** Exactly the champions survive one pass. */
  lemma KeepBestKeepsChampions(items: seq<Item>)
    requires UniqueIds(items)
    ensures forall x :: x in KeepBest(items) <==> Champion(x, ItemSet(items))
    ensures UniqueIds(KeepBest(items))
  {
    KeepBestSummarises(items);
    var kept := KeepBest(items);
    forall x | Champion(x, ItemSet(items)) ensures x in kept {
      BeatsIsStrictOrder(x, kept[Find(kept, x.content)], x);
    }
    forall i, j | 0 <= i < j < |kept| ensures kept[i].id != kept[j].id {
      if kept[i].id == kept[j].id {
        IdNamesItem(items, kept[i], kept[j]);
      }
    }
  }

  /** Every item has a champion of its content that is the item itself or beats it. */
  lemma ChampionExists(items: seq<Item>, y: Item) returns (x: Item)
    requires UniqueIds(items) && y in items
    ensures Champion(x, ItemSet(items)) && x.content == y.content && (x == y || Beats(x, y))
  {
    KeepBestSummarises(items);
    x := KeepBest(items)[Find(KeepBest(items), y.content)];
  }

  lemma AbsorbMembers(entries: seq<Item>, x: Item, y: Item)
    requires DistinctContents(entries)
    ensures y in Absorb(entries, x) <==>
      var i := Find(entries, x.content);
      if i == |entries| then y in entries || y == x
      else if Beats(x, entries[i]) then (y in entries && y != entries[i]) || y == x
      else y in entries
  {
    var i := Find(entries, x.content);
    var after := Absorb(entries, x);
    if i < |entries| && y in entries && y != entries[i] {
      var k :| 0 <= k < |entries| && entries[k] == y;
      assert after[k] == y;
    }
    if i < |entries| {
      assert after[i] == Winner(entries[i], x);
    }
    if y in after {
      var k :| 0 <= k < |after| && after[k] == y;
      assert i < |entries| && k != i ==> entries[k] == y && entries[k].content != entries[i].content;
    }
  }

  /** One step gives up exactly the item that is no longer among the entries. */
  lemma DroppedIsTheRest(entries: seq<Item>, items: seq<Item>, x: Item, s: string)
    requires Summarises(entries, items) && UniqueIds(items + [x])
    ensures s in Dropped(entries, x)
      <==> (exists y :: (y in entries || y == x) && y.id == s && y !in Absorb(entries, x))
  {
    LastIdIsNew(items, x);
    forall y { AbsorbMembers(entries, x, y); }
    var i := Find(entries, x.content);
    if i < |entries| {
      assert Champion(entries[i], ItemSet(items));
      var loser := if Beats(x, entries[i]) then entries[i] else x;
      assert loser !in Absorb(entries, x) && Dropped(entries, x) == [loser.id];
    }
  }

  /** The beaten ids are those of the items that were not kept. */
  lemma {:induction false} BeatenAreTheRest(items: seq<Item>)
    requires UniqueIds(items)
    ensures forall s :: s in Beaten(items)
              <==> exists y :: y in items && y.id == s && y !in KeepBest(items)
  {
    if items != [] {
      var before, x := items[..|items| - 1], items[|items| - 1];
      assert items == before + [x];
      BeatenAreTheRest(before);
      forall s ensures s in Beaten(items)
              <==> exists y :: y in items && y.id == s && y !in KeepBest(items)
      {
        BeatenStep(before, x, s);
      }
    }
  }

  lemma BeatenStep(before: seq<Item>, x: Item, s: string)
    requires UniqueIds(before + [x])
    requires s in Beaten(before)
      <==> exists y :: y in before && y.id == s && y !in KeepBest(before)
    ensures s in Beaten(before) + Dropped(KeepBest(before), x)
      <==> exists y :: y in before + [x] && y.id == s && y !in Absorb(KeepBest(before), x)
  {
    var entries := KeepBest(before);
    LastIdIsNew(before, x);
    KeepBestSummarises(before);
    KeepBestKeepsChampions(before);
    DroppedIsTheRest(entries, before, x, s);
    if s in Beaten(before) {
      var y :| y in before && y.id == s && y !in entries;
      AbsorbMembers(entries, x, y);
      assert y in before + [x];
    }
    if s in Dropped(entries, x) {
      var y :| (y in entries || y == x) && y.id == s && y !in Absorb(entries, x);
      assert y in before + [x];
    }
    if y :| y in before + [x] && y.id == s && y !in Absorb(entries, x) {
      assert y in before || y == x;
    }
  }

  /* ---------- first stage ---------- */

  predicate HasPrimary(x: Item) {
    x.sourceRef != "" && x.version != ""
  }

  function PrimaryKey(x: Item): (string, string) {
    (x.sourceRef, x.version)
  }

  predicate InGroup(x: Item, key: (string, string)) {
    HasPrimary(x) && PrimaryKey(x) == key
  }

  function Group(items: seq<Item>, key: (string, string)): seq<Item> {
    Where(items, x => InGroup(x, key))
  }

  /** The group keys in order of first appearance. */
  function GroupKeys(items: seq<Item>): seq<(string, string)> {
    if items == [] then []
    else
      var keys := GroupKeys(items[..|items| - 1]);
      var x := items[|items| - 1];
      if HasPrimary(x) && PrimaryKey(x) !in keys then keys + [PrimaryKey(x)] else keys
  }

  function Resolved(items: seq<Item>, keys: seq<(string, string)>): seq<Item> {
    if keys == [] then []
    else Resolved(items, keys[..|keys| - 1]) + KeepBest(Group(items, keys[|keys| - 1]))
  }

  function ResolvedBeaten(items: seq<Item>, keys: seq<(string, string)>): seq<string> {
    if keys == [] then []
    else ResolvedBeaten(items, keys[..|keys| - 1]) + Beaten(Group(items, keys[|keys| - 1]))
  }

  function Pool(items: seq<Item>): seq<Item> {
    Resolved(items, GroupKeys(items)) + Where(items, x => !HasPrimary(x))
  }

  datatype Deduplicated = Deduplicated(kept: seq<Item>, excluded: seq<string>)

  function Dedup(items: seq<Item>): Deduplicated {
    var sorted := SortBy(IdLe, Pool(items));
    Deduplicated(KeepBest(sorted), ResolvedBeaten(items, GroupKeys(items)) + Beaten(sorted))
  }

  ghost predicate DistinctKeys(keys: seq<(string, string)>) {
    forall i, j :: 0 <= i < j < |keys| ==> keys[i] != keys[j]
  }

  lemma {:induction false} GroupKeysCover(items: seq<Item>)
    ensures DistinctKeys(GroupKeys(items))
    ensures forall x :: x in items && HasPrimary(x) ==> PrimaryKey(x) in GroupKeys(items)
  {
    if items != [] {
      var n := |items| - 1;
      GroupKeysCover(items[..n]);
      assert items == items[..n] + [items[n]];
    }
  }

  /** `x` wins inside its own group. */
  ghost predicate GroupChampion(x: Item, items: seq<Item>) {
    x in items && HasPrimary(x) && Champion(x, ItemSet(Group(items, PrimaryKey(x))))
  }

  lemma GroupMembers(items: seq<Item>, key: (string, string))
    requires UniqueIds(items)
    ensures UniqueIds(Group(items, key))
    ensures forall x :: x in Group(items, key) <==> x in items && InGroup(x, key)
  {
    SubsequenceUniqueIds(items, x => InGroup(x, key));
  }

  lemma {:induction false} ResolvedMembers(items: seq<Item>, keys: seq<(string, string)>)
    requires UniqueIds(items) && DistinctKeys(keys)
    ensures forall x :: x in Resolved(items, keys)
              <==> GroupChampion(x, items) && PrimaryKey(x) in keys
    ensures UniqueIds(Resolved(items, keys))
  {
    if keys != [] {
      var n := |keys| - 1;
      var key := keys[n];
      assert keys == keys[..n] + [key];
      ResolvedMembers(items, keys[..n]);
      GroupMembers(items, key);
      KeepBestKeepsChampions(Group(items, key));
      var left, right := Resolved(items, keys[..n]), KeepBest(Group(items, key));
      assert forall x :: x in right ==> x in ItemSet(Group(items, key)) && PrimaryKey(x) == key;
      JoinUniqueIds(items, left, right);
    }
  }

  /** Disjoint selections of items with unique ids can be joined. */
  lemma JoinUniqueIds(items: seq<Item>, left: seq<Item>, right: seq<Item>)
    requires UniqueIds(items) && UniqueIds(left) && UniqueIds(right)
    requires forall x :: x in left || x in right ==> x in items
    requires forall x :: x in left ==> x !in right
    ensures UniqueIds(left + right)
  {
    var both := left + right;
    forall i, j | 0 <= i < j < |both| ensures both[i].id != both[j].id {
      if i < |left| <= j && both[i].id == both[j].id {
        assert both[i] in left && both[j] in right;
        IdNamesItem(items, both[i], both[j]);
      }
    }
  }

  lemma {:induction false} ResolvedBeatenMembers(items: seq<Item>, keys: seq<(string, string)>)
    requires UniqueIds(items)
    ensures forall s :: s in ResolvedBeaten(items, keys)
              <==> exists y :: y in items && y.id == s && HasPrimary(y)
                               && PrimaryKey(y) in keys && !GroupChampion(y, items)
  {
    if keys != [] {
      var n := |keys| - 1;
      var key := keys[n];
      assert keys == keys[..n] + [key];
      ResolvedBeatenMembers(items, keys[..n]);
      GroupMembers(items, key);
      BeatenAreTheRest(Group(items, key));
      KeepBestKeepsChampions(Group(items, key));
      forall s ensures s in ResolvedBeaten(items, keys)
              <==> exists y :: y in items && y.id == s && HasPrimary(y)
                               && PrimaryKey(y) in keys && !GroupChampion(y, items)
      {
        if s in Beaten(Group(items, key)) {
          var y :| y in Group(items, key) && y.id == s && y !in KeepBest(Group(items, key));
          assert PrimaryKey(y) == key && !GroupChampion(y, items);
        }
      }
    }
  }

  lemma PoolMembers(items: seq<Item>)
    requires UniqueIds(items)
    ensures forall x :: x in Pool(items)
              <==> x in items && (HasPrimary(x) ==> GroupChampion(x, items))
    ensures UniqueIds(Pool(items))
  {
    GroupKeysCover(items);
    ResolvedMembers(items, GroupKeys(items));
    SubsequenceUniqueIds(items, x => !HasPrimary(x));
    JoinUniqueIds(items, Resolved(items, GroupKeys(items)), Where(items, x => !HasPrimary(x)));
  }

  /* ---------- both stages ---------- */

  lemma PoolChampions(items: seq<Item>, x: Item)
    requires UniqueIds(items)
    ensures Champion(x, ItemSet(Pool(items))) <==> Champion(x, ItemSet(items))
  {
    PoolMembers(items);
    if Champion(x, ItemSet(items)) {
      if HasPrimary(x) {
        GroupMembers(items, PrimaryKey(x));
        assert GroupChampion(x, items);
      }
      assert x in Pool(items);
    }
    if Champion(x, ItemSet(Pool(items))) {
      assert x in Pool(items);
      forall y | y in ItemSet(items) && y.content == x.content && y != x ensures Beats(x, y) {
        if y in Pool(items) {
          assert y in ItemSet(Pool(items));
        } else {
          var group := Group(items, PrimaryKey(y));
          GroupMembers(items, PrimaryKey(y));
          var z := ChampionExists(group, y);
          assert z in group && GroupChampion(z, items) && z in ItemSet(Pool(items));
          BeatsIsStrictOrder(x, z, y);
        }
      }
    }
  }

  lemma SortedPool(items: seq<Item>)
    requires UniqueIds(items)
    ensures UniqueIds(SortBy(IdLe, Pool(items)))
    ensures ItemSet(SortBy(IdLe, Pool(items))) == ItemSet(Pool(items))
  {
    PoolMembers(items);
    RearrangedUniqueIds(Pool(items), SortBy(IdLe, Pool(items)));
  }

  /**
   The two stages together keep, for each distinct content, exactly the item with the
   greatest (score, id): what one pass over all the items would keep.
   */
  lemma DedupKeepsChampions(items: seq<Item>)
    requires UniqueIds(items)
    ensures forall x :: x in Dedup(items).kept <==> Champion(x, ItemSet(items))
    ensures forall x :: x in Dedup(items).kept <==> x in KeepBest(items)
    ensures DistinctContents(Dedup(items).kept) && UniqueIds(Dedup(items).kept)
    ensures forall y :: y in items ==> exists x :: x in Dedup(items).kept && x.content == y.content
  {
    var sorted := SortBy(IdLe, Pool(items));
    SortedPool(items);
    KeepBestSummarises(sorted);
    KeepBestKeepsChampions(sorted);
    KeepBestKeepsChampions(items);
    forall x { PoolChampions(items, x); }
    forall y | y in items
      ensures exists x :: x in Dedup(items).kept && x.content == y.content
    {
      var x := ChampionExists(items, y);
      assert x in Dedup(items).kept;
    }
  }

  /** Given up in the first stage: beaten inside its group, so not a champion at all. */
  lemma BeatenInGroup(items: seq<Item>, s: string)
    requires UniqueIds(items) && s in ResolvedBeaten(items, GroupKeys(items))
    ensures exists y :: y in items && y.id == s && !Champion(y, ItemSet(items))
  {
    ResolvedBeatenMembers(items, GroupKeys(items));
    var y :| y in items && y.id == s && HasPrimary(y) && !GroupChampion(y, items);
    PoolMembers(items);
    PoolChampions(items, y);
    assert y !in ItemSet(Pool(items));
  }

  /** Given up in the second stage: beaten in the pool, so not a champion either. */
  lemma BeatenInPool(items: seq<Item>, s: string)
    requires UniqueIds(items) && s in Beaten(SortBy(IdLe, Pool(items)))
    ensures exists y :: y in items && y.id == s && !Champion(y, ItemSet(items))
  {
    var sorted := SortBy(IdLe, Pool(items));
    SortedPool(items);
    BeatenAreTheRest(sorted);
    KeepBestKeepsChampions(sorted);
    var y :| y in sorted && y.id == s && y !in KeepBest(sorted);
    PoolMembers(items);
    PoolChampions(items, y);
    assert y in ItemSet(sorted);
  }

  lemma ExcludedWasNotKept(items: seq<Item>, s: string)
    requires UniqueIds(items) && s in Dedup(items).excluded
    ensures exists y :: y in items && y.id == s && y !in Dedup(items).kept
  {
    DedupKeepsChampions(items);
    if s in ResolvedBeaten(items, GroupKeys(items)) {
      BeatenInGroup(items, s);
    } else {
      BeatenInPool(items, s);
    }
  }

  lemma NotKeptIsExcluded(items: seq<Item>, y: Item)
    requires UniqueIds(items) && y in items && y !in Dedup(items).kept
    ensures y.id in Dedup(items).excluded
  {
    var sorted := SortBy(IdLe, Pool(items));
    PoolMembers(items);
    if y in Pool(items) {
      SortedPool(items);
      assert y in ItemSet(Pool(items)) && y in ItemSet(sorted);
      BeatenAreTheRest(sorted);
    } else {
      GroupKeysCover(items);
      ResolvedBeatenMembers(items, GroupKeys(items));
    }
  }

  /** The excluded ids are exactly those of the items that were not kept. */
  lemma DedupExcludesTheRest(items: seq<Item>)
    requires UniqueIds(items)
    ensures forall s :: s in Dedup(items).excluded
              <==> exists y :: y in items && y.id == s && y !in Dedup(items).kept
  {
    forall s | s in Dedup(items).excluded
      ensures exists y :: y in items && y.id == s && y !in Dedup(items).kept
    {
      ExcludedWasNotKept(items, s);
    }
    forall y | y in items && y !in Dedup(items).kept ensures y.id in Dedup(items).excluded {
      NotKeptIsExcluded(items, y);
    }
  }

  /** Arrival order does not matter: same survivors in the same order, same ids excluded. */
  lemma DedupIgnoresOrder(a: seq<Item>, b: seq<Item>)
    requires UniqueIds(a) && multiset(a) == multiset(b)
    ensures Dedup(a).kept == Dedup(b).kept
    ensures forall s :: s in Dedup(a).excluded <==> s in Dedup(b).excluded
  {
    RearrangedUniqueIds(a, b);
    SameElements(a, b);
    PoolMembers(a);
    PoolMembers(b);
    forall x ensures x in Pool(a) <==> x in Pool(b) {
      if HasPrimary(x) {
        GroupMembers(a, PrimaryKey(x));
        GroupMembers(b, PrimaryKey(x));
        assert ItemSet(Group(a, PrimaryKey(x))) == ItemSet(Group(b, PrimaryKey(x)));
      }
    }
    assert ItemSet(Pool(a)) == ItemSet(Pool(b));
    SameSetSameMultiset(Pool(a), Pool(b));
    IdOrder();
    UniqueIdsSeparate(Pool(a));
    SortIgnoresOrder(IdLe, Pool(a), Pool(b));
    DedupExcludesTheRest(a);
    DedupExcludesTheRest(b);
  }

  /* ---------- the loops ---------- */

  /** The de-duplicating loop that both stages run. */
  method KeepBestLoop(items: seq<Item>) returns (entries: seq<Item>, beaten: seq<string>)
    ensures entries == KeepBest(items)
    ensures beaten == Beaten(items)
  {
    entries, beaten := [], [];
    for i := 0 to |items|
      invariant entries == KeepBest(items[..i])
      invariant beaten == Beaten(items[..i])
    {
      assert items[..i + 1][..i] == items[..i];
      var item := items[i];
      var at := Find(entries, item.content);
      if at == |entries| {
        entries := entries + [item];
      } else {
        var existing := entries[at];
        var winner := Winner(existing, item);
        var loser := if winner == existing then item else existing;
        entries := entries[at := winner];
        beaten := beaten + [loser.id];
      }
    }
    assert items[..|items|] == items;
  }

  /** The grouping loop: ordered group keys, their items, and the items without a group. */
  method GroupByPrimary(items: seq<Item>)
    returns (keys: seq<(string, string)>, primary: map<(string, string), seq<Item>>, others: seq<Item>)
    ensures keys == GroupKeys(items)
    ensures forall k :: k in keys ==> k in primary && primary[k] == Group(items, k)
    ensures others == Where(items, x => !HasPrimary(x))
  {
    keys, primary, others := [], map[], [];
    for i := 0 to |items|
      invariant keys == GroupKeys(items[..i])
      invariant forall k :: k in primary <==> k in keys
      invariant forall k :: k in primary ==> primary[k] == Group(items[..i], k)
      invariant forall k :: k !in primary ==> Group(items[..i], k) == []
      invariant others == Where(items[..i], x => !HasPrimary(x))
    {
      assert items[..i + 1][..i] == items[..i];
      var item := items[i];
      if HasPrimary(item) {
        var key := PrimaryKey(item);
        if key in primary {
          primary := primary[key := primary[key] + [item]];
        } else {
          keys := keys + [key];
          primary := primary[key := [item]];
        }
      } else {
        others := others + [item];
      }
    }
    assert items[..|items|] == items;
  }

  /** `_deduplicate`. */
  method Deduplicate(items: seq<Item>) returns (result: Deduplicated)
    ensures result == Dedup(items)
  {
    var keys, primary, withoutPrimary := GroupByPrimary(items);
    var resolved: seq<Item> := [];
    var excluded: seq<string> := [];
    for k := 0 to |keys|
      invariant resolved == Resolved(items, keys[..k])
      invariant excluded == ResolvedBeaten(items, keys[..k])
    {
      assert keys[..k + 1][..k] == keys[..k];
      var best, beaten := KeepBestLoop(primary[keys[k]]);
      resolved := resolved + best;
      excluded := excluded + beaten;
    }
    assert keys[..|keys|] == keys;
    var kept, beaten := KeepBestLoop(SortBy(IdLe, resolved + withoutPrimary));
    result := Deduplicated(kept, excluded + beaten);
  }
}
