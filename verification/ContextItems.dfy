/**
 The context items that the compiler ranks, and the pure parts of the compiler: token
 estimates, scores, sort keys and bounded summaries. An absent optional string is the
 empty string, since the code tests all of them for truth. Scores are reals.
 */
module ContextItems {
  import opened Wrappers
  import opened Ordering

  datatype Kind =
    | Instruction | UserProfile | Session | TaskState | Memory | Knowledge | ToolResult
    | Artifact | Policy | ToolDefinition | Scene | WorkflowStage | Telemetry | Alarm
    | Skill | Retrieval
  {
    /** Rank of the kind in the sort key; several kinds share a rank. */
    function Order(): nat {
      match this
      case Instruction => 0
      case Policy => 1
      case TaskState => 2
      case UserProfile => 3
      case Session => 4
      case Memory => 5
      case Knowledge => 6
      case ToolResult => 7
      case Artifact => 8
      case ToolDefinition => 9
      case WorkflowStage => 3
      case Scene => 4
      case Telemetry => 5
      case Alarm => 6
      case Skill => 7
      case Retrieval => 8
    }

    /** Kinds whose items may be replaced by a summary. */
    predicate Compactable() {
      Session? || Memory? || Knowledge? || ToolResult? || Artifact? || Scene?
      || Telemetry? || Alarm? || Skill? || Retrieval?
    }

    /** The enumeration's string value. */
    function Name(): string {
      match this
      case Instruction => "instruction"
      case UserProfile => "user_profile"
      case Session => "session"
      case TaskState => "task_state"
      case Memory => "memory"
      case Knowledge => "knowledge"
      case ToolResult => "tool_result"
      case Artifact => "artifact"
      case Policy => "policy"
      case ToolDefinition => "tool_definition"
      case Scene => "scene"
      case WorkflowStage => "workflow_stage"
      case Telemetry => "telemetry"
      case Alarm => "alarm"
      case Skill => "skill"
      case Retrieval => "retrieval"
    }
  }

  /** Text, or a dictionary given by its canonical (key-sorted) JSON serialisation. */
  datatype Content = Text(text: string) | Data(json: string)

  datatype Metadata = Metadata(
    allowedRoles: set<string>,
    allowedUserIds: set<string>,
    tenantId: string,
    siteId: string,
    userId: string,
    assetId: string,
    stale: bool,
    compressed: bool,
    compaction: string,
    sourceIds: seq<string>)

  const NO_METADATA := Metadata({}, {}, "", "", "", "", false, false, "", [])

  datatype Item = Item(
    id: string,
    kind: Kind,
    content: Content,
    summary: string,
    source: string,
    sourceRef: string,
    version: string,
    createdAt: int,
    sourceTimestamp: Option<int>,
    retrievedAt: int,
    expiresAt: Option<int>,
    relevance: real,
    authority: real,
    freshness: real,
    utility: real,
    tokenEstimate: nat,
    pinned: bool,
    sensitive: bool,
    modelVisible: bool,
    toolVisible: bool,
    metadata: Metadata)

  function Ids(items: seq<Item>): (r: seq<string>)
    ensures |r| == |items| && forall i :: 0 <= i < |items| ==> r[i] == items[i].id
  {
    seq(|items|, i requires 0 <= i < |items| => items[i].id)
  }

  ghost predicate UniqueIds(items: seq<Item>) {
    forall i, j :: 0 <= i < j < |items| ==> items[i].id != items[j].id
  }

  ghost function ItemSet(items: seq<Item>): set<Item> {
    set x | x in items
  }

  /* ---------- token estimates ---------- */

  predicate Cjk(c: char) {
    '\U{3400}' <= c <= '\U{9FFF}'
  }

  function CjkCount(s: string): (n: nat)
    ensures n <= |s|
  {
    if s == [] then 0 else CjkCount(s[..|s| - 1]) + if Cjk(s[|s| - 1]) then 1 else 0
  }

  /** One token per CJK character and one per four other characters, rounded up. */
  function EstimateTokens(s: string): nat {
    var n := CjkCount(s) + (|s| - CjkCount(s) + 3) / 4;
    if n < 1 then 1 else n
  }

  function ContentTokens(c: Content): nat {
    match c
    case Text(s) => EstimateTokens(s)
    case Data(json) => EstimateTokens(json)
  }

  /** The recorded estimate, or a computed one when none was recorded. */
  function Cost(item: Item): nat {
    if item.tokenEstimate != 0 then item.tokenEstimate else ContentTokens(item.content)
  }

  /** Keep a summary within its limit, or cut it at four characters a token. */
  function LimitSummary(summary: string, maxTokens: nat): string {
    if EstimateTokens(summary) <= maxTokens || |summary| <= maxTokens * 4 then summary
    else summary[..maxTokens * 4]
  }

  /** A limited summary never costs more than four times its limit. */
  lemma LimitSummaryCost(summary: string, maxTokens: nat)
    requires maxTokens >= 1
    ensures EstimateTokens(LimitSummary(summary, maxTokens)) <= 4 * maxTokens
  {
    var cut := LimitSummary(summary, maxTokens);
    assert EstimateTokens(cut) <= maxTokens || |cut| <= 4 * maxTokens;
  }

  /**
   The limit itself is met exactly when nothing had to be cut, or when the cut is a full
   one and holds no CJK character. Cutting at four characters a token is too generous for
   CJK text, which costs one token a character.
   */
  lemma LimitSummaryMeetsLimit(summary: string, maxTokens: nat)
    requires maxTokens >= 1
    ensures EstimateTokens(LimitSummary(summary, maxTokens)) <= maxTokens
       <==> EstimateTokens(summary) <= maxTokens
            || (|summary| > 4 * maxTokens && CjkCount(summary[..4 * maxTokens]) == 0)
  {
    if EstimateTokens(summary) > maxTokens && |summary| > maxTokens * 4 {
      var cut := summary[..maxTokens * 4];
      assert LimitSummary(summary, maxTokens) == cut;
      var c := CjkCount(cut);
      assert c + (4 * maxTokens - c + 3) / 4 <= maxTokens <==> c == 0;
    }
  }

  /** The factor four is reached: a long CJK summary costs four times its limit. */
  lemma {:induction false} LimitSummaryWorstCase(summary: string, maxTokens: nat)
    requires maxTokens >= 1 && |summary| > 4 * maxTokens
    requires forall i :: 0 <= i < |summary| ==> Cjk(summary[i])
    ensures EstimateTokens(LimitSummary(summary, maxTokens)) == 4 * maxTokens
  {
    AllCjk(summary[..4 * maxTokens]);
    AllCjk(summary);
  }

  lemma {:induction false} AllCjk(s: string)
    requires forall i :: 0 <= i < |s| ==> Cjk(s[i])
    ensures CjkCount(s) == |s|
  {
    if s != [] {
      AllCjk(s[..|s| - 1]);
    }
  }

  /* ---------- scores and sort keys ---------- */

  function Score(item: Item): real {
    if item.pinned then 10000.0
    else
      var value := 0.35 * item.relevance + 0.25 * item.authority
                   + 0.20 * item.freshness + 0.20 * item.utility;
      var share := Cost(item) as real / 4000.0;
      value - (if share < 1.0 then share else 1.0) * 0.15
  }

  /** The pair (score, id) of `x` is greater than that of `y`. */
  predicate Beats(x: Item, y: Item) {
    Score(x) > Score(y) || (Score(x) == Score(y) && x.id != y.id && StringLe(y.id, x.id))
  }

  /** `max` over the pair keeps the first argument on a tie. */
  function Winner(existing: Item, item: Item): Item {
    if Beats(item, existing) then item else existing
  }

  lemma BeatsIsStrictOrder(x: Item, y: Item, z: Item)
    ensures !(Beats(x, y) && Beats(y, x))
    ensures x.id != y.id ==> Beats(x, y) || Beats(y, x)
    ensures Beats(x, y) && Beats(y, z) ==> Beats(x, z)
  {
    StringLeTotal(x.id, y.id);
    StringLeTotal(y.id, z.id);
    StringLeTotal(x.id, z.id);
    if StringLe(y.id, x.id) && StringLe(z.id, y.id) {
      StringLeTransitive(z.id, y.id, x.id);
    }
  }

  predicate IdLe(x: Item, y: Item) {
    StringLe(x.id, y.id)
  }

  /** Pinned first, then kind rank, higher score, source reference and id. */
  predicate KeyLe(x: Item, y: Item) {
    if x.pinned != y.pinned then x.pinned
    else if x.kind.Order() != y.kind.Order() then x.kind.Order() < y.kind.Order()
    else if Score(x) != Score(y) then Score(x) > Score(y)
    else if x.sourceRef != y.sourceRef then StringLe(x.sourceRef, y.sourceRef)
    else StringLe(x.id, y.id)
  }

  /** A session item's time, then its id. */
  function SessionTime(x: Item): int {
    x.sourceTimestamp.GetOr(x.createdAt)
  }

  predicate SessionLe(x: Item, y: Item) {
    SessionTime(x) < SessionTime(y) || (SessionTime(x) == SessionTime(y) && StringLe(x.id, y.id))
  }

  lemma IdOrder()
    ensures KeyOrder(IdLe)
  {
    forall x, y ensures IdLe(x, y) || IdLe(y, x) {
      StringLeTotal(x.id, y.id);
    }
    forall x, y, z | IdLe(x, y) && IdLe(y, z) ensures IdLe(x, z) {
      StringLeTransitive(x.id, y.id, z.id);
    }
  }

  lemma SessionOrder()
    ensures KeyOrder(SessionLe)
  {
    forall x, y ensures SessionLe(x, y) || SessionLe(y, x) {
      StringLeTotal(x.id, y.id);
    }
    forall x, y, z | SessionLe(x, y) && SessionLe(y, z) ensures SessionLe(x, z) {
      if StringLe(x.id, y.id) && StringLe(y.id, z.id) {
        StringLeTransitive(x.id, y.id, z.id);
      }
    }
  }

  lemma KeyLeTransitive(x: Item, y: Item, z: Item)
    requires KeyLe(x, y) && KeyLe(y, z)
    ensures KeyLe(x, z)
  {
    StringLeTotal(x.sourceRef, y.sourceRef);
    StringLeTotal(y.sourceRef, z.sourceRef);
    if StringLe(x.sourceRef, y.sourceRef) && StringLe(y.sourceRef, z.sourceRef) {
      StringLeTransitive(x.sourceRef, y.sourceRef, z.sourceRef);
    }
    if StringLe(x.id, y.id) && StringLe(y.id, z.id) {
      StringLeTransitive(x.id, y.id, z.id);
    }
  }

  /** The sort key orders every two items, and items it cannot order share their id. */
  lemma SortKeyOrder()
    ensures KeyOrder(KeyLe)
    ensures forall x, y :: KeyLe(x, y) && KeyLe(y, x) ==> x.id == y.id
  {
    forall x, y ensures KeyLe(x, y) || KeyLe(y, x) {
      StringLeTotal(x.sourceRef, y.sourceRef);
      StringLeTotal(x.id, y.id);
    }
    forall x, y, z | KeyLe(x, y) && KeyLe(y, z) ensures KeyLe(x, z) {
      KeyLeTransitive(x, y, z);
    }
    forall x, y | KeyLe(x, y) && KeyLe(y, x) ensures x.id == y.id {
      StringLeTotal(x.sourceRef, y.sourceRef);
      StringLeTotal(x.id, y.id);
    }
  }

  /* ---------- items with unique ids ---------- */

  /** Among items with unique ids, an id names one item. */
  lemma IdNamesItem(items: seq<Item>, x: Item, y: Item)
    requires UniqueIds(items) && x in items && y in items && x.id == y.id
    ensures x == y
  {
    var i :| 0 <= i < |items| && items[i] == x;
    var j :| 0 <= j < |items| && items[j] == y;
    assert i == j;
  }

  lemma UniqueIdsSeparate(items: seq<Item>)
    requires UniqueIds(items)
    ensures Separates(IdLe, items) && Separates(KeyLe, items)
  {
    forall x, y | x in items && y in items && IdLe(x, y) && IdLe(y, x) ensures x == y {
      StringLeTotal(x.id, y.id);
      IdNamesItem(items, x, y);
    }
    SortKeyOrder();
    forall x, y | x in items && y in items && KeyLe(x, y) && KeyLe(y, x) ensures x == y {
      IdNamesItem(items, x, y);
    }
  }

  lemma UniqueIdsOccurOnce(items: seq<Item>, x: Item)
    requires UniqueIds(items)
    ensures multiset(items)[x] <= 1
  {
    if items != [] {
      var n := |items| - 1;
      assert items == items[..n] + [items[n]];
      UniqueIdsOccurOnce(items[..n], x);
    }
  }

  /** Sequences with unique ids and the same elements are rearrangements. */
  lemma SameSetSameMultiset(a: seq<Item>, b: seq<Item>)
    requires UniqueIds(a) && UniqueIds(b) && ItemSet(a) == ItemSet(b)
    ensures multiset(a) == multiset(b)
  {
    forall x ensures multiset(a)[x] == multiset(b)[x] {
      UniqueIdsOccurOnce(a, x);
      UniqueIdsOccurOnce(b, x);
      assert x in ItemSet(a) <==> x in ItemSet(b);
      assert x in multiset(a) <==> x in a;
      assert x in multiset(b) <==> x in b;
    }
  }

  lemma RearrangedUniqueIds(a: seq<Item>, b: seq<Item>)
    requires UniqueIds(a) && multiset(a) == multiset(b)
    ensures UniqueIds(b) && ItemSet(a) == ItemSet(b)
  {
    SameElements(a, b);
    forall i, j | 0 <= i < j < |b| ensures b[i].id != b[j].id {
      if b[i].id == b[j].id {
        assert b[i] in a && b[j] in a;
        IdNamesItem(a, b[i], b[j]);
        OccursTwice(b, i, j);
        UniqueIdsOccurOnce(a, b[i]);
      }
    }
  }

  lemma OccursTwice<T>(s: seq<T>, i: nat, j: nat)
    requires i < j < |s| && s[i] == s[j]
    ensures multiset(s)[s[i]] >= 2
  {
    assert s == s[..j] + s[j..];
    assert s[i] in s[..j] && s[j..][0] == s[i];
    assert s[i] in multiset(s[..j]) && s[i] in multiset(s[j..]);
  }

  lemma SubsequenceUniqueIds(items: seq<Item>, keep: Item -> bool)
    requires UniqueIds(items)
    ensures UniqueIds(Where(items, keep))
    ensures forall x :: x in Where(items, keep) <==> x in items && keep(x)
  {
    if items != [] {
      var n := |items| - 1;
      SubsequenceUniqueIds(items[..n], keep);
      assert items == items[..n] + [items[n]];
      var rest := Where(items[..n], keep);
      forall i | 0 <= i < |rest| ensures rest[i].id != items[n].id {
        assert rest[i] in rest && rest[i] in items[..n];
        var k :| 0 <= k < n && items[..n][k] == rest[i];
      }
    }
  }

  /** The list comprehension `[x for x in items if keep(x)]`. */
  function Where(items: seq<Item>, keep: Item -> bool): (r: seq<Item>)
    ensures |r| <= |items|
  {
    if items == [] then []
    else
      var rest := Where(items[..|items| - 1], keep);
      if keep(items[|items| - 1]) then rest + [items[|items| - 1]] else rest
  }

  lemma {:induction false} WhereMembers(items: seq<Item>, keep: Item -> bool)
    ensures forall x :: x in Where(items, keep) <==> x in items && keep(x)
  {
    if items != [] {
      var n := |items| - 1;
      WhereMembers(items[..n], keep);
      assert items == items[..n] + [items[n]];
    }
  }

  lemma {:induction false} WhereKeepsMultiset(a: seq<Item>, b: seq<Item>, keep: Item -> bool)
    requires UniqueIds(a) && multiset(a) == multiset(b)
    ensures multiset(Where(a, keep)) == multiset(Where(b, keep))
  {
    RearrangedUniqueIds(a, b);
    SubsequenceUniqueIds(a, keep);
    SubsequenceUniqueIds(b, keep);
    assert ItemSet(Where(a, keep)) == ItemSet(Where(b, keep)) by {
      forall x ensures x in Where(a, keep) <==> x in Where(b, keep) {
        assert x in ItemSet(a) <==> x in ItemSet(b);
      }
    }
    SameSetSameMultiset(Where(a, keep), Where(b, keep));
  }
}
