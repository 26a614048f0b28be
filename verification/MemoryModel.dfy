/**
 Long-term memories and the operations of `MemoryService` as functions on the repository.
 An absent text that the code tests for truth is the empty string; the scope fields, which
 it compares for equality, are options. A content is its canonical JSON text.
 */
module MemoryModel {
  import opened Wrappers

  datatype Status =
    | Candidate | Active | Rejected | Expired | Conflicted | Validated | Superseded | Archived

  datatype MemoryType =
    | Working | Episodic | Semantic | Procedural | Profile | Lesson | Summary | ProceduralReference

  /** The fields that `_same_scope` compares. */
  datatype Scope = Scope(
    tenantId: string,
    siteId: Option<string>,
    userId: Option<string>,
    projectId: Option<string>,
    agentId: Option<string>,
    assetId: Option<string>,
    memoryType: MemoryType)

  datatype LifecycleEvent = LifecycleEvent(action: string, actor: string, reason: string)

  datatype Memory = Memory(
    id: string,
    scope: Scope,
    factKey: string,
    content: string,
    contentHash: string,
    idempotencyKey: string,
    sourceTraceIds: seq<string>,
    evidenceIds: seq<string>,
    status: Status,
    conflictsWith: set<string>,
    supersedes: string,
    history: seq<LifecycleEvent>,
    createdAt: int,
    validFrom: Option<int>,
    validTo: Option<int>,
    expiresAt: Option<int>,
    recallCount: nat,
    lastRecalledAt: Option<int>)

  /** Rows by id, and the ids in insertion order. */
  datatype Repo = Repo(rows: map<string, Memory>, order: seq<string>)

  ghost predicate RepoOk(r: Repo) {
    && (forall id :: id in r.order <==> id in r.rows)
    && (forall id :: id in r.rows ==> r.rows[id].id == id)
  }

  const EMPTY := Repo(map[], [])

  /** `repo.create`: insert, or overwrite in place. */
  function Put(r: Repo, m: Memory): Repo {
    Repo(r.rows[m.id := m], if m.id in r.order then r.order else r.order + [m.id])
  }

  function RemoveFrom(order: seq<string>, id: string): seq<string> {
    if order == [] then []
    else if order[0] == id then RemoveFrom(order[1..], id)
    else [order[0]] + RemoveFrom(order[1..], id)
  }

  lemma {:induction false} RemoveFromMembers(order: seq<string>, id: string)
    ensures forall x :: x in RemoveFrom(order, id) <==> x in order && x != id
  {
    if order != [] {
      RemoveFromMembers(order[1..], id);
      assert order == [order[0]] + order[1..];
    }
  }

  /** The first row, in insertion order, that satisfies `p`. */
  function First(rows: map<string, Memory>, order: seq<string>, p: Memory -> bool): Option<Memory> {
    if order == [] then None
    else if order[0] in rows && p(rows[order[0]]) then Some(rows[order[0]])
    else First(rows, order[1..], p)
  }

  /** The hash is injective; a caller may supply one of its own. */
  function HashOf(m: Memory): string {
    if m.contentHash != "" then m.contentHash else "sha256:" + m.content
  }

  predicate SameFact(a: Memory, b: Memory) {
    a.scope == b.scope && a.factKey != "" && a.factKey == b.factKey
  }

  predicate LacksProvenance(m: Memory) {
    (m.scope.memoryType.Semantic? || m.scope.memoryType.Procedural?)
    && (m.sourceTraceIds == [] || m.evidenceIds == [])
  }

  predicate SameRequest(existing: Memory, m: Memory) {
    m.idempotencyKey != "" && existing.idempotencyKey == m.idempotencyKey
    && existing.scope.tenantId == m.scope.tenantId
  }

  predicate Duplicate(existing: Memory, m: Memory) {
    existing.contentHash == m.contentHash && existing.scope == m.scope
  }

  /** Active memories that state the same fact with another content. */
  function Conflicts(r: Repo, m: Memory): set<string> {
    set id | id in r.rows && r.rows[id].status == Active && SameFact(r.rows[id], m)
             && r.rows[id].contentHash != m.contentHash
  }

  function Log(m: Memory, action: string, actor: string, reason: string): Memory {
    m.(history := m.history + [LifecycleEvent(action, actor, reason)])
  }

  /** What `create_candidate` stores for a memory that is neither known nor a duplicate. */
  function NewCandidate(r: Repo, m: Memory): Memory {
    var logged := Log(m, "candidate_created", "memory_runtime", "candidate_ingested");
    var conflicts := Conflicts(r, m);
    var stored :=
      if conflicts != {} then
        Log(logged, "conflict_detected", "memory_runtime", "active_fact_has_different_value")
        .(status := Conflicted, conflictsWith := conflicts)
      else logged;
    if m.id in r.rows && r.rows[m.id].content != m.content then stored.(status := Conflicted) else stored
  }

  type Outcome = (Repo, Result<Memory>)

  function CreateCandidate(r: Repo, given: Memory): Outcome {
    if LacksProvenance(given) then (r, Err("memory_provenance_required"))
    else
      var known := First(r.rows, r.order, existing => SameRequest(existing, given));
      if known.Some? then (r, Ok(known.value))
      else
        var m := given.(contentHash := HashOf(given), status := Candidate);
        var duplicate := First(r.rows, r.order, existing => Duplicate(existing, m));
        if duplicate.Some? then (r, Ok(duplicate.value))
        else (Put(r, NewCandidate(r, m)), Ok(NewCandidate(r, m)))
  }

  function Validate(r: Repo, id: string, actor: string, reason: string): Outcome {
    if id !in r.rows then (r, Err("memory_not_found"))
    else if r.rows[id].status != Candidate then (r, Err("memory_not_candidate"))
    else
      var validated := Log(r.rows[id], "validated", actor, reason).(status := Validated);
      (Put(r, validated), Ok(validated))
  }

  /** Other active memories that state the fact of `m`. */
  function ActiveRivals(r: Repo, m: Memory): set<string> {
    set id | id in r.rows && r.rows[id].status == Active && id != m.id && SameFact(r.rows[id], m)
  }

  function Superseding(m: Memory, actor: string, reason: string, now: int): Memory {
    Log(m, "superseded", actor, reason).(status := Superseded, validTo := Some(now))
  }

  function Promoted(m: Memory, actor: string, reason: string): Memory {
    Log(m, "promoted", actor, reason)
    .(status := Active, validFrom := Some(m.validFrom.GetOr(m.createdAt)), validTo := None)
  }

  function Promote(r: Repo, id: string, actor: string, reason: string, now: int): Outcome {
    if id !in r.rows then (r, Err("memory_not_found"))
    else
      var m := r.rows[id];
      if m.status != Validated then (r, Err("memory_not_validated"))
      else if ActiveRivals(r, m) != {} && m.supersedes == "" then
        (r, Err("active_memory_conflict_requires_resolution"))
      else
        var promoted := Promoted(m, actor, reason);
        if m.supersedes == "" then (Put(r, promoted), Ok(promoted))
        else if m.supersedes !in r.rows || r.rows[m.supersedes].status != Active then
          (r, Err("superseded_memory_not_active"))
        else
          (Put(Put(r, Superseding(r.rows[m.supersedes], actor, reason, now)), promoted), Ok(promoted))
  }

  function ResolveConflict(r: Repo, id: string, target: string, actor: string, reason: string): Outcome {
    if id !in r.rows || target !in r.rows then (r, Err("memory_not_found"))
    else
      var m := r.rows[id];
      if m.status != Conflicted || target !in m.conflictsWith || r.rows[target].status != Active then
        (r, Err("memory_conflict_resolution_invalid"))
      else
        var resolved := Log(m, "conflict_resolved", actor, reason).(status := Validated, supersedes := target);
        (Put(r, resolved), Ok(resolved))
  }

  function RolledBack(m: Memory, actor: string, reason: string, now: int): Memory {
    Log(m, "rolled_back", actor, reason).(status := Superseded, validTo := Some(now))
  }

  function Restored(m: Memory, actor: string, reason: string): Memory {
    Log(m, "restored", actor, reason).(status := Active, validTo := None)
  }

  function Rollback(r: Repo, id: string, actor: string, reason: string, now: int): Outcome {
    if id !in r.rows || r.rows[id].status != Active || r.rows[id].supersedes == "" then
      (r, Err("memory_rollback_unavailable"))
    else if r.rows[id].supersedes !in r.rows then (r, Err("memory_not_found"))
    else
      var restored := Restored(r.rows[r.rows[id].supersedes], actor, reason);
      (Put(Put(r, RolledBack(r.rows[id], actor, reason, now)), restored), Ok(restored))
  }

  function Expire(r: Repo, id: string, now: int): Outcome {
    if id !in r.rows then (r, Err("memory_not_found"))
    else
      var m := r.rows[id];
      var expired := m.(status := Expired, expiresAt := Some(m.expiresAt.GetOr(now)));
      (Put(r, expired), Ok(expired))
  }

  /** The router's rejection of a memory. */
  function Reject(r: Repo, id: string): Outcome {
    if id !in r.rows then (r, Err("memory_not_found"))
    else
      var rejected := r.rows[id].(status := Rejected);
      (Put(r, rejected), Ok(rejected))
  }

  function Delete(r: Repo, id: string): Repo {
    if id in r.rows then Repo(r.rows - {id}, RemoveFrom(r.order, id)) else r
  }

  predicate Within(field: Option<string>, wanted: string) {
    wanted == "" || field.None? || field == Some(wanted)
  }

  datatype Query = Query(tenantId: string, siteId: string, userId: string, assetId: string, projectId: string, now: int)

  /** The memories that a search may recall; how it scores and limits them is left open. */
  predicate Recallable(m: Memory, q: Query) {
    && m.status == Active
    && (m.expiresAt.Some? ==> m.expiresAt.value > q.now)
    && (m.validFrom.Some? ==> m.validFrom.value <= q.now)
    && (m.validTo.Some? ==> m.validTo.value > q.now)
    && m.scope.tenantId == q.tenantId
    && Within(m.scope.siteId, q.siteId)
    && Within(m.scope.userId, q.userId)
    && Within(m.scope.assetId, q.assetId)
    && Within(m.scope.projectId, q.projectId)
  }

  function Recalled(m: Memory, now: int): Memory {
    m.(recallCount := m.recallCount + 1, lastRecalledAt := Some(now))
  }

  function Recall(r: Repo, id: string, q: Query): Repo {
    if id in r.rows && Recallable(r.rows[id], q) then Put(r, Recalled(r.rows[id], q.now)) else r
  }

  /** `search` counts the recall of every hit. */
  function RecallAll(r: Repo, hits: seq<string>, q: Query): Repo {
    if hits == [] then r else Recall(RecallAll(r, hits[..|hits| - 1], q), hits[|hits| - 1], q)
  }
}
