/** `MemoryService`: the operations write changed rows into the repository step by step. */
module MemoryService {
  import opened Wrappers
  import opened MemoryModel

  class Service {
    var rows: map<string, Memory>
    var order: seq<string>

    function Model(): Repo
      reads this
    {
      Repo(rows, order)
    }

    ghost predicate Valid()
      reads this
    {
      RepoOk(Model())
    }

    constructor ()
      ensures Valid() && Model() == EMPTY
    {
      rows, order := map[], [];
    }

    /** `repo.create`. */
    method Store(m: Memory)
      requires Valid()
      modifies this
      ensures Valid() && Model() == Put(old(Model()), m)
    {
      if m.id !in order {
        order := order + [m.id];
      }
      rows := rows[m.id := m];
    }

    /** `next((row for row in list_all() if p(row)), None)`. */
    method FindFirst(p: Memory -> bool) returns (found: Option<Memory>)
      requires Valid()
      ensures found == First(rows, order, p)
      ensures found.Some? ==> found.value.id in rows && rows[found.value.id] == found.value && p(found.value)
      ensures found.None? ==> forall id :: id in rows ==> !p(rows[id])
    {
      for i := 0 to |order|
        invariant First(rows, order, p) == First(rows, order[i..], p)
        invariant forall j :: 0 <= j < i ==> !p(rows[order[j]])
      {
        assert order[i..][1..] == order[i + 1..] && order[i] in order;
        if p(rows[order[i]]) {
          return Some(rows[order[i]]);
        }
      }
      return None;
    }

    method CreateCandidate(given: Memory) returns (result: Result<Memory>)
      requires Valid()
      modifies this
      ensures Valid() && (Model(), result) == MemoryModel.CreateCandidate(old(Model()), given)
    {
      if LacksProvenance(given) {
        return Err("memory_provenance_required");
      }
      var known := FindFirst(existing => SameRequest(existing, given));
      if known.Some? {
        return Ok(known.value);
      }
      var m := given.(contentHash := HashOf(given), status := Candidate);
      var duplicate := FindFirst(existing => Duplicate(existing, m));
      if duplicate.Some? {
        return Ok(duplicate.value);
      }
      var conflicts := Conflicts(Model(), m);
      var stored := Log(m, "candidate_created", "memory_runtime", "candidate_ingested");
      if conflicts != {} {
        stored := Log(stored, "conflict_detected", "memory_runtime", "active_fact_has_different_value");
        stored := stored.(status := Conflicted, conflictsWith := conflicts);
      }
      if m.id in rows && rows[m.id].content != m.content {
        stored := stored.(status := Conflicted);
      }
      Store(stored);
      return Ok(stored);
    }

    method Validate(id: string, actor: string, reason: string) returns (result: Result<Memory>)
      requires Valid()
      modifies this
      ensures Valid() && (Model(), result) == MemoryModel.Validate(old(Model()), id, actor, reason)
    {
      if id !in rows {
        return Err("memory_not_found");
      }
      if rows[id].status != Candidate {
        return Err("memory_not_candidate");
      }
      var validated := Log(rows[id], "validated", actor, reason).(status := Validated);
      Store(validated);
      return Ok(validated);
    }

    method Promote(id: string, actor: string, reason: string, now: int) returns (result: Result<Memory>)
      requires Valid()
      modifies this
      ensures Valid() && (Model(), result) == MemoryModel.Promote(old(Model()), id, actor, reason, now)
    {
      if id !in rows {
        return Err("memory_not_found");
      }
      var m := rows[id];
      if m.status != Validated {
        return Err("memory_not_validated");
      }
      if ActiveRivals(Model(), m) != {} && m.supersedes == "" {
        return Err("active_memory_conflict_requires_resolution");
      }
      if m.supersedes != "" {
        if m.supersedes !in rows || rows[m.supersedes].status != Active {
          return Err("superseded_memory_not_active");
        }
        Store(Superseding(rows[m.supersedes], actor, reason, now));
      }
      var promoted := Promoted(m, actor, reason);
      Store(promoted);
      return Ok(promoted);
    }

    method ResolveConflict(id: string, target: string, actor: string, reason: string)
      returns (result: Result<Memory>)
      requires Valid()
      modifies this
      ensures Valid() && (Model(), result) == MemoryModel.ResolveConflict(old(Model()), id, target, actor, reason)
    {
      if id !in rows || target !in rows {
        return Err("memory_not_found");
      }
      var m := rows[id];
      if m.status != Conflicted || target !in m.conflictsWith || rows[target].status != Active {
        return Err("memory_conflict_resolution_invalid");
      }
      var resolved := Log(m, "conflict_resolved", actor, reason).(status := Validated, supersedes := target);
      Store(resolved);
      return Ok(resolved);
    }

    method Rollback(id: string, actor: string, reason: string, now: int) returns (result: Result<Memory>)
      requires Valid()
      modifies this
      ensures Valid() && (Model(), result) == MemoryModel.Rollback(old(Model()), id, actor, reason, now)
    {
      if id !in rows || rows[id].status != Active || rows[id].supersedes == "" {
        return Err("memory_rollback_unavailable");
      }
      var current := rows[id];
      if current.supersedes !in rows {
        return Err("memory_not_found");
      }
      var previous := rows[current.supersedes];
      Store(RolledBack(current, actor, reason, now));
      var restored := Restored(previous, actor, reason);
      Store(restored);
      return Ok(restored);
    }

    method Expire(id: string, now: int) returns (result: Result<Memory>)
      requires Valid()
      modifies this
      ensures Valid() && (Model(), result) == MemoryModel.Expire(old(Model()), id, now)
    {
      if id !in rows {
        return Err("memory_not_found");
      }
      var expired := rows[id].(status := Expired, expiresAt := Some(rows[id].expiresAt.GetOr(now)));
      Store(expired);
      return Ok(expired);
    }

    method Delete(id: string) returns (deleted: bool)
      requires Valid()
      modifies this
      ensures Valid() && Model() == MemoryModel.Delete(old(Model()), id)
      ensures deleted <==> id in old(rows)
    {
      deleted := id in rows;
      if deleted {
        RemoveFromMembers(order, id);
        rows := rows - {id};
        order := RemoveFrom(order, id);
      }
    }

    /** The recall loop of `search`, over the hits that the repository returned. */
    method Search(hits: seq<string>, q: Query)
      requires Valid()
      modifies this
      ensures Valid() && Model() == RecallAll(old(Model()), hits, q)
    {
      for i := 0 to |hits|
        invariant Valid() && Model() == RecallAll(old(Model()), hits[..i], q)
      {
        assert hits[..i + 1][..i] == hits[..i];
        if hits[i] in rows && Recallable(rows[hits[i]], q) {
          Store(Recalled(rows[hits[i]], q.now));
        }
      }
      assert hits[..|hits|] == hits;
    }
  }
}
