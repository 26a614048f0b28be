/** The skill services: each operation saves changed records into the registry. */
module SkillService {
  import opened Wrappers
  import opened SkillModel

  class Service {
    var rows: map<Key, Skill>
    var order: seq<Key>
    const autoPromote: bool

    function Model(): Registry
      reads this
    {
      Registry(rows, order)
    }

    ghost predicate Valid()
      reads this
    {
      RegistryOk(Model())
    }

    constructor (autoPromote: bool)
      ensures Valid() && Model() == EMPTY && this.autoPromote == autoPromote
    {
      this.autoPromote := autoPromote;
      rows, order := map[], [];
    }

    method SaveRecord(s: Skill)
      requires Valid()
      modifies this
      ensures Valid() && Model() == Save(old(Model()), s)
    {
      if KeyOf(s) !in order {
        order := order + [KeyOf(s)];
      }
      rows := rows[KeyOf(s) := s];
    }

    method CreateDraft(s: Skill) returns (result: Result<Skill>)
      requires Valid()
      modifies this
      ensures Valid() && (Model(), result) == SkillModel.CreateDraft(old(Model()), s)
    {
      if s.idempotencyKey != NoKey {
        for i := 0 to |order|
          invariant FirstWithKey(rows, order, s.idempotencyKey) == FirstWithKey(rows, order[i..], s.idempotencyKey)
        {
          assert order[i] in order && order[i..][1..] == order[i + 1..];
          if rows[order[i]].idempotencyKey == s.idempotencyKey {
            return Ok(rows[order[i]]);
          }
        }
      }
      var draft := s.(status := Draft);
      SaveRecord(draft);
      return Ok(draft);
    }

    /** `activate_admin`: supersede every other active version, then activate this one. */
    method ActivateAdmin(k: Key, now: int) returns (result: Result<Skill>)
      requires Valid()
      modifies this
      ensures Valid() && (Model(), result) == Activate(old(Model()), k, now)
    {
      if k !in rows {
        return Err("skill_not_found");
      }
      var s := rows[k];
      if s.status != Candidate {
        return Err("skill_not_candidate");
      }
      if s.evaluationId.None? {
        return Err("skill_evaluation_required");
      }
      if s.testsPassed != Some(true) {
        return Err("skill_tests_not_passed");
      }
      if !LowRisk(s) && s.approvalStatus != "approved" {
        return Err("skill_approval_required");
      }
      var others := ActiveOthers(Model(), order, k);
      ActiveOthersAreRows(Model(), order, k);
      var snapshot := rows;
      for i := 0 to |others|
        invariant Valid() && Model() == SupersedeAll(old(Model()), others[..i])
      {
        assert others[..i + 1][..i] == others[..i] && others[i] in others;
        SaveRecord(snapshot[others[i]].(status := Superseded));
      }
      assert others[..|others|] == others;
      var active := Activated(s, others, now);
      SaveRecord(active);
      return Ok(active);
    }

    method Evaluate(k: Key, now: int) returns (result: Result<Skill>)
      requires Valid()
      modifies this
      ensures Valid() && (Model(), result) == SkillModel.Evaluate(old(Model()), k, autoPromote, now)
    {
      if k !in rows {
        return Err("skill_not_found");
      }
      var saved := Evaluated(rows[k]);
      SaveRecord(saved);
      if autoPromote && saved.status == Candidate && LowRisk(saved) && saved.testsPassed == Some(true) {
        result := ActivateAdmin(k, now);
        return;
      }
      return Ok(saved);
    }

    method Rollback(id: string, source: Version, target: Version, now: int) returns (result: Result<Skill>)
      requires Valid()
      modifies this
      ensures Valid() && (Model(), result) == SkillModel.Rollback(old(Model()), id, source, target, now)
    {
      if (id, source) !in rows || (id, target) !in rows {
        return Err("skill_not_found");
      }
      var current, wanted := rows[(id, source)], rows[(id, target)];
      if current.status != Active {
        return Err("skill_rollback_source_not_active");
      }
      if wanted.evaluationId.None? {
        return Err("skill_evaluation_required");
      }
      SaveRecord(current.(status := Superseded));
      var restored := wanted.(status := Active, activatedAt := Some(now), history := wanted.history + ["rollback"]);
      SaveRecord(restored);
      return Ok(restored);
    }

    /** The stale-marking loop of `SkillCurator.run`. */
    method MarkStale(threshold: int) returns (stale: seq<Key>)
      requires Valid()
      modifies this
      ensures Valid() && Model() == Curate(old(Model()), threshold)
      ensures forall k :: k in stale <==> k in old(rows) && Unused(old(rows)[k], threshold)
    {
      stale := [];
      var snapshot, keys := rows, order;
      ghost var before := Model();
      for i := 0 to |keys|
        invariant Valid() && Model() == MarkEach(before, keys[..i], threshold)
        invariant forall k :: k in stale <==> k in keys[..i] && Unused(snapshot[k], threshold)
      {
        assert keys[i] in keys && keys[..i + 1][..i] == keys[..i];
        assert keys[..i + 1] == keys[..i] + [keys[i]];
        if Unused(snapshot[keys[i]], threshold) {
          SaveRecord(Staled(snapshot[keys[i]]));
          stale := stale + [keys[i]];
        }
      }
      assert keys[..|keys|] == keys;
      MarkEachIsCurate(before, threshold);
    }
  }

  lemma SaveRow(r: Registry, s: Skill)
    requires RegistryOk(r) && KeyOf(s) in r.rows
    ensures RegistryOk(Save(r, s)) && Save(r, s).rows == r.rows[KeyOf(s) := s] && Save(r, s).order == r.order
  {
  }

  lemma {:induction false} MarkEachRows(r: Registry, keys: seq<Key>, threshold: int)
    requires RegistryOk(r) && forall k :: k in keys ==> k in r.rows
    ensures var t := MarkEach(r, keys, threshold);
            && RegistryOk(t) && t.order == r.order && t.rows.Keys == r.rows.Keys
            && forall k :: k in r.rows ==>
                 t.rows[k] == if k in keys && Unused(r.rows[k], threshold) then Staled(r.rows[k]) else r.rows[k]
  {
    if keys != [] {
      var front, k := keys[..|keys| - 1], keys[|keys| - 1];
      assert keys == front + [k];
      MarkEachRows(r, front, threshold);
      SaveRow(MarkEach(r, front, threshold), Staled(r.rows[k]));
    }
  }

  /** Marking row by row has the effect of marking all rows at once. */
  lemma MarkEachIsCurate(r: Registry, threshold: int)
    requires RegistryOk(r)
    ensures MarkEach(r, r.order, threshold) == Curate(r, threshold)
  {
    MarkEachRows(r, r.order, threshold);
    assert MarkEach(r, r.order, threshold).rows == Curate(r, threshold).rows;
  }

  lemma {:induction false} ActiveOthersAreRows(r: Registry, order: seq<Key>, k: Key)
    ensures forall x :: x in ActiveOthers(r, order, k)
              <==> x in order && x in r.rows && r.rows[x].status == Active && x.0 == k.0 && x != k
  {
    if order != [] {
      ActiveOthersAreRows(r, order[1..], k);
      assert order == [order[0]] + order[1..];
    }
  }
}
