/**
 Versioned skills: the registry and the operations of `SkillLifecycleService`,
 `SkillMetaTools` and `SkillCurator` as functions on it. A version text is given by its
 dot-separated numbers, or as a text that does not parse. Absent texts are empty.
 */
module SkillModel {
  import opened Wrappers

  datatype Status =
    | Draft | Testing | Failed | Candidate | Active | Deprecated | Suspended | Validating | Stale
    | Archived | Rejected | Superseded

  datatype Version = Numbers(parts: seq<int>) | Unparsable(text: string)

  type Key = (string, Version)

  /** A caller's idempotency key, or the one that an update derives from its versions. */
  datatype RequestKey = NoKey | Given(text: string) | PatchOf(id: string, from: Version, to: Version)

  /** The evaluation and approval ids are derived from the skill's key. */
  datatype Skill = Skill(
    id: string,
    version: Version,
    status: Status,
    tests: nat,
    packageHash: string,
    baseVersion: Option<Version>,
    evaluationId: Option<Key>,
    approvalRequestId: Option<Key>,
    approvalStatus: string,
    riskLevel: string,
    testsPassed: Option<bool>,
    idempotencyKey: RequestKey,
    history: seq<string>,
    usageCount: nat,
    lastUsedAt: Option<int>,
    createdAt: int,
    activatedAt: Option<int>)

  function KeyOf(s: Skill): Key {
    (s.id, s.version)
  }

  datatype Registry = Registry(rows: map<Key, Skill>, order: seq<Key>)

  const EMPTY := Registry(map[], [])

  ghost predicate RegistryOk(r: Registry) {
    && (forall k :: k in r.order <==> k in r.rows)
    && (forall i, j | 0 <= i < j < |r.order| :: r.order[i] != r.order[j])
    && (forall k :: k in r.rows ==> KeyOf(r.rows[k]) == k)
  }

  /** `registry.save`. */
  function Save(r: Registry, s: Skill): Registry {
    Registry(r.rows[KeyOf(s) := s], if KeyOf(s) in r.order then r.order else r.order + [KeyOf(s)])
  }

  type Outcome = (Registry, Result<Skill>)

  function FirstWithKey(rows: map<Key, Skill>, order: seq<Key>, idempotencyKey: RequestKey): Option<Skill> {
    if order == [] then None
    else if order[0] in rows && rows[order[0]].idempotencyKey == idempotencyKey then Some(rows[order[0]])
    else FirstWithKey(rows, order[1..], idempotencyKey)
  }

  /** A known idempotency key returns the known skill; otherwise the draft is saved. */
  function CreateDraft(r: Registry, s: Skill): Outcome {
    var known := if s.idempotencyKey == NoKey then None else FirstWithKey(r.rows, r.order, s.idempotencyKey);
    if known.Some? then (r, Ok(known.value))
    else (Save(r, s.(status := Draft)), Ok(s.(status := Draft)))
  }

  /** Evaluation records the declared tests; a skill without tests fails. */
  function Evaluated(s: Skill): Skill {
    s.(status := if s.tests > 0 then Candidate else Failed,
       evaluationId := Some(KeyOf(s)),
       testsPassed := Some(s.tests > 0))
  }

  predicate LowRisk(s: Skill) {
    s.riskLevel == "L0" || s.riskLevel == "L1"
  }

  /** The other active versions of the skill, in registry order. */
  function ActiveOthers(r: Registry, order: seq<Key>, k: Key): seq<Key> {
    if order == [] then []
    else
      (if order[0] in r.rows && r.rows[order[0]].status == Active && order[0].0 == k.0 && order[0] != k
       then [order[0]] else [])
      + ActiveOthers(r, order[1..], k)
  }

  function SupersedeAll(r: Registry, keys: seq<Key>): Registry {
    if keys == [] then r
    else
      var before := SupersedeAll(r, keys[..|keys| - 1]);
      var k := keys[|keys| - 1];
      if k in r.rows then Save(before, r.rows[k].(status := Superseded)) else before
  }

  function Activated(s: Skill, others: seq<Key>, now: int): Skill {
    s.(status := Active,
       baseVersion := if s.baseVersion.Some? then s.baseVersion
                      else if others == [] then None else Some(others[|others| - 1].1),
       activatedAt := Some(now),
       history := s.history + ["promoted"])
  }

  /** `activate_admin`. */
  function Activate(r: Registry, k: Key, now: int): Outcome {
    if k !in r.rows then (r, Err("skill_not_found"))
    else
      var s := r.rows[k];
      if s.status != Candidate then (r, Err("skill_not_candidate"))
      else if s.evaluationId.None? then (r, Err("skill_evaluation_required"))
      else if s.testsPassed != Some(true) then (r, Err("skill_tests_not_passed"))
      else if !LowRisk(s) && s.approvalStatus != "approved" then (r, Err("skill_approval_required"))
      else
        var others := ActiveOthers(r, r.order, k);
        var active := Activated(s, others, now);
        (Save(SupersedeAll(r, others), active), Ok(active))
  }

  function Evaluate(r: Registry, k: Key, autoPromote: bool, now: int): Outcome {
    if k !in r.rows then (r, Err("skill_not_found"))
    else
      var saved := Evaluated(r.rows[k]);
      var after := Save(r, saved);
      if autoPromote && saved.status == Candidate && LowRisk(saved) && saved.testsPassed == Some(true)
      then Activate(after, k, now)
      else (after, Ok(saved))
  }

  /** `rollback` asks only that the target was evaluated. */
  function Rollback(r: Registry, id: string, source: Version, target: Version, now: int): Outcome {
    if (id, source) !in r.rows || (id, target) !in r.rows then (r, Err("skill_not_found"))
    else
      var current, wanted := r.rows[(id, source)], r.rows[(id, target)];
      if current.status != Active then (r, Err("skill_rollback_source_not_active"))
      else if wanted.evaluationId.None? then (r, Err("skill_evaluation_required"))
      else
        var restored := wanted.(status := Active, activatedAt := Some(now), history := wanted.history + ["rollback"]);
        (Save(Save(r, current.(status := Superseded)), restored), Ok(restored))
  }

  function RequestApproval(r: Registry, k: Key): Outcome {
    if k !in r.rows then (r, Err("skill_not_found"))
    else
      var asked := r.rows[k].(approvalRequestId := Some(k), approvalStatus := "pending",
                              history := r.rows[k].history + ["approval_requested"]);
      (Save(r, asked), Ok(asked))
  }

  function DecideApproval(r: Registry, k: Key, approved: bool): Outcome {
    if k !in r.rows then (r, Err("skill_not_found"))
    else if r.rows[k].approvalRequestId.None? || r.rows[k].approvalStatus != "pending" then
      (r, Err("skill_approval_not_pending"))
    else
      var decision := if approved then "approved" else "rejected";
      var decided := r.rows[k].(approvalStatus := decision, history := r.rows[k].history + ["approval_" + decision]);
      (Save(r, decided), Ok(decided))
  }

  function Suspend(r: Registry, k: Key): Outcome {
    if k !in r.rows then (r, Err("skill_not_found"))
    else
      var s := r.rows[k];
      var suspended := if s.status == Active then s.(status := Suspended) else s;
      (Save(r, suspended), Ok(suspended))
  }

  datatype Patch = Patch(version: Version, tests: Option<nat>, packageHash: Option<string>, riskLevel: Option<string>)

  /** Python's tuple order: lexicographic, a proper prefix being smaller. */
  predicate LexLe(a: seq<int>, b: seq<int>) {
    a == [] || (b != [] && (a[0] < b[0] || (a[0] == b[0] && LexLe(a[1..], b[1..]))))
  }

  predicate ThreePart(v: Version) {
    v.Numbers? && |v.parts| == 3
  }

  /** `skill_update`: a new draft with a higher three-part version. */
  function Update(r: Registry, k: Key, p: Patch): Outcome {
    if k !in r.rows then (r, Err("skill_not_found"))
    else if !ThreePart(p.version) || !ThreePart(k.1) then (r, Err("skill_version_invalid"))
    else if LexLe(p.version.parts, k.1.parts) then (r, Err("skill_version_must_increase"))
    else
      var base := r.rows[k];
      CreateDraft(r, base.(
        tests := p.tests.GetOr(base.tests), packageHash := p.packageHash.GetOr(base.packageHash),
        riskLevel := p.riskLevel.GetOr(base.riskLevel),
        version := p.version, baseVersion := Some(k.1), status := Draft, evaluationId := None,
        approvalRequestId := None, approvalStatus := "", testsPassed := None, activatedAt := None,
        idempotencyKey := PatchOf(k.0, k.1, p.version)))
  }

  /** `skill_rollback` finds the active version itself. */
  function FirstActive(rows: map<Key, Skill>, order: seq<Key>, id: string): Option<Skill> {
    if order == [] then None
    else if order[0] in rows && rows[order[0]].status == Active && order[0].0 == id then Some(rows[order[0]])
    else FirstActive(rows, order[1..], id)
  }

  function RollbackTo(r: Registry, id: string, target: Version, now: int): Outcome {
    var active := FirstActive(r.rows, r.order, id);
    if active.None? then (r, Err("skill_rollback_source_not_active"))
    else Rollback(r, id, active.value.version, target, now)
  }

  /** When a skill was last used, activated or created, in this order of preference. */
  function ReferenceTime(s: Skill): int {
    s.lastUsedAt.GetOr(s.activatedAt.GetOr(s.createdAt))
  }

  predicate Unused(s: Skill, threshold: int) {
    s.status == Active && s.usageCount == 0 && ReferenceTime(s) <= threshold
  }

  function Staled(s: Skill): Skill {
    s.(status := Stale, history := s.history + ["marked_stale"])
  }

  /** The curator's loop, over the rows as it found them. */
  function MarkEach(r: Registry, keys: seq<Key>, threshold: int): Registry {
    if keys == [] then r
    else
      var before := MarkEach(r, keys[..|keys| - 1], threshold);
      var k := keys[|keys| - 1];
      if k in r.rows && Unused(r.rows[k], threshold) then Save(before, Staled(r.rows[k])) else before
  }

  /** The curator's effect, as one update of all rows. */
  function Curate(r: Registry, threshold: int): Registry {
    Registry(map k | k in r.rows :: if Unused(r.rows[k], threshold) then Staled(r.rows[k]) else r.rows[k], r.order)
  }

  /* ---------- the version of a learned skill ---------- */

  function VersionsOf(order: seq<Key>, id: string): seq<Version> {
    if order == [] then []
    else (if order[0].0 == id then [order[0].1] else []) + VersionsOf(order[1..], id)
  }

  function Greatest(versions: seq<Version>): Option<seq<int>>
    requires versions != []
  {
    if versions[0].Unparsable? then None
    else if |versions| == 1 then Some(versions[0].parts)
    else
      var rest := Greatest(versions[1..]);
      if rest.None? then None
      else if LexLe(versions[0].parts, rest.value) then rest
      else Some(versions[0].parts)
  }

  /** `_next_skill_version`. */
  function NextVersion(r: Registry, id: string): Result<Version> {
    var versions := VersionsOf(r.order, id);
    if versions == [] then Ok(Numbers([0, 1, 0]))
    else
      var greatest := Greatest(versions);
      if greatest.None? || |greatest.value| != 3 then Err("skill_version_invalid")
      else Ok(Numbers([greatest.value[0], greatest.value[1], greatest.value[2] + 1]))
  }
}
