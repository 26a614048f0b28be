/** What every run of skill operations keeps, and what a learned version promises. */
module SkillTheorems {
  import opened Wrappers
  import opened SkillModel
  import opened SkillService

  datatype Op =
    | CreateOp(s: Skill)
    | EvaluateOp(k: Key, autoPromote: bool, now: int)
    | ActivateOp(k: Key, now: int)
    | RollbackOp(id: string, source: Version, target: Version, now: int)
    | RollbackToOp(id: string, target: Version, now: int)
    | RequestOp(k: Key)
    | DecideOp(k: Key, approved: bool)
    | SuspendOp(k: Key)
    | UpdateOp(k: Key, patch: Patch)
    | CurateOp(threshold: int)

  function Apply(r: Registry, op: Op): Registry {
    match op
    case CreateOp(s) => CreateDraft(r, s).0
    case EvaluateOp(k, auto, now) => Evaluate(r, k, auto, now).0
    case ActivateOp(k, now) => Activate(r, k, now).0
    case RollbackOp(id, source, target, now) => Rollback(r, id, source, target, now).0
    case RollbackToOp(id, target, now) => RollbackTo(r, id, target, now).0
    case RequestOp(k) => RequestApproval(r, k).0
    case DecideOp(k, approved) => DecideApproval(r, k, approved).0
    case SuspendOp(k) => Suspend(r, k).0
    case UpdateOp(k, patch) => Update(r, k, patch).0
    case CurateOp(threshold) => Curate(r, threshold)
  }

  function Play(ops: seq<Op>): Registry {
    if ops == [] then EMPTY else Apply(Play(ops[..|ops| - 1]), ops[|ops| - 1])
  }

  ghost predicate OneActive(rows: map<Key, Skill>) {
    forall a, b | a in rows && b in rows && rows[a].status == Active && rows[b].status == Active && a.0 == b.0 :: a == b
  }

  ghost predicate ActiveEvaluated(rows: map<Key, Skill>) {
    forall k :: k in rows && rows[k].status == Active ==> rows[k].evaluationId.Some?
  }

  /** One active version per skill, and no active version without an evaluation. */
  ghost predicate Inv(r: Registry) {
    RegistryOk(r) && OneActive(r.rows) && ActiveEvaluated(r.rows)
  }

  ghost predicate NoOtherActive(r: Registry, k: Key) {
    forall x :: x in r.rows && x.0 == k.0 && x != k ==> r.rows[x].status != Active
  }

  lemma SaveKeepsRegistry(r: Registry, s: Skill)
    requires RegistryOk(r)
    ensures RegistryOk(Save(r, s))
  {
    if KeyOf(s) !in r.order {
      assert forall k :: k in Save(r, s).order <==> k in r.order || k == KeyOf(s);
    }
  }

  lemma SaveKeepsInv(r: Registry, s: Skill)
    requires Inv(r)
    requires s.status == Active ==> s.evaluationId.Some? && NoOtherActive(r, KeyOf(s))
    ensures Inv(Save(r, s))
  {
    SaveKeepsRegistry(r, s);
    assert OneActive(Save(r, s).rows);
  }

  /** What superseding the rows of `keys` leaves. */
  ghost predicate AllSuperseded(r: Registry, keys: seq<Key>, t: Registry) {
    && t.rows.Keys == r.rows.Keys
    && forall k :: k in r.rows && k in t.rows ==>
         t.rows[k] == if k in keys then r.rows[k].(status := Superseded) else r.rows[k]
  }

  lemma SupersedeOne(r: Registry, front: seq<Key>, k: Key, t: Registry)
    requires AllSuperseded(r, front, t) && k in r.rows && KeyOf(r.rows[k]) == k
    ensures AllSuperseded(r, front + [k], Save(t, r.rows[k].(status := Superseded)))
  {
  }

  /** Superseding rows makes none active, and touches no other row. */
  lemma {:induction false} SupersedeAllRows(r: Registry, keys: seq<Key>)
    requires Inv(r) && forall k :: k in keys ==> k in r.rows
    ensures Inv(SupersedeAll(r, keys)) && AllSuperseded(r, keys, SupersedeAll(r, keys))
  {
    if keys != [] {
      var front, k := keys[..|keys| - 1], keys[|keys| - 1];
      assert keys == front + [k];
      SupersedeAllRows(r, front);
      SaveKeepsInv(SupersedeAll(r, front), r.rows[k].(status := Superseded));
      SupersedeOne(r, front, k, SupersedeAll(r, front));
    }
  }

  lemma OthersGone(r: Registry, k: Key)
    requires Inv(r)
    ensures var t := SupersedeAll(r, ActiveOthers(r, r.order, k));
            Inv(t) && AllSuperseded(r, ActiveOthers(r, r.order, k), t) && NoOtherActive(t, k)
  {
    ActiveOthersAreRows(r, r.order, k);
    SupersedeAllRows(r, ActiveOthers(r, r.order, k));
  }

  lemma ActivateKeepsInv(r: Registry, k: Key, now: int)
    requires Inv(r)
    ensures Inv(Activate(r, k, now).0)
  {
    if Activate(r, k, now).1.Ok? {
      var others := ActiveOthers(r, r.order, k);
      OthersGone(r, k);
      SaveKeepsInv(SupersedeAll(r, others), Activated(r.rows[k], others, now));
    }
  }

  lemma EvaluateKeepsInv(r: Registry, k: Key, auto: bool, now: int)
    requires Inv(r)
    ensures Inv(Evaluate(r, k, auto, now).0)
  {
    if k in r.rows {
      SaveKeepsInv(r, Evaluated(r.rows[k]));
      ActivateKeepsInv(Save(r, Evaluated(r.rows[k])), k, now);
    }
  }

  lemma RollbackKeepsInv(r: Registry, id: string, source: Version, target: Version, now: int)
    requires Inv(r)
    ensures Inv(Rollback(r, id, source, target, now).0)
  {
    var (t, result) := Rollback(r, id, source, target, now);
    if result.Ok? {
      var superseded := r.rows[(id, source)].(status := Superseded);
      SaveKeepsInv(r, superseded);
      SaveKeepsInv(Save(r, superseded), result.value);
    }
  }

  lemma CurateKeepsInv(r: Registry, threshold: int)
    requires Inv(r)
    ensures Inv(Curate(r, threshold))
  {
  }

  lemma StepKeepsInv(r: Registry, op: Op)
    requires Inv(r)
    ensures Inv(Apply(r, op))
  {
    match op
    case CreateOp(s) => SaveKeepsInv(r, s.(status := Draft));
    case EvaluateOp(k, auto, now) => EvaluateKeepsInv(r, k, auto, now);
    case ActivateOp(k, now) => ActivateKeepsInv(r, k, now);
    case RollbackOp(id, source, target, now) => RollbackKeepsInv(r, id, source, target, now);
    case RollbackToOp(id, target, now) =>
      var active := FirstActive(r.rows, r.order, id);
      if active.Some? {
        RollbackKeepsInv(r, id, active.value.version, target, now);
      }
    case RequestOp(k) => if k in r.rows { SaveKeepsInv(r, RequestApproval(r, k).1.value); }
    case DecideOp(k, approved) =>
      if DecideApproval(r, k, approved).1.Ok? { SaveKeepsInv(r, DecideApproval(r, k, approved).1.value); }
    case SuspendOp(k) => if k in r.rows { SaveKeepsInv(r, Suspend(r, k).1.value); }
    case UpdateOp(k, patch) =>
      if Update(r, k, patch).0 != r { SaveKeepsInv(r, Update(r, k, patch).1.value); }
    case CurateOp(threshold) => CurateKeepsInv(r, threshold);
  }

  lemma {:induction false} PlayKeepsInv(ops: seq<Op>)
    ensures Inv(Play(ops))
  {
    if ops != [] {
      PlayKeepsInv(ops[..|ops| - 1]);
      StepKeepsInv(Play(ops[..|ops| - 1]), ops[|ops| - 1]);
    }
  }

  /**
   In every run of skill operations, auto-promotion, roll-backs and curation included, a
   skill has at most one active version and every active version has been evaluated.
   */
  lemma OneActiveVersion(ops: seq<Op>, a: Key, b: Key)
    requires a in Play(ops).rows && b in Play(ops).rows && a.0 == b.0
    requires Play(ops).rows[a].status == Active && Play(ops).rows[b].status == Active
    ensures a == b && Play(ops).rows[a].evaluationId.Some?
  {
    PlayKeepsInv(ops);
  }

  /** What promotion demands of a version besides its evaluation. */
  predicate PolicyMet(s: Skill) {
    s.testsPassed == Some(true) && (LowRisk(s) || s.approvalStatus == "approved")
  }

  /** The other active versions: at most one, and it names the base of the new one. */
  lemma BaseIsThePrevious(r: Registry, k: Key, x: Key)
    requires Inv(r) && x in r.rows && x.0 == k.0 && x != k && r.rows[x].status == Active
    ensures var others := ActiveOthers(r, r.order, k);
            x in others && others[|others| - 1] == x
  {
    var others := ActiveOthers(r, r.order, k);
    ActiveOthersAreRows(r, r.order, k);
    assert x in others && others[|others| - 1] in others;
  }

  /**
   Activation moves the one active version to `k`, which meets the policy: any other active
   version `x` of the skill is superseded and, unless a base was given, becomes the base;
   every other row stays as it was.
   */
  lemma ActivationReplacesActive(r: Registry, k: Key, now: int, x: Key)
    requires Inv(r) && Activate(r, k, now).1.Ok? && x in r.rows && x != k
    ensures var t := Activate(r, k, now).0;
            && k in t.rows && t.rows[k].status == Active && PolicyMet(t.rows[k])
            && x in t.rows
            && if x.0 == k.0 && r.rows[x].status == Active then
                 && t.rows[x] == r.rows[x].(status := Superseded)
                 && (r.rows[k].baseVersion.None? ==> t.rows[k].baseVersion == Some(x.1))
               else t.rows[x] == r.rows[x]
  {
    var others := ActiveOthers(r, r.order, k);
    ActiveOthersAreRows(r, r.order, k);
    OthersGone(r, k);
    assert PolicyMet(Activated(r.rows[k], others, now)) <==> PolicyMet(r.rows[k]);
    if x.0 == k.0 && r.rows[x].status == Active {
      BaseIsThePrevious(r, k, x);
    }
    ActivatedRows(r, k, now);
  }

  lemma ActivatedRows(r: Registry, k: Key, now: int)
    requires Inv(r) && Activate(r, k, now).1.Ok?
    ensures var others := ActiveOthers(r, r.order, k);
            Activate(r, k, now).0.rows == SupersedeAll(r, others).rows[k := Activated(r.rows[k], others, now)]
    ensures PolicyMet(r.rows[k])
  {
  }

  /** A roll-back, by contrast, activates a policy-breaking version whenever it is pointed at one. */
  lemma RollbackMeetsPolicyExactly(r: Registry, id: string, source: Version, target: Version, now: int)
    requires Inv(r) && Rollback(r, id, source, target, now).1.Ok?
    ensures var t := Rollback(r, id, source, target, now).0;
            && t.rows[(id, target)].status == Active
            && (source != target ==> t.rows[(id, source)].status == Superseded)
            && (PolicyMet(t.rows[(id, target)]) <==> PolicyMet(r.rows[(id, target)]))
            && NoOtherActive(t, (id, target))
  {
  }

  /* ---------- the promotion policy over runs ---------- */

  /** Every active version meets the policy. */
  ghost predicate PolicyKept(r: Registry) {
    forall k :: k in r.rows && r.rows[k].status == Active ==> PolicyMet(r.rows[k])
  }

  /** A successful roll-back to a version that breaks the policy. */
  ghost predicate RollsBackToBreach(r: Registry, id: string, source: Version, target: Version) {
    Rollback(r, id, source, target, 0).1.Ok? && !PolicyMet(r.rows[(id, target)])
  }

  /** A request to approve a version that is active already and needs its approval. */
  ghost predicate ReopensApproval(r: Registry, k: Key) {
    k in r.rows && r.rows[k].status == Active && !LowRisk(r.rows[k])
  }

  ghost predicate Breaches(r: Registry, op: Op) {
    match op
    case RollbackOp(id, source, target, _) => RollsBackToBreach(r, id, source, target)
    case RollbackToOp(id, target, _) =>
      var active := FirstActive(r.rows, r.order, id);
      active.Some? && RollsBackToBreach(r, id, active.value.version, target)
    case RequestOp(k) => ReopensApproval(r, k)
    case _ => false
  }

  /** Saving a row keeps the policy exactly when the row does. */
  lemma SaveKeepsPolicy(r: Registry, s: Skill)
    requires PolicyKept(r)
    ensures PolicyKept(Save(r, s)) <==> (s.status == Active ==> PolicyMet(s))
  {
    assert Save(r, s).rows[KeyOf(s)] == s;
  }

  lemma ActivateKeepsPolicy(r: Registry, k: Key, now: int)
    requires Inv(r) && PolicyKept(r)
    ensures PolicyKept(Activate(r, k, now).0)
  {
    if Activate(r, k, now).1.Ok? {
      var others := ActiveOthers(r, r.order, k);
      OthersGone(r, k);
      ActivatedRows(r, k, now);
      var superseded := SupersedeAll(r, others);
      assert forall x :: x in superseded.rows && superseded.rows[x].status == Active ==>
          superseded.rows[x] == r.rows[x];
      SaveKeepsPolicy(superseded, Activated(r.rows[k], others, now));
    }
  }

  lemma RollbackKeepsPolicyExactly(r: Registry, id: string, source: Version, target: Version, now: int)
    requires Inv(r) && PolicyKept(r)
    ensures PolicyKept(Rollback(r, id, source, target, now).0) <==> !RollsBackToBreach(r, id, source, target)
  {
    var (t, result) := Rollback(r, id, source, target, now);
    if result.Ok? {
      var superseded := r.rows[(id, source)].(status := Superseded);
      SaveKeepsPolicy(r, superseded);
      SaveKeepsPolicy(Save(r, superseded), result.value);
    }
  }

  lemma EvaluateKeepsPolicy(r: Registry, k: Key, auto: bool, now: int)
    requires Inv(r) && PolicyKept(r)
    ensures PolicyKept(Evaluate(r, k, auto, now).0)
  {
    if k in r.rows {
      EvaluateKeepsInv(r, k, false, now);
      SaveKeepsPolicy(r, Evaluated(r.rows[k]));
      ActivateKeepsPolicy(Save(r, Evaluated(r.rows[k])), k, now);
    }
  }

  lemma ApprovalKeepsPolicyExactly(r: Registry, k: Key, approved: bool)
    requires Inv(r) && PolicyKept(r)
    ensures PolicyKept(RequestApproval(r, k).0) <==> !ReopensApproval(r, k)
    ensures PolicyKept(DecideApproval(r, k, approved).0)
  {
    if k in r.rows {
      SaveKeepsPolicy(r, RequestApproval(r, k).1.value);
      if DecideApproval(r, k, approved).1.Ok? {
        SaveKeepsPolicy(r, DecideApproval(r, k, approved).1.value);
      }
    }
  }

  /**
   From a registry whose active versions meet the policy, an operation leads to one where some
   does not exactly when it rolls back to a version that breaks the policy or asks again for
   the approval of an active version that needs it.
   */
  lemma StepKeepsPolicyExactly(r: Registry, op: Op)
    requires Inv(r) && PolicyKept(r)
    ensures PolicyKept(Apply(r, op)) <==> !Breaches(r, op)
  {
    match op
    case CreateOp(s) => SaveKeepsPolicy(r, s.(status := Draft));
    case EvaluateOp(k, auto, now) =>
      EvaluateKeepsPolicy(r, k, auto, now);
    case ActivateOp(k, now) => ActivateKeepsPolicy(r, k, now);
    case RollbackOp(id, source, target, now) => RollbackKeepsPolicyExactly(r, id, source, target, now);
    case RollbackToOp(id, target, now) =>
      var active := FirstActive(r.rows, r.order, id);
      if active.Some? {
        RollbackKeepsPolicyExactly(r, id, active.value.version, target, now);
      }
    case RequestOp(k) => ApprovalKeepsPolicyExactly(r, k, true);
    case DecideOp(k, approved) => ApprovalKeepsPolicyExactly(r, k, approved);
    case SuspendOp(k) => if k in r.rows { SaveKeepsPolicy(r, Suspend(r, k).1.value); }
    case UpdateOp(k, patch) =>
      if Update(r, k, patch).0 != r { SaveKeepsPolicy(r, Update(r, k, patch).1.value); }
    case CurateOp(threshold) =>
  }

  /** The policy held after every operation of the run. */
  ghost predicate PolicyThroughout(ops: seq<Op>) {
    PolicyKept(Play(ops)) && (ops == [] || PolicyThroughout(ops[..|ops| - 1]))
  }

  ghost predicate NoBreach(ops: seq<Op>) {
    ops == [] || (NoBreach(ops[..|ops| - 1]) && !Breaches(Play(ops[..|ops| - 1]), ops[|ops| - 1]))
  }

  /** The policy holds throughout a run exactly when no operation of it is one of the two breaches. */
  lemma {:induction false} PolicyHoldsExactly(ops: seq<Op>)
    ensures PolicyThroughout(ops) <==> NoBreach(ops)
  {
    if ops != [] {
      var front := ops[..|ops| - 1];
      PolicyHoldsExactly(front);
      PlayKeepsInv(front);
      if PolicyThroughout(front) {
        StepKeepsPolicyExactly(Play(front), ops[|ops| - 1]);
      }
    }
  }

  /* Both breaches are reached. */

  lemma PlayMore(ops: seq<Op>, op: Op)
    ensures Play(ops + [op]) == Apply(Play(ops), op)
  {
    assert (ops + [op])[..|ops|] == ops;
  }

  /** A registry whose rows are just these two. */
  ghost predicate Holds(r: Registry, a: Skill, b: Skill) {
    KeyOf(a) != KeyOf(b) && r.rows == map[KeyOf(a) := a, KeyOf(b) := b] && r.order == [KeyOf(a), KeyOf(b)]
  }

  /** A new, tested skill of high risk. */
  predicate Risky(s: Skill) {
    s.status == Draft && s.tests > 0 && !LowRisk(s) && s.idempotencyKey == NoKey && s.approvalStatus == ""
  }

  predicate Harmless(s: Skill) {
    s.status == Draft && s.tests > 0 && LowRisk(s) && s.idempotencyKey == NoKey
  }

  /**
   An evaluated high-risk version that was never approved becomes active by a roll-back from
   a low-risk version of the same skill.
   */
  lemma RollbackReachesBreach(risky: Skill, harmless: Skill, now: int) returns (ops: seq<Op>)
    requires Risky(risky) && Harmless(harmless) && risky.id == harmless.id && risky.version != harmless.version
    ensures KeyOf(risky) in Play(ops).rows && Play(ops).rows[KeyOf(risky)].status == Active
    ensures Play(ops).rows[KeyOf(risky)].approvalStatus == "" && !PolicyKept(Play(ops))
  {
    var b := KeyOf(harmless);
    var o4, o5 := EvaluateOp(b, true, now), RollbackOp(risky.id, harmless.version, risky.version, now);
    var two := EvaluatedBesideDraft(risky, harmless, now);
    PlayMore(two, o4);
    PlayMore(two + [o4], o5);
    ops := two + [o4] + [o5];
    PromoteSecond(Play(two), Evaluated(risky), harmless, now);
  }

  lemma EvaluatedBesideDraft(a: Skill, b: Skill, now: int) returns (ops: seq<Op>)
    requires Risky(a) && Harmless(b) && KeyOf(a) != KeyOf(b)
    ensures Holds(Play(ops), Evaluated(a), b)
  {
    var first := EvaluatedAlone(a, now);
    PlayMore(first, CreateOp(b));
    ops := first + [CreateOp(b)];
    var r, k := Play(first), KeyOf(b);
    assert Save(r, b).rows == map[KeyOf(a) := Evaluated(a), k := b];
  }

  function Alone(a: Skill): Registry {
    Registry(map[KeyOf(a) := a], [KeyOf(a)])
  }

  lemma DraftAlone(a: Skill)
    requires Risky(a)
    ensures CreateDraft(EMPTY, a).0 == Alone(a)
  {
    assert a.(status := Draft) == a;
    assert Save(EMPTY, a).rows == Alone(a).rows;
  }

  lemma EvaluateAlone(a: Skill, now: int)
    ensures Evaluate(Alone(a), KeyOf(a), false, now).0 == Alone(Evaluated(a))
  {
    assert Save(Alone(a), Evaluated(a)).rows == Alone(Evaluated(a)).rows;
  }

  lemma EvaluatedAlone(a: Skill, now: int) returns (ops: seq<Op>)
    requires Risky(a)
    ensures Play(ops) == Alone(Evaluated(a))
  {
    var o1, o2 := CreateOp(a), EvaluateOp(KeyOf(a), false, now);
    PlayMore([], o1);
    DraftAlone(a);
    PlayMore([] + [o1], o2);
    EvaluateAlone(a, now);
    ops := [] + [o1] + [o2];
  }

  lemma PromoteSecond(r: Registry, a: Skill, b: Skill, now: int)
    requires Holds(r, a, b) && Harmless(b) && a.status == Candidate
    ensures Holds(Evaluate(r, KeyOf(b), true, now).0, a, Activated(Evaluated(b), [], now))
  {
    var saved := Save(r, Evaluated(b));
    var k := KeyOf(b);
    assert saved.order[1..] == [k] && saved.order[1..][1..] == [];
    assert ActiveOthers(saved, [k], k) == [];
    assert ActiveOthers(saved, saved.order, k) == [];
  }

  /** An approved and active high-risk version asks for approval again and stays active when it is rejected. */
  lemma ReapprovalReachesBreach(risky: Skill, now: int) returns (ops: seq<Op>)
    requires Risky(risky)
    ensures KeyOf(risky) in Play(ops).rows && Play(ops).rows[KeyOf(risky)].status == Active
    ensures Play(ops).rows[KeyOf(risky)].approvalStatus == "rejected" && !PolicyKept(Play(ops))
  {
    var k := KeyOf(risky);
    var o1, o2, o3, o4 := CreateOp(risky), EvaluateOp(k, false, now), RequestOp(k), DecideOp(k, true);
    var o5, o6 := ActivateOp(k, now), DecideOp(k, false);
    PlayMore([], o1);
    PlayMore([] + [o1], o2);
    PlayMore([] + [o1] + [o2], o3);
    PlayMore([] + [o1] + [o2] + [o3], o4);
    var approved := [] + [o1] + [o2] + [o3] + [o4];
    PlayMore(approved, o5);
    PlayMore(approved + [o5], o3);
    PlayMore(approved + [o5] + [o3], o6);
    ops := approved + [o5] + [o3] + [o6];
    var r := Play(approved);
    assert r.order == [k] && r.order[1..] == [];
    assert ActiveOthers(r, r.order, k) == [];
  }

  /** Curation leaves no version active that is unused since the threshold, and a second run changes nothing. */
  lemma CurationIsComplete(r: Registry, threshold: int)
    ensures forall k :: k in Curate(r, threshold).rows ==> !Unused(Curate(r, threshold).rows[k], threshold)
    ensures Curate(Curate(r, threshold), threshold) == Curate(r, threshold)
  {
    assert Curate(Curate(r, threshold), threshold).rows == Curate(r, threshold).rows;
  }

  /* ---------- learned versions ---------- */

  lemma {:induction false} LexTotal(a: seq<int>, b: seq<int>)
    ensures LexLe(a, b) || LexLe(b, a)
    ensures LexLe(a, a)
  {
    if a != [] && b != [] {
      LexTotal(a[1..], b[1..]);
    } else if a != [] {
      LexTotal(a[1..], []);
    }
  }

  lemma {:induction false} LexTransitive(a: seq<int>, b: seq<int>, c: seq<int>)
    requires LexLe(a, b) && LexLe(b, c)
    ensures LexLe(a, c)
  {
    if a != [] && a[0] == b[0] == c[0] {
      LexTransitive(a[1..], b[1..], c[1..]);
    }
  }

  lemma {:induction false} LexAntisymmetric(a: seq<int>, b: seq<int>)
    requires LexLe(a, b) && LexLe(b, a)
    ensures a == b
  {
    if a != [] {
      LexAntisymmetric(a[1..], b[1..]);
      assert a == [a[0]] + a[1..] && b == [b[0]] + b[1..];
    }
  }

  lemma {:induction false} GreatestIsAbove(versions: seq<Version>)
    requires versions != [] && Greatest(versions).Some?
    ensures forall v :: v in versions ==> v.Numbers? && LexLe(v.parts, Greatest(versions).value)
    ensures Numbers(Greatest(versions).value) in versions
  {
    LexTotal(versions[0].parts, []);
    if |versions| > 1 {
      var rest := versions[1..];
      GreatestIsAbove(rest);
      assert versions == [versions[0]] + rest;
      LexTotal(versions[0].parts, Greatest(rest).value);
      forall v | v in versions ensures v.Numbers? && LexLe(v.parts, Greatest(versions).value) {
        if v in rest && Greatest(versions).value != Greatest(rest).value {
          LexTransitive(v.parts, Greatest(rest).value, versions[0].parts);
        }
      }
    }
  }

  lemma {:induction false} VersionsOfMembers(order: seq<Key>, id: string)
    ensures forall v :: v in VersionsOf(order, id) <==> (id, v) in order
  {
    if order != [] {
      VersionsOfMembers(order[1..], id);
      assert order == [order[0]] + order[1..];
    }
  }

  /** Strictly above in tuple order. */
  predicate LexLess(a: seq<int>, b: seq<int>) {
    LexLe(a, b) && a != b
  }

  /**
   The version generated for a learned skill is strictly above every existing version of the
   skill, so its key is new.
   */
  lemma NextVersionIsAbove(r: Registry, id: string, v: Version)
    requires RegistryOk(r) && NextVersion(r, id).Ok? && (id, v) in r.rows
    ensures v.Numbers? && LexLess(v.parts, NextVersion(r, id).value.parts)
    ensures (id, NextVersion(r, id).value) !in r.rows
  {
    var versions := VersionsOf(r.order, id);
    VersionsOfMembers(r.order, id);
    assert v in versions;
    GreatestIsAbove(versions);
    var top, next := Greatest(versions).value, NextVersion(r, id).value.parts;
    TopBelowNext(top);
    LexTransitive(v.parts, top, next);
    if v.parts == next {
      LexAntisymmetric(top, next);
    }
    if Numbers(next) in versions {
      LexAntisymmetric(top, next);
    }
  }

  lemma TopBelowNext(top: seq<int>)
    requires |top| == 3
    ensures LexLe(top, [top[0], top[1], top[2] + 1]) && top != [top[0], top[1], top[2] + 1]
  {
    var next := [top[0], top[1], top[2] + 1];
    assert top[1..][1..][0] == top[2] && next[1..][1..][0] == top[2] + 1;
    assert LexLe(top[1..][1..], next[1..][1..]);
    assert LexLe(top[1..], next[1..]);
  }

  /** A draft learned under the next version adds a row and leaves all others alone. */
  lemma LearnedDraftOverwritesNothing(r: Registry, s: Skill)
    requires RegistryOk(r) && NextVersion(r, s.id) == Ok(s.version)
    ensures forall k :: k in r.rows ==> k in CreateDraft(r, s).0.rows && CreateDraft(r, s).0.rows[k] == r.rows[k]
  {
    if KeyOf(s) in r.rows {
      NextVersionIsAbove(r, s.id, s.version);
    }
  }
}
