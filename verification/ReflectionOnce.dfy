/**
 Exactly once: whatever sequence of interrupted passes the worker runs, compared with the
 state before the first one there is at most one new candidate, at most one new memory and
 at most one new skill version, and a completed job's candidate refers to an existing record.
 */
module ReflectionOnce {
  import opened Wrappers
  import MM = MemoryModel
  import opened SkillModel
  import opened SkillService
  import ST = SkillTheorems
  import RT = ReflectionTheorems
  import opened ReflectionModel

  /** The candidate that the job works on: one that was there before, or its own. */
  function Target(start: State, p: Proposal): Learned {
    var i := Find(start.learned, p);
    if i < |start.learned| then start.learned[i] else Learned(p.id, p.key, p.fingerprint, Fresh, None)
  }

  /** The candidates differ from those at the start at most in the target. */
  ghost predicate LearnedOnce(start: State, s: State, p: Proposal) {
    var i, target := Find(start.learned, p), Target(start, p);
    && |start.learned| <= |s.learned|
    && |s.learned| <= (if i == |start.learned| then |start.learned| + 1 else |start.learned|)
    && (forall j :: 0 <= j < |start.learned| && j != i ==> s.learned[j] == start.learned[j])
    && (i < |s.learned| ==> s.learned[i].id == target.id && s.learned[i].key == target.key
                            && s.learned[i].fingerprint == target.fingerprint)
  }

  /** The memory repository is untouched, or has seen the target's creation once. */
  ghost predicate MemoryOnce(start: State, s: State, p: Proposal) {
    s.memory == start.memory
    || (p.lesson.Remember?
        && exists at ::
             s.memory == MM.CreateCandidate(start.memory, MemoryFor(p.lesson.memory, Target(start, p), at)).0)
  }

  function DraftKey(start: State, p: Proposal): RequestKey {
    Given("skill:" + Target(start, p).id)
  }

  /** No version is lost, and at most one was added, under the target's idempotency key. */
  ghost predicate SkillsOnce(start: State, s: State, p: Proposal) {
    && ST.Inv(s.skills)
    && (forall k :: k in start.skills.rows ==> k in s.skills.rows)
    && (forall k :: k in s.skills.rows && k !in start.skills.rows ==>
          p.lesson.Practice? && s.skills.rows[k].idempotencyKey == DraftKey(start, p))
    && (forall a, b | a in s.skills.rows && b in s.skills.rows
                      && a !in start.skills.rows && b !in start.skills.rows :: a == b)
  }

  /** Some version of the skill is the one learned from the target. */
  ghost predicate LearnedVersion(start: State, s: State, p: Proposal, skill: string) {
    exists t :: t in s.skills.rows && t.0 == skill && s.skills.rows[t].idempotencyKey == DraftKey(start, p)
  }

  /** A version that was there before is unchanged, or is the target's own draft, or was active and gave way to it. */
  ghost predicate RowOnce(start: State, s: State, p: Proposal, k: Key)
    requires k in start.skills.rows && k in s.skills.rows
  {
    var before, after := start.skills.rows[k], s.skills.rows[k];
    || after == before
    || (p.lesson.Practice? && before.idempotencyKey == DraftKey(start, p))
    || (p.lesson.Practice? && p.autoPromote && before.status == Active && after == before.(status := Superseded)
        && LearnedVersion(start, s, p, k.0))
  }

  ghost predicate RowsOnce(start: State, s: State, p: Proposal) {
    forall k :: k in start.skills.rows ==> k in s.skills.rows && RowOnce(start, s, p, k)
  }

  /** A settled candidate says what became of the lesson, and what it refers to exists. */
  ghost predicate Settled(start: State, s: State, p: Proposal, c: Learned) {
    match p.lesson
    case NoLearning => c.status == CandidateStatus.Rejected
    case Remember(_) =>
      c.status == Materialized && c.ref.Some? && c.ref.value.MemoryRef? && c.ref.value.id in s.memory.rows
    case Practice(_, _) =>
      c.status == Materialized && c.ref.Some? && c.ref.value.SkillRef? && c.ref.value.key in s.skills.rows
      && s.skills.rows[c.ref.value.key].evaluationId.Some?
  }

  /** What is stored, whatever the state of the job. */
  ghost predicate StoredOnce(start: State, s: State, p: Proposal) {
    var i := Find(start.learned, p);
    && LearnedOnce(start, s, p) && MemoryOnce(start, s, p) && SkillsOnce(start, s, p)
    && (i < |s.learned| && s.learned[i].status != Fresh && Target(start, p).status == Fresh ==>
          Settled(start, s, p, s.learned[i]))
  }

  ghost predicate IsSettled(start: State, s: State, p: Proposal) {
    Find(start.learned, p) < |s.learned| && s.learned[Find(start.learned, p)].status != Fresh
  }

  ghost predicate Once(start: State, s: State, p: Proposal) {
    StoredOnce(start, s, p) && (s.job.status == Completed ==> IsSettled(start, s, p))
  }

  ghost predicate Sound(s: State) {
    MM.RepoOk(s.memory) && ST.Inv(s.skills)
  }

  lemma {:induction false} FindStays(a: seq<Learned>, b: seq<Learned>, p: Proposal)
    requires |a| <= |b|
    requires forall j :: 0 <= j < |a| && j != Find(a, p) ==> b[j] == a[j]
    requires Find(a, p) < |a| ==> b[Find(a, p)].key == a[Find(a, p)].key
                                  && b[Find(a, p)].fingerprint == a[Find(a, p)].fingerprint
    requires Find(a, p) == |a| && |b| > |a| ==> b[|a|].key == p.key
    ensures Find(b, p) == Find(a, p)
  {
  }

  lemma TargetIsFound(start: State, s: State, p: Proposal)
    requires LearnedOnce(start, s, p)
    ensures Find(s.learned, p) == Find(start.learned, p)
  {
    FindStays(start.learned, s.learned, p);
  }

  /* ---------- remembering once ---------- */

  lemma CreatedRowExists(r: MM.Repo, m: MM.Memory)
    requires MM.RepoOk(r) && MM.CreateCandidate(r, m).1.Ok?
    ensures var (t, result) := MM.CreateCandidate(r, m);
            MM.RepoOk(t) && result.value.id in t.rows && t.rows[result.value.id] == result.value
  {
    RT.FirstFinds(r.rows, r.order, (existing: MM.Memory) => MM.SameRequest(existing, m));
    var hashed := m.(contentHash := MM.HashOf(m), status := MM.Candidate);
    RT.FirstFinds(r.rows, r.order, (existing: MM.Memory) => MM.Duplicate(existing, hashed));
  }

  /** Creating the target's memory from either allowed repository gives the same one. */
  lemma RememberOnce(start: State, s: State, p: Proposal, c: Learned, now: int)
    requires Sound(start) && MemoryOnce(start, s, p) && p.lesson.Remember?
    requires c.id == Target(start, p).id && c.key == Target(start, p).key
    ensures var (repo, result) := MM.CreateCandidate(s.memory, MemoryFor(p.lesson.memory, c, now));
            && MemoryOnce(start, s.(memory := repo), p)
            && (result.Ok? ==> result.value.id in repo.rows)
  {
    var target := Target(start, p);
    var m := MemoryFor(p.lesson.memory, c, now);
    assert m == MemoryFor(p.lesson.memory, target, now);
    if s.memory == start.memory {
      StoresRow(s.memory, m);
    } else {
      var at :| s.memory == MM.CreateCandidate(start.memory, MemoryFor(p.lesson.memory, target, at)).0;
      var first := MemoryFor(p.lesson.memory, target, at);
      RT.CreateTwice(start.memory, first, m);
      StoresRow(start.memory, first);
    }
  }

  lemma StoresRow(r: MM.Repo, m: MM.Memory)
    requires MM.RepoOk(r)
    ensures MM.CreateCandidate(r, m).1.Ok? ==> MM.CreateCandidate(r, m).1.value.id in MM.CreateCandidate(r, m).0.rows
  {
    if MM.CreateCandidate(r, m).1.Ok? {
      CreatedRowExists(r, m);
    }
  }

  /* ---------- practising once ---------- */

  lemma {:induction false} FirstWithKeyFinds(rows: map<Key, Skill>, order: seq<Key>, key: RequestKey)
    ensures var found := FirstWithKey(rows, order, key);
            && (found.Some? ==>
                  exists k :: k in order && k in rows && rows[k] == found.value && rows[k].idempotencyKey == key)
            && (found.None? ==> forall k :: k in order && k in rows ==> rows[k].idempotencyKey != key)
  {
    if order != [] {
      FirstWithKeyFinds(rows, order[1..], key);
      assert order == [order[0]] + order[1..];
    }
  }

  /** Evaluation, and even the promotion it may trigger, adds and renames nothing. */
  ghost predicate SameKeys(r: Registry, t: Registry) {
    && t.rows.Keys == r.rows.Keys
    && (forall x :: x in r.rows && x in t.rows ==> t.rows[x].idempotencyKey == r.rows[x].idempotencyKey)
  }

  lemma ActivateKeepsKeys(r: Registry, k: Key, now: int)
    requires ST.Inv(r) && Activate(r, k, now).1.Ok?
    ensures SameKeys(r, Activate(r, k, now).0)
    ensures Activate(r, k, now).0.rows[k].evaluationId == r.rows[k].evaluationId
  {
    var others := ActiveOthers(r, r.order, k);
    ST.OthersGone(r, k);
    ST.ActivatedRows(r, k, now);
    SupersededKeepsKeys(r, others, SupersedeAll(r, others));
    ReplacingKeepsKeys(r, SupersedeAll(r, others), Activate(r, k, now).0, k, Activated(r.rows[k], others, now));
  }

  lemma ReplacingKeepsKeys(r: Registry, t: Registry, u: Registry, k: Key, s: Skill)
    requires SameKeys(r, t) && k in r.rows && u.rows == t.rows[k := s]
    requires s.idempotencyKey == r.rows[k].idempotencyKey
    ensures SameKeys(r, u)
  {
  }

  lemma SupersededKeepsKeys(r: Registry, keys: seq<Key>, t: Registry)
    requires ST.AllSuperseded(r, keys, t)
    ensures SameKeys(r, t)
  {
  }

  lemma SaveEvaluatedKeepsKeys(r: Registry, k: Key)
    requires ST.Inv(r) && k in r.rows
    ensures ST.Inv(Save(r, Evaluated(r.rows[k]))) && SameKeys(r, Save(r, Evaluated(r.rows[k])))
    ensures Save(r, Evaluated(r.rows[k])).rows[k] == Evaluated(r.rows[k])
  {
    ST.SaveKeepsInv(r, Evaluated(r.rows[k]));
  }

  lemma EvaluateKeepsKeys(r: Registry, k: Key, auto: bool, now: int)
    requires ST.Inv(r) && k in r.rows
    ensures ST.Inv(Evaluate(r, k, auto, now).0) && SameKeys(r, Evaluate(r, k, auto, now).0)
    ensures Evaluate(r, k, auto, now).0.rows[k].evaluationId.Some?
    ensures Evaluate(r, k, auto, now).1.Ok? ==> KeyOf(Evaluate(r, k, auto, now).1.value) == k
  {
    ST.EvaluateKeepsInv(r, k, auto, now);
    SaveEvaluatedKeepsKeys(r, k);
    var saved := Save(r, Evaluated(r.rows[k]));
    if Activate(saved, k, now).1.Ok? {
      ActivateKeepsKeys(saved, k, now);
    }
  }

  /** Apart from its own row, evaluation may only supersede the skill's active versions, and only by promoting. */
  ghost predicate OthersGaveWay(r: Registry, k: Key, auto: bool, t: Registry) {
    && SameKeys(r, t)
    && forall x :: x in r.rows && x in t.rows && x != k ==>
         || t.rows[x] == r.rows[x]
         || (auto && x.0 == k.0 && r.rows[x].status == Active && t.rows[x] == r.rows[x].(status := Superseded))
  }

  lemma ActivateRows(r: Registry, k: Key, now: int, x: Key)
    requires ST.Inv(r) && Activate(r, k, now).1.Ok? && x in r.rows && x != k
    ensures x in Activate(r, k, now).0.rows
    ensures Activate(r, k, now).0.rows[x] == r.rows[x]
            || (x.0 == k.0 && r.rows[x].status == Active
                && Activate(r, k, now).0.rows[x] == r.rows[x].(status := Superseded))
  {
    ST.ActivationReplacesActive(r, k, now, x);
  }

  lemma EvaluateIsOneOf(r: Registry, k: Key, auto: bool, now: int)
    requires k in r.rows
    ensures var saved, t := Save(r, Evaluated(r.rows[k])), Evaluate(r, k, auto, now).0;
            t == saved || (auto && Activate(saved, k, now).1.Ok? && t == Activate(saved, k, now).0)
  {
  }

  lemma PromotionGivesWay(r: Registry, saved: Registry, k: Key, now: int)
    requires ST.Inv(saved) && Activate(saved, k, now).1.Ok? && SameKeys(r, Activate(saved, k, now).0)
    requires saved.rows.Keys == r.rows.Keys && forall x :: x in r.rows && x != k ==> saved.rows[x] == r.rows[x]
    ensures OthersGaveWay(r, k, true, Activate(saved, k, now).0)
  {
    var t := Activate(saved, k, now).0;
    forall x | x in r.rows && x in t.rows && x != k
      ensures t.rows[x] == r.rows[x]
              || (x.0 == k.0 && r.rows[x].status == Active && t.rows[x] == r.rows[x].(status := Superseded))
    {
      ActivateRows(saved, k, now, x);
    }
  }

  lemma SavingGivesWay(r: Registry, k: Key, auto: bool)
    requires ST.Inv(r) && k in r.rows
    ensures OthersGaveWay(r, k, auto, Save(r, Evaluated(r.rows[k])))
  {
  }

  lemma EvaluateRows(r: Registry, k: Key, auto: bool, now: int)
    requires ST.Inv(r) && k in r.rows
    ensures OthersGaveWay(r, k, auto, Evaluate(r, k, auto, now).0)
  {
    var saved, t := Save(r, Evaluated(r.rows[k])), Evaluate(r, k, auto, now).0;
    EvaluateKeepsKeys(r, k, auto, now);
    SaveEvaluatedKeepsKeys(r, k);
    EvaluateIsOneOf(r, k, auto, now);
    if t == saved {
      SavingGivesWay(r, k, auto);
    } else {
      PromotionGivesWay(r, saved, k, now);
    }
  }

  /** A draft under the target's key is found again or added under a new version. */
  lemma DraftOnce(start: State, s: State, p: Proposal, c: Learned)
    requires SkillsOnce(start, s, p) && p.lesson.Practice? && c.id == Target(start, p).id
    requires NextVersion(s.skills, p.lesson.skill.id).Ok?
    ensures var draft := DraftFor(p.lesson.skill, c, NextVersion(s.skills, p.lesson.skill.id).value);
            var (drafted, result) := CreateDraft(s.skills, draft);
            SkillsOnce(start, s.(skills := drafted), p) && KeyOf(result.value) in drafted.rows
  {
    var draft := DraftFor(p.lesson.skill, c, NextVersion(s.skills, p.lesson.skill.id).value);
    var (drafted, result) := CreateDraft(s.skills, draft);
    FirstWithKeyFinds(s.skills.rows, s.skills.order, draft.idempotencyKey);
    ST.StepKeepsInv(s.skills, ST.CreateOp(draft));
    if drafted != s.skills {
      if KeyOf(draft) in s.skills.rows {
        ST.NextVersionIsAbove(s.skills, draft.id, draft.version);
      }
    }
  }

  lemma GaveWayOnce(start: State, s: State, p: Proposal, k: Key, t: Registry)
    requires RowsOnce(start, s, p) && p.lesson.Practice?
    requires k in s.skills.rows && s.skills.rows[k].idempotencyKey == DraftKey(start, p)
    requires OthersGaveWay(s.skills, k, p.autoPromote, t)
    ensures RowsOnce(start, s.(skills := t), p)
  {
    var after := s.(skills := t);
    forall x | x in start.skills.rows ensures x in t.rows && RowOnce(start, after, p, x) {
      assert RowOnce(start, s, p, x);
      if LearnedVersion(start, s, p, x.0) {
        var v :| v in s.skills.rows && v.0 == x.0 && s.skills.rows[v].idempotencyKey == DraftKey(start, p);
        assert v in t.rows && LearnedVersion(start, after, p, x.0);
      }
      assert x.0 == k.0 ==> k in t.rows && LearnedVersion(start, after, p, x.0);
    }
  }

  lemma DraftRowsOnce(start: State, s: State, p: Proposal, draft: Skill)
    requires RowsOnce(start, s, p) && KeyOf(draft) !in s.skills.rows
    ensures RowsOnce(start, s.(skills := Save(s.skills, draft)), p)
  {
    var after := s.(skills := Save(s.skills, draft));
    forall x | x in start.skills.rows ensures x in after.skills.rows && RowOnce(start, after, p, x) {
      assert RowOnce(start, s, p, x);
      if LearnedVersion(start, s, p, x.0) {
        var v :| v in s.skills.rows && v.0 == x.0 && s.skills.rows[v].idempotencyKey == DraftKey(start, p);
        assert v in after.skills.rows && after.skills.rows[v] == s.skills.rows[v];
      }
    }
  }

  lemma CreateRowsOnce(start: State, s: State, p: Proposal, c: Learned)
    requires SkillsOnce(start, s, p) && RowsOnce(start, s, p) && p.lesson.Practice? && c.id == Target(start, p).id
    requires NextVersion(s.skills, p.lesson.skill.id).Ok?
    ensures var draft := DraftFor(p.lesson.skill, c, NextVersion(s.skills, p.lesson.skill.id).value);
            var (drafted, result) := CreateDraft(s.skills, draft);
            && RowsOnce(start, s.(skills := drafted), p) && KeyOf(result.value) in drafted.rows
            && drafted.rows[KeyOf(result.value)].idempotencyKey == DraftKey(start, p)
  {
    var draft := DraftFor(p.lesson.skill, c, NextVersion(s.skills, p.lesson.skill.id).value);
    FirstWithKeyFinds(s.skills.rows, s.skills.order, draft.idempotencyKey);
    var found := FirstWithKey(s.skills.rows, s.skills.order, draft.idempotencyKey);
    if found.None? {
      if KeyOf(draft) in s.skills.rows {
        ST.NextVersionIsAbove(s.skills, draft.id, draft.version);
      }
      DraftRowsOnce(start, s, p, draft.(status := Draft));
    } else {
      assert s.(skills := s.skills) == s;
    }
  }

  lemma EvaluateRowsOnce(start: State, s: State, p: Proposal, k: Key, now: int)
    requires SkillsOnce(start, s, p) && RowsOnce(start, s, p) && p.lesson.Practice?
    requires k in s.skills.rows && s.skills.rows[k].idempotencyKey == DraftKey(start, p)
    ensures RowsOnce(start, s.(skills := Evaluate(s.skills, k, p.autoPromote, now).0), p)
  {
    EvaluateRows(s.skills, k, p.autoPromote, now);
    GaveWayOnce(start, s, p, k, Evaluate(s.skills, k, p.autoPromote, now).0);
  }

  lemma MaterializeRowsOnce(start: State, s: State, p: Proposal, c: Learned, now: int, crash: nat)
    requires SkillsOnce(start, s, p) && RowsOnce(start, s, p) && c.id == Target(start, p).id
    ensures RowsOnce(start, Materialize(s, p, c, now, crash).0, p)
  {
    if p.lesson.Practice? && crash != MATERIALIZE && NextVersion(s.skills, p.lesson.skill.id).Ok?
       && !p.lesson.blankRequest {
      CreateRowsOnce(start, s, p, c);
      DraftOnce(start, s, p, c);
      var draft := DraftFor(p.lesson.skill, c, NextVersion(s.skills, p.lesson.skill.id).value);
      var (drafted, result) := CreateDraft(s.skills, draft);
      if crash == EVALUATE {
        assert Materialize(s, p, c, now, crash).0 == s.(skills := drafted);
      } else {
        EvaluateRowsOnce(start, s.(skills := drafted), p, KeyOf(result.value), now);
        assert Materialize(s, p, c, now, crash).0
            == s.(skills := Evaluate(drafted, KeyOf(result.value), p.autoPromote, now).0);
      }
    } else {
      SameSkillsOnce(start, s, Materialize(s, p, c, now, crash).0, p);
    }
  }

  /* ---------- a pass ---------- */

  lemma MaterializeMemory(start: State, s: State, p: Proposal, c: Learned, now: int, crash: nat)
    requires Sound(start) && MemoryOnce(start, s, p) && SkillsOnce(start, s, p) && p.lesson.Remember?
    requires c.id == Target(start, p).id && c.key == Target(start, p).key
    ensures var (t, settled) := Materialize(s, p, c, now, crash);
            && MemoryOnce(start, t, p) && SkillsOnce(start, t, p)
            && (settled.Ok? ==> Settled(start, t, p, settled.value))
  {
    RememberOnce(start, s, p, c, now);
  }

  lemma MaterializeSkill(start: State, s: State, p: Proposal, c: Learned, now: int, crash: nat)
    requires MemoryOnce(start, s, p) && SkillsOnce(start, s, p) && p.lesson.Practice?
    requires c.id == Target(start, p).id && c.key == Target(start, p).key
    ensures var (t, settled) := Materialize(s, p, c, now, crash);
            && MemoryOnce(start, t, p) && SkillsOnce(start, t, p)
            && (settled.Ok? ==> Settled(start, t, p, settled.value))
  {
    if crash != MATERIALIZE && NextVersion(s.skills, p.lesson.skill.id).Ok? && !p.lesson.blankRequest {
      if crash == EVALUATE {
        DraftOnce(start, s, p, c);
      } else {
        EvaluateOnce(start, s, p, c, now);
      }
    }
  }

  lemma MaterializeOnce(start: State, s: State, p: Proposal, c: Learned, now: int, crash: nat)
    requires Sound(start) && MemoryOnce(start, s, p) && SkillsOnce(start, s, p)
    requires c.id == Target(start, p).id && c.key == Target(start, p).key
    ensures var (t, settled) := Materialize(s, p, c, now, crash);
            && MemoryOnce(start, t, p) && SkillsOnce(start, t, p)
            && (settled.Ok? ==> Settled(start, t, p, settled.value))
  {
    if p.lesson.Remember? {
      MaterializeMemory(start, s, p, c, now, crash);
    } else if p.lesson.Practice? {
      MaterializeSkill(start, s, p, c, now, crash);
    }
  }

  lemma EvaluateOnce(start: State, s: State, p: Proposal, c: Learned, now: int)
    requires SkillsOnce(start, s, p) && p.lesson.Practice? && c.id == Target(start, p).id
    requires NextVersion(s.skills, p.lesson.skill.id).Ok?
    ensures var draft := DraftFor(p.lesson.skill, c, NextVersion(s.skills, p.lesson.skill.id).value);
            var (drafted, saved) := CreateDraft(s.skills, draft);
            var (evaluated, result) := Evaluate(drafted, KeyOf(saved.value), p.autoPromote, now);
            && SkillsOnce(start, s.(skills := evaluated), p)
            && (result.Ok? ==> KeyOf(result.value) in evaluated.rows
                               && evaluated.rows[KeyOf(result.value)].evaluationId.Some?)
  {
    DraftOnce(start, s, p, c);
    var draft := DraftFor(p.lesson.skill, c, NextVersion(s.skills, p.lesson.skill.id).value);
    var (drafted, saved) := CreateDraft(s.skills, draft);
    EvaluateKeepsKeys(drafted, KeyOf(saved.value), p.autoPromote, now);
  }

  /** The job itself plays no part in what is stored. */
  lemma JobDoesNotMatter(start: State, s: State, p: Proposal, job: Job)
    requires StoredOnce(start, s, p)
    ensures StoredOnce(start, s.(job := job), p)
    ensures IsSettled(start, s, p) ==> IsSettled(start, s.(job := job), p)
  {
  }

  lemma HandledOnce(start: State, s: State, p: Proposal, job: Job, now: int)
    requires StoredOnce(start, s, p)
    ensures Once(start, Handle(s, job, now), p)
  {
    JobDoesNotMatter(start, s, p, Handle(s, job, now).job);
  }

  lemma CandidateOnce(start: State, s: State, p: Proposal)
    requires StoredOnce(start, s, p)
    ensures StoredOnce(start, WithCandidate(s, p), p)
    ensures Find(s.learned, p) == Find(start.learned, p) < |WithCandidate(s, p).learned|
  {
    TargetIsFound(start, s, p);
  }

  /** Materialising a fresh candidate, stored or not, and then storing what became of it. */
  lemma MadeOnce(start: State, s: State, p: Proposal, now: int, crash: nat)
    requires Sound(start) && StoredOnce(start, s, p)
    requires Find(start.learned, p) < |s.learned| && s.learned[Find(start.learned, p)].status == Fresh
    ensures var i := Find(start.learned, p);
            var (t, settled) := Materialize(s, p, s.learned[i], now, crash);
            && StoredOnce(start, t, p) && t.learned == s.learned
            && (settled.Ok? ==> StoredOnce(start, t.(learned := t.learned[i := settled.value]), p)
                                && settled.value.status != Fresh)
  {
    var i := Find(start.learned, p);
    MaterializeOnce(start, s, p, s.learned[i], now, crash);
    RT.MaterializeKeepsJob(s, p, s.learned[i], now, crash);
    var (t, settled) := Materialize(s, p, s.learned[i], now, crash);
    assert StoredOnce(start, t, p);
    if settled.Ok? {
      var stored := t.(learned := t.learned[i := settled.value]);
      assert LearnedOnce(start, stored, p);
      assert Settled(start, stored, p, settled.value);
    }
  }

  /** The rest of a pass, once it has a settled candidate to store. */
  lemma StoringOnce(start: State, made: State, p: Proposal, settled: Learned, job: Job, running: Job, now: int)
    requires StoredOnce(start, made, p) && Find(start.learned, p) < |made.learned|
    requires StoredOnce(start, made.(learned := made.learned[Find(start.learned, p) := settled]), p)
    requires settled.status != Fresh && job.status != Completed
    ensures var stored := made.(learned := made.learned[Find(start.learned, p) := settled]);
            var done := stored.(job := running.(status := Completed, candidateIds := [settled.id]));
            && Once(start, Handle(made, job, now), p) && Once(start, Handle(stored, job, now), p)
            && Once(start, Handle(done, job, now), p) && Once(start, done, p)
  {
    var stored := made.(learned := made.learned[Find(start.learned, p) := settled]);
    var done := stored.(job := running.(status := Completed, candidateIds := [settled.id]));
    HandledOnce(start, made, p, job, now);
    HandledOnce(start, stored, p, job, now);
    JobDoesNotMatter(start, stored, p, done.job);
    HandledOnce(start, done, p, job, now);
  }

  lemma PassOnce(start: State, s: State, p: Proposal, now: int, crash: nat)
    requires Sound(start) && Once(start, s, p) && s.job.status != Completed
    ensures Once(start, Pass(s, p, now, crash).0, p)
  {
    var i := Find(s.learned, p);
    var running := s.(job := s.job.(status := Running));
    JobDoesNotMatter(start, s, p, running.job);
    HandledOnce(start, running, p, s.job, now);
    CandidateOnce(start, running, p);
    var found := WithCandidate(running, p);
    var c := found.learned[i];
    if c.status == Fresh {
      MadeOnce(start, found, p, now, crash);
      var (made, settled) := Materialize(found, p, c, now, crash);
      if settled.Ok? {
        StoringOnce(start, made, p, settled.value, s.job, running.job, now);
        PassIsOneOf(s, p, now, crash, made, settled.value);
      } else {
        HandledOnce(start, made, p, s.job, now);
        PassStops(s, p, now, crash);
      }
    } else {
      assert found.(learned := found.learned[i := c]) == found;
      StoringOnce(start, found, p, c, s.job, running.job, now);
      PassIsOneOf(s, p, now, crash, found, c);
    }
  }

  lemma PassIsOneOf(s: State, p: Proposal, now: int, crash: nat, made: State, settled: Learned)
    requires var i, found := Find(s.learned, p), WithCandidate(s.(job := s.job.(status := Running)), p);
             var c := found.learned[i];
             (made, Ok(settled)) == if c.status == Fresh then Materialize(found, p, c, now, crash) else (found, Ok(c))
    ensures var i, running := Find(s.learned, p), s.(job := s.job.(status := Running));
            var stored := made.(learned := made.learned[i := settled]);
            var done := stored.(job := running.job.(status := Completed, candidateIds := [settled.id]));
            Pass(s, p, now, crash).0 in {Handle(running, s.job, now), Handle(made, s.job, now),
                                         Handle(stored, s.job, now), Handle(done, s.job, now), done}
  {
    var found := WithCandidate(s.(job := s.job.(status := Running)), p);
    RT.MaterializeKeepsJob(found, p, found.learned[Find(s.learned, p)], now, crash);
  }

  lemma PassStops(s: State, p: Proposal, now: int, crash: nat)
    requires var i, found := Find(s.learned, p), WithCandidate(s.(job := s.job.(status := Running)), p);
             found.learned[i].status == Fresh && Materialize(found, p, found.learned[i], now, crash).1.Err?
    ensures var i, running := Find(s.learned, p), s.(job := s.job.(status := Running));
            var found := WithCandidate(running, p);
            Pass(s, p, now, crash).0 in {Handle(running, s.job, now),
                                         Handle(Materialize(found, p, found.learned[i], now, crash).0, s.job, now)}
  {
  }

  lemma {:induction false} WorkOnce(start: State, p: Proposal, ticks: seq<Tick>)
    requires Sound(start) && start.job.status == Pending
    ensures Once(start, WorkAll(start, p, ticks), p)
  {
    if ticks != [] {
      WorkOnce(start, p, ticks[..|ticks| - 1]);
      var before, t := WorkAll(start, p, ticks[..|ticks| - 1]), ticks[|ticks| - 1];
      if Due(before.job, t.now) {
        PassOnce(start, before, p, t.now, t.crash);
      }
    }
  }

  /** A pass leaves the skills alone or materialises the candidate. */
  lemma PassSkills(s: State, p: Proposal, now: int, crash: nat)
    ensures var found := WithCandidate(s.(job := s.job.(status := Running)), p);
            || Pass(s, p, now, crash).0.skills == s.skills
            || (found.learned[Find(s.learned, p)].status == Fresh
                && Pass(s, p, now, crash).0.skills
                   == Materialize(found, p, found.learned[Find(s.learned, p)], now, crash).0.skills)
  {
  }

  lemma PassRowsOnce(start: State, s: State, p: Proposal, now: int, crash: nat)
    requires Sound(start) && Once(start, s, p) && RowsOnce(start, s, p)
    ensures RowsOnce(start, Pass(s, p, now, crash).0, p)
  {
    var i, running := Find(s.learned, p), s.(job := s.job.(status := Running));
    JobDoesNotMatter(start, s, p, running.job);
    CandidateOnce(start, running, p);
    var found := WithCandidate(running, p);
    PassSkills(s, p, now, crash);
    MaterializeRowsOnce(start, found, p, found.learned[i], now, crash);
    SameSkillsOnce(start, s, Pass(s, p, now, crash).0, p);
    SameSkillsOnce(start, Materialize(found, p, found.learned[i], now, crash).0, Pass(s, p, now, crash).0, p);
    SameSkillsOnce(start, s, found, p);
  }

  lemma SameSkillsOnce(start: State, a: State, b: State, p: Proposal)
    ensures a.skills == b.skills && RowsOnce(start, a, p) ==> RowsOnce(start, b, p)
  {
    if a.skills == b.skills && RowsOnce(start, a, p) {
      forall k | k in start.skills.rows ensures k in b.skills.rows && RowOnce(start, b, p, k) {
        assert RowOnce(start, a, p, k);
        assert LearnedVersion(start, a, p, k.0) ==> LearnedVersion(start, b, p, k.0);
      }
    }
  }

  lemma {:induction false} WorkRowsOnce(start: State, p: Proposal, ticks: seq<Tick>)
    requires Sound(start) && start.job.status == Pending
    ensures RowsOnce(start, WorkAll(start, p, ticks), p)
  {
    if ticks != [] {
      var front, t := ticks[..|ticks| - 1], ticks[|ticks| - 1];
      WorkRowsOnce(start, p, front);
      WorkOnce(start, p, front);
      if Due(WorkAll(start, p, front).job, t.now) {
        PassRowsOnce(start, WorkAll(start, p, front), p, t.now, t.crash);
      }
    }
  }

  /** What the creation of a memory adds: nothing, or one row under the given id. */
  lemma CreationAddsAtMostOne(r: MM.Repo, m: MM.Memory)
    ensures MM.CreateCandidate(r, m).0.rows.Keys <= r.rows.Keys + {m.id}
    ensures forall id :: id in r.rows && id != m.id ==>
              id in MM.CreateCandidate(r, m).0.rows && MM.CreateCandidate(r, m).0.rows[id] == r.rows[id]
  {
  }

  /**
   After any interrupted passes the worker has added at most one candidate, one memory (under
   the target's id) and one skill version. All other candidates and memories are as they were,
   and of the skill versions that were there only the target's own draft may have changed and,
   where drafts are promoted at once, active versions that gave way to it. If the job is
   completed its candidate is settled and refers to an existing record.
   */
  lemma ExactlyOnce(start: State, p: Proposal, ticks: seq<Tick>)
    requires Sound(start) && start.job.status == Pending
    ensures var s := WorkAll(start, p, ticks);
            var i, memoryId := Find(start.learned, p), "memory_" + Target(start, p).id;
            && |start.learned| <= |s.learned| <= |start.learned| + 1
            && (forall j :: 0 <= j < |start.learned| && j != i ==> s.learned[j] == start.learned[j])
            && RowsOnce(start, s, p)
            && s.memory.rows.Keys <= start.memory.rows.Keys + {memoryId}
            && (forall id :: id in start.memory.rows && id != memoryId ==>
                  id in s.memory.rows && s.memory.rows[id] == start.memory.rows[id])
            && start.skills.rows.Keys <= s.skills.rows.Keys
            && (forall a, b | a in s.skills.rows && b in s.skills.rows
                              && a !in start.skills.rows && b !in start.skills.rows :: a == b)
            && (s.job.status == Completed ==>
                  && i < |s.learned| && s.learned[i].status != Fresh
                  && (Target(start, p).status == Fresh ==> Settled(start, s, p, s.learned[i])))
  {
    WorkOnce(start, p, ticks);
    WorkRowsOnce(start, p, ticks);
    var s := WorkAll(start, p, ticks);
    if s.memory != start.memory {
      var at :| s.memory == MM.CreateCandidate(start.memory, MemoryFor(p.lesson.memory, Target(start, p), at)).0;
      CreationAddsAtMostOne(start.memory, MemoryFor(p.lesson.memory, Target(start, p), at));
    }
  }
}
