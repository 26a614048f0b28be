/**
 One reflection job and its worker. A pass of `_process` may be cut short by an exception
 at any step; the handler then schedules a retry or gives up. The pass writes to the
 learning candidates, to the memory service and to the skill service, which are the models
 of the other modules.
 */
module ReflectionModel {
  import opened Wrappers
  import MemoryModel
  import SkillModel

  datatype JobStatus = Pending | Running | RetryScheduled | Completed | Failed

  datatype Job = Job(
    status: JobStatus,
    attempts: nat,
    maxAttempts: nat,
    nextAttemptAt: Option<int>,
    candidateIds: seq<string>)

  datatype CandidateStatus = Fresh | Materialized | Approved | Rejected

  /** A learning candidate; the fingerprint stands for its proposal hash, category and scope. */
  datatype Learned = Learned(
    id: string,
    key: string,
    fingerprint: string,
    status: CandidateStatus,
    ref: Option<Ref>)

  datatype Ref = MemoryRef(id: string) | SkillRef(key: SkillModel.Key)

  /** What the classifier makes of the job's traces; the traces are fixed, so this is too. */
  datatype Lesson =
    | NoLearning
    | Remember(memory: MemoryModel.Memory)
    | Practice(skill: SkillModel.Skill, blankRequest: bool)

  /** The candidate that the job proposes, and its lesson. */
  datatype Proposal = Proposal(id: string, key: string, fingerprint: string, lesson: Lesson, autoPromote: bool)

  datatype State = State(
    job: Job,
    learned: seq<Learned>,
    memory: MemoryModel.Repo,
    skills: SkillModel.Registry)

  /** Steps of a pass; an exception may strike just before each. */
  const CLASSIFY: nat := 1
  const LOOKUP: nat := 2
  const UPSERT: nat := 3
  const MATERIALIZE: nat := 4
  const EVALUATE: nat := 5
  const SETTLE: nat := 6
  const COMPLETE: nat := 7
  const PUBLISH: nat := 8

  /** The first candidate with the proposal's key or fingerprint, or the length. */
  function Find(learned: seq<Learned>, p: Proposal): (i: nat)
    ensures i <= |learned|
    ensures i < |learned| ==> learned[i].key == p.key || learned[i].fingerprint == p.fingerprint
    ensures forall j :: 0 <= j < i ==> learned[j].key != p.key && learned[j].fingerprint != p.fingerprint
  {
    if learned == [] then 0
    else if learned[0].key == p.key || learned[0].fingerprint == p.fingerprint then 0
    else 1 + Find(learned[1..], p)
  }

  /** The memory that a candidate becomes; its id and idempotency key come from the candidate. */
  function MemoryFor(template: MemoryModel.Memory, c: Learned, now: int): MemoryModel.Memory {
    template.(id := "memory_" + c.id, idempotencyKey := "memory:" + c.key, createdAt := now)
  }

  function DraftFor(template: SkillModel.Skill, c: Learned, version: SkillModel.Version): SkillModel.Skill {
    template.(version := version, idempotencyKey := SkillModel.Given("skill:" + c.id))
  }

  /** `_materialize`, cut short before step `crash`. */
  function Materialize(s: State, p: Proposal, c: Learned, now: int, crash: nat): (State, Result<Learned>) {
    match p.lesson
    case NoLearning => (s, Ok(c.(status := Rejected)))
    case Remember(template) =>
      if crash == MATERIALIZE then (s, Err("crash"))
      else
        var (repo, result) := MemoryModel.CreateCandidate(s.memory, MemoryFor(template, c, now));
        (s.(memory := repo),
         if result.Err? then Err(result.error)
         else Ok(c.(status := Materialized, ref := Some(MemoryRef(result.value.id)))))
    case Practice(template, blank) =>
      var version := SkillModel.NextVersion(s.skills, template.id);
      if crash == MATERIALIZE then (s, Err("crash"))
      else if version.Err? then (s, Err(version.error))
      else if blank then (s, Err("skill_request_required"))
      else
        var (drafted, draft) := SkillModel.CreateDraft(s.skills, DraftFor(template, c, version.value));
        if crash == EVALUATE then (s.(skills := drafted), Err("crash"))
        else
          var (evaluated, result) := SkillModel.Evaluate(drafted, SkillModel.KeyOf(draft.value), p.autoPromote, now);
          (s.(skills := evaluated),
           if result.Err? then Err(result.error)
           else Ok(c.(status := Materialized, ref := Some(SkillRef(SkillModel.KeyOf(result.value))))))
  }

  /** The exception handler: retry later, or fail for good. */
  function Handle(s: State, job: Job, now: int): State {
    var attempts := job.attempts + 1;
    var retry := attempts < job.maxAttempts;
    s.(job := job.(
      status := if retry then RetryScheduled else Failed,
      attempts := attempts,
      nextAttemptAt := if retry then Some(now + Pow2(attempts)) else None))
  }

  function Pow2(n: nat): nat {
    if n == 0 then 1 else 2 * Pow2(n - 1)
  }

  /** The existing candidate is used, or the proposed one is stored. */
  function WithCandidate(s: State, p: Proposal): State {
    if Find(s.learned, p) < |s.learned| then s
    else s.(learned := s.learned + [Learned(p.id, p.key, p.fingerprint, Fresh, None)])
  }

  /** The `try` of `_process` on a job that is marked running: how far it comes, and whether it comes through. */
  function Try(s: State, p: Proposal, now: int, crash: nat): (State, bool) {
    var i := Find(s.learned, p);
    if crash == CLASSIFY || crash == LOOKUP || (i == |s.learned| && crash == UPSERT) then (s, false)
    else
      var found := WithCandidate(s, p);
      var c := found.learned[i];
      var (made, settled) := if c.status == Fresh then Materialize(found, p, c, now, crash) else (found, Ok(c));
      if settled.Err? || crash == SETTLE then (made, false)
      else
        var stored := made.(learned := made.learned[i := settled.value]);
        if crash == COMPLETE then (stored, false)
        else (stored.(job := s.job.(status := Completed, candidateIds := [settled.value.id])), crash != PUBLISH)
  }

  /** `_process`. The result tells whether the pass completed. */
  function Pass(s: State, p: Proposal, now: int, crash: nat): (State, bool) {
    var (t, ok) := Try(s.(job := s.job.(status := Running)), p, now, crash);
    if ok then (t, true) else (Handle(t, s.job, now), false)
  }

  /** Whether `run_pending` picks the job up. */
  predicate Due(job: Job, now: int) {
    job.status == Pending
    || (job.status == RetryScheduled && (job.nextAttemptAt.Some? ==> job.nextAttemptAt.value <= now))
  }

  /** One run of the worker at a time and with a crash point (0 for none). */
  datatype Tick = Tick(now: int, crash: nat)

  function Work(s: State, p: Proposal, t: Tick): State {
    if Due(s.job, t.now) then Pass(s, p, t.now, t.crash).0 else s
  }

  function WorkAll(s: State, p: Proposal, ticks: seq<Tick>): State {
    if ticks == [] then s else Work(WorkAll(s, p, ticks[..|ticks| - 1]), p, ticks[|ticks| - 1])
  }
}
