/** The worker's pass as it updates its repositories, with an exception at a given step. */
module ReflectionService {
  import opened Wrappers
  import MemoryModel
  import SkillModel
  import opened ReflectionModel

  class Service {
    var job: Job
    var learned: seq<Learned>
    var memory: MemoryModel.Repo
    var skills: SkillModel.Registry

    function Model(): State
      reads this
    {
      State(job, learned, memory, skills)
    }

    constructor (s: State)
      ensures Model() == s
    {
      job, learned, memory, skills := s.job, s.learned, s.memory, s.skills;
    }

    /** `_materialize` writes to one of the two services. */
    method MaterializeCandidate(p: Proposal, c: Learned, now: int, crash: nat) returns (settled: Result<Learned>)
      modifies `memory, `skills
      ensures (Model(), settled) == Materialize(old(Model()), p, c, now, crash)
    {
      match p.lesson
      case NoLearning =>
        return Ok(c.(status := Rejected));
      case Remember(template) =>
        if crash == MATERIALIZE {
          return Err("crash");
        }
        var (repo, result) := MemoryModel.CreateCandidate(memory, MemoryFor(template, c, now));
        memory := repo;
        if result.Err? {
          return Err(result.error);
        }
        return Ok(c.(status := Materialized, ref := Some(MemoryRef(result.value.id))));
      case Practice(template, blank) =>
        if crash == MATERIALIZE {
          return Err("crash");
        }
        var version := SkillModel.NextVersion(skills, template.id);
        if version.Err? {
          return Err(version.error);
        }
        if blank {
          return Err("skill_request_required");
        }
        var (drafted, draft) := SkillModel.CreateDraft(skills, DraftFor(template, c, version.value));
        skills := drafted;
        if crash == EVALUATE {
          return Err("crash");
        }
        var (evaluated, result) := SkillModel.Evaluate(skills, SkillModel.KeyOf(draft.value), p.autoPromote, now);
        skills := evaluated;
        if result.Err? {
          return Err(result.error);
        }
        return Ok(c.(status := Materialized, ref := Some(SkillRef(SkillModel.KeyOf(result.value)))));
    }

    /** The body of `_process`'s `try`; false means that it raised. */
    method Attempt(p: Proposal, now: int, crash: nat) returns (ok: bool)
      modifies this
      ensures (Model(), ok) == Try(old(Model()), p, now, crash)
    {
      if crash == CLASSIFY || crash == LOOKUP {
        return false;
      }
      var i := Find(learned, p);
      if i == |learned| {
        if crash == UPSERT {
          return false;
        }
        learned := learned + [Learned(p.id, p.key, p.fingerprint, Fresh, None)];
      }
      var candidate := learned[i];
      if candidate.status == Fresh {
        var settled := MaterializeCandidate(p, candidate, now, crash);
        if settled.Err? {
          return false;
        }
        candidate := settled.value;
      }
      if crash == SETTLE {
        return false;
      }
      learned := learned[i := candidate];
      if crash == COMPLETE {
        return false;
      }
      job := job.(status := Completed, candidateIds := [candidate.id]);
      return crash != PUBLISH;
    }

    /** `_process`. */
    method Process(p: Proposal, now: int, crash: nat) returns (ok: bool)
      modifies this
      ensures (Model(), ok) == Pass(old(Model()), p, now, crash)
    {
      var before := job;
      job := job.(status := Running);
      ok := Attempt(p, now, crash);
      if !ok {
        var attempts := before.attempts + 1;
        var retryable := attempts < before.maxAttempts;
        job := before.(
          status := if retryable then RetryScheduled else Failed,
          attempts := attempts,
          nextAttemptAt := if retryable then Some(now + Pow2(attempts)) else None);
      }
    }
  }
}
