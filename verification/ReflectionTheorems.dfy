/**
 A reflection job ends after a bounded number of failed passes, and however often it is
 interrupted it leaves one candidate and one memory or one skill draft.
 */
module ReflectionTheorems {
  import opened Wrappers
  import opened MM = MemoryModel
  import SkillModel
  import opened ReflectionModel

  /* ---------- the job ends ---------- */

  predicate Ended(job: Job) {
    job.status == Completed || job.status == Failed
  }

  /** Between passes the job waits or has ended, and failures are counted up to the limit. */
  ghost predicate JobOk(job: Job) {
    && job.maxAttempts >= 1
    && job.attempts <= job.maxAttempts
    && (job.status == Pending || job.status == RetryScheduled ==> job.attempts < job.maxAttempts)
    && (job.status == Failed ==> job.attempts == job.maxAttempts)
    && job.status != Running
  }

  lemma MaterializeKeepsJob(s: State, p: Proposal, c: Learned, now: int, crash: nat)
    ensures var (t, settled) := Materialize(s, p, c, now, crash);
            && t.job == s.job && t.learned == s.learned
            && (settled.Ok? ==> settled.value.id == c.id && settled.value.key == c.key
                                && settled.value.fingerprint == c.fingerprint && settled.value.status != Fresh)
  {
  }

  lemma PassCountsFailures(s: State, p: Proposal, now: int, crash: nat)
    requires JobOk(s.job) && !Ended(s.job)
    ensures var (t, ok) := Pass(s, p, now, crash);
            && JobOk(t.job) && t.job.maxAttempts == s.job.maxAttempts
            && t.job.attempts == s.job.attempts + (if ok then 0 else 1)
            && (t.job.status == Completed <==> ok)
            && (t.job.status == Failed <==> !ok && t.job.attempts == t.job.maxAttempts)
  {
    var i := Find(s.learned, p);
    var running := s.(job := s.job.(status := Running));
    var found := WithCandidate(running, p);
    MaterializeKeepsJob(found, p, found.learned[i], now, crash);
  }

  /** How many of the ticks ran a pass that failed. */
  function FailedPasses(s: State, p: Proposal, ticks: seq<Tick>): nat {
    if ticks == [] then 0
    else
      var before := WorkAll(s, p, ticks[..|ticks| - 1]);
      var t := ticks[|ticks| - 1];
      FailedPasses(s, p, ticks[..|ticks| - 1])
      + if Due(before.job, t.now) && !Pass(before, p, t.now, t.crash).1 then 1 else 0
  }

  /**
   Whatever the schedule and the interruptions, a new job fails at most `max_attempts`
   passes, and it has failed for good exactly when it has used them up; an ended job is never
   picked up again.
   */
  lemma {:induction false} JobEnds(s: State, p: Proposal, ticks: seq<Tick>)
    requires s.job.status == Pending && s.job.attempts == 0 && s.job.maxAttempts >= 1
    ensures var t := WorkAll(s, p, ticks);
            && JobOk(t.job) && t.job.maxAttempts == s.job.maxAttempts
            && t.job.attempts == FailedPasses(s, p, ticks) <= s.job.maxAttempts
            && (t.job.status == Failed <==> t.job.attempts == t.job.maxAttempts)
            && (Ended(t.job) ==> forall now :: !Due(t.job, now))
  {
    if ticks != [] {
      var front, t := ticks[..|ticks| - 1], ticks[|ticks| - 1];
      JobEnds(s, p, front);
      var before := WorkAll(s, p, front);
      if Due(before.job, t.now) {
        PassCountsFailures(before, p, t.now, t.crash);
      }
    }
  }

  /**
   A process that dies during a pass, so that the handler does not run, leaves the job where
   no later run of the worker picks it up: running for ever, unless its completion was stored.
   */
  lemma {:induction false} DeathIsFinal(s: State, p: Proposal, now: int, crash: nat, ticks: seq<Tick>)
    requires s.job.status == Running
    ensures var t := Try(s, p, now, crash).0;
            && (t.job.status == Running || t.job.status == Completed)
            && (t.job.status == Completed ==> Try(s, p, now, crash).1 || crash == PUBLISH)
            && WorkAll(t, p, ticks) == t
  {
    var found := WithCandidate(s, p);
    MaterializeKeepsJob(found, p, found.learned[Find(s.learned, p)], now, crash);
    if ticks != [] {
      DeathIsFinal(s, p, now, crash, ticks[..|ticks| - 1]);
    }
  }

  /* ---------- creating a memory twice ---------- */

  /** The same request: what `create_candidate` compares, whatever the time of the attempt. */
  predicate Repeats(a: Memory, b: Memory) {
    && a.idempotencyKey == b.idempotencyKey && a.scope == b.scope
    && a.content == b.content && a.contentHash == b.contentHash
    && a.sourceTraceIds == b.sourceTraceIds && a.evidenceIds == b.evidenceIds
  }

  lemma {:induction false} FirstFinds(rows: map<string, Memory>, order: seq<string>, p: Memory -> bool)
    ensures var found := First(rows, order, p);
            && (found.Some? <==> exists id :: id in order && id in rows && p(rows[id]))
            && (found.Some? ==> p(found.value) && exists id :: id in order && id in rows && rows[id] == found.value)
  {
    if order != [] {
      FirstFinds(rows, order[1..], p);
      assert order == [order[0]] + order[1..];
    }
  }

  lemma {:induction false} FirstAgrees(rows: map<string, Memory>, order: seq<string>,
                                      p: Memory -> bool, q: Memory -> bool)
    requires forall m :: p(m) == q(m)
    ensures First(rows, order, p) == First(rows, order, q)
  {
    if order != [] {
      FirstAgrees(rows, order[1..], p, q);
    }
  }

  lemma {:induction false} FirstIsTheOnly(rows: map<string, Memory>, order: seq<string>, p: Memory -> bool, id: string)
    requires id in order && id in rows && p(rows[id])
    requires forall x :: x in order && x in rows && p(rows[x]) ==> x == id
    ensures First(rows, order, p) == Some(rows[id])
  {
    assert order == [order[0]] + order[1..];
    if order[0] != id {
      FirstIsTheOnly(rows, order[1..], p, id);
    }
  }

  /**
   Creating a memory under an idempotency key is idempotent: a second request stores nothing
   and returns what the first one returned, error included.
   */
  lemma CreateTwice(r: MM.Repo, a: Memory, b: Memory)
    requires RepoOk(r) && Repeats(a, b) && a.idempotencyKey != ""
    ensures RepoOk(CreateCandidate(r, a).0)
    ensures CreateCandidate(CreateCandidate(r, a).0, b) == CreateCandidate(r, a)
  {
    var asksA, asksB := (existing: Memory) => SameRequest(existing, a), (existing: Memory) => SameRequest(existing, b);
    FirstAgrees(r.rows, r.order, asksA, asksB);
    if !LacksProvenance(a) && First(r.rows, r.order, asksA).None? {
      var ma := a.(contentHash := HashOf(a), status := Candidate);
      var mb := b.(contentHash := HashOf(b), status := Candidate);
      var dupA, dupB := (existing: Memory) => Duplicate(existing, ma), (existing: Memory) => Duplicate(existing, mb);
      FirstAgrees(r.rows, r.order, dupA, dupB);
      if First(r.rows, r.order, dupA).None? {
        StoredIsFound(r, a, b);
      }
    }
  }

  /** Once stored, the record is the one that its key finds. */
  lemma StoredIsFound(r: MM.Repo, a: Memory, b: Memory)
    requires RepoOk(r) && Repeats(a, b) && a.idempotencyKey != ""
    requires First(r.rows, r.order, (existing: Memory) => SameRequest(existing, a)).None?
    ensures var stored := NewCandidate(r, a.(contentHash := HashOf(a), status := Candidate));
            RepoOk(Put(r, stored))
            && First(Put(r, stored).rows, Put(r, stored).order, (existing: Memory) => SameRequest(existing, b))
               == Some(stored)
  {
    var stored := NewCandidate(r, a.(contentHash := HashOf(a), status := Candidate));
    var t := Put(r, stored);
    FirstFinds(r.rows, r.order, (existing: Memory) => SameRequest(existing, a));
    assert SameRequest(stored, b);
    forall x | x in t.order && x in t.rows && SameRequest(t.rows[x], b) ensures x == stored.id {
      assert x != stored.id ==> x in r.order && SameRequest(r.rows[x], a);
    }
    FirstIsTheOnly(t.rows, t.order, (existing: Memory) => SameRequest(existing, b), stored.id);
  }
}
