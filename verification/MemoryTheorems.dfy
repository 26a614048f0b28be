/**
 Invariants of every run of memory operations in which ids are never reused and new records
 carry no supersession link of their own.
 */
module MemoryTheorems {
  import opened Wrappers
  import opened MemoryModel

  datatype Op =
    | CreateOp(m: Memory)
    | ValidateOp(id: string, actor: string, reason: string)
    | PromoteOp(id: string, actor: string, reason: string, now: int)
    | ResolveOp(id: string, target: string, actor: string, reason: string)
    | RollbackOp(id: string, actor: string, reason: string, now: int)
    | ExpireOp(id: string, now: int)
    | RejectOp(id: string)
    | DeleteOp(id: string)
    | SearchOp(hits: seq<string>, q: Query)

  /** `born` numbers the ids in the order in which they were first stored. */
  datatype State = State(repo: Repo, born: map<string, nat>)

  function Apply(r: Repo, op: Op): Repo {
    match op
    case CreateOp(m) => CreateCandidate(r, m).0
    case ValidateOp(id, actor, reason) => Validate(r, id, actor, reason).0
    case PromoteOp(id, actor, reason, now) => Promote(r, id, actor, reason, now).0
    case ResolveOp(id, target, actor, reason) => ResolveConflict(r, id, target, actor, reason).0
    case RollbackOp(id, actor, reason, now) => Rollback(r, id, actor, reason, now).0
    case ExpireOp(id, now) => Expire(r, id, now).0
    case RejectOp(id) => Reject(r, id).0
    case DeleteOp(id) => Delete(r, id)
    case SearchOp(hits, q) => RecallAll(r, hits, q)
  }

  function Step(s: State, op: Op): State {
    var r := Apply(s.repo, op);
    State(r, if op.CreateOp? && op.m.id in r.rows && op.m.id !in s.born then s.born[op.m.id := |s.born|] else s.born)
  }

  function Play(ops: seq<Op>): State {
    if ops == [] then State(EMPTY, map[]) else Step(Play(ops[..|ops| - 1]), ops[|ops| - 1])
  }

  /** A new record has an unused id and brings no supersession link. */
  predicate Legal(s: State, op: Op) {
    op.CreateOp? ==> op.m.id !in s.born && op.m.supersedes == ""
  }

  ghost predicate LegalRun(ops: seq<Op>) {
    forall i :: 0 <= i < |ops| ==> Legal(Play(ops[..i]), ops[i])
  }

  /* ---------- the invariant ---------- */

  ghost predicate UniqueActive(r: Repo) {
    forall a, b | a in r.rows && b in r.rows && r.rows[a].status == Active && r.rows[b].status == Active
                  && SameFact(r.rows[a], r.rows[b]) :: a == b
  }

  /** `prior` was stored before `m` and, if it still exists, states the fact of `m`. */
  ghost predicate Precedes(s: State, m: Memory, prior: string) {
    && m.factKey != ""
    && prior in s.born && m.id in s.born && s.born[prior] < s.born[m.id]
    && (prior in s.repo.rows ==> SameFact(s.repo.rows[prior], m))
  }

  ghost predicate LinksOk(s: State) {
    forall id :: id in s.repo.rows ==>
      && (s.repo.rows[id].supersedes != "" ==> Precedes(s, s.repo.rows[id], s.repo.rows[id].supersedes))
      && (s.repo.rows[id].status == Conflicted ==>
            forall c :: c in s.repo.rows[id].conflictsWith ==> Precedes(s, s.repo.rows[id], c))
  }

  ghost predicate BornOk(s: State) {
    && (forall id :: id in s.repo.rows ==> id in s.born)
    && (forall id :: id in s.born ==> s.born[id] < |s.born|)
  }

  ghost predicate Inv(s: State) {
    RepoOk(s.repo) && BornOk(s) && UniqueActive(s.repo) && LinksOk(s)
  }

  /** `b` is `a` with another status, dates or history: nothing that the invariant compares. */
  ghost predicate SameIdentity(a: Memory, b: Memory) {
    a.id == b.id && a.scope == b.scope && a.factKey == b.factKey && a.conflictsWith == b.conflictsWith
  }

  /** No other active memory states the fact of `m`. */
  ghost predicate NoRival(r: Repo, m: Memory) {
    forall x :: x in r.rows && x != m.id && r.rows[x].status == Active ==> !SameFact(r.rows[x], m)
  }

  lemma NoRivalIffNone(r: Repo, m: Memory)
    ensures NoRival(r, m) <==> ActiveRivals(r, m) == {}
  {
    assert forall x :: x in ActiveRivals(r, m)
             <==> x in r.rows && x != m.id && r.rows[x].status == Active && SameFact(r.rows[x], m);
    if ActiveRivals(r, m) != {} {
      var x :| x in ActiveRivals(r, m);
    }
  }

  /**
   Rewriting one row keeps the invariant if its identity stays, it becomes active only
   without a rival, a new link precedes it, and it does not turn conflicted.
   */
  lemma RewriteKeepsInv(s: State, m: Memory)
    requires Inv(s) && m.id in s.repo.rows && SameIdentity(s.repo.rows[m.id], m)
    requires m.status == Active && s.repo.rows[m.id].status != Active ==> NoRival(s.repo, m)
    requires m.supersedes == s.repo.rows[m.id].supersedes || Precedes(s, m, m.supersedes)
    requires m.status == Conflicted ==> s.repo.rows[m.id].status == Conflicted
    ensures Inv(State(Put(s.repo, m), s.born))
  {
    var t := State(Put(s.repo, m), s.born);
    assert forall id :: id in t.repo.rows ==> id in s.repo.rows && SameIdentity(s.repo.rows[id], t.repo.rows[id]);
    forall id, prior | id in s.repo.rows && Precedes(s, s.repo.rows[id], prior)
      ensures Precedes(t, t.repo.rows[id], prior)
    {
    }
    UniqueAfterRewrite(s.repo, m);
  }

  lemma UniqueAfterRewrite(r: Repo, m: Memory)
    requires RepoOk(r) && UniqueActive(r) && m.id in r.rows && SameIdentity(r.rows[m.id], m)
    requires m.status == Active && r.rows[m.id].status != Active ==> NoRival(r, m)
    ensures UniqueActive(Put(r, m))
  {
  }

  /** Storing a new row under a new id keeps the invariant. */
  lemma InsertKeepsInv(s: State, m: Memory)
    requires Inv(s) && m.id !in s.born && m.id !in s.repo.rows
    requires m.supersedes == "" && (m.status == Candidate || m.status == Conflicted)
    requires forall c :: c in m.conflictsWith && m.status == Conflicted
               ==> m.factKey != "" && c in s.repo.rows && SameFact(s.repo.rows[c], m)
    ensures Inv(State(Put(s.repo, m), s.born[m.id := |s.born|]))
  {
    var t := State(Put(s.repo, m), s.born[m.id := |s.born|]);
    forall c | c in m.conflictsWith && m.status == Conflicted ensures Precedes(t, m, c) {
    }
    LaterKeepsPrecedes(s, m);
    assert UniqueActive(t.repo);
  }

  lemma LaterKeepsPrecedes(s: State, m: Memory)
    requires Inv(s) && m.id !in s.born && m.id !in s.repo.rows
    ensures var t := State(Put(s.repo, m), s.born[m.id := |s.born|]);
            forall id, prior :: id in s.repo.rows && Precedes(s, s.repo.rows[id], prior)
              ==> Precedes(t, t.repo.rows[id], prior)
  {
  }

  lemma CreateKeepsInv(s: State, m: Memory)
    requires Inv(s) && Legal(s, CreateOp(m))
    ensures Inv(Step(s, CreateOp(m)))
  {
    var hashed := m.(contentHash := HashOf(m), status := Candidate);
    var stored := NewCandidate(s.repo, hashed);
    if CreateCandidate(s.repo, m).0 == Put(s.repo, stored) {
      forall c | c in stored.conflictsWith && stored.status == Conflicted
        ensures m.factKey != "" && c in s.repo.rows && SameFact(s.repo.rows[c], stored)
      {
        assert c in Conflicts(s.repo, hashed);
      }
      InsertKeepsInv(s, stored);
    } else {
      assert CreateCandidate(s.repo, m).0 == s.repo && m.id !in s.repo.rows;
    }
  }

  lemma PromoteKeepsInv(s: State, id: string, actor: string, reason: string, now: int)
    requires Inv(s)
    ensures Inv(State(Promote(s.repo, id, actor, reason, now).0, s.born))
  {
    if Promote(s.repo, id, actor, reason, now).1.Ok? {
      var m := s.repo.rows[id];
      if m.supersedes == "" {
        NoRivalIffNone(s.repo, m);
        assert NoRival(s.repo, Promoted(m, actor, reason));
        RewriteKeepsInv(s, Promoted(m, actor, reason));
      } else {
        SupersedeKeepsInv(s, m, actor, reason, now);
      }
    }
  }

  lemma SupersedeKeepsInv(s: State, m: Memory, actor: string, reason: string, now: int)
    requires Inv(s) && m.id in s.repo.rows && s.repo.rows[m.id] == m && m.status == Validated
    requires m.supersedes != "" && m.supersedes in s.repo.rows && s.repo.rows[m.supersedes].status == Active
    ensures var superseded := Superseding(s.repo.rows[m.supersedes], actor, reason, now);
            Inv(State(Put(Put(s.repo, superseded), Promoted(m, actor, reason)), s.born))
  {
    assert Precedes(s, m, m.supersedes);
    var superseded := Superseding(s.repo.rows[m.supersedes], actor, reason, now);
    RewriteKeepsInv(s, superseded);
    RewriteKeepsInv(State(Put(s.repo, superseded), s.born), Promoted(m, actor, reason));
  }

  lemma RollbackKeepsInv(s: State, id: string, actor: string, reason: string, now: int)
    requires Inv(s)
    ensures Inv(State(Rollback(s.repo, id, actor, reason, now).0, s.born))
  {
    if Rollback(s.repo, id, actor, reason, now).1.Ok? {
      var m := s.repo.rows[id];
      assert Precedes(s, m, m.supersedes);
      var rolledBack := RolledBack(m, actor, reason, now);
      RewriteKeepsInv(s, rolledBack);
      RewriteKeepsInv(State(Put(s.repo, rolledBack), s.born), Restored(s.repo.rows[m.supersedes], actor, reason));
    }
  }

  lemma RecallKeepsInv(s: State, id: string, q: Query)
    requires Inv(s)
    ensures Inv(State(Recall(s.repo, id, q), s.born))
  {
    if Recall(s.repo, id, q) != s.repo {
      RecountKeepsInv(s, id, q.now);
    }
  }

  lemma RecountKeepsInv(s: State, id: string, now: int)
    requires Inv(s) && id in s.repo.rows
    ensures Inv(State(Put(s.repo, Recalled(s.repo.rows[id], now)), s.born))
  {
    RewriteKeepsInv(s, Recalled(s.repo.rows[id], now));
  }

  lemma {:induction false} SearchKeepsInv(s: State, hits: seq<string>, q: Query)
    requires Inv(s)
    ensures Inv(State(RecallAll(s.repo, hits, q), s.born))
  {
    if hits != [] {
      SearchKeepsInv(s, hits[..|hits| - 1], q);
      RecallKeepsInv(State(RecallAll(s.repo, hits[..|hits| - 1], q), s.born), hits[|hits| - 1], q);
    }
  }

  lemma DeleteKeepsInv(s: State, id: string)
    requires Inv(s)
    ensures Inv(State(Delete(s.repo, id), s.born))
  {
    RemoveFromMembers(s.repo.order, id);
    var t := State(Delete(s.repo, id), s.born);
    forall x, prior | x in t.repo.rows && Precedes(s, s.repo.rows[x], prior)
      ensures Precedes(t, t.repo.rows[x], prior)
    {
    }
  }

  lemma StepKeepsInv(s: State, op: Op)
    requires Inv(s) && Legal(s, op)
    ensures Inv(Step(s, op))
  {
    match op
    case CreateOp(m) => CreateKeepsInv(s, m);
    case ValidateOp(id, actor, reason) =>
      if Validate(s.repo, id, actor, reason).1.Ok? {
        RewriteKeepsInv(s, Validate(s.repo, id, actor, reason).1.value);
      }
    case PromoteOp(id, actor, reason, now) => PromoteKeepsInv(s, id, actor, reason, now);
    case ResolveOp(id, target, actor, reason) =>
      if ResolveConflict(s.repo, id, target, actor, reason).1.Ok? {
        assert Precedes(s, s.repo.rows[id], target);
        RewriteKeepsInv(s, ResolveConflict(s.repo, id, target, actor, reason).1.value);
      }
    case RollbackOp(id, actor, reason, now) => RollbackKeepsInv(s, id, actor, reason, now);
    case ExpireOp(id, now) =>
      if id in s.repo.rows {
        RewriteKeepsInv(s, Expire(s.repo, id, now).1.value);
      }
    case RejectOp(id) =>
      if id in s.repo.rows {
        RewriteKeepsInv(s, Reject(s.repo, id).1.value);
      }
    case DeleteOp(id) => DeleteKeepsInv(s, id);
    case SearchOp(hits, q) => SearchKeepsInv(s, hits, q);
  }

  lemma {:induction false} PlayKeepsInv(ops: seq<Op>)
    requires LegalRun(ops)
    ensures Inv(Play(ops))
  {
    if ops != [] {
      var front := ops[..|ops| - 1];
      forall i | 0 <= i < |front| ensures Legal(Play(front[..i]), front[i]) {
        assert front[..i] == ops[..i];
      }
      PlayKeepsInv(front);
      StepKeepsInv(Play(front), ops[|ops| - 1]);
    }
  }

  /**
   In every legal run each scope and fact key has at most one active memory, and every
   supersession link stays within its scope and fact key.
   */
  lemma AtMostOneActiveFact(ops: seq<Op>, a: string, b: string)
    requires LegalRun(ops)
    requires a in Play(ops).repo.rows && b in Play(ops).repo.rows
    ensures var rows := Play(ops).repo.rows;
            && (rows[a].status == Active && rows[b].status == Active && SameFact(rows[a], rows[b]) ==> a == b)
            && (rows[a].supersedes == b && b != "" ==> SameFact(rows[a], rows[b]) && a != b)
  {
    PlayKeepsInv(ops);
  }

  /* ---------- no cycles ---------- */

  /** The ids that superseded each other, from `id` down to the oldest that still exists. */
  function Chain(s: State, id: string): seq<string>
    requires Inv(s) && id in s.repo.rows
    decreases s.born[id]
  {
    var previous := s.repo.rows[id].supersedes;
    if previous == "" || previous !in s.repo.rows then [id] else [id] + Chain(s, previous)
  }

  ghost predicate GoesBack(born: map<string, nat>, chain: seq<string>) {
    && (forall x :: x in chain ==> x in born)
    && (forall i, j | 0 <= i < j < |chain| :: born[chain[j]] < born[chain[i]])
  }

  /** The supersession graph is acyclic: a chain only ever goes back in time. */
  lemma {:induction false} ChainGoesBackInTime(s: State, id: string)
    requires Inv(s) && id in s.repo.rows
    ensures GoesBack(s.born, Chain(s, id)) && Chain(s, id)[0] == id
    decreases s.born[id]
  {
    var previous := s.repo.rows[id].supersedes;
    if previous != "" && previous in s.repo.rows {
      ChainGoesBackInTime(s, previous);
      var rest, chain := Chain(s, previous), Chain(s, id);
      assert Precedes(s, s.repo.rows[id], previous);
      forall i, j | 0 <= i < j < |chain| ensures s.born[chain[j]] < s.born[chain[i]] {
        assert chain[j] == rest[j - 1];
        if i == 0 && j > 1 {
          assert s.born[rest[j - 1]] < s.born[rest[0]];
        }
      }
    }
  }

  /** Roll back the active memory again and again until no rollback is available. */
  function RollbackFully(s: State, id: string, actor: string, reason: string, now: int): (State, string)
    requires Inv(s) && id in s.repo.rows
    decreases s.born[id]
  {
    var (repo, result) := Rollback(s.repo, id, actor, reason, now);
    RollbackKeepsInv(s, id, actor, reason, now);
    if result.Err? then (s, id)
    else RollbackFully(State(repo, s.born), s.repo.rows[id].supersedes, actor, reason, now)
  }

  lemma RollbackKeepsChain(s: State, id: string, actor: string, reason: string, now: int, x: string)
    requires Inv(s) && Rollback(s.repo, id, actor, reason, now).1.Ok? && x in s.repo.rows
    ensures var t := State(Rollback(s.repo, id, actor, reason, now).0, s.born);
            Inv(t) && x in t.repo.rows && Chain(t, x) == Chain(s, x)
    decreases s.born[x]
  {
    RollbackKeepsInv(s, id, actor, reason, now);
    RollbackKeepsLinks(s, id, actor, reason, now);
    var t := State(Rollback(s.repo, id, actor, reason, now).0, s.born);
    var previous := s.repo.rows[x].supersedes;
    assert t.repo.rows[x].supersedes == previous && (previous in t.repo.rows <==> previous in s.repo.rows);
    if previous != "" && previous in s.repo.rows {
      assert Precedes(s, s.repo.rows[x], previous);
      RollbackKeepsChain(s, id, actor, reason, now, previous);
      assert Chain(t, x) == [x] + Chain(t, previous);
    } else {
      assert Chain(t, x) == [x];
    }
  }

  lemma RollbackKeepsLinks(s: State, id: string, actor: string, reason: string, now: int)
    requires Inv(s) && Rollback(s.repo, id, actor, reason, now).1.Ok?
    ensures var t := Rollback(s.repo, id, actor, reason, now).0;
            t.rows.Keys == s.repo.rows.Keys
            && forall x :: x in t.rows ==> t.rows[x].supersedes == s.repo.rows[x].supersedes
  {
  }

  /** Repeated rollback ends at the oldest memory of the chain, which is then active. */
  lemma {:induction false} RollbackReachesTheOldest(s: State, id: string, actor: string, reason: string, now: int)
    requires Inv(s) && id in s.repo.rows && s.repo.rows[id].status == Active
    ensures var (t, last) := RollbackFully(s, id, actor, reason, now);
            && Inv(t) && last in t.repo.rows && t.repo.rows[last].status == Active
            && last == Chain(s, id)[|Chain(s, id)| - 1]
    decreases s.born[id]
  {
    if Rollback(s.repo, id, actor, reason, now).1.Ok? {
      var previous := s.repo.rows[id].supersedes;
      RollbackRows(s, id, actor, reason, now);
      RollbackKeepsInv(s, id, actor, reason, now);
      RollbackKeepsChain(s, id, actor, reason, now, previous);
      var t := State(Rollback(s.repo, id, actor, reason, now).0, s.born);
      assert Precedes(s, s.repo.rows[id], previous);
      RollbackReachesTheOldest(t, previous, actor, reason, now);
      assert RollbackFully(s, id, actor, reason, now) == RollbackFully(t, previous, actor, reason, now);
      assert Chain(s, id) == [id] + Chain(s, previous);
    }
  }

  /* ---------- promote and roll back ---------- */

  /** A superseding promotion, written out. */
  lemma PromotionRows(s: State, id: string, actor: string, reason: string, now: int)
    requires Inv(s) && Promote(s.repo, id, actor, reason, now).1.Ok? && s.repo.rows[id].supersedes != ""
    ensures var prior := s.repo.rows[id].supersedes;
            && prior in s.repo.rows && prior != id && s.repo.rows[prior].status == Active
            && Promote(s.repo, id, actor, reason, now).0
               == Repo(s.repo.rows[prior := Superseding(s.repo.rows[prior], actor, reason, now)]
                                  [id := Promoted(s.repo.rows[id], actor, reason)], s.repo.order)
  {
    assert Precedes(s, s.repo.rows[id], s.repo.rows[id].supersedes);
  }

  /**
   A superseding promotion followed by its rollback makes the predecessor the only active
   memory of the fact again. Both histories grow by the two events, no other row changes.
   */
  lemma RollbackUndoesPromotion(s: State, id: string, a1: string, r1: string, n1: int, a2: string, r2: string, n2: int)
    requires Inv(s) && Promote(s.repo, id, a1, r1, n1).1.Ok? && s.repo.rows[id].supersedes != ""
    ensures var prior := s.repo.rows[id].supersedes;
            var (back, result) := Rollback(Promote(s.repo, id, a1, r1, n1).0, id, a2, r2, n2);
            && back.rows.Keys == s.repo.rows.Keys && back.order == s.repo.order
            && result == Ok(back.rows[prior]) && back.rows[prior].status == Active
            && NoRival(back, back.rows[prior])
            && back.rows[id].status == Superseded
            && back.rows[prior].history == s.repo.rows[prior].history
                 + [LifecycleEvent("superseded", a1, r1), LifecycleEvent("restored", a2, r2)]
            && back.rows[id].history == s.repo.rows[id].history
                 + [LifecycleEvent("promoted", a1, r1), LifecycleEvent("rolled_back", a2, r2)]
            && (forall x :: x in s.repo.rows && x != id && x != prior ==> back.rows[x] == s.repo.rows[x])
  {
    PromotionRows(s, id, a1, r1, n1);
    PromoteKeepsInv(s, id, a1, r1, n1);
    var t := State(Promote(s.repo, id, a1, r1, n1).0, s.born);
    RollbackRows(t, id, a2, r2, n2);
  }

  /** A rollback, written out. */
  lemma RollbackRows(s: State, id: string, actor: string, reason: string, now: int)
    requires Inv(s) && Rollback(s.repo, id, actor, reason, now).1.Ok?
    ensures var prior := s.repo.rows[id].supersedes;
            && prior in s.repo.rows && prior != id
            && Rollback(s.repo, id, actor, reason, now)
               == (Repo(s.repo.rows[id := RolledBack(s.repo.rows[id], actor, reason, now)]
                                   [prior := Restored(s.repo.rows[prior], actor, reason)], s.repo.order),
                   Ok(Restored(s.repo.rows[prior], actor, reason)))
            && NoRival(Rollback(s.repo, id, actor, reason, now).0, s.repo.rows[prior])
  {
    assert Precedes(s, s.repo.rows[id], s.repo.rows[id].supersedes);
  }

  /* ---------- histories ---------- */

  /** Rows may change status and dates, but identity and content stay and histories only grow. */
  ghost predicate Extends(r: Repo, t: Repo) {
    forall id :: id in r.rows && id in t.rows ==>
      && SameIdentity(r.rows[id], t.rows[id])
      && r.rows[id].content == t.rows[id].content && r.rows[id].contentHash == t.rows[id].contentHash
      && r.rows[id].history <= t.rows[id].history
  }

  lemma PutExtends(r: Repo, m: Memory)
    requires m.id in r.rows && SameIdentity(r.rows[m.id], m)
    requires r.rows[m.id].content == m.content && r.rows[m.id].contentHash == m.contentHash
    requires r.rows[m.id].history <= m.history
    ensures Extends(r, Put(r, m)) && Put(r, m).rows.Keys == r.rows.Keys
  {
  }

  lemma ExtendsTwice(r: Repo, s: Repo, t: Repo)
    requires Extends(r, s) && Extends(s, t) && r.rows.Keys == s.rows.Keys
    ensures Extends(r, t)
  {
  }

  lemma RecallOneExtends(r: Repo, id: string, q: Query)
    requires RepoOk(r)
    ensures RepoOk(Recall(r, id, q)) && Recall(r, id, q).rows.Keys == r.rows.Keys
    ensures Extends(r, Recall(r, id, q))
  {
    if id in r.rows && Recallable(r.rows[id], q) {
      PutExtends(r, Recalled(r.rows[id], q.now));
    }
  }

  lemma {:induction false} RecallExtends(r: Repo, hits: seq<string>, q: Query)
    requires RepoOk(r)
    ensures RepoOk(RecallAll(r, hits, q)) && RecallAll(r, hits, q).rows.Keys == r.rows.Keys
    ensures Extends(r, RecallAll(r, hits, q))
  {
    if hits != [] {
      var before := RecallAll(r, hits[..|hits| - 1], q);
      var id := hits[|hits| - 1];
      RecallExtends(r, hits[..|hits| - 1], q);
      RecallOneExtends(before, id, q);
      ExtendsTwice(r, before, RecallAll(r, hits, q));
    }
  }

  lemma PromoteExtends(s: State, id: string, actor: string, reason: string, now: int)
    requires Inv(s)
    ensures Extends(s.repo, Promote(s.repo, id, actor, reason, now).0)
  {
    if Promote(s.repo, id, actor, reason, now).1.Ok? {
      var m := s.repo.rows[id];
      if m.supersedes == "" {
        PutExtends(s.repo, Promoted(m, actor, reason));
      } else {
        PromotionRows(s, id, actor, reason, now);
        SupersedeExtends(s.repo, m, actor, reason, now);
      }
    }
  }

  lemma SupersedeExtends(r: Repo, m: Memory, actor: string, reason: string, now: int)
    requires RepoOk(r) && m.id in r.rows && r.rows[m.id] == m && m.supersedes in r.rows && m.supersedes != m.id
    ensures Extends(r, Put(Put(r, Superseding(r.rows[m.supersedes], actor, reason, now)), Promoted(m, actor, reason)))
  {
    var superseded := Superseding(r.rows[m.supersedes], actor, reason, now);
    var middle := Put(r, superseded);
    PutExtends(r, superseded);
    PutExtends(middle, Promoted(m, actor, reason));
    ExtendsTwice(r, middle, Put(middle, Promoted(m, actor, reason)));
  }

  lemma RollbackExtends(s: State, id: string, actor: string, reason: string, now: int)
    requires Inv(s)
    ensures Extends(s.repo, Rollback(s.repo, id, actor, reason, now).0)
  {
    if Rollback(s.repo, id, actor, reason, now).1.Ok? {
      var m := s.repo.rows[id];
      assert Precedes(s, m, m.supersedes);
      var middle := Put(s.repo, RolledBack(m, actor, reason, now));
      PutExtends(s.repo, RolledBack(m, actor, reason, now));
      PutExtends(middle, Restored(s.repo.rows[m.supersedes], actor, reason));
      ExtendsTwice(s.repo, middle, Rollback(s.repo, id, actor, reason, now).0);
    }
  }

  lemma CreateExtends(r: Repo, m: Memory)
    requires m.id !in r.rows
    ensures Extends(r, CreateCandidate(r, m).0)
  {
    var hashed := m.(contentHash := HashOf(m), status := Candidate);
    assert NewCandidate(r, hashed).id == m.id;
  }

  /** Every legal operation preserves what a memory says and only extends its history. */
  lemma StepExtendsHistories(s: State, op: Op)
    requires Inv(s) && Legal(s, op)
    ensures Extends(s.repo, Step(s, op).repo)
  {
    match op
    case CreateOp(m) => CreateExtends(s.repo, m);
    case ValidateOp(id, actor, reason) => ValidateExtends(s.repo, id, actor, reason);
    case PromoteOp(id, actor, reason, now) => PromoteExtends(s, id, actor, reason, now);
    case ResolveOp(id, target, actor, reason) => ResolveExtends(s.repo, id, target, actor, reason);
    case RollbackOp(id, actor, reason, now) => RollbackExtends(s, id, actor, reason, now);
    case ExpireOp(id, now) =>
      if id in s.repo.rows {
        PutExtends(s.repo, Expire(s.repo, id, now).1.value);
      }
    case RejectOp(id) =>
      if id in s.repo.rows {
        PutExtends(s.repo, Reject(s.repo, id).1.value);
      }
    case DeleteOp(id) => DeleteExtends(s.repo, id);
    case SearchOp(hits, q) => RecallExtends(s.repo, hits, q);
  }

  lemma ValidateExtends(r: Repo, id: string, actor: string, reason: string)
    requires RepoOk(r)
    ensures Extends(r, Validate(r, id, actor, reason).0)
  {
    if Validate(r, id, actor, reason).1.Ok? {
      PutExtends(r, Validate(r, id, actor, reason).1.value);
    }
  }

  lemma ResolveExtends(r: Repo, id: string, target: string, actor: string, reason: string)
    requires RepoOk(r)
    ensures Extends(r, ResolveConflict(r, id, target, actor, reason).0)
  {
    if ResolveConflict(r, id, target, actor, reason).1.Ok? {
      PutExtends(r, ResolveConflict(r, id, target, actor, reason).1.value);
    }
  }

  lemma DeleteExtends(r: Repo, id: string)
    ensures Extends(r, Delete(r, id))
  {
  }

  /* ---------- what the two conditions are for ---------- */

  /**
   Promotion checks for rivals only when the record supersedes nothing. Whatever the state,
   a promotion that succeeds keeps active facts unique exactly when the superseded memory,
   if any, was the only rival.
   */
  lemma PromotionKeepsUniqueExactly(r: Repo, id: string, actor: string, reason: string, now: int)
    requires RepoOk(r) && UniqueActive(r) && Promote(r, id, actor, reason, now).1.Ok?
    ensures UniqueActive(Promote(r, id, actor, reason, now).0)
       <==> ActiveRivals(r, r.rows[id]) <= {r.rows[id].supersedes}
  {
    var m := r.rows[id];
    var t := Promote(r, id, actor, reason, now).0;
    forall x | x in ActiveRivals(r, m) && x != m.supersedes ensures !UniqueActive(t) {
      assert t.rows[x].status == Active && t.rows[id].status == Active && SameFact(t.rows[x], t.rows[id]);
    }
    if ActiveRivals(r, m) <= {m.supersedes} {
      forall x | x in t.rows && x != id && t.rows[x].status == Active ensures !SameFact(t.rows[x], m) {
        assert x in ActiveRivals(r, m) <==> SameFact(r.rows[x], m);
      }
    }
  }

  function Row(id: string, fact: string, status: Status, supersedes: string): Memory {
    Memory(id, Scope("t", None, None, None, None, None, Episodic), fact, id, id, "", [], [], status, {}, supersedes,
           [], 0, None, None, None, 0, None)
  }

  /** A record that arrives with a link to some other active memory does break uniqueness. */
  lemma ForeignLinkBreaksUniqueness(actor: string, reason: string, now: int)
    ensures var r := Repo(map["1" := Row("1", "load", Active, ""), "2" := Row("2", "wind", Active, ""),
                              "3" := Row("3", "load", Validated, "2")], ["1", "2", "3"]);
            && RepoOk(r) && UniqueActive(r) && Promote(r, "3", actor, reason, now).1.Ok?
            && !UniqueActive(Promote(r, "3", actor, reason, now).0)
  {
    var one, two, three := Row("1", "load", Active, ""), Row("2", "wind", Active, ""), Row("3", "load", Validated, "2");
    var r := Repo(map["1" := one, "2" := two, "3" := three], ["1", "2", "3"]);
    assert ActiveRivals(r, three) == {"1"};
    PromotionKeepsUniqueExactly(r, "3", actor, reason, now);
  }
}
