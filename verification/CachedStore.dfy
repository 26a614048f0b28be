/**
 `CachedAgentRunStore`: writes go to the authoritative store and then to a cache; reads try
 the cache first. The cache may fail at any call and may lose entries at any time. The
 three kinds of record (sessions, runs, client message ids) share this code, so one generic
 store stands for them. Every call names the faults it meets.
 */
module CachedStore {
  import opened Wrappers

  /** A cache write succeeds, fails without effect, or reports failure after taking effect. */
  datatype WriteFault = Succeeds | Fails | FailsAfterWriting

  /** A cache read answers or raises. */
  datatype ReadFault = Answers | Raises

  datatype Call<K, V> =
    | Save(key: K, value: V, authorityUp: bool, write: WriteFault)
    | Get(key: K, authorityUp: bool, read: ReadFault, write: WriteFault)
    | Evict(key: K)

  /** `suspect` holds the keys whose last cache write was reported as failed. */
  datatype Store<!K, V> = Store(authority: map<K, V>, cache: map<K, V>, suspect: set<K>)

  datatype Reply<+V> = Saved | Found(value: Option<V>) | Raised

  function Lookup<K, V>(m: map<K, V>, key: K): Option<V> {
    if key in m then Some(m[key]) else None
  }

  function CacheWrite<K, V>(s: Store<K, V>, key: K, value: V, fault: WriteFault): Store<K, V> {
    match fault
    case Succeeds => s.(cache := s.cache[key := value], suspect := s.suspect - {key})
    case Fails => s.(suspect := s.suspect + {key})
    case FailsAfterWriting => s.(cache := s.cache[key := value], suspect := s.suspect + {key})
  }

  function Step<K, V>(s: Store<K, V>, call: Call<K, V>): (Store<K, V>, Reply<V>) {
    match call
    case Save(key, value, up, write) =>
      if up then (CacheWrite(s.(authority := s.authority[key := value]), key, value, write), Saved)
      else (s, Raised)
    case Get(key, up, read, write) =>
      if read == Answers && key in s.cache then (s, Found(Some(s.cache[key])))
      else if !up then (s, Raised)
      else if key in s.authority then
        (CacheWrite(s, key, s.authority[key], write), Found(Some(s.authority[key])))
      else (s, Found(None))
    case Evict(key) =>
      (s.(cache := s.cache - {key}), Saved)
  }

  function Play<K, V>(s: Store<K, V>, calls: seq<Call<K, V>>): Store<K, V> {
    if calls == [] then s else Step(Play(s, calls[..|calls| - 1]), calls[|calls| - 1]).0
  }

  function Empty<K, V>(): Store<K, V> {
    Store(map[], map[], {})
  }

  /** A cached value that differs from the authority belongs to a suspect key. */
  ghost predicate Agrees<K, V>(s: Store<K, V>) {
    forall k :: k in s.cache && k !in s.suspect ==> k in s.authority && s.authority[k] == s.cache[k]
  }

  lemma StepKeepsAgreement<K, V>(s: Store<K, V>, call: Call<K, V>)
    requires Agrees(s)
    ensures Agrees(Step(s, call).0)
  {
  }

  /**
   Under any calls, faults and evictions, a cached value differs from the authoritative one
   only if the last cache write of its key was reported as failed.
   */
  lemma {:induction false} PlayKeepsAgreement<K, V>(s: Store<K, V>, calls: seq<Call<K, V>>)
    requires Agrees(s)
    ensures Agrees(Play(s, calls))
  {
    if calls != [] {
      PlayKeepsAgreement(s, calls[..|calls| - 1]);
      StepKeepsAgreement(Play(s, calls[..|calls| - 1]), calls[|calls| - 1]);
    }
  }

  /* ---------- refinement of a plain store ---------- */

  /** The same calls on a store without a cache. */
  function Plain<K, V>(m: map<K, V>, calls: seq<Call<K, V>>): map<K, V> {
    if calls == [] then m
    else
      var before := Plain(m, calls[..|calls| - 1]);
      var call := calls[|calls| - 1];
      if call.Save? && call.authorityUp then before[call.key := call.value] else before
  }

  lemma {:induction false} AuthorityIsPlain<K, V>(s: Store<K, V>, calls: seq<Call<K, V>>)
    ensures Play(s, calls).authority == Plain(s.authority, calls)
  {
    if calls != [] {
      AuthorityIsPlain(s, calls[..|calls| - 1]);
    }
  }

  /** No write of `key` lost its effect: cache writes of it succeed or at least take effect. */
  ghost predicate WritesReach<K, V>(calls: seq<Call<K, V>>, key: K) {
    forall call :: call in calls && (call.Save? || call.Get?) && call.key == key ==> call.write != Fails
  }

  lemma {:induction false} EffectiveWritesAgree<K, V>(s: Store<K, V>, calls: seq<Call<K, V>>, key: K)
    requires WritesReach(calls, key)
    requires key in s.cache ==> Lookup(s.authority, key) == Some(s.cache[key])
    ensures var t := Play(s, calls); key in t.cache ==> Lookup(t.authority, key) == Some(t.cache[key])
  {
    if calls != [] {
      var front := calls[..|calls| - 1];
      assert forall call :: call in front ==> call in calls;
      EffectiveWritesAgree(s, front, key);
      assert calls[|calls| - 1] in calls;
    }
  }

  /**
   Refinement: as long as no cache write of the key is lost, every `get` that returns at all
   returns what a plain store would hold, whatever reads fail and whatever is evicted. This
   is the condition a caller can see; `GetIsWrongExactly` gives the exact one.
   */
  lemma GetRefinesPlainStore<K, V>(calls: seq<Call<K, V>>, get: Call<K, V>)
    requires get.Get? && WritesReach(calls, get.key)
    ensures var reply := Step(Play(Empty(), calls), get).1;
            && (reply.Raised? || reply == Found(Lookup(Plain(map[], calls), get.key)))
            && (get.authorityUp ==> !reply.Raised?)
  {
    var start: Store<K, V> := Empty();
    AuthorityIsPlain(start, calls);
    EffectiveWritesAgree(start, calls, get.key);
  }

  /* ---------- exactly when a read is stale ---------- */

  /**
   The last call that put `key` into the cache and was not followed by its eviction: an
   effective write of a save, or of the back-fill of a read that found nothing cached.
   */
  ghost function LastWrite<K, V>(calls: seq<Call<K, V>>, key: K): (at: Option<nat>)
    ensures at.Some? ==> at.value < |calls|
  {
    if calls == [] then None
    else
      var n := |calls| - 1;
      var before := LastWrite(calls[..n], key);
      match calls[n]
      case Evict(k) => if k == key then None else before
      case Save(k, _, up, write) => if k == key && up && write != Fails then Some(n) else before
      case Get(k, up, read, write) =>
        if k == key && (read == Raises || before.None?) && up && key in Plain(map[], calls[..n]) && write != Fails
        then Some(n) else before
  }

  /** What a store without a cache held just after call `i`. */
  ghost function PlainAt<K, V>(calls: seq<Call<K, V>>, i: nat, key: K): Option<V>
    requires i < |calls|
  {
    Lookup(Plain(map[], calls[..i + 1]), key)
  }

  /** The cache holds, for each key, what the plain store held at the key's last effective write. */
  lemma {:induction false} CacheHoldsLastWrite<K, V>(calls: seq<Call<K, V>>, key: K)
    ensures Lookup(Play(Empty(), calls).cache, key)
         == if LastWrite(calls, key).None? then None else PlainAt(calls, LastWrite(calls, key).value, key)
    ensures LastWrite(calls, key).Some? ==> PlainAt(calls, LastWrite(calls, key).value, key).Some?
  {
    if calls != [] {
      var n := |calls| - 1;
      var front: seq<Call<K, V>>, start: Store<K, V> := calls[..n], Empty();
      CacheHoldsLastWrite(front, key);
      AuthorityIsPlain(start, front);
      assert calls[..n + 1] == calls;
      var at := LastWrite(front, key);
      assert at.Some? ==> front[..at.value + 1] == calls[..at.value + 1];
    }
  }

  /** The cached value of `key` is not what a plain store holds. */
  ghost predicate Stale<K, V>(calls: seq<Call<K, V>>, key: K) {
    var at := LastWrite(calls, key);
    at.Some? && PlainAt(calls, at.value, key) != Lookup(Plain(map[], calls), key)
  }

  /**
   A `get` answers wrongly exactly when the cache answers and the key's value has changed since
   the last cache write that took effect and was not evicted; it raises exactly when neither
   the cache nor the authority answers.
   */
  lemma GetIsWrongExactly<K, V>(calls: seq<Call<K, V>>, get: Call<K, V>)
    requires get.Get?
    ensures var reply := Step(Play(Empty(), calls), get).1;
            && (reply.Raised? <==> !get.authorityUp && (get.read == Raises || LastWrite(calls, get.key).None?))
            && (reply.Found? && reply.value != Lookup(Plain(map[], calls), get.key)
                <==> get.read == Answers && Stale(calls, get.key))
  {
    var start: Store<K, V> := Empty();
    AuthorityIsPlain(start, calls);
    CacheHoldsLastWrite(calls, get.key);
  }

  /**
   A save whose cache write is lost makes the next answered `get` wrong exactly when it
   overwrote another cached value.
   */
  lemma LostWriteIsVisible<K, V>(calls: seq<Call<K, V>>, key: K, value: V, get: Call<K, V>)
    requires get.Get? && get.key == key && get.read == Answers
    ensures var reply := Step(Play(Empty(), calls + [Save(key, value, true, Fails)]), get).1;
            reply.Found? && reply.value != Some(value)
            <==> LastWrite(calls, key).Some? && PlainAt(calls, LastWrite(calls, key).value, key) != Some(value)
  {
    var longer, at := calls + [Save(key, value, true, Fails)], LastWrite(calls, key);
    assert longer[..|calls|] == calls;
    GetIsWrongExactly(longer, get);
    CacheHoldsLastWrite(longer, key);
    if at.Some? {
      assert longer[..at.value + 1] == calls[..at.value + 1];
    }
  }

  /** Reading a log, appending to it and saving it: what the coordinator's `append` does with a run. */
  ghost function ReadAndAppend<K, E>(s: Store<K, seq<E>>, key: K, e: E): Store<K, seq<E>> {
    var (after, reply) := Step(s, Get(key, true, Answers, Succeeds));
    if reply.Found? && reply.value.Some? then Step(after, Save(key, reply.value.value + [e], true, Succeeds)).0
    else after
  }

  /**
   An append through a stale cache entry loses what was saved in between: the authority's log
   is extended by the event exactly when the entry was not stale.
   */
  lemma AppendLosesExactly<K, E>(calls: seq<Call<K, seq<E>>>, key: K, e: E)
    requires key in Plain(map[], calls)
    ensures var t := ReadAndAppend(Play(Empty(), calls), key, e);
            && key in t.authority
            && (t.authority[key] == Plain(map[], calls)[key] + [e] <==> !Stale(calls, key))
  {
    var start: Store<K, seq<E>> := Empty();
    AuthorityIsPlain(start, calls);
    CacheHoldsLastWrite(calls, key);
    var held := Plain(map[], calls)[key];
    assert forall other: seq<E> :: (other + [e])[..|other + [e]| - 1] == other;
    assert forall other: seq<E> :: other + [e] == held + [e] ==> other == held;
  }

  /* ---------- the class ---------- */

  class CachedAgentRunStore<K(==), V(==)> {
    var authority: map<K, V>
    var cache: map<K, V>
    ghost var suspect: set<K>

    ghost predicate Valid()
      reads this
    {
      Agrees(Model())
    }

    ghost function Model(): Store<K, V>
      reads this
    {
      Store(authority, cache, suspect)
    }

    constructor ()
      ensures Valid() && Model() == Empty()
    {
      authority, cache, suspect := map[], map[], {};
    }

    /** `_cache_write` swallows the cache's failures. */
    method CacheWriteThrough(key: K, value: V, fault: WriteFault)
      modifies `cache, `suspect
      ensures Model() == CacheWrite(old(Model()), key, value, fault)
    {
      if fault != Fails {
        cache := cache[key := value];
      }
      suspect := if fault == Succeeds then suspect - {key} else suspect + {key};
    }

    /** `save_session` and its siblings: the authority's failure propagates before any effect. */
    method SaveRecord(key: K, value: V, authorityUp: bool, write: WriteFault) returns (reply: Reply<V>)
      requires Valid()
      modifies this
      ensures Valid()
      ensures (Model(), reply) == Step(old(Model()), Save(key, value, authorityUp, write))
    {
      if !authorityUp {
        return Raised;
      }
      authority := authority[key := value];
      CacheWriteThrough(key, value, write);
      return Saved;
    }

    /** `get_session` and its siblings: cache first, then authority with a back-fill. */
    method GetRecord(key: K, authorityUp: bool, read: ReadFault, write: WriteFault) returns (reply: Reply<V>)
      requires Valid()
      modifies `cache, `suspect
      ensures Valid()
      ensures (Model(), reply) == Step(old(Model()), Get(key, authorityUp, read, write))
    {
      if read == Answers && key in cache {
        return Found(Some(cache[key]));
      }
      if !authorityUp {
        return Raised;
      }
      if key !in authority {
        return Found(None);
      }
      CacheWriteThrough(key, authority[key], write);
      return Found(Some(authority[key]));
    }
  }
}
