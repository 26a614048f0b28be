/**
 `InMemoryRateLimiter.check`: a sliding-window limiter that forgets hits as they leave the
 window. While the clock does not run backwards it decides as if it remembered everything.
 */
module RateLimiter {

  type Hits = map<string, seq<real>>

  function HitsAt(hits: Hits, key: string): seq<real> {
    if key in hits then hits[key] else []
  }

  /** The hits less than a window before `now`. */
  function Recent(hits: seq<real>, now: real, window: real): seq<real> {
    if hits == [] then []
    else
      var last := hits[|hits| - 1];
      Recent(hits[..|hits| - 1], now, window) + if now - last < window then [last] else []
  }

  function After(hits: seq<real>, now: real, window: real, limit: int): seq<real> {
    var recent := Recent(hits, now, window);
    if |recent| >= limit then recent else recent + [now]
  }

  /** How many hits fall into the half-open window that starts at `from`. */
  function Within(hits: seq<real>, from: real, window: real): nat {
    if hits == [] then 0
    else
      var last := hits[|hits| - 1];
      Within(hits[..|hits| - 1], from, window) + if from <= last < from + window then 1 else 0
  }

  /* ---------- pruning ---------- */

  /** What a later check sees survives every earlier pruning. */
  lemma {:induction false} PruningLosesNothing(hits: seq<real>, earlier: real, now: real, window: real)
    requires earlier <= now
    ensures Recent(Recent(hits, earlier, window), now, window) == Recent(hits, now, window)
  {
    if hits != [] {
      var front, last := hits[..|hits| - 1], hits[|hits| - 1];
      PruningLosesNothing(front, earlier, now, window);
      var kept := Recent(front, earlier, window);
      assert (kept + [last])[..|kept|] == kept;
      assert kept + [] == kept;
    }
  }

  lemma {:induction false} RecentOfAppend(hits: seq<real>, now: real, window: real)
    ensures Recent(hits + [now], now, window) == Recent(hits, now, window) + if window > 0.0 then [now] else []
  {
    assert (hits + [now])[..|hits|] == hits;
  }

  /** A window that holds `now` holds no earlier hit that is not recent. */
  lemma {:induction false} WindowIsRecent(hits: seq<real>, from: real, now: real, window: real)
    requires from <= now < from + window
    ensures Within(hits, from, window) <= |Recent(hits, now, window)|
  {
    if hits != [] {
      WindowIsRecent(hits[..|hits| - 1], from, now, window);
    }
  }

  /* ---------- the limiter ---------- */

  /** Every window of this length holds at most `limit` hits. */
  ghost predicate Bounded(accepted: seq<real>, window: real, limit: int) {
    forall from: real :: Within(accepted, from, window) <= if limit > 0 then limit else 0
  }

  lemma AcceptKeepsBounded(accepted: seq<real>, now: real, window: real, limit: int)
    requires Bounded(accepted, window, limit) && |Recent(accepted, now, window)| < limit
    ensures Bounded(accepted + [now], window, limit)
  {
    assert (accepted + [now])[..|accepted|] == accepted;
    forall from: real ensures Within(accepted + [now], from, window) <= limit {
      assert Within(accepted, from, window) <= limit;
      if from <= now < from + window {
        WindowIsRecent(accepted, from, now, window);
      }
    }
  }

  /**
   The stored hits, every accepted hit of every key, when a key was last checked, and the
   latest time seen.
   */
  datatype Limiter = Limiter(hits: Hits, accepted: Hits, checked: map<string, real>, clock: real)

  /** `check`, on the state. */
  function Step(l: Limiter, key: string, now: real, window: real, limit: int): Limiter {
    var recent := Recent(HitsAt(l.hits, key), now, window);
    Limiter(l.hits[key := After(HitsAt(l.hits, key), now, window, limit)],
            if |recent| >= limit then l.accepted else l.accepted[key := HitsAt(l.accepted, key) + [now]],
            l.checked[key := now], now)
  }

  /** The stored hits are what the full history would show at the key's last check. */
  ghost predicate Agrees(l: Limiter, key: string, window: real, limit: int) {
    && HitsAt(l.hits, key)
       == (if key in l.checked then Recent(HitsAt(l.accepted, key), l.checked[key], window) else [])
    && (key !in l.checked ==> HitsAt(l.accepted, key) == [])
    && (key in l.checked ==> l.checked[key] <= l.clock)
    && Bounded(HitsAt(l.accepted, key), window, limit)
  }

  ghost predicate Inv(l: Limiter, window: real, limit: int) {
    forall key :: Agrees(l, key, window, limit)
  }

  /** The decision is the one the full history calls for. */
  lemma DecidesByHistory(l: Limiter, key: string, now: real, window: real, limit: int)
    requires Agrees(l, key, window, limit) && l.clock <= now
    ensures Recent(HitsAt(l.hits, key), now, window) == Recent(HitsAt(l.accepted, key), now, window)
  {
    if key in l.checked {
      PruningLosesNothing(HitsAt(l.accepted, key), l.checked[key], now, window);
    }
  }

  lemma StepKeepsInv(l: Limiter, key: string, now: real, window: real, limit: int)
    requires Inv(l, window, limit) && l.clock <= now && window > 0.0
    ensures Inv(Step(l, key, now, window, limit), window, limit)
  {
    var after := Step(l, key, now, window, limit);
    var full := HitsAt(l.accepted, key);
    assert Agrees(l, key, window, limit);
    DecidesByHistory(l, key, now, window, limit);
    RecentOfAppend(full, now, window);
    if |Recent(full, now, window)| < limit {
      AcceptKeepsBounded(full, now, window, limit);
    }
    assert Agrees(after, key, window, limit);
    forall other ensures Agrees(after, other, window, limit) {
      assert Agrees(l, other, window, limit);
    }
  }

  /* ---------- every run ---------- */

  datatype Event = Event(key: string, now: real)

  function Play(events: seq<Event>, window: real, limit: int): Limiter {
    if events == [] then Limiter(map[], map[], map[], 0.0)
    else
      var last := events[|events| - 1];
      Step(Play(events[..|events| - 1], window, limit), last.key, last.now, window, limit)
  }

  ghost predicate NeverBackwards(events: seq<Event>) {
    && (forall i :: 0 <= i < |events| ==> events[i].now >= 0.0)
    && (forall i, j | 0 <= i < j < |events| :: events[i].now <= events[j].now)
  }

  lemma {:induction false} PlayKeepsInv(events: seq<Event>, window: real, limit: int)
    requires window > 0.0 && NeverBackwards(events)
    ensures Inv(Play(events, window, limit), window, limit)
    ensures Play(events, window, limit).clock == if events == [] then 0.0 else events[|events| - 1].now
  {
    if events == [] {
      var empty := Play(events, window, limit);
      forall key ensures Agrees(empty, key, window, limit) {
      }
    } else {
      var n := |events| - 1;
      PlayKeepsInv(events[..n], window, limit);
      StepKeepsInv(Play(events[..n], window, limit), events[n].key, events[n].now, window, limit);
    }
  }

  /**
   In every run whose clock never goes back, every half-open window of every key holds at most
   `limit` accepted hits, and the next check of a key is refused exactly when the full history
   already has `limit` hits in its window.
   */
  lemma EveryWindowIsWithinLimit(events: seq<Event>, window: real, limit: int, key: string, from: real, now: real)
    requires window > 0.0 && NeverBackwards(events + [Event(key, now)])
    ensures Within(HitsAt(Play(events, window, limit).accepted, key), from, window) <= if limit > 0 then limit else 0
    ensures Step(Play(events, window, limit), key, now, window, limit).accepted == Play(events, window, limit).accepted
            <==> |Recent(HitsAt(Play(events, window, limit).accepted, key), now, window)| >= limit
  {
    var l, all := Play(events, window, limit), events + [Event(key, now)];
    assert forall i :: 0 <= i < |events| ==> events[i] == all[i];
    assert all[|events|].now == now;
    PlayKeepsInv(events, window, limit);
    assert Agrees(l, key, window, limit);
    DecidesByHistory(l, key, now, window, limit);
    var full := HitsAt(l.accepted, key);
    assert |full + [now]| == |full| + 1;
  }

  /* ---------- every clock ---------- */

  /** The promise for one more check of a key after a run, whatever its clock did. */
  ghost predicate Right(events: seq<Event>, key: string, from: real, now: real, window: real, limit: int) {
    var l := Play(events, window, limit);
    && Within(HitsAt(l.accepted, key), from, window) <= (if limit > 0 then limit else 0)
    && (|Recent(HitsAt(l.hits, key), now, window)| >= limit
        <==> |Recent(HitsAt(l.accepted, key), now, window)| >= limit)
  }

  /** The hits are at least a window apart. */
  ghost predicate Apart(hits: seq<real>, window: real) {
    hits == []
    || (Apart(hits[..|hits| - 1], window)
        && (|hits| > 1 ==> hits[|hits| - 1] - hits[|hits| - 2] >= window))
  }

  /** Of hits that are apart only the last can be recent. */
  lemma {:induction false} OnlyLastIsRecent(hits: seq<real>, now: real, window: real)
    requires window > 0.0 && Apart(hits, window)
    ensures Recent(hits, now, window) != [] <==> hits != [] && now - hits[|hits| - 1] < window
  {
    if |hits| > 1 {
      OnlyLastIsRecent(hits[..|hits| - 1], now, window);
    }
  }

  lemma {:induction false} ApartIsSparse(hits: seq<real>, from: real, window: real)
    requires window > 0.0 && Apart(hits, window)
    ensures Within(hits, from, window) <= 1
    ensures hits != [] && from > hits[|hits| - 1] ==> Within(hits, from, window) == 0
    ensures hits != [] && Within(hits, from, window) == 1 ==> from <= hits[|hits| - 1]
    ensures |hits| > 1 && from <= hits[|hits| - 1] < from + window ==> Within(hits[..|hits| - 1], from, window) == 0
  {
    if hits != [] {
      var n := |hits| - 1;
      ApartIsSparse(hits[..n], from, window);
    }
  }

  /** With a limit of one the key remembers just its last hit, and hits are a window apart. */
  ghost predicate Single(l: Limiter, key: string, window: real) {
    var hits, full := HitsAt(l.hits, key), HitsAt(l.accepted, key);
    && Apart(full, window)
    && hits == if full == [] then [] else [full[|full| - 1]]
  }

  lemma SingleStep(l: Limiter, key: string, now: real, window: real, other: string)
    requires window > 0.0 && Single(l, key, window) && Single(l, other, window)
    ensures Single(Step(l, key, now, window, 1), other, window)
  {
    var hits, full := HitsAt(l.hits, key), HitsAt(l.accepted, key);
    assert hits != [] ==> hits[..0] == [];
    assert Recent(hits, now, window) == if hits != [] && now - hits[0] < window then hits else [];
    assert (full + [now])[..|full|] == full;
  }

  lemma {:induction false} PlaySingle(events: seq<Event>, window: real, key: string)
    requires window > 0.0
    ensures Single(Play(events, window, 1), key, window)
  {
    if events != [] {
      var front, last := events[..|events| - 1], events[|events| - 1];
      PlaySingle(front, window, key);
      PlaySingle(front, window, last.key);
      SingleStep(Play(front, window, 1), last.key, last.now, window, key);
    }
  }

  lemma {:induction false} NothingAccepted(events: seq<Event>, window: real, limit: int)
    requires limit <= 0
    ensures Play(events, window, limit).accepted == map[]
  {
    if events != [] {
      NothingAccepted(events[..|events| - 1], window, limit);
    }
  }

  lemma SmallLimitsAreRight(events: seq<Event>, key: string, from: real, now: real, window: real, limit: int)
    requires window > 0.0 && limit <= 1
    ensures Right(events, key, from, now, window, limit)
  {
    var l := Play(events, window, limit);
    var hits, full := HitsAt(l.hits, key), HitsAt(l.accepted, key);
    if limit == 1 {
      PlaySingle(events, window, key);
      ApartIsSparse(full, from, window);
      OnlyLastIsRecent(full, now, window);
      assert hits != [] ==> hits[..0] == [];
    } else {
      NothingAccepted(events, window, limit);
    }
  }

  /** One accepted check, by what the key's two lists become. */
  lemma Accepts(events: seq<Event>, key: string, now: real, window: real, limit: int, hits: seq<real>, full: seq<real>)
    requires HitsAt(Play(events, window, limit).hits, key) == hits
    requires HitsAt(Play(events, window, limit).accepted, key) == full
    requires |Recent(hits, now, window)| < limit
    ensures HitsAt(Play(events + [Event(key, now)], window, limit).hits, key) == Recent(hits, now, window) + [now]
    ensures HitsAt(Play(events + [Event(key, now)], window, limit).accepted, key) == full + [now]
  {
    assert (events + [Event(key, now)])[..|events|] == events;
  }

  /** `n` zeros. */
  function Zeros(n: nat): seq<real> {
    if n == 0 then [] else Zeros(n - 1) + [0.0]
  }

  lemma {:induction false} ZerosLeave(n: nat, window: real)
    requires window > 0.0
    ensures Recent(Zeros(n), 0.0, window) == Zeros(n) && Recent(Zeros(n), window, window) == []
    ensures |Zeros(n)| == n && Within(Zeros(n), 0.0, window) == n
  {
    if n > 0 {
      ZerosLeave(n - 1, window);
      assert Zeros(n)[..n - 1] == Zeros(n - 1);
    }
  }

  /** `n` checks at time zero. */
  function Burst(key: string, n: nat): seq<Event> {
    if n == 0 then [] else Burst(key, n - 1) + [Event(key, 0.0)]
  }

  lemma {:induction false} BurstIsAccepted(key: string, n: nat, window: real, limit: int)
    requires window > 0.0 && n <= limit
    ensures HitsAt(Play(Burst(key, n), window, limit).hits, key) == Zeros(n)
    ensures HitsAt(Play(Burst(key, n), window, limit).accepted, key) == Zeros(n)
  {
    if n == 0 {
      assert Burst(key, n) == [];
    } else {
      var before, zeros := Burst(key, n - 1), Zeros(n - 1);
      BurstIsAccepted(key, n - 1, window, limit);
      ZerosLeave(n - 1, window);
      Accepts(before, key, 0.0, window, limit, zeros, zeros);
      assert Burst(key, n) == before + [Event(key, 0.0)] && Zeros(n) == zeros + [0.0];
    }
  }

  /** As many checks as the limit at time zero, one a window later, then one at time zero again. */
  function Overflow(key: string, window: real, limit: nat): seq<Event> {
    Burst(key, limit) + [Event(key, window)] + [Event(key, 0.0)]
  }

  /** For every limit of at least two a clock that goes back overfills a window. */
  lemma BackwardsClockOverflows(key: string, window: real, limit: nat)
    requires window > 0.0 && limit >= 2
    ensures Within(HitsAt(Play(Overflow(key, window, limit), window, limit).accepted, key), 0.0, window) == limit + 1
  {
    var zeros, late := Zeros(limit), Burst(key, limit) + [Event(key, window)];
    BurstIsAccepted(key, limit, window, limit);
    ZerosLeave(limit, window);
    Accepts(Burst(key, limit), key, window, window, limit, zeros, zeros);
    var last: seq<real> := [window];
    assert [] + last == last && last[..0] == [];
    assert Recent(last, 0.0, window) == last;
    Accepts(late, key, 0.0, window, limit, last, zeros + last);
    assert (zeros + last)[..limit] == zeros && (zeros + last + [0.0])[..limit + 1] == zeros + last;
  }

  /** The promise holds for every clock exactly when the limit is at most one. */
  lemma AnyClockExactly(window: real, limit: int)
    requires window > 0.0
    ensures (forall events, key, from, now :: Right(events, key, from, now, window, limit)) <==> limit <= 1
  {
    if limit <= 1 {
      forall events, key, from, now ensures Right(events, key, from, now, window, limit) {
        SmallLimitsAreRight(events, key, from, now, window, limit);
      }
    } else {
      BackwardsClockOverflows("", window, limit);
      assert !Right(Overflow("", window, limit), "", 0.0, 0.0, window, limit);
    }
  }

  /* ---------- the class ---------- */

  class InMemoryRateLimiter {
    const window: real
    const limit: int
    var hits: Hits
    ghost var accepted: Hits
    ghost var checked: map<string, real>
    ghost var clock: real

    ghost function State(): Limiter
      reads this
    {
      Limiter(hits, accepted, checked, clock)
    }

    constructor (window: real, limit: int)
      ensures State() == Play([], window, limit)
      ensures this.window == window && this.limit == limit
    {
      this.window, this.limit := window, limit;
      hits, accepted, checked, clock := map[], map[], map[], 0.0;
    }

    /** `check`: the whole new state, whatever the clock does. */
    method Check(key: string, now: real) returns (allowed: bool, remaining: int)
      modifies this
      ensures State() == Step(old(State()), key, now, window, limit)
      ensures allowed <==> accepted != old(accepted)
      ensures remaining == if allowed then limit - |HitsAt(hits, key)| else 0
    {
      var recent := PruneLoop(HitsAt(hits, key), now, window);
      checked, clock := checked[key := now], now;
      if |recent| >= limit {
        hits := hits[key := recent];
        return false, 0;
      }
      recent := recent + [now];
      hits := hits[key := recent];
      ghost var full := HitsAt(accepted, key);
      assert |full + [now]| == |full| + 1;
      accepted := accepted[key := full + [now]];
      return true, limit - |recent|;
    }
  }

  method PruneLoop(hits: seq<real>, now: real, window: real) returns (recent: seq<real>)
    ensures recent == Recent(hits, now, window)
  {
    recent := [];
    for i := 0 to |hits|
      invariant recent == Recent(hits[..i], now, window)
    {
      assert hits[..i + 1][..i] == hits[..i];
      if now - hits[i] < window {
        recent := recent + [hits[i]];
      }
    }
    assert hits[..|hits|] == hits;
  }
}
