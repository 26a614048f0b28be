/**
 The resumable event stream: a server loop that polls the trimmed log and sends what lies
 beyond its cursor, and a client that reconnects with the number of the last event it saw
 (the Last-Event-ID of section 9.2 of the WHATWG HTML Living Standard). Appends, polls,
 heartbeats, deliveries and broken connections interleave freely.
 */
module RunStream {
  import opened Wrappers
  import opened Ordering
  import opened RunLog

  /** A parsed server-sent event. A heartbeat repeats the cursor as its number. */
  datatype Frame = Frame(heartbeat: bool, sequence: nat)

  /* ---------- one poll ---------- */

  /** The events beyond the cursor, which moves along with them. */
  function Pending(events: seq<Event>, cursor: nat): seq<Frame> {
    if events == [] then []
    else if events[0].sequence <= cursor then Pending(events[1..], cursor)
    else [Frame(false, events[0].sequence)] + Pending(events[1..], events[0].sequence)
  }

  /** The number of the last frame, or `start` when there is none. */
  function EndOf(start: nat, frames: seq<Frame>): nat {
    if frames == [] then start else frames[|frames| - 1].sequence
  }

  /** The `for` loop of `stream`. */
  method PollLoop(events: seq<Event>, start: nat) returns (sent: seq<Frame>, cursor: nat)
    ensures sent == Pending(events, start)
    ensures cursor == EndOf(start, sent)
  {
    sent, cursor := [], start;
    for i := 0 to |events|
      invariant sent + Pending(events[i..], cursor) == Pending(events, start)
      invariant cursor == EndOf(start, sent)
    {
      assert events[i..][1..] == events[i + 1..];
      var event := events[i];
      if event.sequence <= cursor {
        continue;
      }
      cursor := event.sequence;
      sent := sent + [Frame(false, event.sequence)];
    }
  }

  /** Numbers as a strictly increasing walk from `start`; heartbeats stand still. */
  ghost predicate Chain(start: nat, frames: seq<Frame>) {
    frames == []
    || (var front, last := frames[..|frames| - 1], frames[|frames| - 1];
        && Chain(start, front)
        && if last.heartbeat then last.sequence == EndOf(start, front) else last.sequence > EndOf(start, front))
  }

  /** The event numbers among the frames. */
  function Numbers(frames: seq<Frame>): seq<nat> {
    if frames == [] then []
    else
      Numbers(frames[..|frames| - 1])
      + if frames[|frames| - 1].heartbeat then [] else [frames[|frames| - 1].sequence]
  }

  /** `from + 1, from + 2, ..., to`. */
  ghost function Range(from: nat, to: nat): seq<nat> {
    if from >= to then [] else Range(from, to - 1) + [to]
  }

  ghost predicate Increasing(start: nat, numbers: seq<nat>) {
    && (numbers != [] ==> start < numbers[0])
    && (forall i, j :: 0 <= i < j < |numbers| ==> numbers[i] < numbers[j])
  }

  /** One frame for each of the numbers `from + 1, ..., to`. */
  ghost function Steps(from: nat, to: nat): (frames: seq<Frame>)
    ensures |frames| == if from < to then to - from else 0
    ensures forall i :: 0 <= i < |frames| ==> frames[i] == Frame(false, from + 1 + i)
  {
    seq(if from < to then to - from else 0, i requires 0 <= i => Frame(false, from + 1 + i))
  }

  lemma {:induction false} PendingOfFull(h: seq<Event>, from: nat, cursor: nat)
    requires FullHistory(h) && from <= |h|
    ensures Pending(h[from..], cursor) == Steps(Max(from, cursor), |h|)
    decreases |h| - from
  {
    if from < |h| {
      assert h[from..][0].sequence == from + 1 && h[from..][1..] == h[from + 1..];
      PendingOfFull(h, from + 1, if cursor <= from then from + 1 else cursor);
    }
  }

  /** What a poll of a trimmed log sends: all that is beyond the cursor and still there. */
  lemma PendingOfTrimmed(h: seq<Event>, max: Positive, cursor: nat)
    requires max >= 2 && FullHistory(h) && cursor <= |h| && |h| > max
    ensures Pending(Retained(h, max), cursor)
         == (if cursor == 0 then [Frame(false, 1)] else []) + Steps(Max(|h| - (max - 1), cursor), |h|)
  {
    var retained := Retained(h, max);
    var from := |h| - (max - 1);
    assert retained[1..] == h[from..];
    PendingOfFull(h, from, Max(cursor, 1));
    assert retained[0].sequence == 1;
  }

  lemma {:induction false} NumbersOfSteps(from: nat, to: nat)
    requires from <= to
    ensures Numbers(Steps(from, to)) == Range(from, to)
  {
    if from < to {
      assert Steps(from, to)[..to - from - 1] == Steps(from, to - 1);
      NumbersOfSteps(from, to - 1);
    }
  }

  lemma {:induction false} ChainOfSteps(start: nat, from: nat, to: nat)
    requires start <= from <= to
    ensures Chain(start, Steps(from, to))
    ensures EndOf(start, Steps(from, to)) == if from < to then to else start
  {
    if from < to {
      assert Steps(from, to)[..to - from - 1] == Steps(from, to - 1);
      ChainOfSteps(start, from, to - 1);
    }
  }

  /** A reader at `cursor` lags too far behind when the next event it needs was trimmed. */
  predicate Lagging(head: nat, max: Positive, cursor: nat) {
    head - Max(cursor, 1) > max - 1
  }

  /**
   A poll always moves the cursor to the newest event. It skips an event exactly when the
   reader lags: the head is more than `max - 1` beyond the cursor (beyond the first event,
   for a reader that has seen none).
   */
  lemma PollSkipsExactlyWhenLagging(h: seq<Event>, max: Positive, cursor: nat)
    requires max >= 2 && FullHistory(h) && cursor <= |h|
    ensures var frames := Pending(Retained(h, max), cursor);
            && EndOf(cursor, frames) == |h|
            && Chain(cursor, frames)
            && (Numbers(frames) == Range(cursor, |h|) <==> !Lagging(|h|, max, cursor))
  {
    if |h| <= max {
      assert h[0..] == h;
      PendingOfFull(h, 0, cursor);
      NumbersOfSteps(cursor, |h|);
      ChainOfSteps(cursor, cursor, |h|);
    } else if cursor == 0 {
      PendingOfTrimmed(h, max, 0);
      FirstThenTail(|h| - (max - 1), |h|);
      RangeAt(0, |h|);
    } else {
      var from := Max(|h| - (max - 1), cursor);
      PendingOfTrimmed(h, max, cursor);
      assert [] + Steps(from, |h|) == Steps(from, |h|);
      LaterTail(cursor, from, |h|);
    }
  }

  /** A tail that starts at `from` serves a reader at `start` without a gap only if they meet. */
  lemma LaterTail(start: nat, from: nat, to: nat)
    requires start <= from <= to && (from == to ==> start == from)
    ensures EndOf(start, Steps(from, to)) == to && Chain(start, Steps(from, to))
    ensures Numbers(Steps(from, to)) == Range(start, to) <==> start == from
  {
    NumbersOfSteps(from, to);
    ChainOfSteps(start, from, to);
    RangeAt(from, to);
    RangeAt(start, to);
  }

  /** `run.started` followed by a tail that starts later is a walk with a gap. */
  lemma FirstThenTail(from: nat, to: nat)
    requires 2 <= from < to
    ensures EndOf(0, [Frame(false, 1)] + Steps(from, to)) == to
    ensures Chain(0, [Frame(false, 1)] + Steps(from, to))
    ensures |Numbers([Frame(false, 1)] + Steps(from, to))| == 1 + to - from
  {
    var first, tail := [Frame(false, 1)], Steps(from, to);
    ChainOfSteps(1, from, to);
    assert first[..0] == [];
    assert Chain(0, first);
    ChainsJoin(0, first, tail);
    NumbersOfSteps(from, to);
    NumbersPrepend(first[0], tail);
    RangeAt(from, to);
  }

  lemma {:induction false} NumbersPrepend(f: Frame, frames: seq<Frame>)
    requires !f.heartbeat
    ensures Numbers([f] + frames) == [f.sequence] + Numbers(frames)
  {
    if frames == [] {
      assert [f] + frames == [f] && [f][..0] == [];
    } else {
      var n := |frames| - 1;
      assert ([f] + frames)[..|frames|] == [f] + frames[..n];
      NumbersPrepend(f, frames[..n]);
    }
  }

  lemma {:induction false} RangeAt(from: nat, to: nat)
    requires from <= to
    ensures |Range(from, to)| == to - from
    ensures forall i :: 0 <= i < to - from ==> Range(from, to)[i] == from + 1 + i
  {
    if from < to {
      RangeAt(from, to - 1);
    }
  }

  lemma {:induction false} RangesJoin(a: nat, b: nat, c: nat)
    requires a <= b <= c
    ensures Range(a, c) == Range(a, b) + Range(b, c)
  {
    if b < c {
      RangesJoin(a, b, c - 1);
    }
  }

  lemma {:induction false} NumbersJoin(a: seq<Frame>, b: seq<Frame>)
    ensures Numbers(a + b) == Numbers(a) + Numbers(b)
  {
    if b == [] {
      assert a + b == a;
    } else {
      assert (a + b)[..|a + b| - 1] == a + b[..|b| - 1];
      NumbersJoin(a, b[..|b| - 1]);
    }
  }

  lemma {:induction false} ChainsJoin(start: nat, a: seq<Frame>, b: seq<Frame>)
    requires Chain(start, a) && Chain(EndOf(start, a), b)
    ensures Chain(start, a + b) && EndOf(start, a + b) == EndOf(EndOf(start, a), b)
  {
    if b == [] {
      assert a + b == a;
    } else {
      assert (a + b)[..|a + b| - 1] == a + b[..|b| - 1];
      ChainsJoin(start, a, b[..|b| - 1]);
    }
  }

  lemma {:induction false} ChainSplits(start: nat, a: seq<Frame>, b: seq<Frame>)
    requires Chain(start, a + b)
    ensures Chain(start, a) && Chain(EndOf(start, a), b)
    ensures EndOf(EndOf(start, a), b) == EndOf(start, a + b)
  {
    if b == [] {
      assert a + b == a;
    } else {
      assert (a + b)[..|a + b| - 1] == a + b[..|b| - 1];
      ChainSplits(start, a, b[..|b| - 1]);
    }
  }

  function LastNumber(start: nat, numbers: seq<nat>): nat {
    if numbers == [] then start else numbers[|numbers| - 1]
  }

  lemma IncreasingAppend(start: nat, numbers: seq<nat>, n: nat)
    requires Increasing(start, numbers) && LastNumber(start, numbers) < n
    ensures Increasing(start, numbers + [n])
  {
  }

  lemma {:induction false} ChainNumbersIncrease(start: nat, frames: seq<Frame>)
    requires Chain(start, frames)
    ensures Increasing(start, Numbers(frames))
    ensures EndOf(start, frames) == LastNumber(start, Numbers(frames))
  {
    if frames != [] {
      var n := |frames| - 1;
      ChainNumbersIncrease(start, frames[..n]);
      if !frames[n].heartbeat {
        IncreasingAppend(start, Numbers(frames[..n]), frames[n].sequence);
      }
    }
  }

  /* ---------- the protocol ---------- */

  datatype Connection = Connection(cursor: nat, inFlight: seq<Frame>, closing: bool)

  /**
   `received` lists every frame the client ever handed on, `last` is its Last-Event-ID,
   `lagged` records whether any poll found its reader lagging, and `log` is the full history.
   */
  datatype State = State(
    run: Run,
    log: seq<Event>,
    connection: Option<Connection>,
    last: nat,
    received: seq<Frame>,
    finished: bool,
    lagged: bool)

  datatype Move =
    | AppendMove(kind: string, status: string)
    | Connect          // the client opens a stream after its last event
    | Poll             // one round of the server loop
    | Heartbeat
    | Deliver(count: nat) // the client reads the next frames
    | Break            // the connection fails; what was in flight is lost
    | Finish           // the client sees the end of a closed stream

  function Begin(run: Run, log: seq<Event>, start: nat): State {
    State(run, log, None, start, [], false, false)
  }

  function PollOnce(s: State, max: Positive, c: Connection): State {
    var frames := Pending(s.run.events, c.cursor);
    s.(connection := Some(Connection(EndOf(c.cursor, frames), c.inFlight + frames, Terminal(s.run.status))),
       lagged := s.lagged || Lagging(|s.log|, max, c.cursor))
  }

  function Read(s: State, c: Connection, count: nat): State
    requires count <= |c.inFlight|
  {
    var frames := c.inFlight[..count];
    var number := EndOf(s.last, frames);
    s.(connection := Some(c.(inFlight := c.inFlight[count..])),
       last := if number != 0 then number else s.last,
       received := s.received + frames)
  }

  function Step(s: State, max: Positive, move: Move): State {
    match move
    case AppendMove(kind, status) =>
      s.(run := Append(s.run, max, kind, status), log := s.log + [NewEvent(s.run, kind, status)])
    case Connect =>
      if s.connection.None? && !s.finished then s.(connection := Some(Connection(s.last, [], false))) else s
    case Poll =>
      if s.connection.Some? && !s.connection.value.closing then PollOnce(s, max, s.connection.value) else s
    case Heartbeat =>
      if s.connection.Some? && !s.connection.value.closing then
        var c := s.connection.value;
        s.(connection := Some(c.(inFlight := c.inFlight + [Frame(true, c.cursor)])))
      else s
    case Deliver(count) =>
      if s.connection.Some? && count <= |s.connection.value.inFlight| then Read(s, s.connection.value, count) else s
    case Break =>
      s.(connection := None)
    case Finish =>
      if s.connection.Some? && s.connection.value.closing && s.connection.value.inFlight == [] then
        s.(connection := None, finished := true)
      else s
  }

  function Play(s: State, max: Positive, moves: seq<Move>): State {
    if moves == [] then s else Step(Play(s, max, moves[..|moves| - 1]), max, moves[|moves| - 1])
  }

  ghost predicate LogOk(s: State, max: Positive)
    requires max >= 2
  {
    FullHistory(s.log) && s.run.events == Retained(s.log, max)
  }

  /** What the client has plus what is under way is one walk that ends at the cursor. */
  ghost predicate StreamOk(s: State, start: nat) {
    && Chain(start, s.received)
    && s.last == EndOf(start, s.received) <= |s.log|
    && (s.connection.Some? ==>
          var c := s.connection.value;
          Chain(s.last, c.inFlight) && EndOf(s.last, c.inFlight) == c.cursor <= |s.log|)
  }

  /** Without lag the walk has no gaps. */
  ghost predicate Gapless(s: State, start: nat) {
    !s.lagged ==>
      && Numbers(s.received) == Range(start, s.last)
      && (s.connection.Some? ==> Numbers(s.connection.value.inFlight) == Range(s.last, s.connection.value.cursor))
  }

  ghost predicate Inv(s: State, max: Positive, start: nat)
    requires max >= 2
  {
    LogOk(s, max) && StreamOk(s, start) && Gapless(s, start)
  }

  lemma PollKeepsInv(s: State, max: Positive, start: nat)
    requires max >= 2 && Inv(s, max, start) && s.connection.Some?
    ensures Inv(PollOnce(s, max, s.connection.value), max, start)
    ensures PollOnce(s, max, s.connection.value).connection.value.cursor == |s.log|
  {
    var c := s.connection.value;
    var frames := Pending(s.run.events, c.cursor);
    PollSkipsExactlyWhenLagging(s.log, max, c.cursor);
    ChainsJoin(s.last, c.inFlight, frames);
    NumbersJoin(c.inFlight, frames);
    ChainEnd(s.last, c.inFlight);
    RangesJoin(s.last, c.cursor, |s.log|);
  }

  lemma {:induction false} ChainEnd(start: nat, frames: seq<Frame>)
    requires Chain(start, frames)
    ensures EndOf(start, frames) >= start
  {
    if frames != [] {
      ChainEnd(start, frames[..|frames| - 1]);
    }
  }

  lemma HeartbeatKeepsInv(s: State, max: Positive, start: nat)
    requires max >= 2 && Inv(s, max, start)
    ensures Inv(Step(s, max, Heartbeat), max, start)
  {
    if s.connection.Some? {
      var c := s.connection.value;
      var beat := [Frame(true, c.cursor)];
      assert beat[..0] == [];
      assert Chain(c.cursor, beat);
      ChainsJoin(s.last, c.inFlight, beat);
      assert Numbers(beat) == [];
      NumbersJoin(c.inFlight, beat);
    }
  }

  lemma ReadKeepsInv(s: State, max: Positive, start: nat, count: nat)
    requires max >= 2 && Inv(s, max, start)
    requires s.connection.Some? && count <= |s.connection.value.inFlight|
    ensures Inv(Read(s, s.connection.value, count), max, start)
  {
    var c := s.connection.value;
    var now, later := c.inFlight[..count], c.inFlight[count..];
    assert c.inFlight == now + later;
    ChainSplits(s.last, now, later);
    ChainEnd(s.last, now);
    ChainEnd(EndOf(s.last, now), later);
    ChainsJoin(start, s.received, now);
    NumbersJoin(now, later);
    NumbersJoin(s.received, now);
    ChainEnd(start, s.received);
    if !s.lagged {
      ReadGapless(s.last, now, later, c.cursor);
      RangesJoin(start, s.last, EndOf(s.last, now));
    }
  }

  /** A gapless walk that is cut in two consists of two gapless walks. */
  lemma ReadGapless(start: nat, now: seq<Frame>, later: seq<Frame>, end: nat)
    requires Chain(start, now) && Chain(EndOf(start, now), later) && EndOf(EndOf(start, now), later) == end
    requires Numbers(now) + Numbers(later) == Range(start, end)
    ensures Numbers(now) == Range(start, EndOf(start, now))
    ensures Numbers(later) == Range(EndOf(start, now), end)
  {
    var middle := EndOf(start, now);
    ChainEnd(start, now);
    ChainEnd(middle, later);
    ChainNumbersIncrease(start, now);
    RangesJoin(start, middle, end);
    RangeAt(start, end);
    RangeAt(start, middle);
    var n := |Numbers(now)|;
    if n > 0 {
      assert Numbers(now)[n - 1] == (Numbers(now) + Numbers(later))[n - 1] == start + n;
    }
    assert n == middle - start;
    assert Numbers(now) == Range(start, end)[..n] == Range(start, middle);
    assert Numbers(later) == Range(start, end)[n..] == Range(middle, end);
  }

  lemma StepKeepsInv(s: State, max: Positive, start: nat, move: Move)
    requires max >= 2 && Inv(s, max, start)
    ensures Inv(Step(s, max, move), max, start)
  {
    match move
    case AppendMove(kind, status) => AppendKeepsRetained(s.run, max, s.log, kind, status);
    case Poll =>
      if s.connection.Some? && !s.connection.value.closing { PollKeepsInv(s, max, start); }
    case Heartbeat => HeartbeatKeepsInv(s, max, start);
    case Deliver(count) =>
      if s.connection.Some? && count <= |s.connection.value.inFlight| { ReadKeepsInv(s, max, start, count); }
    case _ =>
  }

  lemma {:induction false} PlayKeepsInv(s: State, max: Positive, start: nat, moves: seq<Move>)
    requires max >= 2 && Inv(s, max, start)
    ensures Inv(Play(s, max, moves), max, start)
  {
    if moves != [] {
      PlayKeepsInv(s, max, start, moves[..|moves| - 1]);
      StepKeepsInv(Play(s, max, moves[..|moves| - 1]), max, start, moves[|moves| - 1]);
    }
  }

  /**
   Over any number of disconnects and reconnects the client's events are strictly
   increasing, hence never repeated; they are events of the run; and as long as no poll
   found the reader lagging they are all events after `start`, without a gap.
   */
  lemma DeliveryIsOrderedAndGapless(run: Run, log: seq<Event>, max: Positive, start: nat, moves: seq<Move>)
    requires max >= 2 && FullHistory(log) && run.events == Retained(log, max) && start <= |log|
    ensures var s := Play(Begin(run, log, start), max, moves);
            && Increasing(start, Numbers(s.received))
            && (forall n :: n in Numbers(s.received) ==> start < n <= |s.log|)
            && (!s.lagged ==> Numbers(s.received) == Range(start, s.last))
  {
    assert Range(start, start) == [];
    PlayKeepsInv(Begin(run, log, start), max, start, moves);
    var s := Play(Begin(run, log, start), max, moves);
    ChainNumbersIncrease(start, s.received);
    IncreasingBounds(start, Numbers(s.received));
  }

  lemma IncreasingBounds(start: nat, numbers: seq<nat>)
    requires Increasing(start, numbers)
    ensures forall n :: n in numbers ==> start < n <= LastNumber(start, numbers)
  {
    forall n | n in numbers ensures start < n <= LastNumber(start, numbers) {
      var i :| 0 <= i < |numbers| && numbers[i] == n;
      assert i == 0 || numbers[0] < numbers[i];
      assert i == |numbers| - 1 || numbers[i] < numbers[|numbers| - 1];
    }
  }

  /** The client reads all that is in flight and then sees the end of the stream. */
  function Drain(s: State, max: Positive): State
    requires s.connection.Some?
  {
    Step(Step(s, max, Deliver(|s.connection.value.inFlight|)), max, Finish)
  }

  /**
   A poll closes the stream exactly when the run's status is terminal, and a client that
   then reads to the end has every number up to the newest event at that poll.
   */
  lemma ClosingSentEverything(s: State, max: Positive, start: nat)
    requires max >= 2 && Inv(s, max, start) && s.connection.Some? && !s.connection.value.closing
    ensures var next := Step(s, max, Poll);
            && (next.connection.value.closing <==> Terminal(s.run.status))
            && (Terminal(s.run.status) ==> Drain(next, max).finished && Drain(next, max).last == |s.log|)
  {
    PollKeepsInv(s, max, start);
    var c := Step(s, max, Poll).connection.value;
    assert c.inFlight[..|c.inFlight|] == c.inFlight;
    assert c.inFlight[|c.inFlight|..] == [];
  }

  /* ---------- the client's loop ---------- */

  /** What one request yields: the chunks of frames read, and whether the stream then ended. */
  datatype Response = Response(chunks: seq<seq<Frame>>, ended: bool)

  datatype Outcome = Outcome(last: nat, received: seq<Frame>, requests: nat, ended: bool)

  function Flatten(chunks: seq<seq<Frame>>): seq<Frame> {
    if chunks == [] then [] else Flatten(chunks[..|chunks| - 1]) + chunks[|chunks| - 1]
  }

  /** `lastEventId` after the chunks: a last number of zero is ignored. */
  function LastSeen(start: nat, chunks: seq<seq<Frame>>): nat {
    if chunks == [] then start
    else
      var before, chunk := LastSeen(start, chunks[..|chunks| - 1]), chunks[|chunks| - 1];
      if chunk == [] || chunk[|chunk| - 1].sequence == 0 then before else chunk[|chunk| - 1].sequence
  }

  const MAX_RETRIES := 5

  /** The reconnect loop, `attempt` failures behind it. */
  function Stream(server: (nat, nat) -> Response, attempt: nat, last: nat, received: seq<Frame>): Outcome
    requires attempt <= MAX_RETRIES
    decreases MAX_RETRIES - attempt
  {
    var response := server(attempt, last);
    var next, frames := LastSeen(last, response.chunks), received + Flatten(response.chunks);
    if response.ended || attempt == MAX_RETRIES then Outcome(next, frames, attempt + 1, response.ended)
    else Stream(server, attempt + 1, next, frames)
  }

  /** Where the frames walk on from the last number, the last number seen is where they end. */
  lemma {:induction false} LastSeenIsEnd(start: nat, chunks: seq<seq<Frame>>)
    requires Chain(start, Flatten(chunks))
    ensures LastSeen(start, chunks) == EndOf(start, Flatten(chunks))
  {
    if chunks != [] {
      var n := |chunks| - 1;
      ChainSplits(start, Flatten(chunks[..n]), chunks[n]);
      LastSeenIsEnd(start, chunks[..n]);
      ChainEnd(EndOf(start, Flatten(chunks[..n])), chunks[n]);
    }
  }

  /* What the modelled server sends. */

  /** A round of the server loop: a poll of some snapshot of the log, or a heartbeat. */
  datatype Round = Snapshot(events: seq<Event>) | Beat

  /** All that the loop sends to a client that resumes after `cursor`. */
  function Sent(rounds: seq<Round>, cursor: nat): seq<Frame> {
    if rounds == [] then []
    else
      var before := Sent(rounds[..|rounds| - 1], cursor);
      var at := EndOf(cursor, before);
      match rounds[|rounds| - 1]
      case Snapshot(events) => before + Pending(events, at)
      case Beat => before + [Frame(true, at)]
  }

  /** Whatever the log holds, a poll walks on from the cursor. */
  lemma {:induction false} PendingIsChain(events: seq<Event>, cursor: nat)
    ensures Chain(cursor, Pending(events, cursor))
  {
    if events != [] {
      if events[0].sequence <= cursor {
        PendingIsChain(events[1..], cursor);
      } else {
        var first, next := [Frame(false, events[0].sequence)], events[0].sequence;
        PendingIsChain(events[1..], next);
        assert first[..0] == [];
        assert Chain(cursor, first);
        ChainsJoin(cursor, first, Pending(events[1..], next));
      }
    }
  }

  lemma {:induction false} SentIsChain(rounds: seq<Round>, cursor: nat)
    ensures Chain(cursor, Sent(rounds, cursor))
  {
    if rounds != [] {
      var n := |rounds| - 1;
      SentIsChain(rounds[..n], cursor);
      var at := EndOf(cursor, Sent(rounds[..n], cursor));
      match rounds[n]
      case Snapshot(events) =>
        PendingIsChain(events, at);
        ChainsJoin(cursor, Sent(rounds[..n], cursor), Pending(events, at));
      case Beat =>
        var beat := [Frame(true, at)];
        assert beat[..0] == [];
        assert Chain(at, beat);
        ChainsJoin(cursor, Sent(rounds[..n], cursor), beat);
    }
  }

  /** Every answer of the server is, in chunks, as much as arrived of what the loop sent. */
  ghost predicate FromLoop(server: (nat, nat) -> Response) {
    forall attempt, last :: exists rounds :: Flatten(server(attempt, last).chunks) <= Sent(rounds, last)
  }

  /** A server that always resumes after the number it is given. */
  ghost predicate Resumes(server: (nat, nat) -> Response) {
    forall attempt, last :: Chain(last, Flatten(server(attempt, last).chunks))
  }

  /** The polling server resumes, whatever the log does and wherever the connection breaks. */
  lemma LoopResumes(server: (nat, nat) -> Response)
    requires FromLoop(server)
    ensures Resumes(server)
  {
    forall attempt, last ensures Chain(last, Flatten(server(attempt, last).chunks)) {
      var arrived := Flatten(server(attempt, last).chunks);
      var rounds :| arrived <= Sent(rounds, last);
      SentIsChain(rounds, last);
      assert Sent(rounds, last) == arrived + Sent(rounds, last)[|arrived|..];
      ChainSplits(last, arrived, Sent(rounds, last)[|arrived|..]);
    }
  }

  lemma {:induction false} StreamKeepsChain(
      server: (nat, nat) -> Response, attempt: nat, start: nat, last: nat, received: seq<Frame>)
    requires Resumes(server) && attempt <= MAX_RETRIES
    requires Chain(start, received) && last == EndOf(start, received)
    ensures var o := Stream(server, attempt, last, received);
            && Chain(start, o.received) && o.last == EndOf(start, o.received)
            && attempt < o.requests <= MAX_RETRIES + 1
            && (!o.ended ==> o.requests == MAX_RETRIES + 1)
    decreases MAX_RETRIES - attempt
  {
    var response := server(attempt, last);
    var frames := Flatten(response.chunks);
    ChainsJoin(start, received, frames);
    LastSeenIsEnd(last, response.chunks);
    if !response.ended && attempt < MAX_RETRIES {
      StreamKeepsChain(server, attempt + 1, start, EndOf(last, frames), received + frames);
    }
  }

  /**
   Against the polling server the client hands on strictly increasing event numbers, asks at
   most six times, and gives up only after five retries.
   */
  lemma StreamNeverRepeats(server: (nat, nat) -> Response, initial: nat)
    requires FromLoop(server)
    ensures var o := Stream(server, 0, initial, []);
            && Increasing(initial, Numbers(o.received))
            && o.last == LastNumber(initial, Numbers(o.received))
            && 0 < o.requests <= MAX_RETRIES + 1
            && (!o.ended ==> o.requests == MAX_RETRIES + 1)
  {
    LoopResumes(server);
    StreamKeepsChain(server, 0, initial, initial, []);
    ChainNumbersIncrease(initial, Stream(server, 0, initial, []).received);
  }

  lemma FlattenAppend(chunks: seq<seq<Frame>>, i: nat)
    requires i < |chunks|
    ensures Flatten(chunks[..i + 1]) == Flatten(chunks[..i]) + chunks[i]
  {
    assert chunks[..i + 1][..i] == chunks[..i];
  }

  /** The inner loop: read the chunks of one response. */
  method ReadChunks(chunks: seq<seq<Frame>>, start: nat) returns (last: nat, frames: seq<Frame>)
    ensures frames == Flatten(chunks)
    ensures last == LastSeen(start, chunks)
    ensures Chain(start, frames) ==> last == EndOf(start, frames)
  {
    last, frames := start, [];
    for i := 0 to |chunks|
      invariant frames == Flatten(chunks[..i])
      invariant last == LastSeen(start, chunks[..i])
    {
      FlattenAppend(chunks, i);
      assert chunks[..i + 1][..i] == chunks[..i];
      var events := chunks[i];
      if events != [] {
        var number := events[|events| - 1].sequence;
        last := if number != 0 then number else last;
        frames := frames + events;
      }
    }
    assert chunks[..|chunks|] == chunks;
    if Chain(start, frames) {
      LastSeenIsEnd(start, chunks);
    }
  }

  /** `streamAgentRun`: the outer loop over requests. */
  method StreamAgentRun(server: (nat, nat) -> Response, initial: nat) returns (outcome: Outcome)
    ensures outcome == Stream(server, 0, initial, [])
  {
    var last, attempt, received := initial, 0, [];
    while true
      invariant attempt <= MAX_RETRIES
      invariant Stream(server, attempt, last, received) == Stream(server, 0, initial, [])
      decreases MAX_RETRIES - attempt
    {
      var response := server(attempt, last);
      var next, frames := ReadChunks(response.chunks, last);
      last, received := next, received + frames;
      if response.ended || attempt >= MAX_RETRIES {
        return Outcome(last, received, attempt + 1, response.ended);
      }
      attempt := attempt + 1;
    }
  }
}
