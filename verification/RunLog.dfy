/**
 The event log of an agent run: appending under the coordinator's lock, trimming to a
 maximum length, and the coordinator's lock sections. The trimmed log is compared with the
 full history of what was ever appended, which the program does not keep.
 */
module RunLog {
  import opened Wrappers

  /** An empty status means that the event carries none. */
  datatype Event = Event(sequence: nat, kind: string, status: string)

  datatype Run = Run(
    runId: string,
    sessionId: string,
    userId: string,
    clientMessageId: string,
    status: string,
    cancelRequested: bool,
    events: seq<Event>)

  predicate Terminal(status: string) {
    status == "completed" || status == "failed" || status == "cancelled"
  }

  const STARTED := "run.started"
  const CANCELLED := "run.cancelled"

  /** Event types whose status becomes the run's status; `<=` is "starts with". */
  predicate CarriesStatus(kind: string) {
    "run." <= kind || kind == "phase.changed" || "response." <= kind || kind == "error"
  }

  function LastSequence(events: seq<Event>): nat {
    if events == [] then 0 else events[|events| - 1].sequence
  }

  function FirstStarted(events: seq<Event>): Option<Event> {
    if events == [] then None
    else if events[0].kind == STARTED then Some(events[0])
    else FirstStarted(events[1..])
  }

  /** `s[-n:]` for a positive `n`. */
  function LastOf(s: seq<Event>, n: Positive): seq<Event> {
    if |s| <= n then s else s[|s| - n..]
  }

  function OtherThan(s: seq<Event>, sequence: nat): seq<Event> {
    if s == [] then []
    else if s[0].sequence == sequence then OtherThan(s[1..], sequence)
    else [s[0]] + OtherThan(s[1..], sequence)
  }

  /** Keep the first event and the most recent others. */
  function Trim(events: seq<Event>, max: Positive): seq<Event> {
    if |events| <= max then events
    else
      match FirstStarted(events)
      case None => LastOf(events, max)
      case Some(started) =>
        if max == 1 then [started]
        else [started] + LastOf(OtherThan(LastOf(events, max), started.sequence), max - 1)
  }

  function NewEvent(run: Run, kind: string, status: string): Event {
    Event(LastSequence(run.events) + 1, kind, status)
  }

  /** `_append_locked`. */
  function Append(run: Run, max: Positive, kind: string, status: string): Run {
    run.(events := Trim(run.events + [NewEvent(run, kind, status)], max),
         status := if status != "" && CarriesStatus(kind) then status else run.status)
  }

  function NewRun(runId: string, sessionId: string, userId: string, clientMessageId: string, max: Positive): Run {
    Append(Run(runId, sessionId, userId, clientMessageId, "queued", false, []), max, STARTED, "queued")
  }

  /** The lock section of `cancel` for the run's owner. */
  function Cancel(run: Run, max: Positive): Run {
    if Terminal(run.status) then run
    else Append(run.(cancelRequested := true), max, CANCELLED, "cancelled")
  }

  /* ---------- the log against the full history ---------- */

  /** A full history: numbered from one, and opened by `run.started`. */
  ghost predicate FullHistory(h: seq<Event>) {
    && h != []
    && h[0].kind == STARTED
    && forall i :: 0 <= i < |h| ==> h[i].sequence == i + 1
  }

  /** What a log of at most `max` events holds of the history `h`. */
  ghost function Retained(h: seq<Event>, max: Positive): seq<Event>
    requires h != [] && max >= 2
  {
    if |h| <= max then h else [h[0]] + h[|h| - (max - 1)..]
  }

  lemma {:induction false} OtherThanAll(s: seq<Event>, sequence: nat)
    requires forall i :: 0 <= i < |s| ==> s[i].sequence != sequence
    ensures OtherThan(s, sequence) == s
  {
    if s != [] {
      OtherThanAll(s[1..], sequence);
    }
  }

  /** Trimming one event too many keeps the first event and the last `max - 1`. */
  lemma TrimByOne(longer: seq<Event>, max: Positive)
    requires max >= 2 && |longer| == max + 1 && longer[0].kind == STARTED
    requires forall i :: 0 < i < |longer| ==> longer[i].sequence != longer[0].sequence
    ensures Trim(longer, max) == [longer[0]] + longer[2..]
  {
    assert FirstStarted(longer) == Some(longer[0]);
    assert LastOf(longer, max) == longer[1..];
    OtherThanAll(longer[1..], longer[0].sequence);
    assert longer[1..][1..] == longer[2..];
  }

  /** Appending to a trimmed log gives the trimmed log of the longer history. */
  lemma AppendKeepsRetained(run: Run, max: Positive, h: seq<Event>, kind: string, status: string)
    requires max >= 2 && FullHistory(h) && run.events == Retained(h, max)
    ensures var e := NewEvent(run, kind, status);
            && e.sequence == |h| + 1
            && FullHistory(h + [e])
            && Append(run, max, kind, status).events == Retained(h + [e], max)
  {
    var e := NewEvent(run, kind, status);
    assert run.events[|run.events| - 1] == h[|h| - 1];
    var longer := run.events + [e];
    if |longer| > max {
      TrimByOne(longer, max);
      assert [longer[0]] + longer[2..] == Retained(h + [e], max);
    }
  }

  /** The history after the lock section of `cancel`. */
  ghost function CancelHistory(run: Run, h: seq<Event>): seq<Event> {
    if Terminal(run.status) then h else h + [Event(|h| + 1, CANCELLED, "cancelled")]
  }

  lemma CancelKeepsRetained(run: Run, max: Positive, h: seq<Event>)
    requires max >= 2 && FullHistory(h) && run.events == Retained(h, max)
    ensures FullHistory(CancelHistory(run, h))
    ensures Cancel(run, max).events == Retained(CancelHistory(run, h), max)
    ensures Terminal(Cancel(run, max).status) && Cancel(run, max).runId == run.runId
    ensures Cancel(run, max).cancelRequested <==> run.cancelRequested || !Terminal(run.status)
  {
    if !Terminal(run.status) {
      AppendKeepsRetained(run.(cancelRequested := true), max, h, CANCELLED, "cancelled");
    }
  }

  lemma NewRunRetained(runId: string, sessionId: string, userId: string, clientMessageId: string, max: Positive)
    requires max >= 2
    ensures var run := NewRun(runId, sessionId, userId, clientMessageId, max);
            && FullHistory([Event(1, STARTED, "queued")])
            && run.events == Retained([Event(1, STARTED, "queued")], max)
            && run.status == "queued"
  {
  }

  /** The events that successive appends to a run hand out. */
  function Issued(run: Run, max: Positive, appends: seq<(string, string)>): seq<Event>
    decreases |appends|
  {
    if appends == [] then []
    else
      [NewEvent(run, appends[0].0, appends[0].1)]
      + Issued(Append(run, max, appends[0].0, appends[0].1), max, appends[1..])
  }

  lemma {:induction false} IssuedContinueHistory(run: Run, max: Positive, h: seq<Event>, appends: seq<(string, string)>)
    requires max >= 2 && FullHistory(h) && run.events == Retained(h, max)
    ensures var issued := Issued(run, max, appends);
            |issued| == |appends| && forall i :: 0 <= i < |issued| ==> issued[i].sequence == |h| + 1 + i
    decreases |appends|
  {
    if appends != [] {
      AppendKeepsRetained(run, max, h, appends[0].0, appends[0].1);
      IssuedContinueHistory(Append(run, max, appends[0].0, appends[0].1), max,
                            h + [NewEvent(run, appends[0].0, appends[0].1)], appends[1..]);
    }
  }

  ghost predicate DistinctSequences(events: seq<Event>) {
    forall i, j :: 0 <= i < j < |events| ==> events[i].sequence != events[j].sequence
  }

  lemma OneEventLog(run: Run, kind: string, status: string)
    requires |run.events| == 1 && run.events[0].kind == STARTED
    ensures Append(run, 1, kind, status).events == run.events
  {
    var longer := run.events + [NewEvent(run, kind, status)];
    assert FirstStarted(longer) == Some(run.events[0]);
  }

  /**
   Sequence numbers identify the events of every run exactly when the log may hold at least
   two events. A log of one event always holds `run.started`, so every later event is
   numbered two.
   */
  lemma SequencesIdentifyEvents(run: Run, max: Positive)
    requires run == NewRun(run.runId, run.sessionId, run.userId, run.clientMessageId, max)
    ensures (forall appends: seq<(string, string)> :: DistinctSequences(Issued(run, max, appends))) <==> max >= 2
  {
    if max >= 2 {
      NewRunRetained(run.runId, run.sessionId, run.userId, run.clientMessageId, max);
      forall appends: seq<(string, string)> ensures DistinctSequences(Issued(run, max, appends)) {
        IssuedContinueHistory(run, max, [Event(1, STARTED, "queued")], appends);
      }
    } else {
      var twice := [("tool.started", ""), ("tool.completed", "")];
      var issued := Issued(run, max, twice);
      assert twice[1..] == [twice[1]];
      var again := Append(run, max, twice[0].0, twice[0].1);
      OneEventLog(run, twice[0].0, twice[0].1);
      assert issued == [NewEvent(run, twice[0].0, twice[0].1)] + Issued(again, max, twice[1..]);
      assert Issued(again, max, twice[1..])[0] == NewEvent(again, twice[1].0, twice[1].1);
      assert issued[0].sequence == issued[1].sequence;
      assert !DistinctSequences(Issued(run, max, twice));
    }
  }

  /* ---------- the coordinator ---------- */

  datatype Session = Session(sessionId: string, siteId: string, userId: string)

  /** Sessions, runs and client message ids over a store that keeps what it is given. */
  class AgentRunCoordinator {
    const maxEvents: Positive
    var sessions: map<string, Session>
    var runs: map<string, Run>
    var clientRuns: map<(string, string), string>
    ghost var history: map<string, seq<Event>>

    /** Every log is the trimmed form of what was ever appended to its run. */
    ghost predicate Valid()
      reads this
    {
      && maxEvents >= 2
      && runs.Keys == history.Keys
      && forall id :: id in runs ==>
           && runs[id].runId == id
           && FullHistory(history[id])
           && runs[id].events == Retained(history[id], maxEvents)
    }

    constructor (maxEvents: Positive)
      requires maxEvents >= 2
      ensures Valid() && this.maxEvents == maxEvents
      ensures sessions == map[] && runs == map[] && clientRuns == map[] && history == map[]
    {
      this.maxEvents := maxEvents;
      sessions, runs, clientRuns, history := map[], map[], map[], map[];
    }

    /** `create_session`, with the generated id as a parameter. */
    method CreateSession(id: string, siteId: string, userId: string) returns (session: Session)
      requires Valid()
      modifies this
      ensures Valid() && session == Session(id, siteId, userId)
      ensures sessions == old(sessions)[id := session]
      ensures runs == old(runs) && clientRuns == old(clientRuns) && history == old(history)
    {
      session := Session(id, siteId, userId);
      sessions := sessions[id := session];
    }

    /**
     The lock section of `start_run`. A message id that already names a run returns that run
     and changes nothing, so resubmitting a message is harmless.
     */
    method StartRun(sessionId: string, userId: string, clientMessageId: string, newId: string)
      returns (result: Result<Run>, created: bool)
      requires Valid() && newId !in runs
      modifies this
      ensures Valid() && sessions == old(sessions)
      ensures result.Err? <==> sessionId !in sessions || sessions[sessionId].userId != userId
      ensures !created ==> runs == old(runs) && clientRuns == old(clientRuns) && history == old(history)
      ensures var key := (sessionId, clientMessageId);
              created <==> result.Ok? && (key !in old(clientRuns) || old(clientRuns)[key] !in old(runs))
      ensures result.Ok? && !created ==> result.value == runs[clientRuns[(sessionId, clientMessageId)]]
      ensures created ==>
                && runs == old(runs)[newId := result.value]
                && clientRuns == old(clientRuns)[(sessionId, clientMessageId) := newId]
                && history == old(history)[newId := [Event(1, STARTED, "queued")]]
                && result.value == NewRun(newId, sessionId, userId, clientMessageId, maxEvents)
      ensures result.Ok? ==>
                && (sessionId, clientMessageId) in clientRuns
                && clientRuns[(sessionId, clientMessageId)] in runs
    {
      created := false;
      if sessionId !in sessions || sessions[sessionId].userId != userId {
        return Err("agent_session_not_found"), false;
      }
      var key := (sessionId, clientMessageId);
      if key in clientRuns && clientRuns[key] in runs {
        return Ok(runs[clientRuns[key]]), false;
      }
      NewRunRetained(newId, sessionId, userId, clientMessageId, maxEvents);
      var run := NewRun(newId, sessionId, userId, clientMessageId, maxEvents);
      runs := runs[newId := run];
      clientRuns := clientRuns[key := newId];
      history := history[newId := [Event(1, STARTED, "queued")]];
      return Ok(run), true;
    }

    /** `append`: the event gets the next number of the whole history, trimmed or not. */
    method AppendEvent(runId: string, kind: string, status: string) returns (result: Result<Event>)
      requires Valid()
      modifies this
      ensures Valid() && sessions == old(sessions) && clientRuns == old(clientRuns)
      ensures result.Ok? <==> runId in old(runs)
      ensures result.Err? ==> runs == old(runs) && history == old(history)
      ensures result.Ok? ==>
                && result.value == Event(|old(history)[runId]| + 1, kind, status)
                && history == old(history)[runId := old(history)[runId] + [result.value]]
                && runs == old(runs)[runId := Append(old(runs)[runId], maxEvents, kind, status)]
    {
      if runId !in runs {
        return Err("agent_run_not_found");
      }
      AppendKeepsRetained(runs[runId], maxEvents, history[runId], kind, status);
      var event := NewEvent(runs[runId], kind, status);
      runs := runs[runId := Append(runs[runId], maxEvents, kind, status)];
      history := history[runId := history[runId] + [event]];
      return Ok(event);
    }

    /** `cancel`: flag the run and log the cancellation, unless its status is terminal. */
    method CancelRun(runId: string, userId: string) returns (result: Result<Run>)
      requires Valid()
      modifies this
      ensures Valid() && sessions == old(sessions) && clientRuns == old(clientRuns)
      ensures result.Ok? <==> runId in old(runs) && old(runs)[runId].userId == userId
      ensures result.Err? ==> runs == old(runs) && history == old(history)
      ensures result.Ok? ==>
                && result.value == Cancel(old(runs)[runId], maxEvents)
                && runs == old(runs)[runId := result.value]
                && history == old(history)[runId := CancelHistory(old(runs)[runId], old(history)[runId])]
                && Terminal(result.value.status)
    {
      if runId !in runs || runs[runId].userId != userId {
        return Err("agent_run_not_found");
      }
      var run := runs[runId];
      CancelKeepsRetained(run, maxEvents, history[runId]);
      if Terminal(run.status) {
        assert runs == runs[runId := run] && history == history[runId := history[runId]];
        return Ok(run);
      }
      history := history[runId := CancelHistory(run, history[runId])];
      run := run.(cancelRequested := true);
      run := Append(run, maxEvents, CANCELLED, "cancelled");
      runs := runs[runId := run];
      return Ok(run);
    }

    /** `cancel_requested`: an unknown run counts as not cancelled. */
    method CancelRequested(runId: string) returns (r: bool)
      requires Valid()
      ensures r <==> runId in runs && runs[runId].cancelRequested
    {
      r := runId in runs && runs[runId].cancelRequested;
    }
  }
}
