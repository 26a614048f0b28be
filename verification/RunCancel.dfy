/**
 Cancellation against a run's single executor thread. Every lock section is one atomic
 move: `cancel` by any number of callers, and the executor's separate "is it cancelled?"
 and "append" sections at each of its sites. A run of the protocol is any sequence of
 moves; a move that is not enabled where the executor stands does nothing.
 */
module RunCancel {
  import opened Wrappers
  import opened RunLog

  /** Where the executor stands. */
  datatype Site =
    | First            // before the unchecked first append of `_execute`
    | InFactory        // running the execute factory, between two `emit` calls
    | EmitChecked      // `emit` saw no cancellation and is about to append
    | Draining(left: nat) // before the check for the next of `left` projected events
    | DrainChecked(left: nat) // that check saw no cancellation
    | Handling         // in the exception handler, before its check
    | HandleChecked    // the handler saw no cancellation and is about to append the error
    | Stopped

  datatype Move =
    | CancelCall                        // the owner cancels
    | FirstAppend
    | EmitCheck
    | EmitAppend(kind: string, status: string)
    | FactoryReturns(count: nat)
    | DrainCheck
    | DrainAppend(kind: string, status: string)
    | HandleCheck
    | HandleAppend
    | Raise                             // an exception at the executor's current point

  datatype Author = Canceller | Executor
  datatype Entry = Entry(author: Author, event: Event)

  /** `log` records every append after `run.started`, with its author; nothing is trimmed. */
  datatype State = State(run: Run, site: Site, log: seq<Entry>)

  function Begin(run: Run): State {
    State(run, First, [])
  }

  function Write(s: State, max: Positive, kind: string, status: string, next: Site): State {
    State(Append(s.run, max, kind, status), next, s.log + [Entry(Executor, NewEvent(s.run, kind, status))])
  }

  /** A check of `cancel_requested`: go on to append, or give up. */
  function Check(s: State, goOn: Site, giveUp: Site): State {
    s.(site := if s.run.cancelRequested then giveUp else goOn)
  }

  function Step(s: State, max: Positive, move: Move): State {
    match move
    case CancelCall =>
      if Terminal(s.run.status) then s
      else State(Cancel(s.run, max), s.site,
                 s.log + [Entry(Canceller, NewEvent(s.run, CANCELLED, "cancelled"))])
    case FirstAppend =>
      if s.site == First then Write(s, max, "phase.changed", "planning", InFactory) else s
    case EmitCheck =>
      if s.site == InFactory then Check(s, EmitChecked, InFactory) else s
    case EmitAppend(kind, status) =>
      if s.site == EmitChecked then Write(s, max, kind, status, InFactory) else s
    case FactoryReturns(count) =>
      if s.site == InFactory then s.(site := Draining(count)) else s
    case DrainCheck =>
      if s.site.Draining? then
        if s.site.left == 0 then s.(site := Stopped) else Check(s, DrainChecked(s.site.left), Stopped)
      else s
    case DrainAppend(kind, status) =>
      if s.site.DrainChecked? && s.site.left > 0 then Write(s, max, kind, status, Draining(s.site.left - 1)) else s
    case HandleCheck =>
      if s.site == Handling then Check(s, HandleChecked, Stopped) else s
    case HandleAppend =>
      if s.site == HandleChecked then Write(s, max, "error", "failed", Stopped) else s
    case Raise =>
      if s.site.InFactory? || s.site.EmitChecked? || s.site.Draining? || s.site.DrainChecked? then s.(site := Handling)
      else s.(site := Stopped)
  }

  function Play(s: State, max: Positive, moves: seq<Move>): State {
    if moves == [] then s else Step(Play(s, max, moves[..|moves| - 1]), max, moves[|moves| - 1])
  }

  function Cancellations(log: seq<Entry>): nat {
    if log == [] then 0
    else Cancellations(log[..|log| - 1]) + if log[|log| - 1].author == Canceller then 1 else 0
  }

  /** How many events the executor appended after the first cancellation. */
  function LateAppends(log: seq<Entry>): nat {
    if log == [] then 0
    else
      var before := log[..|log| - 1];
      LateAppends(before)
      + if log[|log| - 1].author == Executor && Cancellations(before) > 0 then 1 else 0
  }

  /** The executor has passed its check, or needs none, and will append next. */
  predicate Armed(site: Site) {
    site.First? || site.EmitChecked? || site.DrainChecked? || site.HandleChecked?
  }

  /** A passed check for a projected event means that there is one. */
  predicate SiteOk(site: Site) {
    site.DrainChecked? ==> site.left > 0
  }

  ghost predicate Inv(s: State) {
    && SiteOk(s.site)
    && (s.run.cancelRequested <==> Cancellations(s.log) > 0)
    && (s.run.cancelRequested ==> LateAppends(s.log) + (if Armed(s.site) then 1 else 0) <= 1)
    && (!s.run.cancelRequested ==> LateAppends(s.log) == 0)
    && (s.run.cancelRequested ==>
          || Cancellations(s.log) <= LateAppends(s.log)
          || (Cancellations(s.log) == LateAppends(s.log) + 1 && s.run.status == "cancelled"))
  }

  lemma LogGrows(log: seq<Entry>, e: Entry)
    ensures Cancellations(log + [e]) == Cancellations(log) + if e.author == Canceller then 1 else 0
    ensures LateAppends(log + [e])
         == LateAppends(log) + if e.author == Executor && Cancellations(log) > 0 then 1 else 0
  {
    assert (log + [e])[..|log|] == log;
  }

  lemma WriteKeepsInv(s: State, max: Positive, kind: string, status: string, next: Site)
    requires Inv(s) && Armed(s.site) && !Armed(next)
    ensures Inv(Write(s, max, kind, status, next))
  {
    LogGrows(s.log, Entry(Executor, NewEvent(s.run, kind, status)));
  }

  lemma CancelKeepsInv(s: State, max: Positive)
    requires Inv(s)
    ensures Inv(Step(s, max, CancelCall))
  {
    LogGrows(s.log, Entry(Canceller, NewEvent(s.run, CANCELLED, "cancelled")));
    assert CarriesStatus(CANCELLED);
  }

  lemma StepKeepsInv(s: State, max: Positive, move: Move)
    requires Inv(s)
    ensures Inv(Step(s, max, move))
  {
    match move
    case CancelCall => CancelKeepsInv(s, max);
    case FirstAppend => if s.site == First { WriteKeepsInv(s, max, "phase.changed", "planning", InFactory); }
    case EmitAppend(k, t) => if s.site == EmitChecked { WriteKeepsInv(s, max, k, t, InFactory); }
    case DrainAppend(k, t) =>
      if s.site.DrainChecked? && s.site.left > 0 { WriteKeepsInv(s, max, k, t, Draining(s.site.left - 1)); }
    case HandleAppend => if s.site == HandleChecked { WriteKeepsInv(s, max, "error", "failed", Stopped); }
    case _ =>
  }

  lemma {:induction false} PlayKeepsInv(s: State, max: Positive, moves: seq<Move>)
    requires Inv(s)
    ensures Inv(Play(s, max, moves))
  {
    if moves != [] {
      PlayKeepsInv(s, max, moves[..|moves| - 1]);
      StepKeepsInv(Play(s, max, moves[..|moves| - 1]), max, moves[|moves| - 1]);
    }
  }

  /**
   In every interleaving the executor appends at most one event after the first
   cancellation, at most two cancellations are ever logged, and as long as the executor has
   appended nothing late the status is "cancelled".
   */
  lemma AtMostOneLateAppend(run: Run, max: Positive, moves: seq<Move>)
    requires !run.cancelRequested
    ensures var s := Play(Begin(run), max, moves);
            && LateAppends(s.log) <= 1
            && Cancellations(s.log) <= 2
            && Cancellations(s.log) <= LateAppends(s.log) + 1
            && (s.run.cancelRequested <==> Cancellations(s.log) > 0)
            && (s.run.cancelRequested && LateAppends(s.log) == 0 ==> s.run.status == "cancelled")
  {
    PlayKeepsInv(Begin(run), max, moves);
  }

  /** A cancellation request is never withdrawn, whatever follows it. */
  lemma {:induction false} CancellationIsPermanent(s: State, max: Positive, moves: seq<Move>)
    requires s.run.cancelRequested
    ensures Play(s, max, moves).run.cancelRequested
  {
    if moves != [] {
      CancellationIsPermanent(s, max, moves[..|moves| - 1]);
    }
  }

  /** Once a check has seen the request, the executor appends nothing any more. */
  lemma {:induction false} SeenCancellationSilences(s: State, max: Positive, moves: seq<Move>)
    requires s.run.cancelRequested && !Armed(s.site)
    ensures var t := Play(s, max, moves);
            t.run.cancelRequested && !Armed(t.site) && LateAppends(t.log) == LateAppends(s.log)
  {
    if moves != [] {
      var before := Play(s, max, moves[..|moves| - 1]);
      SeenCancellationSilences(s, max, moves[..|moves| - 1]);
      if moves[|moves| - 1].CancelCall? {
        LogGrows(before.log, Entry(Canceller, NewEvent(before.run, CANCELLED, "cancelled")));
      }
    }
  }

  /** `cancel_requested` answers whether a cancellation was ever logged, in every interleaving. */
  lemma FlagIsLogged(run: Run, max: Positive, moves: seq<Move>)
    requires !run.cancelRequested
    ensures var s := Play(Begin(run), max, moves); s.run.cancelRequested <==> Cancellations(s.log) > 0
  {
    PlayKeepsInv(Begin(run), max, moves);
  }

  /* ---------- late appends ---------- */

  lemma PlayOne(s: State, max: Positive, a: Move)
    ensures Play(s, max, [a]) == Step(s, max, a)
  {
    assert [a][..0] == [];
  }

  /** The append of an armed site, carrying the given event where the site leaves that open. */
  function LateMove(site: Site, kind: string, status: string): Move
    requires Armed(site)
  {
    match site
    case First => FirstAppend
    case EmitChecked => EmitAppend(kind, status)
    case DrainChecked(_) => DrainAppend(kind, status)
    case HandleChecked => HandleAppend
  }

  lemma LateMoveAppends(s: State, max: Positive, kind: string, status: string)
    requires Inv(s) && s.run.cancelRequested && Armed(s.site)
    ensures LateAppends(Step(s, max, LateMove(s.site, kind, status)).log) == LateAppends(s.log) + 1
  {
    var t := Step(s, max, LateMove(s.site, kind, status));
    assert t.log == s.log + [t.log[|s.log|]];
    LogGrows(s.log, t.log[|s.log|]);
  }

  /** Something is appended after a cancellation exactly when the executor had passed its last check already. */
  lemma LateAppendExactly(s: State, max: Positive)
    requires Inv(s) && s.run.cancelRequested
    ensures (exists moves :: LateAppends(Play(s, max, moves).log) > LateAppends(s.log)) <==> Armed(s.site)
  {
    if Armed(s.site) {
      var move := LateMove(s.site, "", "");
      PlayOne(s, max, move);
      LateMoveAppends(s, max, "", "");
      assert LateAppends(Play(s, max, [move]).log) > LateAppends(s.log);
    } else {
      forall moves ensures LateAppends(Play(s, max, moves).log) == LateAppends(s.log) {
        SeenCancellationSilences(s, max, moves);
      }
    }
  }

  /** The event's status replaces the run's by one that is not terminal. */
  predicate Reopens(e: Event) {
    e.status != "" && !Terminal(e.status) && CarriesStatus(e.kind)
  }

  /** A move takes a run out of a terminal status exactly when it appends an event that reopens it. */
  lemma MoveReopensExactly(s: State, max: Positive, move: Move)
    requires Terminal(s.run.status)
    ensures var t := Step(s, max, move);
            !Terminal(t.run.status) <==> |t.log| > |s.log| && Reopens(t.log[|s.log|].event)
  {
  }

  /** Where the executor may yet append an event that is not the handler's. */
  predicate MayReopen(site: Site) {
    site.First? || site.EmitChecked? || site.DrainChecked?
  }

  lemma {:induction false} StaysTerminal(s: State, max: Positive, moves: seq<Move>)
    requires s.run.cancelRequested && Terminal(s.run.status) && !MayReopen(s.site)
    ensures var t := Play(s, max, moves);
            t.run.cancelRequested && Terminal(t.run.status) && !MayReopen(t.site)
  {
    if moves != [] {
      StaysTerminal(s, max, moves[..|moves| - 1]);
    }
  }

  /**
   A cancelled run of terminal status can leave it exactly when the executor stands before its
   unchecked first append, or has passed the check of an `emit` or of a projected event: the
   handler's late error ends the run as failed.
   */
  lemma ReopeningExactly(s: State, max: Positive)
    requires Inv(s) && s.run.cancelRequested && Terminal(s.run.status)
    ensures (exists moves :: !Terminal(Play(s, max, moves).run.status)) <==> MayReopen(s.site)
  {
    if MayReopen(s.site) {
      var move := LateMove(s.site, "phase.changed", "planning");
      PlayOne(s, max, move);
      assert !Terminal(Play(s, max, [move]).run.status);
    } else {
      forall moves ensures Terminal(Play(s, max, moves).run.status) {
        StaysTerminal(s, max, moves);
      }
    }
  }

  /** Every armed site is met by a cancelled run: cancel the run just before the append. */
  lemma {:induction false} ArmedRunsCanBeCancelled(run: Run, max: Positive, moves: seq<Move>)
    requires !run.cancelRequested && !Terminal(Play(Begin(run), max, moves).run.status)
    ensures var s := Play(Begin(run), max, moves + [CancelCall]);
            s.run.cancelRequested && Terminal(s.run.status) && s.site == Play(Begin(run), max, moves).site
  {
    assert (moves + [CancelCall])[..|moves|] == moves;
    assert CarriesStatus(CANCELLED);
  }

  lemma PlayTwo(s: State, max: Positive, a: Move, b: Move)
    ensures Play(s, max, [a, b]) == Step(Step(s, max, a), max, b)
  {
    assert [a, b][..1] == [a];
    PlayOne(s, max, a);
  }

  /**
   Both bounds are reached. Cancelling before the unchecked first append leaves the run
   "planning" although it is cancelled, and lets a second cancel log another cancellation.
   */
  lemma LateAppendReopensRun(run: Run, max: Positive)
    requires !run.cancelRequested && run.status == "queued"
    ensures var s := Play(Begin(run), max, [CancelCall, FirstAppend]);
            && s.run.cancelRequested && LateAppends(s.log) == 1 && !Terminal(s.run.status)
            && Cancellations(Step(s, max, CancelCall).log) == 2
  {
    PlayTwo(Begin(run), max, CancelCall, FirstAppend);
    var cancelled := Step(Begin(run), max, CancelCall);
    CancelledCounts(Begin(run), max);
    var late := Entry(Executor, NewEvent(cancelled.run, "phase.changed", "planning"));
    LogGrows(cancelled.log, late);
    var reopened := Step(cancelled, max, FirstAppend);
    assert reopened.log == cancelled.log + [late];
    CancelledCounts(reopened, max);
  }

  lemma CancelledCounts(s: State, max: Positive)
    requires !Terminal(s.run.status)
    ensures var t := Step(s, max, CancelCall);
            && t.run.cancelRequested && t.site == s.site
            && Cancellations(t.log) == Cancellations(s.log) + 1
            && LateAppends(t.log) == LateAppends(s.log)
  {
    LogGrows(s.log, Entry(Canceller, NewEvent(s.run, CANCELLED, "cancelled")));
  }

  /** The untrimmed log, without authors, is the history of the run after `run.started`. */
  function Events(log: seq<Entry>): seq<Event> {
    if log == [] then [] else Events(log[..|log| - 1]) + [log[|log| - 1].event]
  }

  /** The run's log is the trimmed form of `h` followed by everything played. */
  ghost predicate KeepsHistory(s: State, max: Positive, h: seq<Event>)
    requires max >= 2
  {
    FullHistory(h + Events(s.log)) && s.run.events == Retained(h + Events(s.log), max)
  }

  lemma WriteKeepsHistory(s: State, max: Positive, h: seq<Event>, run: Run, entry: Entry, next: State)
    requires max >= 2 && KeepsHistory(s, max, h) && run.events == s.run.events
    requires entry.event == NewEvent(run, entry.event.kind, entry.event.status)
    requires next.run.events == Append(run, max, entry.event.kind, entry.event.status).events
    requires next.log == s.log + [entry]
    ensures KeepsHistory(next, max, h)
  {
    var past := h + Events(s.log);
    AppendKeepsRetained(run, max, past, entry.event.kind, entry.event.status);
    assert next.log[..|s.log|] == s.log;
    assert h + Events(next.log) == past + [entry.event];
  }

  lemma StepKeepsHistory(s: State, max: Positive, h: seq<Event>, move: Move)
    requires max >= 2 && KeepsHistory(s, max, h)
    ensures KeepsHistory(Step(s, max, move), max, h)
  {
    var next := Step(s, max, move);
    if |next.log| > |s.log| {
      var entry := next.log[|s.log|];
      assert next.log == s.log + [entry];
      var run := if move.CancelCall? then s.run.(cancelRequested := true) else s.run;
      WriteKeepsHistory(s, max, h, run, entry, next);
    }
  }

  /** In every interleaving the run's log stays the trimmed form of its full history. */
  lemma {:induction false} PlayKeepsHistory(s: State, max: Positive, h: seq<Event>, moves: seq<Move>)
    requires max >= 2 && KeepsHistory(s, max, h)
    ensures KeepsHistory(Play(s, max, moves), max, h)
  {
    if moves != [] {
      PlayKeepsHistory(s, max, h, moves[..|moves| - 1]);
      StepKeepsHistory(Play(s, max, moves[..|moves| - 1]), max, h, moves[|moves| - 1]);
    }
  }
}
