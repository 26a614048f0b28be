/**
 What every planning loop keeps, whatever the model replies: only allowed tools run, a required
 tool runs at most once and has run whenever the loop ends by itself, and every call run leaves
 one result and one tool message.
 */
module PlanningTheorems {
  import opened Wrappers
  import opened PlanningLoop

  function RunCount(done: seq<string>, tool: string): nat {
    if done == [] then 0 else RunCount(done[..|done| - 1], tool) + if done[|done| - 1] == tool then 1 else 0
  }

  lemma {:induction false} RunCountAppend(a: seq<string>, b: seq<string>, tool: string)
    ensures RunCount(a + b, tool) == RunCount(a, tool) + RunCount(b, tool)
  {
    if b == [] {
      assert a + b == a;
    } else {
      assert (a + b)[..|a + b| - 1] == a + b[..|b| - 1];
      RunCountAppend(a, b[..|b| - 1], tool);
    }
  }

  lemma {:induction false} RunCountOfCalls(calls: seq<ToolCall>, tool: string)
    ensures RunCount(Tools(calls), tool) == CallCount(calls, tool)
  {
    if calls != [] {
      assert Tools(calls)[..|calls| - 1] == Tools(calls[..|calls| - 1]);
      RunCountOfCalls(calls[..|calls| - 1], tool);
    }
  }

  lemma {:induction false} CountIsMembership(done: seq<string>, tool: string)
    ensures RunCount(done, tool) > 0 <==> tool in done
  {
    if done != [] {
      assert done == done[..|done| - 1] + [done[|done| - 1]];
      CountIsMembership(done[..|done| - 1], tool);
    }
  }

  /* ---------- allowed tools ---------- */

  ghost predicate AllAllowed(tools: seq<string>, allowed: seq<string>) {
    forall i :: 0 <= i < |tools| ==> tools[i] in allowed
  }

  lemma {:induction false} SelectedAllowed(raws: seq<RawCall>, allowed: seq<string>, round: nat)
    ensures forall i :: 0 <= i < |Selected(raws, allowed, round)| ==> Selected(raws, allowed, round)[i].tool in allowed
  {
    if raws != [] {
      SelectedAllowed(raws[..|raws| - 1], allowed, round);
    }
  }

  lemma {:induction false} FreshAllowed(calls: seq<ToolCall>, required: string, ran: bool, allowed: seq<string>)
    requires forall i :: 0 <= i < |calls| ==> calls[i].tool in allowed
    ensures forall i :: 0 <= i < |Fresh(calls, required, ran)| ==> Fresh(calls, required, ran)[i].tool in allowed
  {
    if calls != [] {
      FreshAllowed(calls[..|calls| - 1], required, ran, allowed);
    }
  }

  lemma ChoiceAllowed(raws: seq<RawCall>, allowed: seq<string>, required: Option<string>, done: seq<string>, round: nat)
    requires required.Some? ==> required.value in allowed
    ensures AllAllowed(Tools(Choose(raws, allowed, required, done, round).calls), allowed)
  {
    SelectedAllowed(raws, allowed, round);
    if required.Some? {
      FreshAllowed(Selected(raws, allowed, round), required.value, required.value in done, allowed);
    }
  }

  /** Only allowed tools run, whatever the model asks for. */
  lemma {:induction false} OnlyAllowedToolsRun(replies: nat -> seq<RawCall>, allowed: seq<string>,
                                              required: Option<string>, rounds: nat)
    requires required.Some? ==> required.value in allowed
    ensures AllAllowed(PlanAfter(replies, allowed, required, rounds).done, allowed)
  {
    if rounds > 0 {
      OnlyAllowedToolsRun(replies, allowed, required, rounds - 1);
      ChoiceAllowed(replies(rounds), allowed, required, PlanAfter(replies, allowed, required, rounds - 1).done, rounds);
    }
  }

  /* ---------- the required tool ---------- */

  lemma {:induction false} FreshCount(calls: seq<ToolCall>, required: string, ran: bool)
    ensures CallCount(Fresh(calls, required, ran), required) == if ran || CallCount(calls, required) == 0 then 0 else 1
  {
    if calls != [] {
      var front, last := calls[..|calls| - 1], calls[|calls| - 1];
      FreshCount(front, required, ran);
      var kept := Fresh(front, required, ran);
      assert (kept + [last])[..|kept|] == kept;
      assert kept + [] == kept;
    }
  }

  lemma {:induction false} FreshEmpty(calls: seq<ToolCall>, required: string, ran: bool)
    ensures !ran ==> (Fresh(calls, required, ran) == [] <==> calls == [])
    ensures CallCount(calls, required) == 0 ==> |Fresh(calls, required, ran)| == |calls|
    ensures CallCount(calls, required) <= |calls|
  {
    if calls != [] {
      FreshEmpty(calls[..|calls| - 1], required, ran);
    }
  }

  /** Only tools other than the required one were selected, and at least one. */
  ghost predicate OnlyOthers(raws: seq<RawCall>, allowed: seq<string>, required: string, round: nat) {
    Selected(raws, allowed, round) != [] && CallCount(Selected(raws, allowed, round), required) == 0
  }

  /** One round runs the required tool exactly when it has not run and the model offered nothing else. */
  lemma ChoiceRunsRequired(raws: seq<RawCall>, allowed: seq<string>, required: string, done: seq<string>, round: nat)
    ensures CallCount(Choose(raws, allowed, Some(required), done, round).calls, required)
         == (if required in done || OnlyOthers(raws, allowed, required, round) then 0 else 1)
  {
    var selected := Selected(raws, allowed, round);
    var c := Choose(raws, allowed, Some(required), done, round);
    FreshCount(selected, required, required in done);
    FreshEmpty(selected, required, required in done);
    if |Fresh(selected, required, required in done)| == |selected| {
      FreshOfSameLength(selected, required, required in done);
    }
    if |c.calls| == 1 {
      assert c.calls[..0] == [];
    }
  }

  lemma RoundRunsRequired(raws: seq<RawCall>, allowed: seq<string>, required: string, done: seq<string>, round: nat)
    ensures RunCount(done + Tools(Choose(raws, allowed, Some(required), done, round).calls), required)
         == RunCount(done, required) + (if required in done || OnlyOthers(raws, allowed, required, round) then 0 else 1)
  {
    var c := Choose(raws, allowed, Some(required), done, round);
    ChoiceRunsRequired(raws, allowed, required, done, round);
    RunCountAppend(done, Tools(c.calls), required);
    RunCountOfCalls(c.calls, required);
  }

  /** Every round so far selected other tools only. */
  ghost predicate OthersThroughout(replies: nat -> seq<RawCall>, allowed: seq<string>, required: string, rounds: nat) {
    rounds == 0
    || (OthersThroughout(replies, allowed, required, rounds - 1)
        && OnlyOthers(replies(rounds), allowed, required, rounds))
  }

  /**
   A required tool runs at most once. It has run whenever the loop ended by `break`; it has not
   run after some rounds exactly when in each of them the model selected only other tools.
   */
  lemma {:induction false} RequiredRunsOnce(replies: nat -> seq<RawCall>, allowed: seq<string>, required: string,
                                           rounds: nat)
    ensures RunCount(PlanAfter(replies, allowed, Some(required), rounds).done, required)
         == if OthersThroughout(replies, allowed, required, rounds) then 0 else 1
    ensures PlanAfter(replies, allowed, Some(required), rounds).broke ==>
              RunCount(PlanAfter(replies, allowed, Some(required), rounds).done, required) == 1
  {
    if rounds > 0 {
      RequiredRunsOnce(replies, allowed, required, rounds - 1);
      var before := PlanAfter(replies, allowed, Some(required), rounds - 1);
      var after := PlanAfter(replies, allowed, Some(required), rounds);
      if before.broke {
        assert after == before;
      } else {
        PlanStep(replies, allowed, Some(required), rounds);
        OnceStep(replies(rounds), allowed, required, before.done, rounds);
      }
    }
  }

  lemma PlanStep(replies: nat -> seq<RawCall>, allowed: seq<string>, required: Option<string>, rounds: nat)
    requires rounds > 0 && !PlanAfter(replies, allowed, required, rounds - 1).broke
    ensures var done := PlanAfter(replies, allowed, required, rounds - 1).done;
            var calls := Choose(replies(rounds), allowed, required, done, rounds).calls;
            && PlanAfter(replies, allowed, required, rounds).done == done + Tools(calls)
            && (PlanAfter(replies, allowed, required, rounds).broke <==> calls == [])
  {
  }

  /** Running the required tool at most once is kept by a round, and a last round comes after it ran. */
  lemma OnceStep(raws: seq<RawCall>, allowed: seq<string>, required: string, done: seq<string>, round: nat)
    requires RunCount(done, required) <= 1
    ensures var calls := Choose(raws, allowed, Some(required), done, round).calls;
            && RunCount(done + Tools(calls), required)
               == (if RunCount(done, required) == 0 && OnlyOthers(raws, allowed, required, round) then 0 else 1)
            && (calls == [] ==> RunCount(done, required) == 1 && done + Tools(calls) == done)
  {
    CountIsMembership(done, required);
    RoundRunsRequired(raws, allowed, required, done, round);
    BreakNeedsRequired(raws, allowed, required, done, round);
  }

  /** A round with nothing to call comes only after the required tool has run. */
  lemma BreakNeedsRequired(raws: seq<RawCall>, allowed: seq<string>, required: string, done: seq<string>, round: nat)
    ensures Choose(raws, allowed, Some(required), done, round).calls == [] ==>
              required in done && Tools(Choose(raws, allowed, Some(required), done, round).calls) == []
  {
    FreshEmpty(Selected(raws, allowed, round), required, required in done);
  }

  /* ---------- results and messages ---------- */

  /** The names in the tool messages, in order. */
  function ToolNames(messages: seq<Message>): seq<string> {
    if messages == [] then []
    else
      var last := messages[|messages| - 1];
      ToolNames(messages[..|messages| - 1]) + if last.Tool? then [last.name] else []
  }

  function Mangled(tools: seq<string>): seq<string> {
    seq(|tools|, i requires 0 <= i < |tools| => Mangle(tools[i]))
  }

  lemma {:induction false} ToolNamesAppend(a: seq<Message>, b: seq<Message>)
    ensures ToolNames(a + b) == ToolNames(a) + ToolNames(b)
  {
    if b == [] {
      assert a + b == a;
    } else {
      assert (a + b)[..|a + b| - 1] == a + b[..|b| - 1];
      ToolNamesAppend(a, b[..|b| - 1]);
    }
  }

  lemma {:induction false} AnswerNames(calls: seq<ToolCall>)
    ensures ToolNames(Answers(calls)) == Mangled(Tools(calls))
  {
    if calls != [] {
      var front := calls[..|calls| - 1];
      assert Answers(calls)[..|calls| - 1] == Answers(front);
      AnswerNames(front);
      assert Mangled(Tools(calls)) == Mangled(Tools(front)) + [Mangle(calls[|calls| - 1].tool)];
    }
  }

  /** One tool message for every result, in the same order and naming the same tool. */
  lemma {:induction false} ResultsMatchMessages(replies: nat -> seq<RawCall>, allowed: seq<string>,
                                               required: Option<string>, rounds: nat)
    ensures ToolNames(PlanAfter(replies, allowed, required, rounds).messages)
         == Mangled(PlanAfter(replies, allowed, required, rounds).done)
  {
    if rounds > 0 {
      ResultsMatchMessages(replies, allowed, required, rounds - 1);
      var p := PlanAfter(replies, allowed, required, rounds - 1);
      RoundMatches(p.done, p.messages, Choose(replies(rounds), allowed, required, p.done, rounds));
    }
  }

  lemma RoundMatches(done: seq<string>, messages: seq<Message>, c: Choice)
    requires ToolNames(messages) == Mangled(done)
    ensures ToolNames(messages + [Assistant(c.mentions)] + Answers(c.calls)) == Mangled(done + Tools(c.calls))
  {
    ToolNamesAppend(messages + [Assistant(c.mentions)], Answers(c.calls));
    ToolNamesAppend(messages, [Assistant(c.mentions)]);
    OneAssistant(c.mentions);
    AnswerNames(c.calls);
    assert Mangled(done + Tools(c.calls)) == Mangled(done) + Mangled(Tools(c.calls));
  }

  lemma OneAssistant(mentions: seq<Mention>)
    ensures ToolNames([Assistant(mentions)]) == []
  {
    assert [Assistant(mentions)][..0] == [];
  }

  /* ---------- answered calls ---------- */

  /** The assistant's calls and the tool messages carry the same ids, in the same order. */
  ghost predicate Answered(c: Choice) {
    && |c.mentions| == |c.calls|
    && forall i :: 0 <= i < |c.calls| ==> c.mentions[i].id == c.calls[i].id
  }

  /** The round replaced the model's calls by its own list. */
  ghost predicate Rewritten(raws: seq<RawCall>, allowed: seq<string>, required: Option<string>, done: seq<string>,
                            round: nat) {
    && required.Some?
    && var selected := Selected(raws, allowed, round);
       || (selected == [] && required.value !in done)
       || |Fresh(selected, required.value, required.value in done)| != |selected|
  }

  /** Every call names an allowed tool and has an id. */
  ghost predicate AllUsable(raws: seq<RawCall>, allowed: seq<string>) {
    forall i :: 0 <= i < |raws| ==> Resolve(raws[i].name, allowed) in allowed && raws[i].id != ""
  }

  lemma {:induction false} SelectedIds(raws: seq<RawCall>, allowed: seq<string>, round: nat)
    ensures |Selected(raws, allowed, round)| <= |raws|
    ensures (|Selected(raws, allowed, round)| == |raws|
             && forall i :: 0 <= i < |raws| ==> raws[i].id == Selected(raws, allowed, round)[i].id)
            <==> AllUsable(raws, allowed)
  {
    if raws != [] {
      var n := |raws| - 1;
      var front, selected := raws[..n], Selected(raws, allowed, round);
      SelectedIds(front, allowed, round);
      assert forall i :: 0 <= i < n ==> front[i] == raws[i];
      assert AllUsable(raws, allowed) <==>
             AllUsable(front, allowed) && Resolve(raws[n].name, allowed) in allowed && raws[n].id != "";
      if |selected| == |raws| {
        assert selected[..n] == Selected(front, allowed, round);
        assert forall i :: 0 <= i < n ==> selected[i] == selected[..n][i];
      }
    }
  }

  /**
   A round that runs something answers every call it wrote, under its id, exactly when it wrote
   the list itself or the model's calls all had an id and named an allowed tool: a call to
   another tool stays in the conversation unanswered.
   */
  lemma CallsAreAnsweredExactly(raws: seq<RawCall>, allowed: seq<string>, required: Option<string>, done: seq<string>,
                                round: nat)
    ensures Answered(Choose(raws, allowed, required, done, round))
            <==> Rewritten(raws, allowed, required, done, round) || AllUsable(raws, allowed)
  {
    SelectedIds(raws, allowed, round);
    var selected, c := Selected(raws, allowed, round), Choose(raws, allowed, required, done, round);
    if required.Some? {
      FreshEmpty(selected, required.value, required.value in done);
    }
    if !Rewritten(raws, allowed, required, done, round) {
      assert c == Choice(selected, RawMentions(raws));
    }
  }
}
