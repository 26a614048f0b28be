/**
 The planning loop of `_execute_capability_turn`: at most six rounds in which the model picks
 tools; an intent may require one tool, which the loop adds itself when the model picks none.
 What the model replies is arbitrary in every round; what a tool returns does not matter here.
 */
module PlanningLoop {
  import opened Texts
  import opened Wrappers

  /* ---------- tool names ---------- */

  /** `name.replace(".", "__")`: function names may not hold dots. */
  function Mangle(id: string): string {
    if id == "" then "" else (if id[0] == '.' then "__" else [id[0]]) + Mangle(id[1..])
  }

  /** `name.replace("__", ".")`, left to right. */
  function Unmangle(name: string): string {
    if name == "" then ""
    else if |name| >= 2 && name[0] == '_' && name[1] == '_' then "." + Unmangle(name[2..])
    else [name[0]] + Unmangle(name[1..])
  }

  /** No underscore is followed by an underscore or a dot. */
  predicate Clean(id: string) {
    forall i :: 0 <= i < |id| - 1 && id[i] == '_' ==> id[i + 1] != '_' && id[i + 1] != '.'
  }

  function Resolve(name: string, allowed: seq<string>): string {
    if name in allowed then name else Unmangle(name)
  }

  lemma CleanTail(id: string)
    requires id != ""
    ensures Clean(id) <==> Clean(id[1..]) && !(id[0] == '_' && |id| > 1 && (id[1] == '_' || id[1] == '.'))
  {
    var rest := id[1..];
    assert forall i :: 0 <= i < |rest| ==> rest[i] == id[i + 1];
    if Clean(rest) && !(id[0] == '_' && |id| > 1 && (id[1] == '_' || id[1] == '.')) {
      forall i | 0 <= i < |id| - 1 && id[i] == '_' ensures id[i + 1] != '_' && id[i + 1] != '.' {
        assert i > 0 ==> rest[i - 1] == id[i];
      }
    }
  }

  /** A mangled name gives the id back exactly when no underscore runs into an underscore or a dot. */
  lemma {:induction false} MangleRoundTrip(id: string)
    ensures Unmangle(Mangle(id)) == id <==> Clean(id)
  {
    if id != "" {
      var rest := id[1..];
      MangleRoundTrip(rest);
      CleanTail(id);
      assert id == [id[0]] + rest;
      if id[0] == '.' {
        assert Mangle(id)[2..] == Mangle(rest);
      } else {
        assert Mangle(id) == [id[0]] + Mangle(rest) && Mangle(id)[1..] == Mangle(rest);
        assert rest != "" ==> Mangle(rest) != "" && (Mangle(rest)[0] == '_' <==> rest[0] == '_' || rest[0] == '.');
      }
    }
  }

  /** When a tool chosen by its function name is the tool that was meant. */
  lemma NameResolvesExactly(id: string, allowed: seq<string>)
    ensures Resolve(Mangle(id), allowed) == id <==> (if Mangle(id) in allowed then Mangle(id) == id else Clean(id))
  {
    MangleRoundTrip(id);
  }

  /* ---------- one round ---------- */

  /** A call as the model returned it; `id` is "" when it gave none. */
  datatype RawCall = RawCall(name: string, arguments: string, id: string)

  datatype ToolCall = ToolCall(tool: string, arguments: string, id: string)

  function CallId(raw: RawCall, round: nat, index: nat): string {
    if raw.id != "" then raw.id else "tool_call_" + Decimal(round) + "_" + Decimal(index)
  }

  /** `_selected_tool_calls`: the calls to allowed tools, in order. */
  function Selected(raws: seq<RawCall>, allowed: seq<string>, round: nat): seq<ToolCall> {
    if raws == [] then []
    else
      var raw := raws[|raws| - 1];
      var tool := Resolve(raw.name, allowed);
      Selected(raws[..|raws| - 1], allowed, round)
      + if tool in allowed then [ToolCall(tool, raw.arguments, CallId(raw, round, |raws|))] else []
  }

  method SelectLoop(raws: seq<RawCall>, allowed: seq<string>, round: nat) returns (selected: seq<ToolCall>)
    ensures selected == Selected(raws, allowed, round)
  {
    selected := [];
    for i := 0 to |raws|
      invariant selected == Selected(raws[..i], allowed, round)
    {
      assert raws[..i + 1][..i] == raws[..i];
      var tool := Resolve(raws[i].name, allowed);
      if tool !in allowed {
        continue;
      }
      selected := selected + [ToolCall(tool, raws[i].arguments, CallId(raws[i], round, i + 1))];
    }
    assert raws[..|raws|] == raws;
  }

  function CallCount(calls: seq<ToolCall>, tool: string): nat {
    if calls == [] then 0 else CallCount(calls[..|calls| - 1], tool) + if calls[|calls| - 1].tool == tool then 1 else 0
  }

  /** The calls without repeats of the required tool, counting an earlier run as the first. */
  function Fresh(calls: seq<ToolCall>, required: string, ran: bool): seq<ToolCall> {
    if calls == [] then []
    else
      var front, last := calls[..|calls| - 1], calls[|calls| - 1];
      Fresh(front, required, ran)
      + if last.tool == required && (ran || CallCount(front, required) > 0) then [] else [last]
  }

  method FreshLoop(calls: seq<ToolCall>, required: string, ran: bool) returns (kept: seq<ToolCall>)
    ensures kept == Fresh(calls, required, ran)
  {
    kept := [];
    var already := ran;
    for i := 0 to |calls|
      invariant kept == Fresh(calls[..i], required, ran)
      invariant already == (ran || CallCount(calls[..i], required) > 0)
    {
      assert calls[..i + 1][..i] == calls[..i];
      if calls[i].tool == required {
        if already {
          continue;
        }
        already := true;
      }
      kept := kept + [calls[i]];
    }
    assert calls[..|calls|] == calls;
  }

  /** A call as it is written into the conversation. */
  datatype Mention = Mention(id: string, name: string, arguments: string)

  datatype Message = Assistant(calls: seq<Mention>) | Tool(id: string, name: string)

  function RawMentions(raws: seq<RawCall>): seq<Mention> {
    seq(|raws|, i requires 0 <= i < |raws| => Mention(raws[i].id, raws[i].name, raws[i].arguments))
  }

  function Mentions(calls: seq<ToolCall>): seq<Mention> {
    seq(|calls|, i requires 0 <= i < |calls| => Mention(calls[i].id, Mangle(calls[i].tool), calls[i].arguments))
  }

  /** What a round runs, and what it writes as the assistant's calls. */
  datatype Choice = Choice(calls: seq<ToolCall>, mentions: seq<Mention>)

  /** `done` holds the tools that have run. */
  function Choose(raws: seq<RawCall>, allowed: seq<string>, required: Option<string>, done: seq<string>,
                  round: nat): Choice {
    var selected := Selected(raws, allowed, round);
    if required.None? then Choice(selected, RawMentions(raws))
    else
      var kept := Fresh(selected, required.value, required.value in done);
      if kept == [] && required.value !in done then
        var call := ToolCall(required.value, "{}", "intent-required-" + Decimal(round));
        Choice([call], Mentions([call]))
      else if |kept| != |selected| then Choice(kept, Mentions(kept))
      else Choice(selected, RawMentions(raws))
  }

  method ChooseCalls(raws: seq<RawCall>, allowed: seq<string>, required: Option<string>, done: seq<string>, round: nat)
      returns (c: Choice)
    ensures c == Choose(raws, allowed, required, done, round)
  {
    var selected := SelectLoop(raws, allowed, round);
    var mentions := RawMentions(raws);
    if required.Some? {
      var kept := FreshLoop(selected, required.value, required.value in done);
      if |kept| != |selected| {
        selected := kept;
        mentions := Mentions(selected);
      } else {
        FreshOfSameLength(selected, required.value, required.value in done);
      }
      if selected == [] && required.value !in done {
        var call := ToolCall(required.value, "{}", "intent-required-" + Decimal(round));
        selected := [call];
        mentions := Mentions([call]);
      }
    }
    c := Choice(selected, mentions);
  }

  lemma {:induction false} FreshIsShorter(calls: seq<ToolCall>, required: string, ran: bool)
    ensures |Fresh(calls, required, ran)| <= |calls|
  {
    if calls != [] {
      FreshIsShorter(calls[..|calls| - 1], required, ran);
    }
  }

  lemma {:induction false} FreshOfSameLength(calls: seq<ToolCall>, required: string, ran: bool)
    requires |Fresh(calls, required, ran)| == |calls|
    ensures Fresh(calls, required, ran) == calls
  {
    if calls != [] {
      FreshIsShorter(calls[..|calls| - 1], required, ran);
      FreshOfSameLength(calls[..|calls| - 1], required, ran);
      assert calls == calls[..|calls| - 1] + [calls[|calls| - 1]];
    }
  }

  /* ---------- the loop ---------- */

  const ROUNDS := 6

  /** The tools that ran, in order, and the messages written by the rounds. */
  datatype Plan = Plan(done: seq<string>, messages: seq<Message>, broke: bool)

  function Answers(calls: seq<ToolCall>): seq<Message> {
    seq(|calls|, i requires 0 <= i < |calls| => Tool(calls[i].id, Mangle(calls[i].tool)))
  }

  function Tools(calls: seq<ToolCall>): seq<string> {
    seq(|calls|, i requires 0 <= i < |calls| => calls[i].tool)
  }

  /** The state after the first `rounds` rounds. */
  function PlanAfter(replies: nat -> seq<RawCall>, allowed: seq<string>, required: Option<string>, rounds: nat): Plan {
    if rounds == 0 then Plan([], [], false)
    else
      var p := PlanAfter(replies, allowed, required, rounds - 1);
      if p.broke then p
      else
        var c := Choose(replies(rounds), allowed, required, p.done, rounds);
        if c.calls == [] then p.(broke := true)
        else Plan(p.done + Tools(c.calls), p.messages + [Assistant(c.mentions)] + Answers(c.calls), false)
  }

  /** Run the chosen calls one by one, each leaving a result and a tool message. */
  method CallLoop(calls: seq<ToolCall>, p: Plan) returns (q: Plan)
    ensures q == p.(done := p.done + Tools(calls), messages := p.messages + Answers(calls))
  {
    var done, messages := p.done, p.messages;
    for i := 0 to |calls|
      invariant done == p.done + Tools(calls)[..i]
      invariant messages == p.messages + Answers(calls)[..i]
    {
      done := done + [calls[i].tool];
      messages := messages + [Tool(calls[i].id, Mangle(calls[i].tool))];
    }
    q := p.(done := done, messages := messages);
  }

  /** The rounds, left by `break` when a round has nothing to call. */
  method PlanLoop(replies: nat -> seq<RawCall>, allowed: seq<string>, required: Option<string>)
      returns (p: Plan)
    ensures p == PlanAfter(replies, allowed, required, ROUNDS)
  {
    p := Plan([], [], false);
    var round: nat := 0;
    while round < ROUNDS && !p.broke
      invariant round <= ROUNDS && p == PlanAfter(replies, allowed, required, round)
    {
      ghost var next := PlanAfter(replies, allowed, required, round + 1);
      round := round + 1;
      var c := ChooseCalls(replies(round), allowed, required, p.done, round);
      if c.calls == [] {
        p := p.(broke := true);
      } else {
        p := CallLoop(c.calls, p.(messages := p.messages + [Assistant(c.mentions)]));
      }
      assert p == next;
    }
    if p.broke {
      BrokenStays(replies, allowed, required, round, ROUNDS);
    }
  }

  lemma {:induction false} BrokenStays(replies: nat -> seq<RawCall>, allowed: seq<string>, required: Option<string>,
                                       n: nat, m: nat)
    requires n <= m && PlanAfter(replies, allowed, required, n).broke
    ensures PlanAfter(replies, allowed, required, m) == PlanAfter(replies, allowed, required, n)
  {
    if n < m {
      var before := PlanAfter(replies, allowed, required, m - 1);
      BrokenStays(replies, allowed, required, n, m - 1);
      assert before.broke;
    }
  }

  /** `_required_tool_for_intent`. */
  function RequiredTool(intent: string, allowed: seq<string>): (r: Option<string>)
    ensures r.Some? ==> r.value in allowed && r.value == "search.search_sop"
    ensures r.None? <==> intent != "sop.search" || "search.search_sop" !in allowed
  {
    if intent == "sop.search" && "search.search_sop" in allowed then Some("search.search_sop") else None
  }
}
