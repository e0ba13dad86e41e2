/** Sub-agents: the executor behind `spawn_subagent` runs a loop of its own in memory and pushes events
    into the session of the agent that spawned it. */
module Delegation {
  import opened Wrappers
  import opened ToolGrammar

  /** The events of a delegation, in push order. `NotFound` is an error event marked as recoverable. */
  datatype Event = Started | Update(iteration: nat) | Ended(failed: bool) | NotFound

  /** One pass of the sub-agent: the text and calls the model streams, and what the tools return,
      unless something raises. */
  datatype Child = Child(error: Option<string>, content: string, calls: seq<Call>, results: seq<string>)

  /** What becomes of one call of the tool: its arguments or the registry raise, no agent has the name,
      or the agent runs, for at most `maxTurns` passes, and its summary is saved or not. */
  datatype Spawn =
    | NotReached(error: string)
    | Unregistered(text: string)
    | Known(name: string, goal: string, prompt: string, passes: seq<Child>, maxTurns: nat, saves: bool)

  const REMINDER := "You have not used any tools yet. You MUST call a tool now — do not produce a text-only response. Start your work immediately with your first tool call."
  const NO_SUMMARY := "Task completed with no summary"

  function PassOf(ps: seq<Child>, i: nat): Child {
    if i < |ps| then ps[i] else Child(None, "", [], [])
  }

  /** How the loop ends: after how many passes, whether by an exception, and with which summary. */
  datatype End = End(turns: nat, error: Option<string>, summary: string)

  function EndFrom(ps: seq<Child>, maxTurns: nat, i: nat, used: bool): (e: End)
    requires i <= maxTurns
    ensures i <= e.turns <= maxTurns
    decreases maxTurns - i
  {
    var p := PassOf(ps, i);
    if i == maxTurns then End(i, None, "")
    else if p.error.Some? then End(i + 1, p.error, "")
    else if p.calls != [] then EndFrom(ps, maxTurns, i + 1, true)
    else if used then End(i + 1, None, p.content)
    else EndFrom(ps, maxTurns, i + 1, false)
  }

  function Updates(n: nat): (r: seq<Event>)
    ensures |r| == n && forall i :: 0 <= i < n ==> r[i] == Update(i + 1)
  {
    seq(n, i requires 0 <= i < n => Update(i + 1))
  }

  function EventsOf(d: Spawn): seq<Event> {
    match d
    case NotReached(_) => []
    case Unregistered(_) => [NotFound]
    case Known(_, _, _, ps, maxTurns, _) =>
      var e := EndFrom(ps, maxTurns, 0, false);
      [Started] + Updates(e.turns) + [Ended(e.error.Some?)]
  }

  function ReplyOf(d: Spawn): ToolReply {
    match d
    case NotReached(t) => Raises(t)
    case Unregistered(t) => Returns(t)
    case Known(name, _, _, ps, maxTurns, saves) =>
      var e := EndFrom(ps, maxTurns, 0, false);
      if e.error.Some? then
        Returns("Sub-agent '" + name + "' failed: " + e.error.value + ". Please retry or handle this task yourself.")
      else if !saves then Raises("")
      else Returns(if e.summary != "" then e.summary else NO_SUMMARY)
  }

  /** Pass `k` ends the loop: something raises, or the model calls no tool and has called one before. */
  ghost predicate Stops(ps: seq<Child>, k: nat) {
    || PassOf(ps, k).error.Some?
    || (PassOf(ps, k).calls == [] && exists j: nat :: j < k && PassOf(ps, j).calls != [])
  }

  /** The loop ends with the first pass that stops it, by what that pass raised or with its text, and after
      `maxTurns` passes, without a text, if none does. */
  ghost predicate EndsFirst(ps: seq<Child>, maxTurns: nat, e: End) {
    && e.turns <= maxTurns && (forall k: nat :: k + 1 < e.turns ==> !Stops(ps, k))
    && if e.turns > 0 && Stops(ps, e.turns - 1)
       then (
         var p := PassOf(ps, e.turns - 1);
         e.error == p.error && e.summary == if p.error.Some? then "" else p.content)
       else e.turns == maxTurns && e.error.None? && e.summary == ""
  }

  lemma LoopEnds(ps: seq<Child>, maxTurns: nat)
    ensures EndsFirst(ps, maxTurns, EndFrom(ps, maxTurns, 0, false))
  {
    LoopEndsFrom(ps, maxTurns, 0, false);
  }

  lemma {:induction false} LoopEndsFrom(ps: seq<Child>, maxTurns: nat, i: nat, used: bool)
    requires i <= maxTurns && (used <==> exists j: nat :: j < i && PassOf(ps, j).calls != [])
    requires forall k: nat :: k < i ==> !Stops(ps, k)
    ensures EndsFirst(ps, maxTurns, EndFrom(ps, maxTurns, i, used))
    decreases maxTurns - i
  {
    if i < maxTurns && !Stops(ps, i) {
      LoopEndsFrom(ps, maxTurns, i + 1, used || PassOf(ps, i).calls != []);
    }
  }

  /** What is pushed and replied when an agent's loop has ended so: a start, one update for each pass, an end
      that says whether it failed; and the error, the summary, or a stock text for an empty one. */
  predicate Relays(d: Spawn, e: End, es: seq<Event>, reply: ToolReply)
    requires d.Known?
  {
    && |es| == e.turns + 2 && es[0] == Started && es[|es| - 1] == Ended(e.error.Some?)
    && (forall i :: 0 < i < |es| - 1 ==> es[i] == Update(i))
    && match e.error
       case Some(t) => reply == Returns("Sub-agent '" + d.name + "' failed: " + t + ". Please retry or handle this task yourself.")
       case None =>
         && (!d.saves ==> reply.Raises?)
         && (d.saves && e.summary != "" ==> reply == Returns(e.summary))
         && (d.saves && e.summary == "" ==> reply == Returns("Task completed with no summary"))
  }

  lemma DelegationIs(d: Spawn)
    ensures match d
      case NotReached(t) => EventsOf(d) == [] && ReplyOf(d) == Raises(t)
      case Unregistered(t) => EventsOf(d) == [NotFound] && ReplyOf(d) == Returns(t)
      case Known(_, _, _, ps, maxTurns, _) =>
        var e := EndFrom(ps, maxTurns, 0, false);
        EndsFirst(ps, maxTurns, e) && Relays(d, e, EventsOf(d), ReplyOf(d))
  {
    if d.Known? {
      LoopEnds(d.passes, d.maxTurns);
    }
  }

  /** A text is accepted as the summary only from a pass without calls after one with calls. */
  lemma {:induction false} SummaryAfterTools(ps: seq<Child>, maxTurns: nat, i: nat, used: bool)
    requires i <= maxTurns
    ensures var e := EndFrom(ps, maxTurns, i, used);
      e.summary != "" ==>
        && i < e.turns && PassOf(ps, e.turns - 1).calls == [] && e.summary == PassOf(ps, e.turns - 1).content
        && (used || exists k :: i <= k < e.turns - 1 && PassOf(ps, k).calls != [])
    decreases maxTurns - i
  {
    if i < maxTurns && PassOf(ps, i).error.None? {
      if PassOf(ps, i).calls != [] {
        SummaryAfterTools(ps, maxTurns, i + 1, true);
      } else if !used {
        SummaryAfterTools(ps, maxTurns, i + 1, false);
      }
    }
  }

  /** The error event is pushed if and only if no agent has the name; a delegation that starts ends once,
      and last. */
  lemma NotFoundIff(d: Spawn)
    ensures NotFound in EventsOf(d) <==> d.Unregistered?
    ensures d.Known? ==> var es := EventsOf(d);
      es[0] == Started && forall i :: 0 <= i < |es| ==> (es[i].Ended? <==> i == |es| - 1)
  {
  }

  /** After pass `p` the messages `before` have become `after`: its text and calls are added and the result
      of each call, or, without calls, its text and the reminder to use a tool. */
  predicate GoesOnFrom(p: Child, before: seq<Msg>, after: seq<Msg>) {
    if p.calls == [] then after == before + [Assistant(p.content, []), User(REMINDER)]
    else
      && |after| == |before| + 1 + |p.calls| && after[..|before|] == before
      && after[|before|] == Assistant(p.content, p.calls)
      && forall i :: 0 <= i < |p.calls| ==>
           after[|before| + 1 + i] == Tool(p.calls[i].id, if i < |p.results| then p.results[i] else "")
  }

  /** The lists sent: the prompt and the goal first, and then each goes on from the one before. */
  predicate Conversation(ps: seq<Child>, first: seq<Msg>, prompts: seq<seq<Msg>>) {
    && (prompts != [] ==> prompts[0] == first)
    && forall i :: 0 < i < |prompts| ==> GoesOnFrom(PassOf(ps, i - 1), prompts[i - 1], prompts[i])
  }

  lemma ConversationNext(ps: seq<Child>, first: seq<Msg>, prompts: seq<seq<Msg>>, next: seq<Msg>)
    requires Conversation(ps, first, prompts)
    requires if prompts == [] then next == first else GoesOnFrom(PassOf(ps, |prompts| - 1), prompts[|prompts| - 1], next)
    ensures Conversation(ps, first, prompts + [next])
  {
    hide GoesOnFrom;
  }

  class Delegate {
    var childMessages: seq<Msg>
    var pushed: seq<Event>
    ghost var prompts: seq<seq<Msg>>

    constructor ()
      ensures childMessages == [] && pushed == [] && prompts == []
    {
      childMessages, pushed, prompts := [], [], [];
    }

    /** Every list of messages the sub-agent's model is sent obeys the tool-call grammar. */
    method FromDefinition(d: Spawn) returns (reply: ToolReply)
      requires pushed == [] && prompts == []
      modifies this
      ensures pushed == EventsOf(d) && reply == ReplyOf(d)
      ensures forall i :: 0 <= i < |prompts| ==> WellFormed(prompts[i])
      ensures d.Known? ==>
        && |prompts| <= d.maxTurns
        && Conversation(d.passes, [System(d.prompt), User(d.goal)], prompts)
      ensures !d.Known? ==> prompts == []
      ensures d.Known? ==>
        var e := EndFrom(d.passes, d.maxTurns, 0, false);
        EndsFirst(d.passes, d.maxTurns, e) && Relays(d, e, pushed, reply) && |prompts| == e.turns
    {
      DelegationIs(d);
      hide Conversation, EndsFirst, Relays, EndFrom, EventsOf, ReplyOf, WellFormed;
      reply := Run(d);
    }

    method Run(d: Spawn) returns (reply: ToolReply)
      requires pushed == [] && prompts == []
      modifies this
      ensures pushed == EventsOf(d) && reply == ReplyOf(d)
      ensures forall i :: 0 <= i < |prompts| ==> WellFormed(prompts[i])
      ensures d.Known? ==>
        && |prompts| == EndFrom(d.passes, d.maxTurns, 0, false).turns
        && Conversation(d.passes, [System(d.prompt), User(d.goal)], prompts)
      ensures !d.Known? ==> prompts == []
    {
      hide Conversation;
      match d
      case NotReached(t) => reply := Raises(t);
      case Unregistered(t) =>
        pushed := pushed + [NotFound];
        reply := Returns(t);
      case Known(name, goal, prompt, ps, maxTurns, saves) =>
        pushed := pushed + [Started];
        childMessages := [System(prompt), User(goal)];
        Single(System(prompt));
        AppendOne([System(prompt)], User(goal));
        assert childMessages == [System(prompt)] + [User(goal)];
        var error, summary := RunPasses(ps, maxTurns);
        pushed := pushed + [Ended(error.Some?)];
        if error.Some? {
          return Returns("Sub-agent '" + name + "' failed: " + error.value + ". Please retry or handle this task yourself.");
        }
        if !saves {
          return Raises("");
        }
        reply := Returns(if summary != "" then summary else NO_SUMMARY);
    }

    method RunPasses(ps: seq<Child>, maxTurns: nat) returns (error: Option<string>, summary: string)
      requires WellFormed(childMessages) && prompts == []
      modifies this
      ensures var e := EndFrom(ps, maxTurns, 0, false);
        pushed == old(pushed) + Updates(e.turns) && error == e.error && summary == e.summary
      ensures |prompts| == EndFrom(ps, maxTurns, 0, false).turns && forall i :: 0 <= i < |prompts| ==> WellFormed(prompts[i])
      ensures Conversation(ps, old(childMessages), prompts)
    {
      hide WellFormed, Conversation, GoesOnFrom;
      NoConversation(ps, childMessages);
      error, summary := None, "";
      var hasUsedTools := false;
      var i := 0;
      while i < maxTurns
        invariant 0 <= i <= maxTurns && pushed == old(pushed) + Updates(i)
        invariant EndFrom(ps, maxTurns, 0, false) == EndFrom(ps, maxTurns, i, hasUsedTools)
        invariant WellFormed(childMessages) && |prompts| == i
        invariant Conversation(ps, old(childMessages), prompts)
        invariant if i == 0 then childMessages == old(childMessages) else GoesOnFrom(PassOf(ps, i - 1), prompts[i - 1], childMessages)
        invariant forall k :: 0 <= k < |prompts| ==> WellFormed(prompts[k])
        invariant error == None && summary == ""
      {
        assert Updates(i + 1) == Updates(i) + [Update(i + 1)];
        pushed := pushed + [Update(i + 1)];
        ConversationNext(ps, old(childMessages), prompts, childMessages);
        prompts := prompts + [childMessages];
        var p := PassOf(ps, i);
        if p.error.Some? {
          return p.error, "";
        }
        if p.calls == [] {
          if hasUsedTools {
            return None, p.content;
          }
          AppendOne(childMessages, Assistant(p.content, []));
          AppendOne(childMessages + [Assistant(p.content, [])], User(REMINDER));
          Reminded(p, childMessages);
          childMessages := childMessages + [Assistant(p.content, [])] + [User(REMINDER)];
        } else {
          hasUsedTools := true;
          RecordRound(p);
        }
        i := i + 1;
      }
    }

    /** The calls and one result each; an unknown tool has an error for its result. */
    method RecordRound(p: Child)
      requires WellFormed(childMessages)
      modifies this`childMessages
      ensures WellFormed(childMessages)
      ensures childMessages == old(childMessages) + [Assistant(p.content, p.calls)] + Results(p, |p.calls|)
      ensures p.calls != [] ==> GoesOnFrom(p, old(childMessages), childMessages)
    {
      RoundFollows(p, childMessages);
      BlockAppended(childMessages, p.content, p.calls, Results(p, |p.calls|));
      hide WellFormed, IsResultOf, Results, GoesOnFrom;
      childMessages := childMessages + [Assistant(p.content, p.calls)];
      ghost var start := childMessages;
      var i := 0;
      while i < |p.calls|
        invariant 0 <= i <= |p.calls| && childMessages == start + Results(p, i)
      {
        ResultsNext(p, i);
        childMessages := childMessages + [Tool(p.calls[i].id, if i < |p.results| then p.results[i] else "")];
        i := i + 1;
      }
    }
  }

  lemma NoConversation(ps: seq<Child>, first: seq<Msg>)
    ensures Conversation(ps, first, [])
  {
  }

  lemma RoundFollows(p: Child, ms: seq<Msg>)
    ensures p.calls != [] ==> GoesOnFrom(p, ms, ms + [Assistant(p.content, p.calls)] + Results(p, |p.calls|))
  {
  }

  lemma Reminded(p: Child, ms: seq<Msg>)
    requires p.calls == []
    ensures GoesOnFrom(p, ms, ms + [Assistant(p.content, [])] + [User(REMINDER)])
  {
  }

  function Results(p: Child, n: nat): (r: seq<Msg>)
    requires n <= |p.calls|
    ensures |r| == n && forall i :: 0 <= i < n ==> IsResultOf(r[i], p.calls[i])
  {
    seq(n, i requires 0 <= i < n => Tool(p.calls[i].id, if i < |p.results| then p.results[i] else ""))
  }

  lemma ResultsNext(p: Child, i: nat)
    requires i < |p.calls|
    ensures Results(p, i + 1) == Results(p, i) + [Tool(p.calls[i].id, if i < |p.results| then p.results[i] else "")]
  {
  }
}
