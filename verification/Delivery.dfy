/** From a turn of the agent to the browser: what the turn pushes is what a connected client folds. */
module Delivery {
  import opened Wrappers
  import TP = TodoPlan
  import opened StreamHub
  import opened StreamTheorems
  import TT = ThinkTags
  import opened TurnLog
  import TG = ToolGrammar
  import DG = Delegation
  import opened AgentLoop

  /** How an event of a turn goes over the wire; data that do not concern the plan are left out. */
  function Wire(e: Ev): Event {
    match e
    case StreamStart => Other(stream_start, 0)
    case UserAck => Other(user_ack, 0)
    case Splitter(ThinkingStart) => Other(thinking_start, 0)
    case Splitter(ThinkingDelta(_)) => Other(thinking_delta, 0)
    case Splitter(ThinkingEnd) => Other(thinking_end, 0)
    case Splitter(TextDelta(_)) => Other(text_delta, 0)
    case CallStart(_) => Other(tool_call_start, 0)
    case CallDelta(_) => Other(tool_call_delta, 0)
    case CallEnd(_) => Other(tool_call_end, 0)
    case CallResult(_) => Other(tool_result, 0)
    case PlanNews(plan) => Event.PlanNews(plan)
    case Delta(_) => Other(text_delta, 0)
    case Spawned(Started) => Other(delegation_start, 0)
    case Spawned(Update(_)) => Other(delegation_update, 0)
    case Spawned(Ended(_)) => Other(delegation_end, 0)
    case Spawned(NotFound) => Other(error, 0)
    case Compressed => Other(context_compression, 0)
    case AssistantDone(_, _) => Other(message_done, 0)
    case Error => Other(error, 0)
  }

  function WireAll(log: seq<Ev>): (r: seq<Event>)
    ensures |r| == |log| && forall i :: 0 <= i < |r| ==> r[i] == Wire(log[i])
  {
    seq(|log|, i requires 0 <= i < |log| => Wire(log[i]))
  }

  lemma {:induction false} WireKeepsPlan(log: seq<Ev>)
    ensures News(WireAll(log)) == PlanPart(log)
  {
    if log != [] {
      WireKeepsPlan(log[..|log| - 1]);
      assert WireAll(log)[..|log| - 1] == WireAll(log[..|log| - 1]);
    }
  }

  /** A connection that is its session's active one and has lost nothing, after plan events `before` and
      then those of this turn's log were pushed to the session, among whatever others. */
  ghost predicate Delivers(s: Sys, q: QueueId, before: seq<TP.PlanEvent>, log: seq<Ev>) {
    && Inv(s) && q in s.conns && q in s.hub.queues && s.conns[q].end.None? && !s.hub.queues[q].lost
    && News(EventsOf(LogOf(s, s.conns[q].sid))) == before + News(WireAll(log))
  }

  /** What the connection was sent brings its browser, from the plan `shown`, to the plan of the list. */
  ghost predicate Shows(s: Sys, q: QueueId, shown: Option<TP.Plan>, todos: seq<TP.Todo>)
    requires q in s.hub.queues
  {
    TP.AllText(todos) && TP.Fold(shown, Sent(s, q)) == Some(TP.PlanOf(todos))
  }

  function Sent(s: Sys, q: QueueId): seq<TP.PlanEvent>
    requires q in s.hub.queues
  {
    News(SessionPart(Accepted(s.hub.queues[q])))
  }

  lemma DeliversPlan(s: Sys, q: QueueId, before: seq<TP.PlanEvent>, log: seq<Ev>, ops: seq<TP.Op>, shown: Option<TP.Plan>)
    requires Delivers(s, q, before, log) && TP.HasSnapshot(Sent(s, q))
    requires TP.Run([], ops).events == before + PlanPart(log)
    requires forall i :: 0 <= i < |ops| ==> TP.TextOnly(ops[i])
    ensures Shows(s, q, shown, TP.Run([], ops).todos)
  {
    WireKeepsPlan(log);
    ReconnectShowsPlan(s, q, ops, shown);
  }

  /** End to end: run a turn whose plan events reach the session after the earlier ones, among any other
      events and over any interleaving of connections and deliveries. Whichever active connection lost nothing
      and was sent a snapshot, its browser shows the task list as the turn left it, whatever
      plan it showed before. */
  method RunTurn(turn: AgentTurn, prompt: string, rows: seq<TG.Row>, skill: TG.Skill, passes: seq<Pass>,
                 maxIterations: nat)
    requires maxIterations <= |passes|
    requires turn.log == [] && turn.prompts == [] && turn.spawned == [] && turn.executions == 0 && !turn.reprompted && turn.reprompts == 0
    requires turn.board.Valid() && turn.board.events == turn.eventsBefore
    modifies turn, turn.board
    ensures (forall i :: 0 <= i < |turn.board.ops| ==> TP.TextOnly(turn.board.ops[i])) ==>
      forall s, q, shown :: Delivers(s, q, turn.eventsBefore, turn.log) && TP.HasSnapshot(Sent(s, q)) ==>
        Shows(s, q, shown, turn.board.todos)
  {
    turn.ProcessTurn(prompt, rows, skill, passes, maxIterations);
    if forall i :: 0 <= i < |turn.board.ops| ==> TP.TextOnly(turn.board.ops[i]) {
      forall s, q, shown | Delivers(s, q, turn.eventsBefore, turn.log) && TP.HasSnapshot(Sent(s, q))
        ensures Shows(s, q, shown, turn.board.todos)
      {
        DeliversPlan(s, q, turn.eventsBefore, turn.log, turn.board.ops, shown);
      }
    }
  }
}
