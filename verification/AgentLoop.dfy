/** One turn of the agent: at most `max_plan_steps` passes of calling the model, running its
    tools and answering. */
module AgentLoop {
  import opened Wrappers
  import opened PyText
  import JS = JsonStrings
  import opened ToolGrammar
  import TT = ThinkTags
  import TH = ThinkTheorems
  import opened ThinkSplitters
  import TP = TodoPlan
  import DG = Delegation
  import TC = ThinkChunking
  import opened TurnLog

  class AgentTurn {
    const board: TP.TodoBoard
    var llmMessages: seq<Msg>
    var basePrompt: string
    var toolResults: map<string, string>
    var log: seq<Ev>
    var content: string
    var reasoning: string
    var calls: seq<Call>
    var reprompted: bool
    var executions: nat
    ghost var prompts: seq<seq<Msg>>
    ghost var reprompts: nat
    ghost var spawned: seq<DG.Spawn>
    ghost const eventsBefore: seq<TP.PlanEvent>

    constructor (board: TP.TodoBoard)
      ensures this.board == board && log == [] && prompts == [] && reprompts == 0
      ensures !reprompted && executions == 0 && llmMessages == [] && spawned == []
      ensures eventsBefore == board.events
    {
      this.board := board;
      eventsBefore := board.events;
      llmMessages, basePrompt, toolResults, log := [], "", map[], [];
      content, reasoning, calls := "", "", [];
      reprompted, executions, prompts, reprompts, spawned := false, 0, [], 0, [];
    }

    /** Every list of messages ever sent obeys the grammar, and the model is asked again at most once. */
    ghost predicate Sound()
      reads this`prompts, this`reprompted, this`reprompts
    {
      AllWellFormed(prompts) && reprompts == if reprompted then 1 else 0
    }

    /** The turn's log holds exactly the plan events the task list has emitted since it began, and
        what the sub-agents spawned have pushed. */
    ghost predicate Tracked()
      reads this`log, this`spawned, board
    {
      board.Valid() && board.events == eventsBefore + PlanPart(log) && SpawnPart(log) == SpawnNews(spawned)
    }

    /** The turn has not ended yet, apart from the task list. */
    ghost predicate Steady()
      reads this`llmMessages, this`log, this`prompts, this`reprompted, this`reprompts
    {
      WellFormed(llmMessages) && NoTerminal(log) && Started(log) && Sound()
    }

    ghost predicate Running()
      reads this`llmMessages, this`log, this`prompts, this`reprompted, this`reprompts, this`spawned, board
    {
      Steady() && Tracked()
    }

    /** What still holds when the turn has ended. */
    ghost predicate Ended()
      reads this`log, this`prompts, this`reprompted, this`reprompts, this`spawned, board
    {
      Started(log) && Sound() && Tracked()
    }

    // ----- preparing the messages -----

    method BuildMessages(prompt: string, rows: seq<Row>, skill: Skill)
      modifies this`llmMessages, this`basePrompt
      ensures llmMessages == WithSkill([System(prompt)] + FromHistory(rows), skill)
      ensures WellFormed(llmMessages) && basePrompt == prompt
    {
      var ms := [System(prompt)];
      var i := 0;
      assert rows[..0] == [];
      while i < |rows|
        invariant 0 <= i <= |rows| && ms == [System(prompt)] + FromHistory(rows[..i])
      {
        assert rows[..i + 1][..i] == rows[..i];
        if Loaded(rows[i]) {
          ms := ms + [AsMsg(rows[i])];
        }
        i := i + 1;
      }
      assert rows[..i] == rows;
      HistoryWellFormed(rows);
      Single(System(prompt));
      Append([System(prompt)], FromHistory(rows));
      WithSkillWellFormed(ms, skill);
      llmMessages := InjectSkill(ms, skill);
      basePrompt := prompt;
    }

    /** Scans back for the last user message. */
    method InjectSkill(ms: seq<Msg>, skill: Skill) returns (r: seq<Msg>)
      ensures r == WithSkill(ms, skill)
    {
      var i := |ms|;
      while i > 0 && !ms[i - 1].User?
        invariant 0 <= i <= |ms|
        invariant forall k :: i <= k < |ms| ==> !ms[k].User?
      {
        i := i - 1;
      }
      if i == 0 || ms[i - 1].content == "" || ms[i - 1].content[0] != '/' || skill.NoSkill? {
        return ms;
      }
      assert LastUser(ms) == i - 1;
      r := ms[..i - 1] + [User("[Skill: " + skill.name + "]\n\n" + skill.body)] + ms[i - 1..];
    }

    /** Rewrites old tool results in place, from a list of the indices of tool messages. */
    method TrimContextIfNeeded()
      modifies this`llmMessages
      ensures llmMessages == Trim(old(llmMessages))
    {
      var ms := llmMessages;
      var total := TotalChars(ms);
      if total <= TRIM_CHARS {
        return;
      }
      var recent := if total > HARD_CHARS then 1 else 2;
      var keep := if total > HARD_CHARS then 100 else 400;
      var indices := ToolIndices(ms, 0);
      ToolIndicesAre(ms, 0);
      var n := if |indices| <= recent then 0 else |indices| - recent;
      var k := 0;
      while k < n
        invariant 0 <= k <= n && |llmMessages| == |ms|
        invariant forall i :: 0 <= i < |ms| ==>
          llmMessages[i] == if i in indices[..k] then CutMsg(ms[i], keep) else ms[i]
      {
        hide Cut, ToolIndices, ToolsFrom, CutMsg, TotalChars;
        var i := indices[k];
        assert CutMsg(CutMsg(ms[i], keep), keep) == CutMsg(ms[i], keep) by { CutMsgTwice(ms[i], keep); }
        llmMessages := llmMessages[i := CutMsg(llmMessages[i], keep)];
        assert indices[..k + 1] == indices[..k] + [i];
        k := k + 1;
      }
      CutAtIndices(ms, recent, keep, n, llmMessages);
    }

    // ----- one pass -----

    method Push(es: seq<Ev>)
      requires Running() && Quiet(es)
      modifies this`log
      ensures Running() && log == old(log) + es
    {
      hide WellFormed, PlanPart, SpawnPart, SpawnNews, TP.TodoBoard.Valid, Sound;
      PlanPartConcat(log, es);
      NoPlanNews(es);
      SpawnPartConcat(log, es);
      NoSpawned(es);
      log := log + es;
    }

    /** Pushes what the task list has emitted since it had `n` events. */
    method PushPlan(n: nat)
      requires Steady() && board.Valid() && n <= |board.events|
      requires board.events[..n] == eventsBefore + PlanPart(log) && SpawnPart(log) == SpawnNews(spawned)
      modifies this`log
      ensures Running() && log == old(log) + PlanEvs(board.events[n..])
    {
      hide WellFormed, PlanPart, SpawnPart, SpawnNews, TP.TodoBoard.Valid, Sound;
      PlanPartConcat(log, PlanEvs(board.events[n..]));
      AllPlanNews(board.events[n..]);
      SpawnPartConcat(log, PlanEvs(board.events[n..]));
      NoSpawned(PlanEvs(board.events[n..]));
      log := log + PlanEvs(board.events[n..]);
    }

    /** Runs a sub-agent, which pushes its own events. */
    method RunSubagent(d: DG.Spawn) returns (reply: ToolReply)
      requires Running()
      modifies this`log, this`spawned
      ensures Running() && spawned == old(spawned) + [d]
      ensures reply == DG.ReplyOf(d) && log == old(log) + SpawnEvs(DG.EventsOf(d))
    {
      hide Running, DG.EventsOf, DG.ReplyOf;
      var delegate := new DG.Delegate();
      reply := delegate.FromDefinition(d);
      PushSpawned(d, delegate.pushed);
    }

    method PushSpawned(ghost d: DG.Spawn, es: seq<DG.Event>)
      requires Running() && es == DG.EventsOf(d)
      modifies this`log, this`spawned
      ensures Running() && spawned == old(spawned) + [d] && log == old(log) + SpawnEvs(es)
    {
      hide WellFormed, PlanPart, SpawnPart, TP.TodoBoard.Valid, Sound, DG.EventsOf;
      PlanPartConcat(log, SpawnEvs(es));
      NoPlanNews(SpawnEvs(es));
      SpawnPartConcat(log, SpawnEvs(es));
      AllSpawned(es);
      log := log + SpawnEvs(es);
      assert (spawned + [d])[..|spawned|] == spawned;
      spawned := spawned + [d];
    }

    /** Ends the turn. */
    method Finish(e: Ev, after: seq<Ev>)
      requires Running() && Terminal(e) && Quiet(after)
      modifies this`log
      ensures EndedBy(log, e) && Ended() && log == old(log) + ([e] + after)
    {
      hide WellFormed, PlanPart, SpawnPart, SpawnNews, TP.TodoBoard.Valid, Sound, EndedBy;
      SpawnPartConcat(log, [e] + after);
      NoSpawned([e] + after);
      Conclude(log, e, after);
      PlanPartConcat(log, [e] + after);
      NoPlanNews([e] + after);
      assert log + [e] + after == log + ([e] + after);
      log := log + ([e] + after);
    }

    /** Trims the context; when it is still too long tries to compress it, and gives up with a
        message when that does not help. */
    method PreFlight(p: Pass) returns (flow: Flow)
      requires Running()
      modifies this`llmMessages, this`basePrompt, this`log
      ensures if flow == Break then Ended() && EndedBy(log, AssistantDone(CONTEXT_LIMIT_TEXT, ContextLimit)) else Running()
      ensures flow == Go ==> EstimatedTokens(llmMessages) <= TOKEN_LIMIT
      ensures Fits(old(llmMessages)) ==>
        flow == Go && llmMessages == Trim(old(llmMessages)) && basePrompt == old(basePrompt) && log == old(log)
      ensures flow == Go && !Fits(old(llmMessages)) ==>
        && p.compression.Rebuilt? && basePrompt == p.compression.prompt && log == old(log) + [Compressed]
        && llmMessages == Trim(WithSkill([System(basePrompt)] + FromHistory(p.compression.rows), p.compression.skill))
    {
      hide Running, Ended, Trim, TotalChars, WithSkill, FromHistory, EndedBy;
      Shorten();
      if EstimatedTokens(llmMessages) > TOKEN_LIMIT {
        match p.compression {
          case NotCompressed =>
          case RebuildRaises =>
            Push([Compressed]);
            return Crash;
          case Rebuilt(prompt, rows, skill) =>
            Push([Compressed]);
            Rebuild(prompt, rows, skill);
            Shorten();
        }
        if EstimatedTokens(llmMessages) > TOKEN_LIMIT {
          flow := GiveUp(p);
          return;
        }
      }
      flow := Go;
    }

    method Shorten()
      requires Running()
      modifies this`llmMessages
      ensures Running() && llmMessages == Trim(old(llmMessages))
    {
      hide WellFormed, NoTerminal, Started, Sound, Tracked, Trim;
      TrimWellFormed(llmMessages);
      TrimContextIfNeeded();
    }

    method Rebuild(prompt: string, rows: seq<Row>, skill: Skill)
      requires Running()
      modifies this`llmMessages, this`basePrompt
      ensures Running() && basePrompt == prompt
      ensures llmMessages == WithSkill([System(prompt)] + FromHistory(rows), skill)
    {
      hide WellFormed, NoTerminal, Started, Sound, Tracked, WithSkill, FromHistory;
      BuildMessages(prompt, rows, skill);
    }

    method GiveUp(p: Pass) returns (flow: Flow)
      requires Running()
      modifies this`log
      ensures flow == if p.savesAnswer then Break else Crash
      ensures if flow == Break then Ended() && EndedBy(log, AssistantDone(CONTEXT_LIMIT_TEXT, ContextLimit)) else Running()
    {
      hide Running, Ended, EndedBy;
      Push([Delta(CONTEXT_LIMIT_TEXT)]);
      if !p.savesAnswer {
        return Crash;
      }
      Finish(AssistantDone(CONTEXT_LIMIT_TEXT, ContextLimit), []);
      flow := Break;
    }

    /** Puts the progress of the task list into the system message. */
    method InjectProgress(p: Pass)
      requires Running()
      modifies this`llmMessages
      ensures Running()
      ensures llmMessages == Injected(old(llmMessages), basePrompt, board.todos, p.todoContext)
    {
      if basePrompt != "" && llmMessages != [] && llmMessages[0].System? {
        var text := basePrompt;
        if board.todos != [] && TP.AllCompleted(board.todos) {
          text := text + ALL_DONE_HINT;
        } else if p.todoContext != "" {
          text := text + "\n\n" + p.todoContext;
        }
        ghost var before := llmMessages;
        llmMessages := llmMessages[0 := System(text)];
        ShapeDecides(before, llmMessages);
      }
    }

    /** Sends the messages and reads the streamed answer. */
    method CallModel(p: Pass) returns (ok: bool)
      requires Running()
      modifies this`llmMessages, this`log, this`content, this`reasoning, this`calls, this`prompts
      ensures Running() && prompts == old(prompts) + [llmMessages]
      ensures llmMessages == Injected(old(llmMessages), basePrompt, board.todos, p.todoContext)
      ensures ok == (!p.chatRaises && !p.streamRaises)
      ensures ok ==> Received(p, content, reasoning, calls) && log == old(log) + StreamEvs(p.parts)
    {
      hide WellFormed, NoTerminal, Tracked, Injected, StreamEvs, Received;
      InjectProgress(p);
      prompts := prompts + [llmMessages];
      ok := false;
      if !p.chatRaises {
        ok := ReadStream(p);
      }
    }

    method ReadStream(p: Pass) returns (ok: bool)
      requires Running()
      modifies this`log, this`content, this`reasoning, this`calls
      ensures Running() && ok == !p.streamRaises
      ensures ok ==> Received(p, content, reasoning, calls) && log == old(log) + StreamEvs(p.parts)
      ensures ok ==>
        TH.GivenText(TT.Finish(TT.FeedStream(TT.START, ChunksOf(p.parts))).ledger) == TT.JoinReasoning(ChunksOf(p.parts))
      ensures ok && TT.JoinContent(ChunksOf(p.parts)) == "" ==>
        reasoning == TT.JoinReasoning(ChunksOf(p.parts)) && content == ""
    {
      hide Running, StreamEvs, Received, TT.FeedStream, TT.JoinReasoning, TT.JoinContent, TT.Finish, TH.GivenText;
      ok := ReadAll(p);
      if ok { ReceivedFields(p, content, reasoning, calls); }
    }

    method ReadAll(p: Pass) returns (ok: bool)
      requires Running()
      modifies this`log, this`content, this`reasoning, this`calls
      ensures Running() && ok == !p.streamRaises
      ensures ok ==> Received(p, content, reasoning, calls) && log == old(log) + StreamEvs(p.parts)
    {
      hide Running, PartsEvs, NewEvents, SplitAfter, CallsAfter, TT.Finish, ThinkSplitter.Valid;
      content, reasoning, calls := "", "", [];
      var splitter := new ThinkSplitter();
      AllParts(p.parts);
      ReadParts(splitter, p.parts);
      if p.streamRaises {
        return false;
      }
      FinishReading(splitter);
      ghost var last := SplitAfter(p.parts, |p.parts|);
      Regroup(old(log), PartsEvs(p.parts, |p.parts|), SplitterEvs(NewEvents(last, TT.Finish(last))));
      ok := true;
    }

    method ReadParts(splitter: ThinkSplitter, parts: seq<Part>)
      requires Running() && splitter.Valid() && splitter.View() == TT.START && calls == []
      modifies this`calls, this`log, splitter
      ensures Running() && splitter.Valid()
      ensures splitter.View() == SplitAfter(parts, |parts|) && calls == CallsAfter(parts, |parts|)
      ensures log == old(log) + PartsEvs(parts, |parts|)
    {
      hide Running, SplitAfter, CallsAfter, NewEvents, FragmentsEvs, TT.FeedChunk, AbsorbFrom, ThinkSplitter.Valid;
      AllParts(parts);
      var i := 0;
      while i < |parts|
        invariant 0 <= i <= |parts| && Running() && splitter.Valid()
        invariant splitter.View() == SplitAfter(parts, i) && calls == CallsAfter(parts, i)
        invariant log == old(log) + PartsEvs(parts, i)
      {
        OnePartMore(parts, i);
        ghost var before := log;
        ReadPart(splitter, parts[i]);
        Regroup(old(log), PartsEvs(parts, i), log[|before|..]);
        i := i + 1;
      }
    }

    method FinishReading(splitter: ThinkSplitter)
      requires Running() && splitter.Valid()
      modifies this`log, this`content, this`reasoning, splitter
      ensures Running()
      ensures var was := old(splitter.View());
        && content == TH.ShownText(TT.Finish(was).ledger)
        && reasoning == TH.ReasonText(TT.Finish(was).ledger)
        && log == old(log) + SplitterEvs(NewEvents(was, TT.Finish(was)))
    {
      hide Running, TH.Events;
      ghost var was := splitter.View();
      var n := |splitter.events|;
      splitter.FinishStream();
      TH.FinishExtends(was);
      TH.ExtendsEvents(splitter.ledger, was.ledger);
      Push(SplitterEvs(splitter.events[n..]));
      content, reasoning := splitter.currentContent, splitter.reasoningContent;
    }

    method ReadPart(splitter: ThinkSplitter, part: Part)
      requires Running() && splitter.Valid()
      modifies this`calls, this`log, splitter
      ensures Running() && splitter.Valid() && calls == AbsorbFrom(old(calls), part.fragments)
      ensures splitter.View() == TT.FeedChunk(old(splitter.View()), part.chunk)
      ensures log == old(log) + (SplitterEvs(NewEvents(old(splitter.View()), splitter.View()))
                                 + FragmentsEvs(old(calls), part.fragments))
    {
      hide Running, FragmentsEvs, AbsorbFrom, TT.FeedChunk, TH.Events, TT.BufferOk;
      ghost var was := splitter.View();
      var n := |splitter.events|;
      splitter.ProcessChunk(part.chunk);
      TH.FeedChunkExtends(was, part.chunk);
      TH.ExtendsEvents(splitter.ledger, was.ledger);
      Push(SplitterEvs(splitter.events[n..]));
      ghost var es, acc := SplitterEvs(NewEvents(was, splitter.View())), calls;
      assert log == old(log) + es;
      ReadFragments(part.fragments);
      Regroup(old(log), es, FragmentsEvs(acc, part.fragments));
    }

    method ReadFragments(fs: seq<Fragment>)
      requires Running()
      modifies this`calls, this`log
      ensures Running() && calls == AbsorbFrom(old(calls), fs)
      ensures log == old(log) + FragmentsEvs(old(calls), fs)
    {
      hide Running, Absorb, FragmentEvs;
      ghost var acc := calls;
      var i := 0;
      assert fs[..0] == [];
      while i < |fs|
        invariant 0 <= i <= |fs| && Running()
        invariant calls == AbsorbFrom(acc, fs[..i])
        invariant log == old(log) + FragmentsEvs(acc, fs[..i])
      {
        assert fs[..i + 1][..i] == fs[..i];
        ReadFragment(fs[i]);
        i := i + 1;
      }
      assert fs[..i] == fs;
    }

    method ReadFragment(f: Fragment)
      requires Running()
      modifies this`calls, this`log
      ensures Running() && calls == Absorb(old(calls), f)
      ensures log == old(log) + FragmentEvs(old(calls), f)
      ensures f.id == "" && f.arguments == "" ==> log == old(log)
      ensures f.id != "" && f.arguments == "" ==> log == old(log) + [CallStart(f.id)]
      ensures f.arguments != "" ==>
        f.index < |calls| && log == old(log) + (if f.id != "" then [CallStart(f.id)] else []) + [CallDelta(calls[f.index].id)]
    {
      hide Running;
      calls := Absorb(calls, f);
      if f.id != "" {
        Push([CallStart(f.id)]);
      }
      if f.arguments != "" {
        Push([CallDelta(calls[f.index].id)]);
      }
    }

    // ----- tools -----

    /** Changes the task list. */
    method WriteTodos(args: TP.RawArgs) returns (reply: ToolReply)
      requires Running()
      modifies this`log, board
      ensures Running() && old(log) <= log && board.ops == old(board.ops) + [TP.TodoWrite(args)]
      ensures reply == TodoReply(args) && TodoAnswers(args, reply)
    {
      hide WellFormed, NoTerminal, Started, Sound, PlanPart, SpawnPart, SpawnNews, TP.TodoBoard.Valid, TP.Emitted, TP.Announces;
      hide TP.StoredFrom, TP.Unreadable, TP.NormalizedList, JS.Escaped, TodoAnswers;
      var n := |board.events|;
      var outcome := board.ExecuteWithSession(args);
      PushPlan(n);
      TodoAnswered(args);
      match outcome {
        case Raised => reply := Raises("");
        case Done => reply := Returns(WRITTEN);
        case Refused =>
          reply := Returns(ErrorJson(if args.InvalidJson? then "Invalid JSON: " + args.error else "todos must be an array"));
      }
    }

    /** One call: its result text, or a raised error. TodoWrite changes the task list, and a sub-agent
        pushes its own events. */
    method RunSingleTool(p: Pass, i: nat) returns (reply: ToolReply)
      requires Running() && i < |calls|
      modifies this`log, this`spawned, board
      ensures Running() && old(log) <= log
      ensures spawned == old(spawned) + if calls[i].name == SPAWN then [SpawnOf(p, i)] else []
      ensures if calls[i].name == "TodoWrite"
        then board.ops == old(board.ops) + [TP.TodoWrite(TodoArgsOf(p, i))] && TodoAnswers(TodoArgsOf(p, i), reply)
        else board.ops == old(board.ops) && board.todos == old(board.todos)
      ensures reply == ReplyTo(p, calls[i], i)
      ensures reply.Returns? ==> |old(log)| < |log| && log[|log| - 1] == CallResult(calls[i].id)
    {
      hide WellFormed, NoTerminal, Started, Sound, PlanPart, SpawnPart, SpawnNews, TP.TodoBoard.Valid, TP.Emitted, TP.Announces, TP.StoredFrom;
      hide DG.EventsOf, DG.ReplyOf, JS.Escaped, TP.NormalizedList, TP.Unreadable, TodoAnswers, TodoReply;
      reply := ReplyTo(p, calls[i], i);
      if calls[i].name == SPAWN {
        reply := RunSubagent(SpawnOf(p, i));
      } else if calls[i].name == "TodoWrite" {
        reply := WriteTodos(TodoArgsOf(p, i));
      }
      if reply.Returns? {
        Push([CallResult(calls[i].id)]);
      }
    }

    /** Read-only tools, in any order; what they raise becomes an error result. */
    method RunConcurrent(p: Pass)
      requires Running()
      modifies this`log, this`spawned, this`toolResults, board
      ensures Running() && old(log) <= log
      ensures board.ops == old(board.ops) && board.todos == old(board.todos)
      ensures spawned == old(spawned) + Spawns(p, calls, |calls|)
      ensures forall k :: 0 <= k < |calls| && Concurrent(calls[k]) ==> Handled(p, calls, toolResults, log, |old(log)|, k)
    {
      hide Running, Handled, Since, Recorded, ErrorJson, ReplyTo, TodoReply, Concurrent;
      var i := 0;
      while i < |calls|
        invariant 0 <= i <= |calls| && Running() && old(log) <= log
        invariant board.ops == old(board.ops) && board.todos == old(board.todos)
        invariant spawned == old(spawned) + Spawns(p, calls, i)
        invariant forall k :: 0 <= k < i && Concurrent(calls[k]) ==> Handled(p, calls, toolResults, log, |old(log)|, k)
      {
        ConcurrentOrNot(calls[i]);
        if Concurrent(calls[i]) {
          ghost var was, results := log, toolResults;
          RunReadOnly(p, i);
          HandledStill(p, calls, results, was, toolResults, log, |old(log)|);
          HandledNow(p, calls, toolResults, log, |old(log)|, i);
        }
        i := i + 1;
      }
    }

    method RunReadOnly(p: Pass, i: nat)
      requires Running() && i < |calls| && Concurrent(calls[i])
      modifies this`log, this`spawned, this`toolResults, board
      ensures Running() && old(log) <= log
      ensures spawned == old(spawned) + if calls[i].name == SPAWN then [SpawnOf(p, i)] else []
      ensures board.ops == old(board.ops) && board.todos == old(board.todos)
      ensures ReplyTo(p, calls[i], i).Returns? ==> |old(log)| < |log| && log[|log| - 1] == CallResult(calls[i].id)
      ensures Recorded(p, calls, toolResults, i)
      ensures forall k :: Recorded(p, calls, old(toolResults), k) ==> Recorded(p, calls, toolResults, k)
    {
      hide Running, Recorded, ErrorJson, ReplyTo, TodoReply, TodoAnswers;
      var reply := RunSingleTool(p, i);
      var text := if reply.Returns? then reply.text else ErrorJson(reply.text);
      RecordOne(p, calls, toolResults, i, text);
      toolResults := toolResults[calls[i].id := text];
    }

    /** Read-only tools first, then the others one by one, where an exception ends the batch. */
    method ExecuteToolsBatch(p: Pass) returns (ok: bool)
      requires Running()
      modifies this`log, this`spawned, this`toolResults, board
      ensures Running() && old(log) <= log && old(board.ops) <= board.ops
      ensures spawned == old(spawned) + Spawns(p, calls, |calls|)
      ensures ok ==> AllHandled(p, calls, toolResults, log, |old(log)|, |calls|)
      ensures ok ==> board.ops == old(board.ops) + TodoOps(p, calls, |calls|)
      ensures !ok ==> exists i :: Raising(p, calls, i)
    {
      hide Running, Handled, Concurrent, TodoOps, Spawns, Raising;
      RunConcurrent(p);
      assert AllHandled(p, calls, toolResults, log, |old(log)|, 0);
      ok := RunSerials(p, |old(log)|);
    }

    method RunSerials(p: Pass, ghost n: nat) returns (ok: bool)
      requires Running() && n <= |log| && AllHandled(p, calls, toolResults, log, n, 0)
      modifies this`log, this`spawned, this`toolResults, board
      ensures Running() && old(log) <= log && spawned == old(spawned) && old(board.ops) <= board.ops
      ensures ok ==> AllHandled(p, calls, toolResults, log, n, |calls|)
      ensures ok ==> board.ops == old(board.ops) + TodoOps(p, calls, |calls|)
      ensures !ok ==> exists i :: Raising(p, calls, i)
    {
      hide Running, AllHandled, Handled, Recorded, ReplyTo, Concurrent, Raising;
      var i := 0;
      while i < |calls|
        invariant 0 <= i <= |calls| && Running() && old(log) <= log && spawned == old(spawned)
        invariant board.ops == old(board.ops) + TodoOps(p, calls, i)
        invariant AllHandled(p, calls, toolResults, log, n, i)
      {
        ConcurrentOrNot(calls[i]);
        ghost var was, results := log, toolResults;
        if !Concurrent(calls[i]) {
          ok := RunSerial(p, i);
          if !ok {
            return;
          }
          HandledNow(p, calls, toolResults, log, n, i);
        }
        AllHandledNext(p, calls, results, was, toolResults, log, n, i);
        i := i + 1;
      }
      ok := true;
    }

    method RunSerial(p: Pass, i: nat) returns (ok: bool)
      requires Running() && i < |calls| && !Concurrent(calls[i])
      modifies this`log, this`spawned, this`toolResults, board
      ensures Running() && old(log) <= log && spawned == old(spawned)
      ensures board.ops == old(board.ops) + if calls[i].name == "TodoWrite" then [TP.TodoWrite(TodoArgsOf(p, i))] else []
      ensures ok ==> |old(log)| < |log| && log[|log| - 1] == CallResult(calls[i].id) && Recorded(p, calls, toolResults, i)
      ensures forall k :: Recorded(p, calls, old(toolResults), k) ==> Recorded(p, calls, toolResults, k)
      ensures !ok ==> Raising(p, calls, i)
    {
      hide Running, Recorded, ErrorJson, ReplyTo, TodoReply, TodoAnswers;
      var reply := RunSingleTool(p, i);
      if reply.Raises? {
        return false;
      }
      RecordOne(p, calls, toolResults, i, reply.text);
      toolResults := toolResults[calls[i].id := reply.text];
      ok := true;
    }

    /** Announces and runs the calls, then records them and their results. */
    method ToolRound(p: Pass) returns (ok: bool)
      requires Running()
      modifies this`log, this`spawned, this`toolResults, this`llmMessages, board
      ensures Running() && old(log) + CallEnds(calls) <= log && old(board.ops) <= board.ops
      ensures spawned == old(spawned) + Spawns(p, calls, |calls|)
      ensures p.savesRound && (forall i :: !Raising(p, calls, i)) ==> ok
      ensures if ok
        then llmMessages == old(llmMessages) + RoundMsgs(content, calls, toolResults, board.todos)
        else llmMessages == old(llmMessages)
      ensures ok ==> AllHandled(p, calls, toolResults, log, |old(log)|, |calls|)
      ensures ok ==> RoundTold(old(llmMessages), llmMessages, content, calls, toolResults, board.todos)
      ensures ok ==> AllHeard(p, calls, old(llmMessages), llmMessages)
      ensures ok ==> board.ops == old(board.ops) + TodoOps(p, calls, |calls|)
    {
      hide Running, AllHandled, RoundMsgs, TodoOps, Spawns, RoundTold, AllHeard, Raising;
      AnnounceCalls();
      ghost var announced := log;
      ok := ExecuteToolsBatch(p);
      HandledEarlier(p, calls, toolResults, log, |announced|, |old(log)|);
      if !ok || !p.savesRound {
        return false;
      }
      RecordRound();
      RoundHeard(p, old(llmMessages), llmMessages, content, calls, toolResults, board.todos, log, |old(log)|);
    }

    method AnnounceCalls()
      requires Running()
      modifies this`log
      ensures Running() && log == old(log) + CallEnds(calls)
    {
      hide Running;
      var i := 0;
      while i < |calls|
        invariant 0 <= i <= |calls| && Running() && log == old(log) + CallEnds(calls)[..i]
      {
        Push([CallEnd(calls[i].id)]);
        i := i + 1;
      }
      assert CallEnds(calls)[..i] == CallEnds(calls);
    }

    /** The assistant's calls, then one result message for each, then a hint when the task list
        is done. */
    method RecordRound()
      requires Running()
      modifies this`llmMessages
      ensures Running()
      ensures llmMessages == old(llmMessages) + RoundMsgs(content, calls, toolResults, board.todos)
      ensures RoundTold(old(llmMessages), llmMessages, content, calls, toolResults, board.todos)
    {
      RoundTells(llmMessages, content, calls, toolResults, board.todos);
      RoundKeeps(llmMessages, content, calls, toolResults, board.todos);
      RoundIs(llmMessages, content, calls, toolResults, board.todos);
      assert WellFormed(llmMessages);
      hide Running, WellFormed, ToolMessages, RoundMsgs, RoundTold, TP.AllCompleted;
      var ms := AppendResults(llmMessages + [Assistant(content, calls)]);
      ms := AppendHint(ms);
      SendNext(ms);
    }

    method SendNext(ms: seq<Msg>)
      requires Running() && WellFormed(ms)
      modifies this`llmMessages
      ensures Running() && llmMessages == ms
    {
      hide WellFormed, NoTerminal, Started, Sound, Tracked;
      llmMessages := ms;
    }

    method AppendHint(ms: seq<Msg>) returns (r: seq<Msg>)
      ensures r == ms + if board.todos != [] && TP.AllCompleted(board.todos) then [User(ALL_DONE_PROMPT)] else []
    {
      r := ms;
      if board.todos != [] && TP.AllCompleted(board.todos) {
        r := r + [User(ALL_DONE_PROMPT)];
      }
    }

    method AppendResults(ms: seq<Msg>) returns (r: seq<Msg>)
      ensures r == ms + ToolMessages(calls, toolResults)
    {
      hide Inline, ResultOf;
      ghost var round := ToolMessages(calls, toolResults);
      r := ms;
      var i := 0;
      while i < |calls|
        invariant 0 <= i <= |calls| && r == ms + round[..i]
      {
        ToolMessagesSnoc(calls, toolResults, i);
        r := r + [Tool(calls[i].id, Inline(ResultOf(toolResults, calls[i].id)))];
        i := i + 1;
      }
      assert round[..i] == round;
    }

    // ----- the answer -----

    /** Completes the task list, which may raise. */
    method CompleteTodos() returns (ok: bool)
      requires Running()
      modifies this`log, board
      ensures Running() && TP.AllCompleted(board.todos)
      ensures board.ops == old(board.ops) + [TP.ForceComplete]
      ensures ok <==> TP.AllCompleted(old(board.todos)) || TP.AllText(old(board.todos))
      ensures log == old(log) + PlanEvs(TP.Complete(old(board.todos)).events)
    {
      hide WellFormed, NoTerminal, Started, Sound, PlanPart, SpawnPart, SpawnNews, TP.TodoBoard.Valid;
      var n := |board.events|;
      var outcome := board.ForceCompleteTodos();
      PushPlan(n);
      ok := !outcome.Raised?;
    }

    /** No more tools to run: asks once more when there is reasoning but no text, and otherwise
        answers with the text, the reasoning or a fallback. */
    method Answer(p: Pass) returns (flow: Flow)
      requires Running()
      modifies this`log, this`llmMessages, this`content, this`reprompted, this`reprompts, board
      ensures board.ops == old(board.ops) + [TP.ForceComplete] && TP.AllCompleted(board.todos)
      ensures flow != Break ==> Running()
      ensures flow == Go <==>
        && (TP.AllCompleted(old(board.todos)) || TP.AllText(old(board.todos)))
        && IsBlank(old(content)) && !IsBlank(reasoning) && !old(reprompted)
      ensures flow == Go ==> reprompted && content == old(content) && llmMessages == old(llmMessages) + RepromptMsgs(reasoning)
      ensures flow != Go ==> reprompted == old(reprompted) && llmMessages == old(llmMessages)
      ensures flow == Break <==>
        flow != Go && p.savesAnswer && (TP.AllCompleted(old(board.todos)) || TP.AllText(old(board.todos)))
      ensures flow == Break ==>
        Ended() && EndedBy(log, AssistantDone(content, EndTurn)) && content == AnswerText(old(content), reasoning)
      ensures flow == Go ==> AskedAgain(reasoning, old(llmMessages), llmMessages)
      ensures flow == Break && !IsBlank(old(content)) ==> content == old(content)
      ensures flow == Break && IsBlank(old(content)) && !IsBlank(reasoning) ==> content == Strip(Untagged(reasoning))
      ensures flow == Break && IsBlank(old(content)) && IsBlank(reasoning) ==> content == "（未生成文字回复，请重试或换个问法。）"
    {
      hide Running, Ended, TP.AllCompleted, TP.AllText, Untagged, Strip, IsBlank, EndedBy, AskedAgain;
      var completed := CompleteTodos();
      if !completed {
        return Crash;
      }
      if IsBlank(content) {
        if !IsBlank(reasoning) && !reprompted {
          Reprompt();
          return Go;
        }
        content := if !IsBlank(reasoning) then Strip(Untagged(reasoning)) else NO_TEXT;
        Push([Delta(content)]);
      }
      if !p.savesAnswer {
        return Crash;
      }
      Finish(AssistantDone(content, EndTurn), if p.compressesAfter then [Compressed] else []);
      flow := Break;
    }

    method Reprompt()
      requires Running() && !reprompted
      modifies this`llmMessages, this`reprompted, this`reprompts
      ensures Running() && reprompted && llmMessages == old(llmMessages) + RepromptMsgs(reasoning)
      ensures AskedAgain(reasoning, old(llmMessages), llmMessages)
    {
      AsksAgain(reasoning, llmMessages);
      hide WellFormed, NoTerminal, AllWellFormed, Tracked, AskedAgain;
      reprompted, reprompts := true, reprompts + 1;
      var context := if |reasoning| > REASONING_CAP then reasoning[..REASONING_CAP] else reasoning;
      AppendOne(llmMessages, Assistant("<think>" + context + "</think>", []));
      llmMessages := llmMessages + [Assistant("<think>" + context + "</think>", [])];
      AppendOne(llmMessages, User(REPROMPT));
      llmMessages := llmMessages + [User(REPROMPT)];
    }

    // ----- the turn -----

    /** One pass of the loop. Going on, it has added to what it sent either a tool round, with passes
        left, or the one request to answer. */
    method OnePass(p: Pass, maxIterations: nat) returns (flow: Flow)
      requires Running()
      modifies this, board
      ensures old(board.ops) <= board.ops
      ensures |old(prompts)| <= |prompts| <= |old(prompts)| + 1 && old(prompts) <= prompts
      ensures Fits(old(llmMessages)) ==>
        && |prompts| > |old(prompts)| && basePrompt == old(basePrompt)
        && prompts[|old(prompts)|] == Injected(Trim(old(llmMessages)), old(basePrompt), old(board.todos), p.todoContext)
      ensures Fits(old(llmMessages)) && RoundSucceeds(p) && old(executions) + 1 < maxIterations ==> flow == Go
      ensures Fits(old(llmMessages)) && AnswerSucceeds(p) && TP.AllText(old(board.todos)) ==>
        flow == Break && EndedBy(log, AssistantDone(ShownBy(p), EndTurn))
      ensures spawned == old(spawned) + if |prompts| > |old(prompts)| then PassSpawns(p) else []
      ensures if flow == Break then Ended() && Answered(log, board.todos) else Running()
      ensures flow == Go ==> executions == old(executions) + 1 && |prompts| == |old(prompts)| + 1 && Received(p, content, reasoning, calls)
      ensures flow == Go ==> GoesOn(p, prompts[|prompts| - 1], maxIterations, old(reprompted), old(board.ops))
    {
      hide Running, Ended, Answered, EndedBy, Received, Fits, Injected, Trim, PassSpawns, GoesOn;
      hide CallsOf, Raising, ShownBy, TP.AllText, IsBlank;
      flow := Ask(p);
      if flow == Go {
        flow := Act(p, maxIterations);
      }
    }

    /** After a pass that goes on: to the messages `sent` it has added a complete tool round, with passes
        left, or the one request to answer. */
    ghost predicate GoesOn(p: Pass, sent: seq<Msg>, maxIterations: nat, reprompted0: bool, ops: seq<TP.Op>)
      reads this, board
    {
      || (calls != [] && executions < maxIterations && reprompted == reprompted0
          && board.ops == ops + TodoOps(p, calls, |calls|)
          && llmMessages == sent + RoundMsgs(content, calls, toolResults, board.todos)
          && RoundTold(sent, llmMessages, content, calls, toolResults, board.todos) && AllHeard(p, calls, sent, llmMessages))
      || (calls == [] && !reprompted0 && reprompted && llmMessages == sent + RepromptMsgs(reasoning)
          && AskedAgain(reasoning, sent, llmMessages) && TP.AllCompleted(board.todos))
    }

    /** Prepares the messages, sends them and reads the answer. */
    method Ask(p: Pass) returns (flow: Flow)
      requires Running()
      modifies this`llmMessages, this`basePrompt, this`log, this`content, this`reasoning, this`calls, this`prompts
      ensures old(prompts) <= prompts
      ensures if flow == Break then Ended() && Answered(log, board.todos) else Running()
      ensures flow == Go ==>
        && |prompts| == |old(prompts)| + 1 && prompts[|old(prompts)|] == llmMessages
        && !p.chatRaises && !p.streamRaises && Received(p, content, reasoning, calls)
      ensures flow != Go ==> |prompts| == |old(prompts)| || (|prompts| == |old(prompts)| + 1 && PassSpawns(p) == [])
      ensures Fits(old(llmMessages)) ==>
        && |prompts| > |old(prompts)| && basePrompt == old(basePrompt)
        && prompts[|old(prompts)|] == Injected(Trim(old(llmMessages)), old(basePrompt), board.todos, p.todoContext)
        && (flow == Go <==> !p.chatRaises && !p.streamRaises)
    {
      hide Running, Ended, EndedBy, Received, EstimatedTokens, Injected, Trim, WithSkill, FromHistory, StreamEvs, PassSpawns;
      flow := PreFlight(p);
      if flow != Go {
        return;
      }
      var ok := CallModel(p);
      if !ok {
        NoSpawnsRead(p);
        return Crash;
      }
    }

    /** Runs the tools, or answers. */
    method Act(p: Pass, maxIterations: nat) returns (flow: Flow)
      requires Running() && !p.chatRaises && !p.streamRaises && Received(p, content, reasoning, calls)
      modifies this`executions, this`llmMessages, this`log, this`content, this`toolResults, this`spawned,
        this`reprompted, this`reprompts, board
      ensures old(board.ops) <= board.ops && executions == old(executions) + 1
      ensures spawned == old(spawned) + PassSpawns(p)
      ensures if flow == Break then Ended() && Answered(log, board.todos) else Running()
      ensures flow == Go ==> content == old(content)
      ensures flow == Go ==> GoesOn(p, old(llmMessages), maxIterations, old(reprompted), old(board.ops))
      ensures RoundSucceeds(p) && old(executions) + 1 < maxIterations ==> flow == Go
      ensures AnswerSucceeds(p) && TP.AllText(old(board.todos)) ==>
        flow == Break && EndedBy(log, AssistantDone(ShownBy(p), EndTurn))
    {
      hide Running, Ended, EndedBy, IsBlank, TP.AllCompleted, TP.AllText, RoundMsgs, RepromptMsgs, TodoOps, RoundTold, AllHeard, AskedAgain;
      SpawnsRead(p, content, reasoning, calls);
      WhatWasRead(p, content, reasoning, calls);
      hide PassSpawns, Spawns, CallsOf, ShownBy, Received, Raising;
      executions := executions + 1;
      if calls == [] {
        flow := Answer(p);
      } else {
        flow := ActOnCalls(p, maxIterations);
      }
    }

    method ActOnCalls(p: Pass, maxIterations: nat) returns (flow: Flow)
      requires Running() && calls != []
      modifies this`llmMessages, this`log, this`content, this`toolResults, this`spawned, this`reprompted, this`reprompts, board
      ensures old(board.ops) <= board.ops && spawned == old(spawned) + Spawns(p, calls, |calls|)
      ensures if flow == Break then Ended() && Answered(log, board.todos) else Running()
      ensures flow == Go ==> content == old(content) && GoesOn(p, old(llmMessages), maxIterations, old(reprompted), old(board.ops))
      ensures p.savesRound && (forall i :: !Raising(p, calls, i)) && executions < maxIterations ==> flow == Go
    {
      hide Running, Ended, EndedBy, Recorded, IsBlank, TP.AllCompleted, TP.AllText, RoundMsgs, RepromptMsgs, TodoOps, CallEnds, Since;
      hide RoundTold, AllHeard, AskedAgain;
      hide Raising, Spawns, ReplyTo;
      var ok := ToolRound(p);
      if !ok {
        return Crash;
      }
      if executions < maxIterations {
        return Go;
      }
      StopHere();
      flow := Answer(p);
    }

    method StopHere()
      requires Running()
      modifies this`content, this`log
      ensures Running() && content == STEP_LIMIT_TEXT && !IsBlank(content) && log == old(log) + [Delta(content)]
    {
      hide Running;
      content := STEP_LIMIT_TEXT;
      assert !IsSpace(STEP_LIMIT_TEXT[0]);
      Push([Delta(content)]);
    }

    /** The loop with its `else` arm and its exception handler. */
    method ProcessTurn(prompt: string, rows: seq<Row>, skill: Skill, passes: seq<Pass>, maxIterations: nat)
      requires maxIterations <= |passes|
      requires log == [] && prompts == [] && spawned == [] && executions == 0 && !reprompted && reprompts == 0
      requires board.Valid() && board.events == eventsBefore
      modifies this, board
      ensures |prompts| <= maxIterations && reprompts <= 1
      ensures AllWellFormed(prompts)
      ensures Started(log) && OneTerminal(log)
      ensures SpawnPart(log) == SpawnNews(TurnSpawns(passes, |prompts|))
      ensures LooksEndedOnce(log) <==> AllRegistered(TurnSpawns(passes, |prompts|))
      ensures maxIterations > 0 && Fits(WithSkill([System(prompt)] + FromHistory(rows), skill)) ==>
        |prompts| > 0
      ensures forall i :: 0 <= i < |log| && log[i].AssistantDone? ==>
        && (log[i].stop != ContextLimit ==> TP.AllCompleted(board.todos))
        && (log[i].stop == MaxIterations ==> reprompts == 1 && |prompts| == maxIterations)
        && (log[i].stop == MaxIterations ==> log[i].content == if content != "" then content else "[已达最大执行步骤限制，请简化任务后重试]")
      ensures old(board.ops) <= board.ops && board.Valid() && board.events == old(board.events) + PlanPart(log)
      ensures (forall i :: 0 <= i < |board.ops| ==> TP.TextOnly(board.ops[i])) && TP.HasSnapshot(PlanPart(log)) ==>
        && TP.AllText(board.todos)
        && forall plan :: TP.Fold(plan, PlanPart(log)) == Some(TP.PlanOf(board.todos))
    {
      hide EndedBy, OneTerminal, LooksEndedOnce, WellFormed, NoTerminal, Started, PlanPart, SpawnPart, SpawnNews, TP.TodoBoard.Valid;
      hide Fits, WithSkill, FromHistory, TurnSpawns;
      hide TP.AllCompleted, TP.AllText, TP.TextOnly, TP.HasSnapshot, TP.Fold, TP.PlanOf;
      var flow := RunPasses(prompt, rows, skill, passes, maxIterations);
      if flow == Go {
        var text := if content != "" then content else MAX_ROUNDS_TEXT;
        var completed := CompleteTodos();
        if completed && passes[maxIterations - 1].savesAnswer {
          Finish(AssistantDone(text, MaxIterations), []);
          TheOnlyEnd(log, AssistantDone(text, MaxIterations));
          ShowsPlan();
          LooksEndedOnceIff(log, spawned);
          return;
        }
        flow := Crash;
      }
      if flow == Crash {
        assert Running();
        Finish(Error, []);
        TheOnlyEnd(log, Error);
      } else {
        ghost var text, stop :| stop != MaxIterations
          && EndedBy(log, AssistantDone(text, stop)) && (stop == EndTurn ==> TP.AllCompleted(board.todos));
        TheOnlyEnd(log, AssistantDone(text, stop));
      }
      ShowsPlan();
      LooksEndedOnceIff(log, spawned);
    }

    /** The plan events of this turn bring the browser to the server's list. */
    lemma ShowsPlan()
      requires Tracked()
      ensures (forall i :: 0 <= i < |board.ops| ==> TP.TextOnly(board.ops[i])) && TP.HasSnapshot(PlanPart(log)) ==>
        && TP.AllText(board.todos)
        && forall plan :: TP.Fold(plan, PlanPart(log)) == Some(TP.PlanOf(board.todos))
    {
      if (forall i :: 0 <= i < |board.ops| ==> TP.TextOnly(board.ops[i])) && TP.HasSnapshot(PlanPart(log)) {
        TurnShowsPlan(board.ops, eventsBefore, PlanPart(log));
      }
    }

    lemma NewsOfSpawned()
      requires Ended()
      ensures SpawnPart(log) == SpawnNews(spawned)
    {
    }

    lemma NothingToDo()
      requires Running() && board.ops == []
      ensures board.todos == []
    {
    }

    method RunPasses(prompt: string, rows: seq<Row>, skill: Skill, passes: seq<Pass>, maxIterations: nat)
      returns (flow: Flow)
      requires maxIterations <= |passes|
      requires log == [] && prompts == [] && spawned == [] && executions == 0 && !reprompted && reprompts == 0
      requires board.Valid() && board.events == eventsBefore
      modifies this, board
      ensures |prompts| <= maxIterations && old(board.ops) <= board.ops
      ensures spawned == TurnSpawns(passes, |prompts|)
      ensures maxIterations > 0 && Fits(WithSkill([System(prompt)] + FromHistory(rows), skill)) ==>
        |prompts| > 0
      ensures if flow == Break then Ended() && Answered(log, board.todos) else Running()
      ensures flow == Go ==> reprompted && |prompts| == maxIterations > 0 && TP.AllCompleted(board.todos)
    {
      Begin(prompt, rows, skill);
      if maxIterations == 0 {
        return Crash;  // the text for the `else` arm was never assigned
      }
      hide Running, Ended, Answered, Fits, WithSkill, FromHistory, TurnSpawns, TP.AllCompleted;
      flow := Loop(passes, maxIterations);
    }

    method Loop(passes: seq<Pass>, maxIterations: nat) returns (flow: Flow)
      requires 0 < maxIterations <= |passes| && Running()
      requires prompts == [] && spawned == [] && executions == 0
      modifies this, board
      ensures |prompts| <= maxIterations && old(board.ops) <= board.ops
      ensures spawned == TurnSpawns(passes, |prompts|) && (Fits(old(llmMessages)) ==> |prompts| > 0)
      ensures if flow == Break then Ended() && Answered(log, board.todos) else Running()
      ensures flow == Go ==> reprompted && |prompts| == maxIterations && TP.AllCompleted(board.todos)
    {
      hide Running, Ended, Answered, Received, RoundMsgs, RepromptMsgs, TP.AllCompleted, Fits, PassSpawns;
      var iteration := 0;
      flow := Go;
      while iteration < maxIterations && flow == Go
        invariant 0 <= iteration <= maxIterations
        invariant |prompts| <= iteration && old(board.ops) <= board.ops
        invariant spawned == TurnSpawns(passes, |prompts|)
        invariant iteration == 0 ==> llmMessages == old(llmMessages) && flow == Go
        invariant iteration > 0 && Fits(old(llmMessages)) ==> |prompts| > 0
        invariant if flow == Break then Ended() && Answered(log, board.todos) else Running()
        invariant flow == Go ==> executions == iteration == |prompts|
        invariant flow == Go && iteration == maxIterations ==> reprompted && TP.AllCompleted(board.todos)
      {
        flow := OnePass(passes[iteration], maxIterations);
        iteration := iteration + 1;
      }
    }

    method Begin(prompt: string, rows: seq<Row>, skill: Skill)
      requires log == [] && prompts == [] && spawned == [] && !reprompted && reprompts == 0
      requires board.Valid() && board.events == eventsBefore
      modifies this`llmMessages, this`basePrompt, this`log
      ensures Running() && log == [StreamStart, UserAck] && basePrompt == prompt
      ensures llmMessages == WithSkill([System(prompt)] + FromHistory(rows), skill)
    {
      hide WellFormed, WithSkill, FromHistory, TP.TodoBoard.Valid;
      BuildMessages(prompt, rows, skill);
      log := [StreamStart, UserAck];
      NoPlanNews(log);
      NoSpawned(log);
    }
  }

  // ----- a turn whose stream looks ended twice -----

  const CALL := Call("a", SPAWN, "{}")
  const SPAWN_PASS := Pass(NotCompressed, "", false, [Part(TT.Chunk("", ""), [Fragment(0, "a", SPAWN, "{}")])], false,
                           [], [], [DG.Unregistered("not found")], true, true, false)
  const ANSWER_PASS := Pass(NotCompressed, "", false, [Part(TT.Chunk("", "ok"), [])], false, [], [], [], true, true, false)

  lemma ExampleScript()
    ensures CallsOf(SPAWN_PASS) == [CALL] && RoundSucceeds(SPAWN_PASS) && TodoOps(SPAWN_PASS, [CALL], 1) == []
    ensures PassSpawns(SPAWN_PASS) == [DG.Unregistered("not found")] && PassSpawns(ANSWER_PASS) == []
    ensures AnswerSucceeds(ANSWER_PASS) && ShownBy(ANSWER_PASS) == "ok" && ShownBy(SPAWN_PASS) == ""
  {
    ExampleCalls();
    ExampleText();
    NoText(SPAWN_PASS);
    hide CallsOf, ShownBy;
    assert Concurrent(CALL) && !IsSpace("ok"[0]);
    assert Spawns(SPAWN_PASS, [CALL], 1) == Spawns(SPAWN_PASS, [CALL], 0) + [DG.Unregistered("not found")];
  }

  lemma ExampleCalls()
    ensures CallsOf(SPAWN_PASS) == [CALL] && CallsOf(ANSWER_PASS) == []
  {
    var f := Fragment(0, "a", SPAWN, "{}");
    assert SPAWN_PASS.parts[..0] == [] && ANSWER_PASS.parts[..0] == [];
    assert FragmentsOf(SPAWN_PASS.parts) == [f] && FragmentsOf(ANSWER_PASS.parts) == [];
    assert [f][..0] == [] && AbsorbFrom([], [f]) == Absorb([], f);
    assert Padded([], 1) == Padded([BLANK_CALL], 1) == [BLANK_CALL];
    assert "" + "{}" == "{}";
  }

  lemma ExampleText()
    ensures ShownBy(ANSWER_PASS) == "ok"
  {
    var chunks := ChunksOf(ANSWER_PASS.parts);
    assert chunks == [TT.Chunk("", "ok")] && chunks[..0] == [];
    TC.PlainChunk(TT.START, "ok");
    assert "" + "ok" == "ok";
  }

  lemma NoText(p: Pass)
    requires |p.parts| == 1 && p.parts[0].chunk.content == ""
    ensures ShownBy(p) == ""
  {
    var chunks := ChunksOf(p.parts);
    assert chunks[..0] == [] && TT.JoinContent(chunks) == TT.JoinContent(chunks[..0]) + "";
    TH.FieldsOnly(chunks);
  }

  lemma ExampleRound(results: map<string, string>)
    ensures TotalChars([System("")] + RoundMsgs("", [CALL], results, [])) <= TRIM_CHARS
  {
    var tool := ToolMessages([CALL], results)[0];
    var ms := [System(""), Assistant("", [CALL]), tool];
    assert [System("")] + RoundMsgs("", [CALL], results, []) == ms;
    assert ms[..2] == [System(""), Assistant("", [CALL])] && ms[..2][..1] == [System("")] && [System("")][..0] == [];
    assert TotalChars([System("")]) == 0 && TotalChars(ms[..2]) == 0;
    assert TotalChars(ms) == |tool.content| <= INLINE_CAP + |INLINE_NOTE|;
  }

  lemma AfterSpawn(content: string, reasoning: string, calls: seq<Call>, results: map<string, string>, ms: seq<Msg>)
    requires Received(SPAWN_PASS, content, reasoning, calls)
    requires calls != [] ==> ms == [System("")] + RoundMsgs(content, calls, results, [])
    ensures Fits(ms)
  {
    ExampleScript();
    WhatWasRead(SPAWN_PASS, content, reasoning, calls);
    hide Received, CallsOf, ShownBy, Fits;
    ExampleRound(results);
    FewCharsFit(ms);
  }

  /** The model spawns a sub-agent under a name that is not registered, is told so, and answers: the stream
      has an error event and an assistant's message. */
  method UnknownAgentEndsTwice() returns (turn: AgentTurn)
    ensures fresh(turn) && EndedBy(turn.log, AssistantDone("ok", EndTurn))
    ensures Spawned(DG.NotFound) in turn.log && !LooksEndedOnce(turn.log)
  {
    turn := UnknownAgent();
    ExampleScript();
    hide AgentTurn.Running, AgentTurn.GoesOn, Answered, Fits, RoundSucceeds, AnswerSucceeds, PassSpawns, CallsOf, ShownBy;
    var flow := turn.OnePass(ANSWER_PASS, 2);
    TheOnlyEnd(turn.log, AssistantDone("ok", EndTurn));
    assert turn.spawned == [DG.Unregistered("not found")];
    turn.NewsOfSpawned();
    LooksEndedOnceIff(turn.log, turn.spawned);
    SpawnedIn(turn.log, DG.NotFound);
    NotFoundAmong(turn.spawned);
  }

  method NewTurn() returns (turn: AgentTurn)
    ensures fresh(turn) && fresh(turn.board) && turn.Running() && turn.spawned == [] && turn.prompts == [] && turn.executions == 0
    ensures turn.board.todos == [] && turn.board.ops == [] && turn.llmMessages == [System("")] && turn.basePrompt == ""
    ensures TotalChars(turn.llmMessages) == 0
  {
    var board := new TP.TodoBoard();
    turn := new AgentTurn(board);
    turn.Begin("", [], NoSkill);
    assert [System("")][..0] == [];
  }

  /** The first pass. */
  method UnknownAgent() returns (turn: AgentTurn)
    ensures fresh(turn) && fresh(turn.board) && turn.Running() && turn.spawned == [DG.Unregistered("not found")]
    ensures turn.board.todos == [] && Fits(turn.llmMessages)
  {
    turn := NewTurn();
    ExampleScript();
    FewCharsFit(turn.llmMessages);
    hide AgentTurn.Running, Trim, Fits, RoundSucceeds, PassSpawns, CallsOf, ShownBy, RoundTold, AllHeard, AskedAgain;
    hide Received;
    var flow := turn.OnePass(SPAWN_PASS, 2);
    turn.NothingToDo();
    AfterSpawn(turn.content, turn.reasoning, turn.calls, turn.toolResults, turn.llmMessages);
  }
}
