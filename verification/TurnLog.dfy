/** What one turn of the agent reads and writes. The model, the tools and the database are a script:
    what they return in each pass, and where they raise. The turn writes a log of events. */
module TurnLog {
  import opened Wrappers
  import opened PyText
  import JS = JsonStrings
  import opened ToolGrammar
  import TT = ThinkTags
  import TH = ThinkTheorems
  import TP = TodoPlan
  import DG = Delegation

  // ----- what the outside world does in one pass -----

  datatype Part = Part(chunk: TT.Chunk, fragments: seq<Fragment>)

  datatype Compression =
    | NotCompressed
    | RebuildRaises
    | Rebuilt(prompt: string, rows: seq<Row>, skill: Skill)

  datatype Pass = Pass(
    compression: Compression,
    todoContext: string,
    chatRaises: bool,
    parts: seq<Part>,
    streamRaises: bool,
    replies: seq<ToolReply>,
    todoArgs: seq<TP.RawArgs>,
    spawns: seq<DG.Spawn>,
    savesRound: bool,
    savesAnswer: bool,
    compressesAfter: bool)

  datatype StopReason = EndTurn | MaxIterations | ContextLimit

  /** The events of a turn, in push order. */
  datatype Ev =
    | StreamStart
    | UserAck
    | Splitter(event: TT.Event)
    | CallStart(id: string)
    | CallDelta(id: string)
    | CallEnd(id: string)
    | CallResult(id: string)
    | PlanNews(plan: TP.PlanEvent)
    | Spawned(news: DG.Event)
    | Delta(text: string)
    | Compressed
    | AssistantDone(content: string, stop: StopReason)
    | Error

  /** What ends a turn: the assistant's message, or the error that cannot be recovered from. */
  predicate Terminal(e: Ev) { e.AssistantDone? || e.Error? }

  /** What looks on the stream like an end: an assistant's message or any error event, one that says
      it is recoverable included. */
  predicate LooksTerminal(e: Ev) { Terminal(e) || e == Spawned(DG.NotFound) }

  ghost predicate NoTerminal(log: seq<Ev>) {
    forall i :: 0 <= i < |log| ==> !Terminal(log[i])
  }

  ghost predicate EndsAt(log: seq<Ev>, i: nat) {
    i < |log| && forall j :: 0 <= j < |log| ==> (Terminal(log[j]) <==> j == i)
  }

  /** `e` is the one terminal event of the log. */
  ghost predicate EndedBy(log: seq<Ev>, e: Ev) {
    exists i: nat :: EndsAt(log, i) && log[i] == e
  }

  ghost predicate OneTerminal(log: seq<Ev>) {
    exists e :: EndedBy(log, e)
  }

  ghost predicate LooksEndedAt(log: seq<Ev>, i: nat) {
    i < |log| && forall j :: 0 <= j < |log| ==> (LooksTerminal(log[j]) <==> j == i)
  }

  ghost predicate LooksEndedOnce(log: seq<Ev>) {
    exists i: nat :: LooksEndedAt(log, i)
  }

  lemma Conclude(log: seq<Ev>, e: Ev, after: seq<Ev>)
    requires NoTerminal(log) && Terminal(e) && NoTerminal(after)
    ensures EndedBy(log + [e] + after, e)
  {
    var all := log + [e] + after;
    assert all[|log|] == e;
    assert EndsAt(all, |log|);
  }

  lemma TheOnlyEnd(log: seq<Ev>, e: Ev)
    requires EndedBy(log, e)
    ensures OneTerminal(log)
    ensures forall i :: 0 <= i < |log| && Terminal(log[i]) ==> log[i] == e
  {
  }

  predicate Started(log: seq<Ev>) {
    |log| >= 2 && log[0] == StreamStart && log[1] == UserAck
  }

  const TOKEN_LIMIT := 160000
  const CONCURRENT_TOOLS := {
    "web_search", "web_fetch", "file_read", "file_search", "session_search",
    "memory_query", "clarify", "skills_list", "skill_view", "spawn_subagent"}

  const ALL_DONE_HINT := "\n\n所有任务已完成，请直接给出最终的文字回答，不要调用任何工具。"
  const ALL_DONE_PROMPT := "所有任务已完成，请直接给出最终的文字回答，不要再调用任何工具。"
  const CONTEXT_LIMIT_TEXT := "（当前任务上下文已超出模型处理上限，无法继续。请简化任务或开启新对话后重试。）"
  const STEP_LIMIT_TEXT := "（已达到最大执行步骤限制，任务中止。）"
  const NO_TEXT := "（未生成文字回复，请重试或换个问法。）"
  const MAX_ROUNDS_TEXT := "[已达最大执行步骤限制，请简化任务后重试]"
  const REPROMPT := "请基于以上思考直接给出你的文字回答，不要重复思考过程。"
  const REASONING_CAP := 800

  /** `int(total / 3.5)` */
  function EstimatedTokens(ms: seq<Msg>): nat {
    2 * TotalChars(ms) / 7
  }

  /** The messages are within the limit once trimmed. */
  predicate Fits(ms: seq<Msg>) {
    EstimatedTokens(Trim(ms)) <= TOKEN_LIMIT
  }

  /** The messages fit when at most 560003 characters remain. */
  lemma FitsIff(ms: seq<Msg>)
    ensures Fits(ms) <==> TotalChars(Trim(ms)) <= 560003
    ensures EstimatedTokens(ms) <= 160000 <==> TotalChars(ms) <= 560003
  {
  }

  lemma FewCharsFit(ms: seq<Msg>)
    requires TotalChars(ms) <= TRIM_CHARS
    ensures Trim(ms) == ms && Fits(ms)
  {
  }

  function ErrorJson(text: string): string { "{\"error\": \"" + JS.Escaped(text) + "\"}" }

  const WRITTEN := "Todos have been modified successfully. Ensure that you continue to use the todo list to track your progress. Please proceed with the current tasks if applicable."

  /** How TodoWrite ends with these arguments, whatever the list was. */
  function TodoReply(args: TP.RawArgs): ToolReply {
    match args
    case InvalidJson(e) => Returns(ErrorJson("Invalid JSON: " + e))
    case NotADict => Raises("")
    case NoList => Returns(ErrorJson("todos must be an array"))
    case Todos(items) => if TP.NormalizedList(items).None? then Raises("") else Returns(WRITTEN)
  }

  /** The reply of TodoWrite, read off its arguments. */
  predicate TodoAnswers(args: TP.RawArgs, reply: ToolReply) {
    match args
    case InvalidJson(e) => reply.Returns? && reply.text == "{\"error\": \"" + JS.Escaped("Invalid JSON: " + e) + "\"}"
    case NotADict => reply.Raises?
    case NoList => reply.Returns? && reply.text == "{\"error\": \"" + JS.Escaped("todos must be an array") + "\"}"
    case Todos(items) =>
      if exists i :: 0 <= i < |items| && TP.Unreadable(items[i]) then reply.Raises?
      else
        reply == Returns("Todos have been modified successfully. Ensure that you continue to use the todo list to track your progress. Please proceed with the current tasks if applicable.")
  }

  lemma TodoAnswered(args: TP.RawArgs)
    ensures TodoAnswers(args, TodoReply(args))
  {
    if args.Todos? { TP.ListIsStored(args.items); }
  }

  const SPAWN := "spawn_subagent"

  function SpawnOf(p: Pass, i: nat): DG.Spawn {
    if i < |p.spawns| then p.spawns[i] else DG.NotReached("")
  }

  /** How call number `i` ends. */
  function ReplyTo(p: Pass, c: Call, i: nat): ToolReply {
    if c.name == SPAWN then DG.ReplyOf(SpawnOf(p, i))
    else if c.name == "TodoWrite" then TodoReply(TodoArgsOf(p, i))
    else if i < |p.replies| then p.replies[i]
    else Returns("")
  }

  function TodoArgsOf(p: Pass, i: nat): TP.RawArgs {
    if i < |p.todoArgs| then p.todoArgs[i] else TP.NoList
  }

  predicate Concurrent(c: Call) { c.name in CONCURRENT_TOOLS }

  lemma ConcurrentOrNot(c: Call)
    ensures c.name == SPAWN ==> Concurrent(c)
    ensures c.name == "TodoWrite" ==> !Concurrent(c)
  {
  }

  predicate DistinctIds(calls: seq<Call>) {
    forall i, j :: 0 <= i < j < |calls| ==> calls[i].id != calls[j].id
  }

  /** The reasoning shown as an answer: think tags of either case cut out, then stripped. */
  function Untagged(s: string): string
    decreases |s|
  {
    if s == "" then ""
    else if TT.MatchesAt(s, 0, TT.OPEN_SHORT) then Untagged(s[|TT.OPEN_SHORT|..])
    else if TT.MatchesAt(s, 0, TT.OPEN_LONG) then Untagged(s[|TT.OPEN_LONG|..])
    else if TT.MatchesAt(s, 0, TT.CLOSER) then Untagged(s[|TT.CLOSER|..])
    else if TT.MatchesAt(s, 0, TT.CLOSER_LONG) then Untagged(s[|TT.CLOSER_LONG|..])
    else [s[0]] + Untagged(s[1..])
  }

  /** A think tag of either kind, opening or closing, begins `s`; its length. */
  predicate TagFirst(s: string, n: nat) {
    || (n == 7 && TT.MatchesAt(s, 0, "<think>")) || (n == 10 && TT.MatchesAt(s, 0, "<thinking>"))
    || (n == 8 && TT.MatchesAt(s, 0, "</think>")) || (n == 11 && TT.MatchesAt(s, 0, "</thinking>"))
  }

  predicate BeginsTag(c: char) { c == '<' }

  /** Text up to a `<` is kept. */
  lemma {:induction false} UntaggedKeeps(a: string, b: string)
    requires forall i :: 0 <= i < |a| ==> !BeginsTag(a[i])
    ensures Untagged(a + b) == a + Untagged(b)
    decreases |a|
  {
    hide Untagged;
    if a == "" {
      assert a + b == b;
    } else {
      KeptFirst(a + b);
      UntaggedKeeps(a[1..], b);
      assert (a + b)[0] == a[0] && (a + b)[1..] == a[1..] + b && a == [a[0]] + a[1..];
    }
  }

  lemma KeptFirst(s: string)
    requires s != "" && !BeginsTag(s[0])
    ensures Untagged(s) == [s[0]] + Untagged(s[1..])
  {
    NoTagFirst(s);
    hide TT.MatchesAt;
  }

  lemma NoTagFirst(s: string)
    requires s != "" && !BeginsTag(s[0])
    ensures !TT.MatchesAt(s, 0, TT.OPEN_SHORT) && !TT.MatchesAt(s, 0, TT.OPEN_LONG)
    ensures !TT.MatchesAt(s, 0, TT.CLOSER) && !TT.MatchesAt(s, 0, TT.CLOSER_LONG)
  {
    assert TT.OPEN_SHORT[0] == TT.OPEN_LONG[0] == TT.CLOSER[0] == TT.CLOSER_LONG[0] == '<';
  }

  /** A tag is cut out, and a `<` that begins none is kept. */
  lemma UntaggedCuts(s: string)
    requires s != ""
    ensures forall n: nat :: TagFirst(s, n) ==> n <= |s| && Untagged(s) == Untagged(s[n..])
    ensures (forall n: nat :: !TagFirst(s, n)) ==> Untagged(s) == [s[0]] + Untagged(s[1..])
  {
    OneTagFirst(s);
    hide Untagged;
    UntaggedFirst(s);
    assert TagFirst(s, 7) <==> TT.MatchesAt(s, 0, TT.OPEN_SHORT);
    assert TagFirst(s, 10) <==> TT.MatchesAt(s, 0, TT.OPEN_LONG);
    assert TagFirst(s, 8) <==> TT.MatchesAt(s, 0, TT.CLOSER);
    assert TagFirst(s, 11) <==> TT.MatchesAt(s, 0, TT.CLOSER_LONG);
    hide TT.MatchesAt;
  }

  lemma UntaggedFirst(s: string)
    requires s != ""
    ensures Untagged(s) ==
      if TT.MatchesAt(s, 0, TT.OPEN_SHORT) then Untagged(s[7..])
      else if TT.MatchesAt(s, 0, TT.OPEN_LONG) then Untagged(s[10..])
      else if TT.MatchesAt(s, 0, TT.CLOSER) then Untagged(s[8..])
      else if TT.MatchesAt(s, 0, TT.CLOSER_LONG) then Untagged(s[11..])
      else [s[0]] + Untagged(s[1..])
  {
  }

  lemma OneTagFirst(s: string)
    ensures forall m: nat, n: nat :: TagFirst(s, m) && TagFirst(s, n) ==> m == n
    ensures forall n: nat :: TagFirst(s, n) ==> n <= |s|
  {
    assert TT.OPEN_SHORT[1] == TT.OPEN_LONG[1] == 't' && TT.CLOSER[1] == TT.CLOSER_LONG[1] == '/';
    assert TT.OPEN_SHORT[6] == TT.CLOSER[7] == '>' && TT.OPEN_LONG[6] == TT.CLOSER_LONG[7] == 'i';
  }

  /** How one step of the turn ends. */
  datatype Flow = Go | Break | Crash

  function PlanEvs(es: seq<TP.PlanEvent>): (r: seq<Ev>)
    ensures |r| == |es| && forall i :: 0 <= i < |r| ==> r[i] == PlanNews(es[i])
  {
    seq(|es|, i requires 0 <= i < |es| => PlanNews(es[i]))
  }

  function SplitterEvs(es: seq<TT.Event>): (r: seq<Ev>)
    ensures |r| == |es| && forall i :: 0 <= i < |r| ==> r[i] == Splitter(es[i])
  {
    seq(|es|, i requires 0 <= i < |es| => Splitter(es[i]))
  }

  function ChunksOf(parts: seq<Part>): (r: seq<TT.Chunk>)
    ensures |r| == |parts| && forall i :: 0 <= i < |r| ==> r[i] == parts[i].chunk
  {
    seq(|parts|, i requires 0 <= i < |parts| => parts[i].chunk)
  }

  function FragmentsOf(parts: seq<Part>): seq<Fragment> {
    if parts == [] then [] else FragmentsOf(parts[..|parts| - 1]) + parts[|parts| - 1].fragments
  }

  /** The turn ended with an answer or at the context limit; an answer leaves no open task. */
  ghost predicate Answered(log: seq<Ev>, todos: seq<TP.Todo>) {
    exists text, stop :: stop != MaxIterations && EndedBy(log, AssistantDone(text, stop))
                      && (stop == EndTurn ==> TP.AllCompleted(todos))
  }

  ghost predicate AllWellFormed(prompts: seq<seq<Msg>>) {
    forall i :: 0 <= i < |prompts| ==> WellFormed(prompts[i])
  }

  /** What the splitter has made of the first `n` parts, and the calls put together from them. */
  function SplitAfter(parts: seq<Part>, n: nat): TT.Split
    requires n <= |parts|
  {
    TT.FeedStream(TT.START, ChunksOf(parts)[..n])
  }

  function CallsAfter(parts: seq<Part>, n: nat): seq<Call>
    requires n <= |parts|
  {
    AbsorbAll(FragmentsOf(parts[..n]))
  }

  lemma OnePartMore(parts: seq<Part>, i: nat)
    requires i < |parts|
    ensures CallsAfter(parts, i + 1) == AbsorbFrom(CallsAfter(parts, i), parts[i].fragments)
    ensures SplitAfter(parts, i + 1) == TT.FeedChunk(SplitAfter(parts, i), parts[i].chunk)
  {
    assert parts[..i + 1][..i] == parts[..i];
    AbsorbConcat([], FragmentsOf(parts[..i]), parts[i].fragments);
    assert ChunksOf(parts)[..i + 1][..i] == ChunksOf(parts)[..i];
  }

  lemma AllParts(parts: seq<Part>)
    ensures SplitAfter(parts, 0) == TT.START && CallsAfter(parts, 0) == []
    ensures SplitAfter(parts, |parts|) == TT.FeedStream(TT.START, ChunksOf(parts))
    ensures CallsAfter(parts, |parts|) == AbsorbAll(FragmentsOf(parts))
  {
    assert parts[..|parts|] == parts && ChunksOf(parts)[..|parts|] == ChunksOf(parts);
  }

  /** What the model is told about call number `i`. */
  function Told(p: Pass, c: Call, i: nat): string {
    match ReplyTo(p, c, i)
    case Returns(t) => t
    case Raises(t) => ErrorJson(t)
  }

  /** Call `i` has its result, and with distinct ids it is its own. */
  predicate Recorded(p: Pass, calls: seq<Call>, results: map<string, string>, i: int) {
    && 0 <= i < |calls| && calls[i].id in results
    && (DistinctIds(calls) ==> results[calls[i].id] == Told(p, calls[i], i))
  }

  lemma RecordOne(p: Pass, calls: seq<Call>, results: map<string, string>, i: nat, text: string)
    requires i < |calls| && text == Told(p, calls[i], i)
    ensures Recorded(p, calls, results[calls[i].id := text], i)
    ensures forall k :: Recorded(p, calls, results, k) ==> Recorded(p, calls, results[calls[i].id := text], k)
  {
  }

  /** The list operations of the first `n` calls, in order. */
  function TodoOps(p: Pass, calls: seq<Call>, n: nat): seq<TP.Op>
    requires n <= |calls|
  {
    if n == 0 then []
    else TodoOps(p, calls, n - 1) + if calls[n - 1].name == "TodoWrite" then [TP.TodoWrite(TodoArgsOf(p, n - 1))] else []
  }

  /** The system message with the state of the task list: a hint to finish when it is all done. */
  function Progress(base: string, todos: seq<TP.Todo>, summary: string): string {
    if todos != [] && TP.AllCompleted(todos) then base + ALL_DONE_HINT
    else if summary != "" then base + "\n\n" + summary
    else base
  }

  /** The messages as they are sent. */
  function Injected(ms: seq<Msg>, base: string, todos: seq<TP.Todo>, summary: string): seq<Msg> {
    if base != "" && ms != [] && ms[0].System? then ms[0 := System(Progress(base, todos, summary))] else ms
  }

  /** Only a system message at the front can change, and only when there is a prompt: it becomes the prompt
      with a hint to finish when all of a non-empty list is done, and else with the state of the list,
      if there is any. */
  lemma InjectedIs(ms: seq<Msg>, base: string, todos: seq<TP.Todo>, summary: string)
    ensures |Injected(ms, base, todos, summary)| == |ms|
    ensures forall i :: 0 < i < |ms| ==> Injected(ms, base, todos, summary)[i] == ms[i]
    ensures ms != [] && (base == "" || !ms[0].System?) ==> Injected(ms, base, todos, summary)[0] == ms[0]
    ensures ms != [] && base != "" && ms[0].System? ==>
      var done := todos != [] && forall i :: 0 <= i < |todos| ==> todos[i].status == TP.Completed;
      Injected(ms, base, todos, summary)[0] == System(
        if done then base + "\n\n所有任务已完成，请直接给出最终的文字回答，不要调用任何工具。"
        else if summary == "" then base
        else base + "\n\n" + summary)
  {
  }

  /** A tool's result reaches the model whole in the next prompt if the context is short, if it is the last
      one, or if it is the one before and the context is not very long; otherwise its beginning does. */
  lemma ResultReachesModel(ms: seq<Msg>, base: string, todos: seq<TP.Todo>, summary: string, k: nat)
    requires 0 < k < |ms| && ms[k].Tool?
    ensures |Injected(Trim(ms), base, todos, summary)| == |ms|
    ensures var m, later := Injected(Trim(ms), base, todos, summary)[k], |LaterTools(ms, k + 1)|;
      && m.Tool? && m.callId == ms[k].callId
      && (TotalChars(ms) <= 80000 || later == 0 || (later == 1 && TotalChars(ms) <= 200000) || |ms[k].content| <= 100 ==> m == ms[k])
      && (|ms[k].content| > 100 ==> |m.content| >= 100 && m.content[..100] == ms[k].content[..100])
  {
    TrimIs(ms);
    InjectedIs(Trim(ms), base, todos, summary);
    hide Injected, Trim, TotalChars, LaterTools;
  }

  /** The final answer: the text if there is any, else the reasoning, else a stock reply. */
  function AnswerText(content: string, reasoning: string): string {
    if !IsBlank(content) then content
    else if !IsBlank(reasoning) then Strip(Untagged(reasoning))
    else NO_TEXT
  }

  function RepromptMsgs(reasoning: string): seq<Msg> {
    var context := if |reasoning| > REASONING_CAP then reasoning[..REASONING_CAP] else reasoning;
    [Assistant("<think>" + context + "</think>", []), User(REPROMPT)]
  }

  /** The request to answer comes after the reasoning so far, of which at most 800 characters. */
  predicate AskedAgain(reasoning: string, before: seq<Msg>, after: seq<Msg>) {
    exists n ::
      && 0 <= n <= |reasoning| && (n == 800 || (n == |reasoning| && n < 800))
      && after == before + [Assistant("<think>" + reasoning[..n] + "</think>", []), User("请基于以上思考直接给出你的文字回答，不要重复思考过程。")]
  }

  lemma AsksAgain(reasoning: string, ms: seq<Msg>)
    ensures AskedAgain(reasoning, ms, ms + RepromptMsgs(reasoning))
  {
    var n := if |reasoning| > 800 then 800 else |reasoning|;
    assert reasoning[..n] == if |reasoning| > 800 then reasoning[..800] else reasoning;
  }

  /** What a tool round adds to the messages. */
  function RoundMsgs(content: string, calls: seq<Call>, results: map<string, string>, todos: seq<TP.Todo>): seq<Msg> {
    [Assistant(content, calls)] + ToolMessages(calls, results)
    + if todos != [] && TP.AllCompleted(todos) then [User(ALL_DONE_PROMPT)] else []
  }

  lemma RoundKeeps(ms: seq<Msg>, content: string, calls: seq<Call>, results: map<string, string>, todos: seq<TP.Todo>)
    requires WellFormed(ms)
    ensures WellFormed(ms + RoundMsgs(content, calls, results, todos))
  {
    RoundWellFormed(ms, content, calls, results);
    RoundIs(ms, content, calls, results, todos);
    hide WellFormed, TP.AllCompleted;
    if todos != [] && TP.AllCompleted(todos) {
      AppendOne(ms + [Assistant(content, calls)] + ToolMessages(calls, results), User(ALL_DONE_PROMPT));
    } else {
      assert ms + [Assistant(content, calls)] + ToolMessages(calls, results) + []
          == ms + [Assistant(content, calls)] + ToolMessages(calls, results);
    }
  }

  /** The messages after a round report every call, and end with the request to finish exactly when the
      task list is not empty and all done. */
  predicate RoundTold(before: seq<Msg>, after: seq<Msg>, content: string, calls: seq<Call>,
                      results: map<string, string>, todos: seq<TP.Todo>) {
    var n := |before| + 1 + |calls|;
    var done := todos != [] && forall i :: 0 <= i < |todos| ==> todos[i].status == TP.Completed;
    && n <= |after| && Reported(before, after[..n], content, calls, results)
    && after[n..] == if done then [User("所有任务已完成，请直接给出最终的文字回答，不要再调用任何工具。")] else []
  }

  lemma RoundTells(ms: seq<Msg>, content: string, calls: seq<Call>, results: map<string, string>, todos: seq<TP.Todo>)
    ensures RoundTold(ms, ms + RoundMsgs(content, calls, results, todos), content, calls, results, todos)
  {
    RoundReports(ms, content, calls, results);
    var n := |ms| + 1 + |calls|;
    var after := ms + RoundMsgs(content, calls, results, todos);
    assert after[..n] == ms + [Assistant(content, calls)] + ToolMessages(calls, results);
    hide Reported;
  }

  /** The model hears of call `i` what it returned or raised, in the message at the call's place. */
  predicate Heard(p: Pass, calls: seq<Call>, before: seq<Msg>, after: seq<Msg>, i: nat) {
    && i < |calls| && |before| + 1 + i < |after|
    && match ReplyTo(p, calls[i], i)
       case Returns(t) => Conveys(after[|before| + 1 + i], calls[i].id, t)
       case Raises(t) => Conveys(after[|before| + 1 + i], calls[i].id, "{\"error\": \"" + JS.Escaped(t) + "\"}")
  }

  /** With distinct ids, of every call. */
  predicate AllHeard(p: Pass, calls: seq<Call>, before: seq<Msg>, after: seq<Msg>) {
    DistinctIds(calls) ==> forall i :: 0 <= i < |calls| ==> Heard(p, calls, before, after, i)
  }

  lemma RoundHeard(p: Pass, before: seq<Msg>, after: seq<Msg>, content: string, calls: seq<Call>,
                   results: map<string, string>, todos: seq<TP.Todo>, log: seq<Ev>, n: nat)
    requires AllHandled(p, calls, results, log, n, |calls|)
    requires RoundTold(before, after, content, calls, results, todos)
    ensures AllHeard(p, calls, before, after)
  {
    hide Conveys, ReplyTo, Since, Concurrent;
    if DistinctIds(calls) {
      forall i | 0 <= i < |calls| ensures Heard(p, calls, before, after, i) {
        assert Handled(p, calls, results, log, n, i);
        assert after[..|before| + 1 + |calls|][|before| + 1 + i] == after[|before| + 1 + i];
      }
    }
  }

  lemma RoundIs(ms: seq<Msg>, content: string, calls: seq<Call>, results: map<string, string>, todos: seq<TP.Todo>)
    ensures ms + RoundMsgs(content, calls, results, todos)
         == ms + [Assistant(content, calls)] + ToolMessages(calls, results)
            + if todos != [] && TP.AllCompleted(todos) then [User(ALL_DONE_PROMPT)] else []
  {
  }

  function CallEnds(calls: seq<Call>): (r: seq<Ev>)
    ensures |r| == |calls| && forall i :: 0 <= i < |r| ==> r[i] == CallEnd(calls[i].id)
  {
    seq(|calls|, i requires 0 <= i < |calls| => CallEnd(calls[i].id))
  }

  /** Call `i` is a serial one that may raise. */
  predicate Raising(p: Pass, calls: seq<Call>, i: int) {
    0 <= i < |calls| && !Concurrent(calls[i]) && ReplyTo(p, calls[i], i).Raises?
  }

  /** `e` was pushed after the first `n` events. */
  ghost predicate Since(log: seq<Ev>, n: nat, e: Ev) {
    exists i :: n <= i < |log| && log[i] == e
  }

  lemma SinceGrows(log: seq<Ev>, longer: seq<Ev>, n: nat)
    requires log <= longer
    ensures forall e :: Since(log, n, e) ==> Since(longer, n, e)
  {
  }

  lemma SinceLast(log: seq<Ev>, n: nat)
    requires n < |log|
    ensures Since(log, n, log[|log| - 1])
  {
  }

  lemma SinceEarlier(log: seq<Ev>, m: nat, n: nat)
    requires n <= m
    ensures forall e :: Since(log, m, e) ==> Since(log, n, e)
  {
  }

  /** Call `k` is recorded and, if it returned, its result announced after the first `n` events. */
  ghost predicate Handled(p: Pass, calls: seq<Call>, results: map<string, string>, log: seq<Ev>, n: nat, k: int) {
    && Recorded(p, calls, results, k)
    && ((Concurrent(calls[k]) ==> ReplyTo(p, calls[k], k).Returns?) ==> Since(log, n, CallResult(calls[k].id)))
  }

  lemma HandledStill(p: Pass, calls: seq<Call>, r1: map<string, string>, l1: seq<Ev>, r2: map<string, string>, l2: seq<Ev>, n: nat)
    requires l1 <= l2 && forall k :: Recorded(p, calls, r1, k) ==> Recorded(p, calls, r2, k)
    ensures forall k :: Handled(p, calls, r1, l1, n, k) ==> Handled(p, calls, r2, l2, n, k)
  {
    SinceGrows(l1, l2, n);
    hide Since, Recorded, ReplyTo;
    forall k | Handled(p, calls, r1, l1, n, k) ensures Handled(p, calls, r2, l2, n, k) {
      assert Recorded(p, calls, r1, k);
    }
  }

  /** The first `i` calls and all concurrent ones. */
  ghost predicate AllHandled(p: Pass, calls: seq<Call>, results: map<string, string>, log: seq<Ev>, n: nat, i: nat) {
    forall k :: 0 <= k < |calls| && (k < i || Concurrent(calls[k])) ==> Handled(p, calls, results, log, n, k)
  }

  lemma AllHandledNext(p: Pass, calls: seq<Call>, r1: map<string, string>, l1: seq<Ev>, r2: map<string, string>, l2: seq<Ev>, n: nat, i: nat)
    requires AllHandled(p, calls, r1, l1, n, i) && i < |calls|
    requires l1 <= l2 && forall k :: Recorded(p, calls, r1, k) ==> Recorded(p, calls, r2, k)
    requires Concurrent(calls[i]) || Handled(p, calls, r2, l2, n, i)
    ensures AllHandled(p, calls, r2, l2, n, i + 1)
  {
    HandledStill(p, calls, r1, l1, r2, l2, n);
    hide Handled, Recorded, Concurrent;
  }

  lemma HandledNow(p: Pass, calls: seq<Call>, results: map<string, string>, log: seq<Ev>, n: nat, k: nat)
    requires Recorded(p, calls, results, k)
    requires (Concurrent(calls[k]) ==> ReplyTo(p, calls[k], k).Returns?) ==> n < |log| && log[|log| - 1] == CallResult(calls[k].id)
    ensures Handled(p, calls, results, log, n, k)
  {
    if n < |log| { SinceLast(log, n); }
  }

  lemma HandledEarlier(p: Pass, calls: seq<Call>, results: map<string, string>, log: seq<Ev>, m: nat, n: nat)
    requires n <= m
    ensures forall i: nat :: AllHandled(p, calls, results, log, m, i) ==> AllHandled(p, calls, results, log, n, i)
  {
    SinceEarlier(log, m, n);
    hide Since, Recorded, ReplyTo, Concurrent;
  }

  lemma Regroup(a: seq<Ev>, b: seq<Ev>, c: seq<Ev>)
    ensures a + b + c == a + (b + c)
  {
  }

  // ----- what a log tells of sub-agents -----

  /** The sub-agents that the first `n` calls spawn, in order. */
  function Spawns(p: Pass, calls: seq<Call>, n: nat): seq<DG.Spawn>
    requires n <= |calls|
  {
    if n == 0 then []
    else Spawns(p, calls, n - 1) + if calls[n - 1].name == SPAWN then [SpawnOf(p, n - 1)] else []
  }

  function CallsOf(p: Pass): seq<Call> { AbsorbAll(FragmentsOf(p.parts)) }

  /** Those of a pass whose answer was read to its end. */
  function PassSpawns(p: Pass): seq<DG.Spawn> {
    if p.chatRaises || p.streamRaises then [] else Spawns(p, CallsOf(p), |CallsOf(p)|)
  }

  /** Those of the first `n` passes. */
  function TurnSpawns(passes: seq<Pass>, n: nat): seq<DG.Spawn>
    requires n <= |passes|
  {
    if n == 0 then [] else TurnSpawns(passes, n - 1) + PassSpawns(passes[n - 1])
  }

  /** What they push, one after the other. */
  function SpawnNews(ds: seq<DG.Spawn>): seq<DG.Event> {
    if ds == [] then [] else SpawnNews(ds[..|ds| - 1]) + DG.EventsOf(ds[|ds| - 1])
  }

  function SpawnEvs(es: seq<DG.Event>): (r: seq<Ev>)
    ensures |r| == |es| && forall i :: 0 <= i < |r| ==> r[i] == Spawned(es[i])
  {
    seq(|es|, i requires 0 <= i < |es| => Spawned(es[i]))
  }

  function SpawnPart(log: seq<Ev>): seq<DG.Event> {
    if log == [] then [] else
      var e := log[|log| - 1];
      SpawnPart(log[..|log| - 1]) + if e.Spawned? then [e.news] else []
  }

  lemma {:induction false} SpawnPartConcat(a: seq<Ev>, b: seq<Ev>)
    ensures SpawnPart(a + b) == SpawnPart(a) + SpawnPart(b)
  {
    if b == [] {
      assert a + b == a;
    } else {
      SpawnPartConcat(a, b[..|b| - 1]);
      assert (a + b)[..|a + b| - 1] == a + b[..|b| - 1];
    }
  }

  lemma {:induction false} NoSpawned(es: seq<Ev>)
    requires forall i :: 0 <= i < |es| ==> !es[i].Spawned?
    ensures SpawnPart(es) == []
  {
    if es != [] { NoSpawned(es[..|es| - 1]); }
  }

  lemma {:induction false} AllSpawned(es: seq<DG.Event>)
    ensures SpawnPart(SpawnEvs(es)) == es
  {
    if es != [] {
      AllSpawned(es[..|es| - 1]);
      assert SpawnEvs(es)[..|es| - 1] == SpawnEvs(es[..|es| - 1]);
    }
  }

  lemma {:induction false} SpawnedIn(log: seq<Ev>, e: DG.Event)
    ensures e in SpawnPart(log) <==> Spawned(e) in log
  {
    if log != [] {
      SpawnedIn(log[..|log| - 1], e);
      assert log == log[..|log| - 1] + [log[|log| - 1]];
    }
  }

  lemma InEither(a: seq<DG.Event>, b: seq<DG.Event>, e: DG.Event)
    ensures e in a + b <==> e in a || e in b
  {
  }

  predicate AllRegistered(ds: seq<DG.Spawn>) {
    forall i :: 0 <= i < |ds| ==> !ds[i].Unregistered?
  }

  lemma AllRegisteredSnoc(ds: seq<DG.Spawn>)
    requires ds != []
    ensures AllRegistered(ds) <==> AllRegistered(ds[..|ds| - 1]) && !ds[|ds| - 1].Unregistered?
  {
    assert forall i :: 0 <= i < |ds| - 1 ==> ds[..|ds| - 1][i] == ds[i];
  }

  lemma {:induction false} NotFoundAmong(ds: seq<DG.Spawn>)
    ensures DG.NotFound in SpawnNews(ds) <==> !AllRegistered(ds)
  {
    if ds != [] {
      hide DG.EventsOf, AllRegistered;
      var init, d := ds[..|ds| - 1], ds[|ds| - 1];
      NotFoundAmong(init);
      DG.NotFoundIff(d);
      AllRegisteredSnoc(ds);
      assert SpawnNews(ds) == SpawnNews(init) + DG.EventsOf(d);
      hide SpawnNews;
      InEither(SpawnNews(init), DG.EventsOf(d), DG.NotFound);
    }
  }

  /** A log with one terminal event also looks ended only once if and only if no sub-agent spawned was
      one that is not registered. */
  lemma LooksEndedOnceIff(log: seq<Ev>, ds: seq<DG.Spawn>)
    requires OneTerminal(log) && SpawnPart(log) == SpawnNews(ds)
    ensures LooksEndedOnce(log) <==> AllRegistered(ds)
  {
    var e :| EndedBy(log, e);
    var at: nat :| EndsAt(log, at) && log[at] == e;
    SpawnedIn(log, DG.NotFound);
    NotFoundAmong(ds);
    hide SpawnPart, SpawnNews;
    LooksOnce(log, at);
  }

  lemma LooksOnce(log: seq<Ev>, at: nat)
    requires EndsAt(log, at)
    ensures LooksEndedOnce(log) <==> Spawned(DG.NotFound) !in log
  {
    if Spawned(DG.NotFound) in log {
      var k :| 0 <= k < |log| && log[k] == Spawned(DG.NotFound);
      assert LooksTerminal(log[k]) && LooksTerminal(log[at]) && k != at;
    } else {
      assert LooksEndedAt(log, at);
    }
  }

  // ----- what a log tells of the task list -----

  /** Neither ends the turn nor concerns the task list or sub-agents. */
  predicate Quiet(es: seq<Ev>) {
    forall i :: 0 <= i < |es| ==> !Terminal(es[i]) && !es[i].PlanNews? && !es[i].Spawned?
  }

  function PlanPart(log: seq<Ev>): seq<TP.PlanEvent> {
    if log == [] then [] else
      var e := log[|log| - 1];
      PlanPart(log[..|log| - 1]) + if e.PlanNews? then [e.plan] else []
  }

  lemma {:induction false} PlanPartConcat(a: seq<Ev>, b: seq<Ev>)
    ensures PlanPart(a + b) == PlanPart(a) + PlanPart(b)
  {
    if b == [] {
      assert a + b == a;
    } else {
      PlanPartConcat(a, b[..|b| - 1]);
      assert (a + b)[..|a + b| - 1] == a + b[..|b| - 1];
    }
  }

  lemma {:induction false} NoPlanNews(es: seq<Ev>)
    requires forall i :: 0 <= i < |es| ==> !es[i].PlanNews?
    ensures PlanPart(es) == []
  {
    if es != [] { NoPlanNews(es[..|es| - 1]); }
  }

  lemma {:induction false} AllPlanNews(es: seq<TP.PlanEvent>)
    ensures PlanPart(PlanEvs(es)) == es
  {
    if es != [] {
      AllPlanNews(es[..|es| - 1]);
      assert PlanEvs(es)[..|es| - 1] == PlanEvs(es[..|es| - 1]);
    }
  }

  /** The plan events of one turn alone bring the browser to the server's list, from any plan it showed
      before, as long as there is a snapshot among them. */
  lemma TurnShowsPlan(ops: seq<TP.Op>, before: seq<TP.PlanEvent>, part: seq<TP.PlanEvent>)
    requires TP.Run([], ops).events == before + part
    requires (forall i :: 0 <= i < |ops| ==> TP.TextOnly(ops[i])) && TP.HasSnapshot(part)
    ensures TP.AllText(TP.Run([], ops).todos)
    ensures forall plan :: TP.Fold(plan, part) == Some(TP.PlanOf(TP.Run([], ops).todos))
  {
    TP.RunMirrors(ops);
    var log := TP.Run([], ops).events;
    assert log[|before|..] == part;
    var i :| 0 <= i < |part| && TP.IsSnapshot(part[i]);
    assert TP.IsSnapshot(log[|before| + i]);
    forall plan ensures TP.Fold(plan, part) == Some(TP.PlanOf(TP.Run([], ops).todos)) {
      TP.SuffixMirrors(log, |before|, plan, plan);
    }
  }

  // ----- what a log tells of a stream -----

  /** The text and the reasoning are what the splitter makes of the chunks, and the calls are
      put together from their fragments. */
  predicate Received(p: Pass, content: string, reasoning: string, calls: seq<Call>) {
    var split := TT.Finish(TT.FeedStream(TT.START, ChunksOf(p.parts)));
    && content == TH.ShownText(split.ledger)
    && reasoning == TH.ReasonText(split.ledger)
    && calls == AbsorbAll(FragmentsOf(p.parts))
  }

  /** Everything given as reasoning has been received, and a stream without text gives just that. */
  lemma ReceivedFields(p: Pass, content: string, reasoning: string, calls: seq<Call>)
    requires Received(p, content, reasoning, calls)
    ensures TH.GivenText(TT.Finish(TT.FeedStream(TT.START, ChunksOf(p.parts))).ledger) == TT.JoinReasoning(ChunksOf(p.parts))
    ensures TT.JoinContent(ChunksOf(p.parts)) == "" ==> reasoning == TT.JoinReasoning(ChunksOf(p.parts)) && content == ""
  {
    TH.FieldsArrive(ChunksOf(p.parts));
    if TT.JoinContent(ChunksOf(p.parts)) == "" { TH.FieldsOnly(ChunksOf(p.parts)); }
  }

  /** The splitter's events from one state to a later one. */
  function NewEvents(before: TT.Split, after: TT.Split): seq<TT.Event> {
    var a, b := TH.Events(before.ledger), TH.Events(after.ledger);
    if |a| <= |b| then b[|a|..] else []
  }

  predicate OfCalls(es: seq<Ev>) {
    forall i :: 0 <= i < |es| ==> es[i].CallStart? || es[i].CallDelta?
  }

  function FragmentEvs(acc: seq<Call>, f: Fragment): (r: seq<Ev>)
    ensures OfCalls(r)
  {
    (if f.id != "" then [CallStart(f.id)] else [])
    + if f.arguments != "" then [CallDelta(Absorb(acc, f)[f.index].id)] else []
  }

  function FragmentsEvs(acc: seq<Call>, fs: seq<Fragment>): (r: seq<Ev>)
    ensures OfCalls(r)
  {
    if fs == [] then []
    else FragmentsEvs(acc, fs[..|fs| - 1]) + FragmentEvs(AbsorbFrom(acc, fs[..|fs| - 1]), fs[|fs| - 1])
  }

  /** What is pushed while the first `n` parts are read. */
  function PartsEvs(parts: seq<Part>, n: nat): seq<Ev>
    requires n <= |parts|
  {
    if n == 0 then []
    else
      PartsEvs(parts, n - 1)
      + (SplitterEvs(NewEvents(SplitAfter(parts, n - 1), SplitAfter(parts, n)))
         + FragmentsEvs(CallsAfter(parts, n - 1), parts[n - 1].fragments))
  }

  function StreamEvs(parts: seq<Part>): seq<Ev> {
    var last := SplitAfter(parts, |parts|);
    PartsEvs(parts, |parts|) + SplitterEvs(NewEvents(last, TT.Finish(last)))
  }

  function SplitterPart(log: seq<Ev>): seq<TT.Event> {
    if log == [] then [] else
      var e := log[|log| - 1];
      SplitterPart(log[..|log| - 1]) + if e.Splitter? then [e.event] else []
  }

  lemma {:induction false} SplitterPartConcat(a: seq<Ev>, b: seq<Ev>)
    ensures SplitterPart(a + b) == SplitterPart(a) + SplitterPart(b)
  {
    if b == [] {
      assert a + b == a;
    } else {
      SplitterPartConcat(a, b[..|b| - 1]);
      assert (a + b)[..|a + b| - 1] == a + b[..|b| - 1];
    }
  }

  lemma {:induction false} AllSplitter(es: seq<TT.Event>)
    ensures SplitterPart(SplitterEvs(es)) == es
  {
    if es != [] {
      AllSplitter(es[..|es| - 1]);
      assert SplitterEvs(es)[..|es| - 1] == SplitterEvs(es[..|es| - 1]);
    }
  }

  lemma {:induction false} NoneSplitter(es: seq<Ev>)
    requires forall i :: 0 <= i < |es| ==> !es[i].Splitter?
    ensures SplitterPart(es) == []
  {
    if es != [] { NoneSplitter(es[..|es| - 1]); }
  }

  lemma {:induction false} PartsShow(parts: seq<Part>, n: nat)
    requires n <= |parts|
    ensures SplitterPart(PartsEvs(parts, n)) == TH.Events(SplitAfter(parts, n).ledger)
  {
    hide SplitterPart, SplitterEvs, FragmentsEvs, NewEvents, SplitAfter, CallsAfter;
    if n == 0 {
      NothingShown(parts);
    } else {
      PartsShow(parts, n - 1);
      PartShows(parts, n - 1);
      StretchShows(PartsEvs(parts, n - 1), NewEvents(SplitAfter(parts, n - 1), SplitAfter(parts, n)),
                   FragmentsEvs(CallsAfter(parts, n - 1), parts[n - 1].fragments));
    }
  }

  lemma NothingShown(parts: seq<Part>)
    ensures SplitterPart([]) == TH.Events(SplitAfter(parts, 0).ledger)
  {
    AllParts(parts);
  }

  lemma PartShows(parts: seq<Part>, i: nat)
    requires i < |parts|
    ensures var a, b := SplitAfter(parts, i), SplitAfter(parts, i + 1);
      TH.Events(a.ledger) + NewEvents(a, b) == TH.Events(b.ledger)
  {
    hide SplitAfter, CallsAfter, NewEvents, TT.FeedChunk, TH.Extends;
    var a, b := SplitAfter(parts, i), SplitAfter(parts, i + 1);
    OnePartMore(parts, i);
    TH.FeedChunkExtends(a, parts[i].chunk);
    TH.ExtendsEvents(b.ledger, a.ledger);
    NewEventsAre(a, b);
  }

  lemma NewEventsAre(before: TT.Split, after: TT.Split)
    requires TH.Events(before.ledger) <= TH.Events(after.ledger)
    ensures TH.Events(before.ledger) + NewEvents(before, after) == TH.Events(after.ledger)
  {
  }

  lemma StretchShows(log: seq<Ev>, es: seq<TT.Event>, fs: seq<Ev>)
    requires OfCalls(fs)
    ensures SplitterPart(log + (SplitterEvs(es) + fs)) == SplitterPart(log) + es
  {
    SplitterPartConcat(log, SplitterEvs(es) + fs);
    SplitterPartConcat(SplitterEvs(es), fs);
    AllSplitter(es);
    NoneSplitter(fs);
  }

  /** Among everything pushed while a stream is read, the splitter's events are exactly those its
      ledger calls for, in order. */
  lemma StreamShows(parts: seq<Part>)
    ensures SplitterPart(StreamEvs(parts)) == TH.Events(TT.Finish(TT.FeedStream(TT.START, ChunksOf(parts))).ledger)
  {
    var last := SplitAfter(parts, |parts|);
    AllParts(parts);
    hide SplitterPart, SplitterEvs, NewEvents, SplitAfter, PartsEvs, TT.Finish, TT.FeedStream, TH.Extends;
    PartsShow(parts, |parts|);
    TH.FinishExtends(last);
    TH.ExtendsEvents(TT.Finish(last).ledger, last.ledger);
    NewEventsAre(last, TT.Finish(last));
    SplitterPartConcat(PartsEvs(parts, |parts|), SplitterEvs(NewEvents(last, TT.Finish(last))));
    AllSplitter(NewEvents(last, TT.Finish(last)));
  }

  lemma NoSpawnsRead(p: Pass)
    requires p.chatRaises || p.streamRaises
    ensures PassSpawns(p) == []
  {
  }

  lemma SpawnsRead(p: Pass, content: string, reasoning: string, calls: seq<Call>)
    requires Received(p, content, reasoning, calls) && !p.chatRaises && !p.streamRaises
    ensures PassSpawns(p) == Spawns(p, calls, |calls|)
    ensures calls == [] ==> PassSpawns(p) == []
  {
  }

  function ShownBy(p: Pass): string {
    TH.ShownText(TT.Finish(TT.FeedStream(TT.START, ChunksOf(p.parts))).ledger)
  }

  lemma WhatWasRead(p: Pass, content: string, reasoning: string, calls: seq<Call>)
    requires Received(p, content, reasoning, calls)
    ensures calls == CallsOf(p) && content == ShownBy(p)
  {
  }

  /** Nothing goes wrong in a pass that calls tools. */
  ghost predicate RoundSucceeds(p: Pass) {
    && !p.chatRaises && !p.streamRaises && p.savesRound
    && CallsOf(p) != [] && forall i :: !Raising(p, CallsOf(p), i)
  }

  /** Nothing goes wrong in a pass that answers. */
  predicate AnswerSucceeds(p: Pass) {
    !p.chatRaises && !p.streamRaises && p.savesAnswer && CallsOf(p) == [] && !IsBlank(ShownBy(p))
  }
}
