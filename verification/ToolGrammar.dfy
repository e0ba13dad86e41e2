/** The message list sent to the model: its tool-call grammar and the operations that
    rebuild, extend and trim it. */
module ToolGrammar {

  datatype Call = Call(id: string, name: string, arguments: string)

  /** How running a tool ends. */
  datatype ToolReply = Returns(text: string) | Raises(text: string)

  datatype Msg =
    | System(content: string)
    | User(content: string)
    | Assistant(content: string, calls: seq<Call>)
    | Tool(callId: string, content: string)

  // ----- the grammar -----

  predicate IsResultOf(m: Msg, c: Call) {
    m.Tool? && m.callId == c.id
  }

  /** The length of the block that a message begins: itself and the results of its calls. */
  function BlockLength(m: Msg): nat {
    1 + if m.Assistant? then |m.calls| else 0
  }

  /** The list begins with one complete block. */
  predicate BlockFirst(ms: seq<Msg>) {
    && ms != [] && !ms[0].Tool? && BlockLength(ms[0]) <= |ms|
    && (ms[0].Assistant? ==>
          forall i :: 0 <= i < |ms[0].calls| ==> IsResultOf(ms[i + 1], ms[0].calls[i]))
  }

  /** Each assistant message with n calls is followed at once by their n results in order, and
      tool messages occur nowhere else. */
  predicate WellFormed(ms: seq<Msg>)
    decreases |ms|
  {
    ms == [] || (BlockFirst(ms) && WellFormed(ms[BlockLength(ms[0])..]))
  }

  lemma BlockFirstAppend(a: seq<Msg>, b: seq<Msg>)
    requires BlockFirst(a)
    ensures BlockFirst(a + b) && (a + b)[BlockLength(a[0])..] == a[BlockLength(a[0])..] + b
  {
  }

  lemma {:induction false} Append(a: seq<Msg>, b: seq<Msg>)
    requires WellFormed(a) && WellFormed(b)
    ensures WellFormed(a + b)
    decreases |a|
  {
    hide BlockFirst;
    if a == [] {
      assert a + b == b;
    } else {
      BlockFirstAppend(a, b);
      Append(a[BlockLength(a[0])..], b);
      assert (a + b)[0] == a[0];
    }
  }

  /** A message that is not a tool result stands between blocks. */
  lemma {:induction false} SplitAt(ms: seq<Msg>, i: nat)
    requires WellFormed(ms) && i < |ms| && !ms[i].Tool?
    ensures WellFormed(ms[..i]) && WellFormed(ms[i..])
    decreases |ms|
  {
    hide IsResultOf, BlockFirst;
    if i == 0 {
      assert ms[..0] == [] && ms[0..] == ms;
    } else {
      BlockEndsBy(ms, i);
      var n := BlockLength(ms[0]);
      Slices(ms, n, i);
      SplitAt(ms[n..], i - n);
      assert ms[..i][0] == ms[0];
    }
  }

  lemma Slices(ms: seq<Msg>, n: nat, i: nat)
    requires n <= i <= |ms|
    ensures ms[i..] == ms[n..][i - n..] && ms[..i][n..] == ms[n..][..i - n]
  {
  }

  lemma FirstBlockTools(ms: seq<Msg>)
    requires BlockFirst(ms)
    ensures forall k :: 0 < k < BlockLength(ms[0]) ==> ms[k].Tool?
  {
    forall k | 0 < k < BlockLength(ms[0]) ensures ms[k].Tool? {
      assert IsResultOf(ms[k - 1 + 1], ms[0].calls[k - 1]);
    }
  }

  lemma BlockEndsBy(ms: seq<Msg>, i: nat)
    requires BlockFirst(ms) && 0 < i < |ms| && !ms[i].Tool?
    ensures BlockLength(ms[0]) <= i && BlockFirst(ms[..i])
  {
    FirstBlockTools(ms);
  }

  lemma Single(m: Msg)
    requires !m.Tool? && (m.Assistant? ==> m.calls == [])
    ensures WellFormed([m])
  {
  }

  lemma AppendOne(ms: seq<Msg>, m: Msg)
    requires WellFormed(ms) && !m.Tool? && (m.Assistant? ==> m.calls == [])
    ensures WellFormed(ms + [m])
  {
    Single(m);
    Append(ms, [m]);
  }

  /** Same kinds, same calls, same ids: only contents may differ. */
  predicate SameShape(a: Msg, b: Msg) {
    match a
    case System(_) => b.System?
    case User(_) => b.User?
    case Assistant(_, calls) => b.Assistant? && b.calls == calls
    case Tool(id, _) => b.Tool? && b.callId == id
  }

  lemma {:induction false} ShapeDecides(a: seq<Msg>, b: seq<Msg>)
    requires |a| == |b| && forall i :: 0 <= i < |a| ==> SameShape(a[i], b[i])
    requires WellFormed(a)
    ensures WellFormed(b)
    decreases |a|
  {
    if a != [] {
      var n := BlockLength(a[0]);
      assert SameShape(a[0], b[0]);
      SameFirstBlock(a, b);
      ShapeDecides(a[n..], b[n..]);
    }
  }

  lemma SameFirstBlock(a: seq<Msg>, b: seq<Msg>)
    requires |a| == |b| && forall i :: 0 <= i < |a| ==> SameShape(a[i], b[i])
    requires BlockFirst(a)
    ensures BlockFirst(b) && BlockLength(b[0]) == BlockLength(a[0])
  {
  }

  // ----- a tool round -----

  const INLINE_CAP := 8000
  const INLINE_NOTE := "\n…[内容过长已截断，完整结果已保存]"

  function Inline(result: string): string {
    if |result| > INLINE_CAP then result[..INLINE_CAP] + INLINE_NOTE else result
  }

  function ResultOf(results: map<string, string>, id: string): string {
    if id in results then results[id] else ""
  }

  function ToolMessages(calls: seq<Call>, results: map<string, string>): (r: seq<Msg>)
    ensures |r| == |calls|
  {
    seq(|calls|, i requires 0 <= i < |calls| => Tool(calls[i].id, Inline(ResultOf(results, calls[i].id))))
  }

  lemma ToolMessagesSnoc(calls: seq<Call>, results: map<string, string>, i: nat)
    requires i < |calls|
    ensures ToolMessages(calls, results)[..i + 1]
         == ToolMessages(calls, results)[..i] + [Tool(calls[i].id, Inline(ResultOf(results, calls[i].id)))]
  {
  }

  lemma BlockIsWellFormed(content: string, calls: seq<Call>, tools: seq<Msg>)
    requires |tools| == |calls| && forall i :: 0 <= i < |calls| ==> IsResultOf(tools[i], calls[i])
    ensures WellFormed([Assistant(content, calls)] + tools)
  {
    var block := [Assistant(content, calls)] + tools;
    assert block[BlockLength(block[0])..] == [];
    assert forall i :: 0 <= i < |calls| ==> block[i + 1] == tools[i];
  }

  lemma GroupRight(a: seq<Msg>, b: seq<Msg>, c: seq<Msg>)
    ensures a + b + c == a + (b + c)
  {
  }

  /** A complete block may be appended anywhere between blocks. */
  lemma BlockAppended(ms: seq<Msg>, content: string, calls: seq<Call>, tools: seq<Msg>)
    requires WellFormed(ms)
    requires |tools| == |calls| && forall i :: 0 <= i < |calls| ==> IsResultOf(tools[i], calls[i])
    ensures WellFormed(ms + [Assistant(content, calls)] + tools)
  {
    hide WellFormed, IsResultOf;
    BlockIsWellFormed(content, calls, tools);
    Append(ms, [Assistant(content, calls)] + tools);
    GroupRight(ms, [Assistant(content, calls)], tools);
  }

  /** `m` tells the model the result `t` of the call `id`: all of it up to 8000 characters, and the first
      8000 and a note otherwise. */
  predicate Conveys(m: Msg, id: string, t: string) {
    && m.Tool? && m.callId == id
    && (|t| <= 8000 ==> m.content == t)
    && (|t| > 8000 ==> m.content == t[..8000] + "\n…[内容过长已截断，完整结果已保存]")
  }

  /** The messages after a round are those before it, the assistant's calls, and for each call in order
      the result recorded under its id, or the empty text if there is none. */
  predicate Reported(before: seq<Msg>, after: seq<Msg>, content: string, calls: seq<Call>, results: map<string, string>) {
    && |after| == |before| + 1 + |calls| && after[..|before|] == before
    && after[|before|] == Assistant(content, calls)
    && forall i :: 0 <= i < |calls| ==>
         Conveys(after[|before| + 1 + i], calls[i].id, if calls[i].id in results then results[calls[i].id] else "")
  }

  lemma RoundReports(ms: seq<Msg>, content: string, calls: seq<Call>, results: map<string, string>)
    ensures Reported(ms, ms + [Assistant(content, calls)] + ToolMessages(calls, results), content, calls, results)
  {
  }

  /** An assistant message with calls and then their results. */
  lemma RoundWellFormed(ms: seq<Msg>, content: string, calls: seq<Call>, results: map<string, string>)
    requires WellFormed(ms)
    ensures WellFormed(ms + [Assistant(content, calls)] + ToolMessages(calls, results))
  {
    hide WellFormed;
    BlockAppended(ms, content, calls, ToolMessages(calls, results));
  }

  // ----- rebuilding from history -----

  datatype Role = SystemRole | UserRole | AssistantRole | ToolRole

  datatype Row = Row(role: Role, content: string, hasToolCalls: bool)

  predicate Loaded(r: Row) {
    !r.role.ToolRole? && !(r.role.AssistantRole? && r.hasToolCalls)
  }

  function AsMsg(r: Row): Msg
    requires Loaded(r)
  {
    if r.role.SystemRole? then System(r.content)
    else if r.role.UserRole? then User(r.content)
    else Assistant(r.content, [])
  }

  function FromHistory(rows: seq<Row>): seq<Msg> {
    if rows == [] then [] else
      var r := rows[|rows| - 1];
      FromHistory(rows[..|rows| - 1]) + if Loaded(r) then [AsMsg(r)] else []
  }

  lemma {:induction false} HistoryWellFormed(rows: seq<Row>)
    ensures WellFormed(FromHistory(rows))
  {
    if rows != [] {
      var r := rows[|rows| - 1];
      var init := FromHistory(rows[..|rows| - 1]);
      HistoryWellFormed(rows[..|rows| - 1]);
      if Loaded(r) { AppendOne(init, AsMsg(r)); } else { assert init + [] == init; }
    }
  }

  /** The messages of a history are those of its rows, in order. */
  lemma {:induction false} HistoryConcat(a: seq<Row>, b: seq<Row>)
    ensures FromHistory(a + b) == FromHistory(a) + FromHistory(b)
  {
    if b == [] {
      assert a + b == a;
    } else {
      HistoryConcat(a, b[..|b| - 1]);
      assert (a + b)[..|a + b| - 1] == a + b[..|b| - 1];
    }
  }

  /** One row is sent with its role and content, unless it is a tool's or the assistant's with calls. */
  lemma HistoryOfOne(r: Row)
    ensures FromHistory([r]) ==
      match r.role
      case SystemRole => [System(r.content)]
      case UserRole => [User(r.content)]
      case AssistantRole => if r.hasToolCalls then [] else [Assistant(r.content, [])]
      case ToolRole => []
  {
    assert [r][..0] == [];
  }

  /** Index of the last user message, or |ms|. */
  function LastUser(ms: seq<Msg>): (n: nat)
    ensures n <= |ms| && (n < |ms| ==> ms[n].User?)
    ensures forall i :: 0 <= i < |ms| && ms[i].User? ==> n < |ms| && i <= n
  {
    if ms == [] then 0
    else if ms[|ms| - 1].User? then |ms| - 1
    else
      var n := LastUser(ms[..|ms| - 1]);
      if n == |ms| - 1 then |ms| else n
  }

  datatype Skill = NoSkill | Skill(name: string, body: string)

  /** A slash command puts the skill's text right before the last user message. */
  function WithSkill(ms: seq<Msg>, skill: Skill): seq<Msg> {
    var n := LastUser(ms);
    if n < |ms| && ms[n].content != "" && ms[n].content[0] == '/' && skill.Skill?
    then ms[..n] + [User("[Skill: " + skill.name + "]\n\n" + skill.body)] + ms[n..]
    else ms
  }

  lemma WithSkillWellFormed(ms: seq<Msg>, skill: Skill)
    requires WellFormed(ms)
    ensures WellFormed(WithSkill(ms, skill))
  {
    var n := LastUser(ms);
    if n < |ms| && skill.Skill? {
      SplitAt(ms, n);
      var u := User("[Skill: " + skill.name + "]\n\n" + skill.body);
      AppendOne(ms[..n], u);
      Append(ms[..n] + [u], ms[n..]);
    }
  }

  /** The last user message, number `i`, starts with a slash. */
  predicate Slash(ms: seq<Msg>, i: int) {
    && 0 <= i < |ms| && ms[i].User? && "/" <= ms[i].content
    && forall k :: i < k < |ms| ==> !ms[k].User?
  }

  /** The skill's text is put in right before a slash command that is the last user message, and
      nothing is done otherwise. */
  lemma SkillBeforeCommand(ms: seq<Msg>, skill: Skill)
    ensures skill.NoSkill? || (forall i :: !Slash(ms, i)) ==> WithSkill(ms, skill) == ms
    ensures skill.Skill? ==> forall i :: Slash(ms, i) ==>
      WithSkill(ms, skill) == ms[..i] + [User("[Skill: " + skill.name + "]\n\n" + skill.body)] + ms[i..]
  {
    var n := LastUser(ms);
    if n < |ms| && ms[n].content != "" && ms[n].content[0] == '/' {
      assert Slash(ms, n);
    }
    forall i | Slash(ms, i) ensures i == n {
    }
  }

  // ----- trimming -----

  const TRIM_CHARS := 80000
  const HARD_CHARS := 200000
  const TRIM_NOTE := "\n…[结果已截断]"

  function TotalChars(ms: seq<Msg>): nat {
    if ms == [] then 0 else TotalChars(ms[..|ms| - 1]) + |ms[|ms| - 1].content|
  }

  /** How many tool messages stand at index `i` or later. */
  function ToolsFrom(ms: seq<Msg>, i: nat): nat
    decreases |ms| - i
  {
    if i >= |ms| then 0 else ToolsFrom(ms, i + 1) + if ms[i].Tool? then 1 else 0
  }

  /** The indices of the tool messages from `i` on. */
  function ToolIndices(ms: seq<Msg>, i: nat): seq<nat>
    requires i <= |ms|
    decreases |ms| - i
  {
    if i == |ms| then [] else
      var rest := ToolIndices(ms, i + 1);
      if ms[i].Tool? then [i] + rest else rest
  }

  lemma {:induction false} ToolIndicesAre(ms: seq<Msg>, i: nat)
    requires i <= |ms|
    ensures var r := ToolIndices(ms, i);
      && |r| == ToolsFrom(ms, i)
      && (forall j :: 0 <= j < |r| ==> i <= r[j] < |ms| && ms[r[j]].Tool?)
      && (forall j :: 0 <= j < |r| ==> ToolsFrom(ms, r[j] + 1) == |r| - 1 - j)
    decreases |ms| - i
  {
    if i < |ms| {
      ToolIndicesAre(ms, i + 1);
      var rest := ToolIndices(ms, i + 1);
      if ms[i].Tool? {
        forall j | 1 <= j < |rest| + 1 ensures ([i] + rest)[j] == rest[j - 1] { }
      }
    }
  }

  lemma {:induction false} ToolIndicesComplete(ms: seq<Msg>, i: nat, m: nat)
    requires i <= m < |ms| && ms[m].Tool?
    ensures m in ToolIndices(ms, i)
    decreases m - i
  {
    if i < m {
      ToolIndicesComplete(ms, i + 1, m);
    }
  }

  function Cut(content: string, keep: nat): string {
    if |content| > keep then content[..keep] + TRIM_NOTE else content
  }

  /** Every tool message but the last `recent` ones is cut. */
  function Trimmed(ms: seq<Msg>, recent: nat, keep: nat): (r: seq<Msg>)
    ensures |r| == |ms|
  {
    seq(|ms|, i requires 0 <= i < |ms| =>
      if ms[i].Tool? && ToolsFrom(ms, i + 1) >= recent then CutMsg(ms[i], keep) else ms[i])
  }

  function CutMsg(m: Msg, keep: nat): Msg {
    m.(content := Cut(m.content, keep))
  }

  /** Cutting the messages at all but the last `recent` of the tool indices is `Trimmed`. */
  lemma CutAtIndices(ms: seq<Msg>, recent: nat, keep: nat, n: nat, r: seq<Msg>)
    requires n == (if |ToolIndices(ms, 0)| <= recent then 0 else |ToolIndices(ms, 0)| - recent)
    requires |r| == |ms|
    requires forall i :: 0 <= i < |ms| ==>
      r[i] == if i in ToolIndices(ms, 0)[..n] then CutMsg(ms[i], keep) else ms[i]
    ensures r == Trimmed(ms, recent, keep)
  {
    OldIndices(ms, recent, n);
    hide ToolIndices, ToolsFrom, CutMsg;
  }

  lemma OldIndices(ms: seq<Msg>, recent: nat, n: nat)
    requires n == (if |ToolIndices(ms, 0)| <= recent then 0 else |ToolIndices(ms, 0)| - recent)
    ensures forall i :: 0 <= i < |ms| ==>
      (i in ToolIndices(ms, 0)[..n] <==> ms[i].Tool? && ToolsFrom(ms, i + 1) >= recent)
  {
    var indices := ToolIndices(ms, 0);
    ToolIndicesAre(ms, 0);
    forall i | 0 <= i < |ms|
      ensures i in indices[..n] <==> ms[i].Tool? && ToolsFrom(ms, i + 1) >= recent
    {
      if ms[i].Tool? {
        ToolIndicesComplete(ms, 0, i);
        var j :| 0 <= j < |indices| && indices[j] == i;
        OldIndex(ms, n, j);
      }
    }
  }

  lemma OldIndex(ms: seq<Msg>, n: nat, j: nat)
    requires n <= |ToolIndices(ms, 0)| && j < |ToolIndices(ms, 0)|
    ensures ToolIndices(ms, 0)[j] in ToolIndices(ms, 0)[..n] <==> j < n
  {
    var indices := ToolIndices(ms, 0);
    ToolIndicesAre(ms, 0);
    hide ToolIndices;
    if j < n {
      assert indices[..n][j] == indices[j];
    }
    if k :| 0 <= k < n && indices[k] == indices[j] {
      assert ToolsFrom(ms, indices[k] + 1) == |indices| - 1 - k;
    }
  }

  function Trim(ms: seq<Msg>): seq<Msg> {
    var total := TotalChars(ms);
    if total <= TRIM_CHARS then ms
    else if total > HARD_CHARS then Trimmed(ms, 1, 100)
    else Trimmed(ms, 2, 400)
  }

  /** The tool messages at index `i` or later. */
  ghost function LaterTools(ms: seq<Msg>, i: nat): set<nat> {
    set k: nat | i <= k < |ms| && ms[k].Tool?
  }

  lemma {:induction false} ToolsFromCounts(ms: seq<Msg>, i: nat)
    ensures ToolsFrom(ms, i) == |LaterTools(ms, i)|
    decreases |ms| - i
  {
    if i < |ms| {
      ToolsFromCounts(ms, i + 1);
      assert LaterTools(ms, i) == LaterTools(ms, i + 1) + if ms[i].Tool? then {i} else {};
    } else {
      assert LaterTools(ms, i) == {};
    }
  }

  /** The characters of a list are those of its messages. */
  lemma {:induction false} CharsConcat(a: seq<Msg>, b: seq<Msg>)
    ensures TotalChars(a + b) == TotalChars(a) + TotalChars(b)
    ensures |b| == 1 ==> TotalChars(b) == |b[0].content|
  {
    if b == [] {
      assert a + b == a;
    } else {
      CharsConcat(a, b[..|b| - 1]);
      assert (a + b)[..|a + b| - 1] == a + b[..|b| - 1];
    }
  }

  /** What trimming makes of a message: an old tool result over the limit keeps its beginning, and
      nothing else changes. */
  predicate Shortened(m: Msg, r: Msg, isOld: bool, keep: nat) {
    if m.Tool? && isOld && |m.content| > keep
    then r == Tool(m.callId, m.content[..keep] + "\n…[结果已截断]")
    else r == m
  }

  /** Up to 80000 characters nothing is trimmed. Up to 200000 all tool results but the last two are cut to
      400 characters, and beyond that all but the last one to 100. */
  lemma TrimIs(ms: seq<Msg>)
    ensures TotalChars(ms) <= 80000 ==> Trim(ms) == ms
    ensures |Trim(ms)| == |ms|
    ensures 80000 < TotalChars(ms) <= 200000 ==>
      forall i :: 0 <= i < |ms| ==> Shortened(ms[i], Trim(ms)[i], |LaterTools(ms, i + 1)| >= 2, 400)
    ensures TotalChars(ms) > 200000 ==>
      forall i :: 0 <= i < |ms| ==> Shortened(ms[i], Trim(ms)[i], |LaterTools(ms, i + 1)| >= 1, 100)
  {
    hide TotalChars, LaterTools, CutMsg, ToolsFrom;
    TrimmedIs(ms, 2, 400);
    TrimmedIs(ms, 1, 100);
  }

  lemma TrimmedIs(ms: seq<Msg>, recent: nat, keep: nat)
    ensures forall i :: 0 <= i < |ms| ==> Shortened(ms[i], Trimmed(ms, recent, keep)[i], |LaterTools(ms, i + 1)| >= recent, keep)
  {
    hide LaterTools, ToolsFrom;
    forall i | 0 <= i < |ms|
      ensures Shortened(ms[i], Trimmed(ms, recent, keep)[i], |LaterTools(ms, i + 1)| >= recent, keep)
    {
      ToolsFromCounts(ms, i + 1);
    }
  }

  lemma TrimWellFormed(ms: seq<Msg>)
    requires WellFormed(ms)
    ensures WellFormed(Trim(ms))
  {
    ShapeDecides(ms, Trim(ms));
  }

  lemma {:induction false} ToolsFromShape(a: seq<Msg>, b: seq<Msg>, i: nat)
    requires |a| == |b| && forall k :: 0 <= k < |a| ==> a[k].Tool? == b[k].Tool?
    ensures ToolsFrom(a, i) == ToolsFrom(b, i)
    decreases |a| - i
  {
    if i < |a| { ToolsFromShape(a, b, i + 1); }
  }

  /** For a fixed mode trimming twice is trimming once; it touches only old tool results, and
      leaves each with its old text or its first `keep` characters and the note. */
  lemma TrimmedIdempotent(ms: seq<Msg>, recent: nat, keep: nat)
    ensures Trimmed(Trimmed(ms, recent, keep), recent, keep) == Trimmed(ms, recent, keep)
  {
    var once := Trimmed(ms, recent, keep);
    forall i | 0 <= i < |ms| ensures Trimmed(once, recent, keep)[i] == once[i] {
      ToolsFromShape(ms, once, i + 1);
      CutTwice(ms[i].content, keep);
    }
  }

  lemma CutTwice(content: string, keep: nat)
    ensures Cut(Cut(content, keep), keep) == Cut(content, keep)
  {
  }

  lemma CutMsgTwice(m: Msg, keep: nat)
    ensures CutMsg(CutMsg(m, keep), keep) == CutMsg(m, keep)
  {
    CutTwice(m.content, keep);
  }

  /** Trimming a result may lengthen it: exactly when it is over the limit by less than the
      length of the note. */
  lemma CutLengthens(content: string, keep: nat)
    ensures |Cut(content, keep)| > |content| <==> keep < |content| < keep + |TRIM_NOTE|
  {
  }

  // ----- tool calls arriving in pieces -----

  /** One fragment of the stream's tool calls; absent parts are empty. */
  datatype Fragment = Fragment(index: nat, id: string, name: string, arguments: string)

  const BLANK_CALL := Call("", "", "")

  function Padded(acc: seq<Call>, n: nat): (r: seq<Call>)
    ensures |r| == if |acc| > n then |acc| else n
    decreases n - |acc|
  {
    if |acc| >= n then acc else Padded(acc + [BLANK_CALL], n)
  }

  function Merge(c: Call, f: Fragment): Call {
    Call(if f.id != "" then f.id else c.id, if f.name != "" then f.name else c.name, c.arguments + f.arguments)
  }

  function Absorb(acc: seq<Call>, f: Fragment): seq<Call> {
    var p := Padded(acc, f.index + 1);
    p[f.index := Merge(p[f.index], f)]
  }

  function CallAt(acc: seq<Call>, k: nat): Call {
    if k < |acc| then acc[k] else BLANK_CALL
  }

  lemma {:induction false} PaddedIs(acc: seq<Call>, n: nat)
    ensures forall k :: 0 <= k < |Padded(acc, n)| ==> Padded(acc, n)[k] == CallAt(acc, k)
    decreases n - |acc|
  {
    if |acc| < n { PaddedIs(acc + [BLANK_CALL], n); }
  }

  lemma AbsorbIs(acc: seq<Call>, f: Fragment)
    ensures var r := Absorb(acc, f);
      && |r| == (if |acc| > f.index then |acc| else f.index + 1)
      && forall k: nat :: CallAt(r, k) == if k == f.index then Merge(CallAt(acc, k), f) else CallAt(acc, k)
  {
    PaddedIs(acc, f.index + 1);
  }

  function AbsorbFrom(acc: seq<Call>, fs: seq<Fragment>): seq<Call> {
    if fs == [] then acc else Absorb(AbsorbFrom(acc, fs[..|fs| - 1]), fs[|fs| - 1])
  }

  function AbsorbAll(fs: seq<Fragment>): seq<Call> { AbsorbFrom([], fs) }

  lemma {:induction false} AbsorbConcat(acc: seq<Call>, a: seq<Fragment>, b: seq<Fragment>)
    ensures AbsorbFrom(acc, a + b) == AbsorbFrom(AbsorbFrom(acc, a), b)
  {
    hide Absorb;
    if b == [] {
      assert a + b == a;
    } else {
      AbsorbConcat(acc, a, b[..|b| - 1]);
      assert (a + b)[..|a + b| - 1] == a + b[..|b| - 1];
    }
  }

  /** The fragments of one slot, alone. */
  function Slot(fs: seq<Fragment>, k: nat): Call {
    if fs == [] then BLANK_CALL
    else
      var c := Slot(fs[..|fs| - 1], k);
      if fs[|fs| - 1].index == k then Merge(c, fs[|fs| - 1]) else c
  }

  /** However the fragments of different calls interleave, each call is put together from its own
      fragments in order, and there is one call per index up to the largest seen. */
  lemma {:induction false} SlotsAreIndependent(fs: seq<Fragment>)
    ensures forall k: nat :: CallAt(AbsorbAll(fs), k) == Slot(fs, k)
    ensures forall i :: 0 <= i < |fs| ==> fs[i].index < |AbsorbAll(fs)|
    ensures fs != [] ==> exists i :: 0 <= i < |fs| && fs[i].index == |AbsorbAll(fs)| - 1
  {
    if fs != [] {
      var init, f := fs[..|fs| - 1], fs[|fs| - 1];
      SlotsAreIndependent(init);
      AbsorbIs(AbsorbAll(init), f);
      if |AbsorbAll(init)| > f.index {
        var i :| 0 <= i < |init| && init[i].index == |AbsorbAll(init)| - 1;
        assert fs[i].index == |AbsorbAll(fs)| - 1;
      } else {
        assert fs[|fs| - 1].index == |AbsorbAll(fs)| - 1;
      }
    }
  }

  /** The argument text of one slot. */
  function JoinArguments(fs: seq<Fragment>, k: nat): string {
    if fs == [] then ""
    else JoinArguments(fs[..|fs| - 1], k) + if fs[|fs| - 1].index == k then fs[|fs| - 1].arguments else ""
  }

  /** No fragment of slot `k` from number `i` on brings an id (a name). */
  predicate NoIdFrom(fs: seq<Fragment>, k: nat, i: nat) {
    forall j :: i <= j < |fs| && fs[j].index == k ==> fs[j].id == ""
  }

  predicate NoNameFrom(fs: seq<Fragment>, k: nat, i: nat) {
    forall j :: i <= j < |fs| && fs[j].index == k ==> fs[j].name == ""
  }

  /** `c` has the pieces of its arguments joined in order, and the last id and the last name given. */
  predicate Assembled(c: Call, fs: seq<Fragment>, k: nat) {
    && c.arguments == JoinArguments(fs, k)
    && (NoIdFrom(fs, k, 0) ==> c.id == "") && (NoNameFrom(fs, k, 0) ==> c.name == "")
    && (forall i :: 0 <= i < |fs| && fs[i].index == k && fs[i].id != "" && NoIdFrom(fs, k, i + 1) ==> c.id == fs[i].id)
    && (forall i :: 0 <= i < |fs| && fs[i].index == k && fs[i].name != "" && NoNameFrom(fs, k, i + 1) ==> c.name == fs[i].name)
  }

  lemma CallsArrive(fs: seq<Fragment>)
    ensures forall k: nat :: Assembled(CallAt(AbsorbAll(fs), k), fs, k)
  {
    SlotsAreIndependent(fs);
    hide AbsorbAll, CallAt, Assembled;
    forall k: nat ensures Assembled(CallAt(AbsorbAll(fs), k), fs, k) {
      SlotIs(fs, k);
    }
  }

  lemma {:induction false} SlotIs(fs: seq<Fragment>, k: nat)
    ensures Assembled(Slot(fs, k), fs, k)
  {
    hide Assembled;
    if fs == [] {
      NoneAssembled(k);
    } else {
      var init, f := fs[..|fs| - 1], fs[|fs| - 1];
      SlotIs(init, k);
      AssembledNext(Slot(init, k), init, f, k);
      assert fs == init + [f];
    }
  }

  lemma NoneAssembled(k: nat)
    ensures Assembled(BLANK_CALL, [], k)
  {
  }

  lemma AssembledNext(c: Call, init: seq<Fragment>, f: Fragment, k: nat)
    requires Assembled(c, init, k)
    ensures Assembled(if f.index == k then Merge(c, f) else c, init + [f], k)
  {
    var fs := init + [f];
    assert fs[..|fs| - 1] == init;
    NoneInInit(init, f, k);
    hide NoIdFrom, NoNameFrom;
  }

  lemma NoneInInit(init: seq<Fragment>, f: Fragment, k: nat)
    ensures forall i :: 0 <= i <= |init| && NoIdFrom(init + [f], k, i) ==> NoIdFrom(init, k, i) && (f.index == k ==> f.id == "")
    ensures forall i :: 0 <= i <= |init| && NoNameFrom(init + [f], k, i) ==> NoNameFrom(init, k, i) && (f.index == k ==> f.name == "")
  {
    var fs := init + [f];
    assert fs[|init|] == f && forall j :: 0 <= j < |init| ==> fs[j] == init[j];
  }
}
