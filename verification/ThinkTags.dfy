/** What the think-tag splitter of the agent loop has to do with one stream of
    model output, stated on values: tags are recognised at the END of the text
    read so far and the closing tag is tracked by its longest border. */
module ThinkTags {
  import opened PyText

  const OPEN_SHORT := "<think>"
  const OPEN_LONG := "<thinking>"
  const CLOSER := "</think>"
  const CLOSER_LONG := "</thinking>"
  const TEXT_LIMIT := 20
  const THINK_LIMIT := 5

  /** One SSE event of the splitter, in push order. */
  datatype Event =
    | ThinkingStart
    | ThinkingDelta(delta: string)
    | ThinkingEnd
    | TextDelta(delta: string)

  /** What the splitter did, step by step. `Began` and `Ended` only notify; `Given` is text
      of the provider's separate reasoning field; every other piece takes over a
      stretch of the model's output. */
  datatype Piece =
    | Began
    | Ended
    | Shown(text: string)
    | Thought(text: string)
    | Given(text: string)
    | Opened(text: string)
    | Closed(text: string)
    | Dropped(text: string)

  datatype Ledger = Blank | Then(rest: Ledger, last: Piece)

  datatype Split = Split(inThink: bool, buf: string, started: bool, ended: bool, ledger: Ledger)

  /** One stream chunk: the provider's reasoning field and the text delta
      (empty when absent; Python tests both for truth). */
  datatype Chunk = Chunk(reasoning: string, content: string)

  const START := Split(false, "", false, false, Blank)

  // ----- tags -----

  /** `re.IGNORECASE` on one pattern character: besides ASCII case, Python lets
      U+0130 and U+0131 match `i` and U+212A match `k`. */
  predicate Folds(c: char, p: char) {
    || c == p
    || (p == 't' && c == 'T')
    || (p == 'h' && c == 'H')
    || (p == 'i' && (c == 'I' || c == '\U{0130}' || c == '\U{0131}'))
    || (p == 'n' && c == 'N')
    || (p == 'k' && (c == 'K' || c == '\U{212A}'))
    || (p == 'g' && c == 'G')
  }

  predicate MatchesAt(s: string, i: nat, pat: string) {
    i + |pat| <= |s| && forall k :: 0 <= k < |pat| ==> Folds(s[i + k], pat[k])
  }

  /** The lower case of an ASCII letter. */
  function Lower(c: char): char {
    if 'A' <= c <= 'Z' then c + ('a' - 'A') else c
  }

  predicate Ascii(s: string) { forall i :: 0 <= i < |s| ==> s[i] < '\U{0080}' }

  function Lowered(s: string): string {
    seq(|s|, i requires 0 <= i < |s| => Lower(s[i]))
  }

  /** The characters of the tags. */
  predicate InTag(p: char) { p in "<thinkg/>" }

  lemma FoldsIs(c: char, p: char)
    requires InTag(p)
    ensures c < '\U{0080}' ==> (Folds(c, p) <==> Lower(c) == p)
    ensures c >= '\U{0080}' ==> (Folds(c, p) <==> (p == 'i' && c in "\U{0130}\U{0131}") || (p == 'k' && c == '\U{212A}'))
  {
  }

  lemma MatchesWhole(t: string, pat: string)
    requires Ascii(t) && forall k :: 0 <= k < |pat| ==> InTag(pat[k])
    ensures |t| == |pat| && MatchesAt(t, 0, pat) <==> Lowered(t) == pat
  {
    hide Folds, Lower;
    if |t| == |pat| {
      forall k | 0 <= k < |pat| ensures Folds(t[0 + k], pat[k]) <==> Lowered(t)[k] == pat[k] {
        assert t[0 + k] == t[k];
        FoldsIs(t[k], pat[k]);
      }
    }
  }

  /** An ASCII text is an opening tag of either kind in any case, and a tag of the given kind is no other. */
  lemma OpenTagsInAnyCase(t: string)
    requires Ascii(t)
    ensures |t| == 7 && MatchesAt(t, 0, OPEN_SHORT) <==> Lowered(t) == "<think>"
    ensures |t| == 10 && MatchesAt(t, 0, OPEN_LONG) <==> Lowered(t) == "<thinking>"
    ensures |t| == 8 && MatchesAt(t, 0, CLOSER) <==> Lowered(t) == "</think>"
    ensures |t| == 11 && MatchesAt(t, 0, CLOSER_LONG) <==> Lowered(t) == "</thinking>"
  {
    hide MatchesAt, Lowered;
    MatchesWhole(t, OPEN_SHORT);
    MatchesWhole(t, OPEN_LONG);
    MatchesWhole(t, CLOSER);
    MatchesWhole(t, CLOSER_LONG);
  }

  /** Length of the opening tag that ends `s`, or 0. */
  function OpenTagLength(s: string): (n: nat)
    ensures n <= |s|
    ensures n != 0 ==> n == |OPEN_SHORT| || n == |OPEN_LONG|
  {
    if |s| >= |OPEN_SHORT| && MatchesAt(s, |s| - |OPEN_SHORT|, OPEN_SHORT) then |OPEN_SHORT|
    else if |s| >= |OPEN_LONG| && MatchesAt(s, |s| - |OPEN_LONG|, OPEN_LONG) then |OPEN_LONG|
    else 0
  }

  /** The longest proper prefix of the closing tag, of length at most `n`, that ends `s`. */
  function Border(s: string, n: nat): (k: nat)
    requires n < |CLOSER|
    ensures k <= n && k <= |s| && EndsWith(s, CLOSER[..k])
    ensures forall j :: k < j <= n ==> !EndsWith(s, CLOSER[..j])
  {
    if n == 0 || EndsWith(s, CLOSER[..n]) then n else Border(s, n - 1)
  }

  // ----- one character -----

  function Book(s: Split, p: Piece): Split {
    s.(ledger := Then(s.ledger, p))
  }

  function Begin(s: Split): Split {
    if s.started then s else Book(s, Began).(started := true)
  }

  function End(s: Split): Split {
    Book(s, Ended).(ended := true)
  }

  /** The opening tag of length `n` ends the buffered text `b`. */
  function OpenBlock(s: Split, b: string, n: nat): Split
    requires n <= |b|
  {
    var before, tag := b[..|b| - n], b[|b| - n..];
    var s1 := Begin(s.(buf := ""));
    Book(Book(s1, if IsBlank(before) then Dropped(before) else Shown(before)), Opened(tag)).(inThink := true)
  }

  /** The closing tag ends the buffered text `b`. */
  function CloseBlock(s: Split, b: string): Split
    requires |CLOSER| <= |b|
  {
    var n := |b| - |CLOSER|;
    End(Book(Book(s, Thought(b[..n])), Closed(b[n..]))).(inThink := false, buf := "")
  }

  /** Release everything that cannot be the beginning of a closing tag. */
  function SafeFlush(s: Split, b: string): Split {
    var cut := |b| - Border(b, |CLOSER| - 1);
    (if cut == 0 then s else Book(s, Thought(b[..cut]))).(buf := b[cut..])
  }

  function Feed(s: Split, c: char): Split {
    var b := s.buf + [c];
    if !s.inThink then
      var n := OpenTagLength(b);
      if n > 0 then OpenBlock(s, b, n)
      else if |b| > TEXT_LIMIT then Book(s, Shown(b)).(buf := "")
      else s.(buf := b)
    else
      if EndsWith(b, CLOSER) then CloseBlock(s, b)
      else if |b| > THINK_LIMIT then SafeFlush(s, b)
      else s.(buf := b)
  }

  // ----- chunks and streams -----

  function FeedAll(s: Split, w: string): Split {
    if w == "" then s else Feed(FeedAll(s, w[..|w| - 1]), w[|w| - 1])
  }

  /** Text still buffered outside a think block is shown when the chunk ends. */
  function Dump(s: Split): Split {
    if s.buf != "" && !s.inThink then Book(s, Shown(s.buf)).(buf := "") else s
  }

  /** The provider's own reasoning field. */
  function TakeField(s: Split, text: string): Split {
    Book(Begin(s), Given(text))
  }

  function FeedChunk(s: Split, chunk: Chunk): Split {
    var s1 := if chunk.reasoning == "" then s else TakeField(s, chunk.reasoning);
    if chunk.content == "" then s1 else Dump(FeedAll(s1, chunk.content))
  }

  function FeedStream(s: Split, chunks: seq<Chunk>): Split {
    if chunks == [] then s
    else FeedChunk(FeedStream(s, chunks[..|chunks| - 1]), chunks[|chunks| - 1])
  }

  /** After the last chunk. */
  function Finish(s: Split): Split {
    var s1 := if s.buf != "" && s.inThink then Book(s, Thought(s.buf)).(buf := "") else s;
    if s1.started && !s1.inThink && !s1.ended then End(s1) else s1
  }

  function JoinContent(chunks: seq<Chunk>): string {
    if chunks == [] then "" else JoinContent(chunks[..|chunks| - 1]) + chunks[|chunks| - 1].content
  }

  function JoinReasoning(chunks: seq<Chunk>): string {
    if chunks == [] then "" else JoinReasoning(chunks[..|chunks| - 1]) + chunks[|chunks| - 1].reasoning
  }

  // ----- the invariant of the buffer -----

  /** No opening tag anywhere in `s`. */
  ghost predicate NoOpenTag(s: string) {
    forall i: nat :: !MatchesAt(s, i, OPEN_SHORT) && !MatchesAt(s, i, OPEN_LONG)
  }

  ghost predicate BufferOk(s: Split) {
    if s.inThink
    then |s.buf| < |CLOSER| && (|s.buf| > THINK_LIMIT ==> s.buf == CLOSER[..|s.buf|])
    else |s.buf| <= TEXT_LIMIT && NoOpenTag(s.buf)
  }

  /** In a buffer without a tag, one more character completes a tag only at the very end. */
  lemma TagEndsText(s: string, c: char, i: nat, pat: string)
    requires !MatchesAt(s, i, pat) && |pat| > 0
    requires MatchesAt(s + [c], i, pat)
    ensures i + |pat| == |s| + 1
  {
  }

  lemma FeedKeepsBuffer(s: Split, c: char)
    requires BufferOk(s)
    ensures BufferOk(Feed(s, c))
  {
    var b := s.buf + [c];
    if s.inThink {
      hide MatchesAt;
      NoTagInNothing();
    } else {
      hide Border, SafeFlush, CloseBlock, IsBlank;
      NoTagInNothing();
      if OpenTagLength(b) == 0 { StillNoTag(s.buf, c); }
      hide MatchesAt;
    }
  }

  lemma NoTagInNothing()
    ensures NoOpenTag("")
  {
  }

  lemma StillNoTag(s: string, c: char)
    requires NoOpenTag(s) && OpenTagLength(s + [c]) == 0
    ensures NoOpenTag(s + [c])
  {
    var b := s + [c];
    forall i: nat ensures !MatchesAt(b, i, OPEN_SHORT) && !MatchesAt(b, i, OPEN_LONG) {
      if MatchesAt(b, i, OPEN_SHORT) { TagEndsText(s, c, i, OPEN_SHORT); }
      if MatchesAt(b, i, OPEN_LONG) { TagEndsText(s, c, i, OPEN_LONG); }
    }
  }

  /** The buffer inside a block and one more character match a closing tag only by being `</think>`. */
  lemma OnlyCloser(buf: string, c: char)
    requires |buf| < |CLOSER| && (|buf| > THINK_LIMIT ==> buf == CLOSER[..|buf|])
    ensures var b := buf + [c];
      && (EndsWith(b, CLOSER) <==> b == CLOSER)
      && forall i: nat :: !MatchesAt(b, i, CLOSER_LONG) && (MatchesAt(b, i, CLOSER) <==> i == 0 && b == CLOSER)
  {
  }
}
