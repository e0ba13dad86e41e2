/** What every run of the think-tag splitter guarantees, for every way of
    cutting the model's output into chunks. */
module ThinkTheorems {
  import opened PyText
  import opened ThinkTags

  // ----- reading the ledger -----

  /** The model's output as far as the ledger accounts for it. */
  function Spell(l: Ledger): string {
    match l
    case Blank => ""
    case Then(rest, p) => if p.Began? || p.Ended? || p.Given? then Spell(rest) else Spell(rest) + p.text
  }

  /** The visible answer. */
  function ShownText(l: Ledger): string {
    match l
    case Blank => ""
    case Then(rest, p) => if p.Shown? then ShownText(rest) + p.text else ShownText(rest)
  }

  /** The reasoning, from think blocks and from the provider's field, in order. */
  function ReasonText(l: Ledger): string {
    match l
    case Blank => ""
    case Then(rest, p) => if p.Thought? || p.Given? then ReasonText(rest) + p.text else ReasonText(rest)
  }

  /** The SSE events pushed. */
  function Events(l: Ledger): seq<Event> {
    match l
    case Blank => []
    case Then(rest, Began) => Events(rest) + [ThinkingStart]
    case Then(rest, Ended) => Events(rest) + [ThinkingEnd]
    case Then(rest, Shown(t)) => Events(rest) + [TextDelta(t)]
    case Then(rest, Thought(t)) => Events(rest) + [ThinkingDelta(t)]
    case Then(rest, Given(t)) => Events(rest) + [ThinkingDelta(t)]
    case Then(rest, _) => Events(rest)
  }

  /** Whether the last tag in the ledger opened a block. */
  predicate Inside(l: Ledger) {
    match l
    case Blank => false
    case Then(rest, p) => p.Opened? || (!p.Closed? && Inside(rest))
  }

  /** The text of the block opened last, as far as it has been released. */
  function BlockText(l: Ledger): string {
    match l
    case Blank => ""
    case Then(rest, p) => if p.Opened? then "" else if p.Thought? then BlockText(rest) + p.text else BlockText(rest)
  }

  predicate Dangling(l: Ledger) {
    l.Then? && l.last.Dropped?
  }

  predicate HasBegun(l: Ledger) {
    l.Then? && (l.last.Began? || HasBegun(l.rest))
  }

  predicate HasEnded(l: Ledger) {
    l.Then? && (l.last.Ended? || HasEnded(l.rest))
  }

  /** A block has been closed. */
  predicate HasClosed(l: Ledger) {
    l.Then? && (l.last.Closed? || HasClosed(l.rest))
  }

  predicate IsOpenTag(t: string) {
    || (|t| == |OPEN_SHORT| && MatchesAt(t, 0, OPEN_SHORT))
    || (|t| == |OPEN_LONG| && MatchesAt(t, 0, OPEN_LONG))
  }

  /** `text` ends with the tag and contains it nowhere earlier. */
  ghost predicate FirstCloser(text: string) {
    EndsWith(text, CLOSER) && !Contains(text[..|text| - 1], CLOSER)
  }

  /** Blank text has just been shown. */
  predicate ShownBlank(l: Ledger) {
    l.Then? && l.last.Shown? && IsBlank(l.last.text)
  }

  /** `p` may follow `l`: text is shown outside blocks and thought inside them, blank text is
      dropped right before an opening tag and nowhere else, a block is closed by the
      FIRST `</think>` in it, and thinking is announced once, before anything about it. */
  ghost predicate MayFollow(l: Ledger, p: Piece) {
    && (Dangling(l) ==> p.Opened?)
    && match p
       case Began => !HasBegun(l)
       case Ended => HasBegun(l) && !Inside(l)
       case Shown(_) => !Inside(l)
       case Thought(_) => Inside(l)
       case Given(_) => HasBegun(l)
       case Opened(t) => !Inside(l) && IsOpenTag(t) && HasBegun(l) && !ShownBlank(l)
       case Closed(t) => Inside(l) && t == CLOSER && FirstCloser(BlockText(l) + t)
       case Dropped(t) => !Inside(l) && IsBlank(t)
  }

  ghost predicate Shaped(l: Ledger) {
    l.Then? ==> Shaped(l.rest) && MayFollow(l.rest, l.last)
  }

  // ----- the invariant -----

  /** The block being read has not met its closing tag, and every way the text read so
      far could begin one is still in the buffer. */
  ghost predicate Watching(text: string, buf: string, tag: string) {
    && EndsWith(text, buf)
    && !Contains(text, tag)
    && forall k :: 0 < k < |tag| && EndsWith(text, tag[..k]) ==> k <= |buf|
  }

  ghost predicate Parsed(s: Split) {
    && BufferOk(s)
    && Shaped(s.ledger) && !Dangling(s.ledger)
    && Inside(s.ledger) == s.inThink
    && s.started == HasBegun(s.ledger) && s.ended == HasEnded(s.ledger)
    && (s.inThink ==> s.started && Watching(BlockText(s.ledger) + s.buf, s.buf, CLOSER))
  }

  // ----- every character is accounted for -----

  /** What is booked plus what is buffered. */
  function Read(s: Split): string { Spell(s.ledger) + s.buf }

  lemma Assoc(a: string, b: string, c: string)
    ensures a + (b + c) == (a + b) + c
  {
  }

  lemma OpenReads(s: Split, b: string, n: nat)
    requires n <= |b|
    ensures Read(OpenBlock(s, b, n)) == Spell(s.ledger) + b
  {
    var before := b[..|b| - n];
    var l := Begin(s.(buf := "")).ledger;
    assert Spell(l) == Spell(s.ledger);
    SplitReads(Spell(l), b, |b| - n);
    var l2 := Then(l, if IsBlank(before) then Dropped(before) else Shown(before));
    assert Spell(l2) == Spell(l) + before;
  }

  lemma CloseReads(s: Split, b: string)
    requires |CLOSER| <= |b|
    ensures Read(CloseBlock(s, b)) == Spell(s.ledger) + b
  {
    var n := |b| - |CLOSER|;
    SplitReads(Spell(s.ledger), b, n);
    var l := Then(s.ledger, Thought(b[..n]));
    assert Spell(l) == Spell(s.ledger) + b[..n];
    assert Spell(Then(l, Closed(b[n..]))) == Spell(l) + b[n..];
  }

  lemma FlushReads(s: Split, b: string)
    ensures Read(SafeFlush(s, b)) == Spell(s.ledger) + b
  {
  }

  lemma FeedReads(s: Split, c: char)
    ensures Read(Feed(s, c)) == Read(s) + [c]
  {
    var b := s.buf + [c];
    Assoc(Spell(s.ledger), s.buf, [c]);
    if !s.inThink {
      if OpenTagLength(b) > 0 { OpenReads(s, b, OpenTagLength(b)); }
    } else if EndsWith(b, CLOSER) {
      CloseReads(s, b);
    } else if |b| > THINK_LIMIT {
      FlushReads(s, b);
    }
  }

  lemma SplitReads(a: string, b: string, n: nat)
    requires n <= |b|
    ensures a + b == (a + b[..n]) + b[n..]
    ensures n == 0 ==> b[n..] == b
  {
  }

  lemma {:induction false} FeedAllReads(s: Split, w: string)
    ensures Read(FeedAll(s, w)) == Read(s) + w
  {
    if w != "" {
      var w0, c := w[..|w| - 1], w[|w| - 1];
      FeedAllReads(s, w0);
      FeedReads(FeedAll(s, w0), c);
      Assoc(Read(s), w0, [c]);
      assert w == w0 + [c];
    }
  }

  lemma FeedChunkReads(s: Split, chunk: Chunk)
    ensures Read(FeedChunk(s, chunk)) == Read(s) + chunk.content
  {
    var s1 := if chunk.reasoning == "" then s else TakeField(s, chunk.reasoning);
    assert Spell(Begin(s).ledger) == Spell(s.ledger);
    assert Read(s1) == Read(s);
    FeedAllReads(s1, chunk.content);
  }

  // ----- a block closes exactly at its first closing tag -----

  /** The incremental search is exact, for any tag: a buffer that holds every border of the
      tag sees the tag end the text just when it does, and with the next character
      it still holds every border. */
  lemma WatchStep(text: string, buf: string, c: char, tag: string)
    requires Watching(text, buf, tag) && tag != ""
    ensures forall k :: 0 < k <= |tag| ==> (EndsWith(text + [c], tag[..k]) <==> EndsWith(buf + [c], tag[..k]))
  {
    var t, b := text + [c], buf + [c];
    assert t[|t| - |b|..] == b;
    forall k | 0 < k <= |tag| && EndsWith(t, tag[..k])
      ensures EndsWith(b, tag[..k])
    {
      var p := tag[..k];
      if k > 1 {
        assert text[|text| - (k - 1)..] == t[|t| - k..][..k - 1] == p[..k - 1] == tag[..k - 1];
        assert EndsWith(text, tag[..k - 1]);
      }
      assert b[|b| - k..] == t[|t| - k..];
    }
    forall k | 0 < k <= |tag| && EndsWith(b, tag[..k])
      ensures EndsWith(t, tag[..k])
    {
      assert t[|t| - k..] == b[|b| - k..];
    }
  }

  /** Keeping the longest border keeps watch. */
  lemma WatchOn(text: string, b: string, c: char, cut: nat, tag: string)
    requires b != "" && b[|b| - 1] == c && Watching(text, b[..|b| - 1], tag) && tag != ""
    requires !EndsWith(b, tag) && cut <= |b|
    requires forall k :: |b| - cut < k < |tag| ==> !EndsWith(b, tag[..k])
    ensures Watching(text + [c], b[cut..], tag)
  {
    var buf := b[..|b| - 1];
    assert buf + [c] == b;
    WatchStep(text, buf, c, tag);
    ContainsSnoc(text, c, tag);
    assert tag[..|tag|] == tag;
    var t := text + [c];
    assert t[|t| - |b|..] == b;
    assert t[|t| - |b[cut..]|..] == b[cut..];
  }

  function Closing(l: Ledger): Ledger {
    Then(Then(Then(l, Thought("")), Closed(CLOSER)), Ended)
  }

  lemma ClosingIs(l: Ledger)
    requires Shaped(l) && Inside(l) && HasBegun(l) && !Dangling(l) && FirstCloser(BlockText(l) + CLOSER)
    ensures Shaped(Closing(l)) && !Inside(Closing(l)) && !Dangling(Closing(l))
    ensures HasBegun(Closing(l)) && HasEnded(Closing(l))
  {
    hide FirstCloser;
    var l1 := Then(l, Thought(""));
    assert BlockText(l) + "" == BlockText(l);
    assert BlockText(l1) == BlockText(l) && MayFollow(l, Thought(""));
    var l2 := Then(l1, Closed(CLOSER));
    assert Inside(l1) && MayFollow(l1, Closed(CLOSER)) && Shaped(l2);
    assert HasBegun(l1) && HasBegun(l2);
    assert MayFollow(l2, Ended);
  }

  lemma CloseParsed(s: Split, c: char)
    requires Parsed(s) && s.inThink && EndsWith(s.buf + [c], CLOSER)
    ensures Parsed(CloseBlock(s, s.buf + [c]))
  {
    var block := BlockText(s.ledger);
    var b := s.buf + [c];
    ClosesFirst(block, s.buf, c);
    ClosingIs(s.ledger);
    CloseBlockIs(s, b);
    EmptyBufferOk(CloseBlock(s, b));
    hide CloseBlock, Closing, MatchesAt, EndsWith, FirstCloser, Watching, BufferOk, Shaped, BlockText;
  }

  lemma EmptyBufferOk(s: Split)
    requires s.buf == ""
    ensures BufferOk(s)
  {
  }

  lemma CloseBlockIs(s: Split, b: string)
    requires b == CLOSER
    ensures CloseBlock(s, b) == Split(false, "", s.started, true, Closing(s.ledger))
  {
  }

  lemma ClosesFirst(block: string, buf: string, c: char)
    requires Watching(block + buf, buf, CLOSER)
    requires EndsWith(buf + [c], CLOSER) && |buf| < |CLOSER|
    ensures buf + [c] == CLOSER && FirstCloser(block + CLOSER)
  {
    var t := block + CLOSER;
    assert buf + [c] == CLOSER;
    assert t[..|t| - 1] == block + buf;
    assert t[|t| - |CLOSER|..] == CLOSER;
  }

  lemma BufferIsShort(s: Split)
    requires BufferOk(s)
    ensures s.inThink ==> |s.buf| < |CLOSER|
  {
  }

  lemma OnwardParsed(s: Split, c: char)
    requires Parsed(s) && s.inThink && !EndsWith(s.buf + [c], CLOSER)
    ensures Parsed(Feed(s, c))
  {
    hide EndsWith, Border, Watching, BufferOk, Shaped, Dangling, HasBegun, HasEnded, BlockText;
    hide OpenTagLength, OpenBlock, CloseBlock, IsBlank;
    var block := BlockText(s.ledger);
    var b := s.buf + [c];
    FeedKeepsBuffer(s, c);
    BufferIsShort(s);
    var cut := if |b| > THINK_LIMIT then |b| - Border(b, |CLOSER| - 1) else 0;
    OnwardWatching(block, s.buf, c, cut);
    OnwardLedger(s, b, cut);
    assert Feed(s, c) == (if cut > 0 then Book(s, Thought(b[..cut])) else s).(buf := b[cut..]);
  }

  /** Releasing the first `cut` characters as thought keeps the grammar of the ledger. */
  lemma OnwardLedger(s: Split, b: string, cut: nat)
    requires Parsed(s) && s.inThink && cut <= |b|
    ensures var l := if cut > 0 then Then(s.ledger, Thought(b[..cut])) else s.ledger;
      && Shaped(l) && !Dangling(l) && Inside(l)
      && HasBegun(l) == HasBegun(s.ledger) && HasEnded(l) == HasEnded(s.ledger)
      && BlockText(l) == BlockText(s.ledger) + b[..cut]
    ensures cut == 0 ==> b[cut..] == b
  {
  }

  lemma OnwardWatching(block: string, buf: string, c: char, cut: nat)
    requires Watching(block + buf, buf, CLOSER) && !EndsWith(buf + [c], CLOSER)
    requires cut == if |buf| >= THINK_LIMIT then |buf| + 1 - Border(buf + [c], |CLOSER| - 1) else 0
    requires |buf| < |CLOSER|
    ensures Watching(block + (buf + [c])[..cut] + (buf + [c])[cut..], (buf + [c])[cut..], CLOSER)
  {
    var b := buf + [c];
    assert b[..|b| - 1] == buf;
    WatchOn(block + buf, b, c, cut, CLOSER);
    Assoc(block, buf, [c]);
    SplitReads(block, b, cut);
  }

  lemma OpenParsed(s: Split, b: string, n: nat)
    requires Parsed(s) && !s.inThink && 0 < n <= |b| && n == OpenTagLength(b)
    ensures Parsed(OpenBlock(s, b, n))
  {
    var before, tag := b[..|b| - n], b[|b| - n..];
    var l1 := Begin(s).ledger;
    assert Shaped(l1) && HasBegun(l1) && !Inside(l1) && !Dangling(l1);
    var p := if IsBlank(before) then Dropped(before) else Shown(before);
    var l2 := Then(l1, p);
    assert MayFollow(l1, p) && Shaped(l2);
    assert IsOpenTag(tag);
    assert MayFollow(l2, Opened(tag));
    assert HasEnded(l2) == HasEnded(s.ledger);
    WatchNothing(CLOSER);
    EmptyBufferOk(OpenBlock(s, b, n));
    hide MatchesAt, Watching, IsBlank, IsOpenTag, EndsWith, Border;
    assert "" + "" == "";
  }

  lemma FeedParsed(s: Split, c: char)
    requires Parsed(s)
    ensures Parsed(Feed(s, c))
  {
    var b := s.buf + [c];
    FeedKeepsBuffer(s, c);
    if s.inThink {
      if EndsWith(b, CLOSER) { CloseParsed(s, c); } else { OnwardParsed(s, c); }
    } else if OpenTagLength(b) > 0 {
      OpenParsed(s, b, OpenTagLength(b));
    }
  }

  lemma WatchNothing(tag: string)
    requires tag != ""
    ensures Watching("", "", tag)
  {
  }

  lemma {:induction false} FeedAllParsed(s: Split, w: string)
    requires Parsed(s)
    ensures Parsed(FeedAll(s, w))
  {
    if w != "" {
      var t := FeedAll(s, w[..|w| - 1]);
      FeedAllParsed(s, w[..|w| - 1]);
      FeedParsed(t, w[|w| - 1]);
    }
  }

  lemma FeedChunkParsed(s: Split, chunk: Chunk)
    requires Parsed(s)
    ensures Parsed(FeedChunk(s, chunk))
  {
    FeedAllParsed(if chunk.reasoning == "" then s else TakeField(s, chunk.reasoning), chunk.content);
  }

  // ----- the ledger only grows -----

  predicate Extends(l: Ledger, base: Ledger) {
    l == base || (l.Then? && Extends(l.rest, base))
  }

  lemma {:induction false} ExtendsThrough(l: Ledger, mid: Ledger, base: Ledger)
    requires Extends(l, mid) && Extends(mid, base)
    ensures Extends(l, base)
  {
    if l != mid { ExtendsThrough(l.rest, mid, base); }
  }

  lemma FeedExtends(s: Split, c: char)
    ensures Extends(Feed(s, c).ledger, s.ledger)
  {
    var b := s.buf + [c];
    if s.inThink && EndsWith(b, CLOSER) {
      var l := Then(s.ledger, Thought(b[..|b| - |CLOSER|]));
      assert Extends(l, s.ledger) && Extends(Then(l, Closed(b[|b| - |CLOSER|..])), s.ledger);
    } else if !s.inThink && OpenTagLength(b) > 0 {
      var before := b[..|b| - OpenTagLength(b)];
      var l := Begin(s.(buf := "")).ledger;
      assert Extends(l, s.ledger);
      assert Extends(Then(l, if IsBlank(before) then Dropped(before) else Shown(before)), s.ledger);
    }
  }

  lemma {:induction false} FeedAllExtends(s: Split, w: string)
    ensures Extends(FeedAll(s, w).ledger, s.ledger)
  {
    if w != "" {
      var t := FeedAll(s, w[..|w| - 1]);
      FeedAllExtends(s, w[..|w| - 1]);
      FeedExtends(t, w[|w| - 1]);
      ExtendsThrough(Feed(t, w[|w| - 1]).ledger, t.ledger, s.ledger);
    }
  }

  lemma FeedChunkExtends(s: Split, chunk: Chunk)
    ensures Extends(FeedChunk(s, chunk).ledger, s.ledger)
  {
    var s1 := if chunk.reasoning == "" then s else TakeField(s, chunk.reasoning);
    assert Extends(Begin(s).ledger, s.ledger) && Extends(s1.ledger, s.ledger);
    var s2 := FeedAll(s1, chunk.content);
    FeedAllExtends(s1, chunk.content);
    ExtendsThrough(s2.ledger, s1.ledger, s.ledger);
    assert Extends(Dump(s2).ledger, s.ledger);
  }

  lemma FinishExtends(s: Split)
    ensures Extends(Finish(s).ledger, s.ledger)
  {
  }

  lemma {:induction false} ExtendsEvents(l: Ledger, base: Ledger)
    requires Extends(l, base)
    ensures Events(base) <= Events(l)
  {
    if l != base { ExtendsEvents(l.rest, base); }
  }

  // ----- what the pushed events say -----

  /** The visible text as the events deliver it. */
  function TextDeltas(es: seq<Event>): string {
    if es == [] then "" else
      var e := es[|es| - 1];
      if e.TextDelta? then TextDeltas(es[..|es| - 1]) + e.delta else TextDeltas(es[..|es| - 1])
  }

  /** The reasoning as the events deliver it. */
  function ThinkingDeltas(es: seq<Event>): string {
    if es == [] then "" else
      var e := es[|es| - 1];
      if e.ThinkingDelta? then ThinkingDeltas(es[..|es| - 1]) + e.delta else ThinkingDeltas(es[..|es| - 1])
  }

  /** Thinking starts at most once, and everything else about it comes later. */
  predicate StartsOnce(es: seq<Event>) {
    && (forall i, j :: 0 <= i < j < |es| && es[i].ThinkingStart? ==> !es[j].ThinkingStart?)
    && (forall j :: 0 <= j < |es| && (es[j].ThinkingDelta? || es[j].ThinkingEnd?) ==> ThinkingStart in es[..j])
  }

  lemma {:induction false} DeltasAre(l: Ledger)
    ensures TextDeltas(Events(l)) == ShownText(l) && ThinkingDeltas(Events(l)) == ReasonText(l)
  {
    if l.Then? {
      DeltasAre(l.rest);
      var es := Events(l);
      if es != Events(l.rest) {
        assert es[..|es| - 1] == Events(l.rest);
      }
    }
  }

  /** Inside a block thinking has begun. */
  lemma {:induction false} InsideHasBegun(l: Ledger)
    requires Shaped(l) && Inside(l)
    ensures HasBegun(l)
  {
    if !l.last.Opened? { InsideHasBegun(l.rest); }
  }

  lemma {:induction false} EventsStartOnce(l: Ledger)
    requires Shaped(l)
    ensures StartsOnce(Events(l)) && (HasBegun(l) <==> ThinkingStart in Events(l))
  {
    if l.Then? {
      EventsStartOnce(l.rest);
      if l.last.Thought? { InsideHasBegun(l.rest); }
      if |Events(l)| > |Events(l.rest)| {
        StartsOnceSnoc(Events(l.rest), Events(l)[|Events(l)| - 1]);
      }
    }
  }

  lemma StartsOnceSnoc(es: seq<Event>, e: Event)
    requires StartsOnce(es)
    requires (e.ThinkingStart? ==> ThinkingStart !in es) && (e.ThinkingDelta? || e.ThinkingEnd? ==> ThinkingStart in es)
    ensures StartsOnce(es + [e])
  {
    var r := es + [e];
    assert r[..|es|] == es;
    assert forall j :: 0 <= j < |es| ==> r[j] == es[j] && r[..j] == es[..j];
    assert e.ThinkingStart? ==> forall i :: 0 <= i < |es| ==> es[i] != ThinkingStart;
  }

  // ----- the provider's reasoning field -----

  /** What the provider gave as reasoning, apart from the text. */
  function GivenText(l: Ledger): string {
    match l
    case Blank => ""
    case Then(rest, p) => if p.Given? then GivenText(rest) + p.text else GivenText(rest)
  }

  lemma FeedGives(s: Split, c: char)
    ensures GivenText(Feed(s, c).ledger) == GivenText(s.ledger)
  {
    var b := s.buf + [c];
    if s.inThink && EndsWith(b, CLOSER) {
      var l := Then(s.ledger, Thought(b[..|b| - |CLOSER|]));
      assert GivenText(l) == GivenText(Then(l, Closed(b[|b| - |CLOSER|..]))) == GivenText(s.ledger);
    } else if !s.inThink && OpenTagLength(b) > 0 {
      var before := b[..|b| - OpenTagLength(b)];
      var l := Begin(s.(buf := "")).ledger;
      assert GivenText(l) == GivenText(Then(l, if IsBlank(before) then Dropped(before) else Shown(before))) == GivenText(s.ledger);
    }
  }

  lemma {:induction false} FeedAllGives(s: Split, w: string)
    ensures GivenText(FeedAll(s, w).ledger) == GivenText(s.ledger)
  {
    if w != "" {
      FeedAllGives(s, w[..|w| - 1]);
      FeedGives(FeedAll(s, w[..|w| - 1]), w[|w| - 1]);
    }
  }

  lemma ChunkGives(s: Split, chunk: Chunk)
    ensures GivenText(FeedChunk(s, chunk).ledger) == GivenText(s.ledger) + chunk.reasoning
  {
    var s1 := if chunk.reasoning == "" then s else TakeField(s, chunk.reasoning);
    assert GivenText(Begin(s).ledger) == GivenText(s.ledger);
    assert GivenText(s.ledger) + "" == GivenText(s.ledger);
    FeedAllGives(s1, chunk.content);
  }

  /** Everything the provider gave as reasoning is kept, in order, and nothing else is taken for it;
      also after the end of the stream. */
  lemma {:induction false} FieldsArrive(chunks: seq<Chunk>)
    ensures var s := FeedStream(START, chunks);
      GivenText(s.ledger) == GivenText(Finish(s).ledger) == JoinReasoning(chunks)
  {
    if chunks != [] {
      var init, chunk := chunks[..|chunks| - 1], chunks[|chunks| - 1];
      FieldsArrive(init);
      ChunkGives(FeedStream(START, init), chunk);
    }
    var s := FeedStream(START, chunks);
    assert GivenText(Then(s.ledger, Thought(s.buf))) == GivenText(s.ledger);
  }

  /** A stream without any text has just that for its reasoning, and no visible text. */
  lemma {:induction false} FieldsOnly(chunks: seq<Chunk>)
    requires JoinContent(chunks) == ""
    ensures var r := Finish(FeedStream(START, chunks));
      ReasonText(r.ledger) == JoinReasoning(chunks) && ShownText(r.ledger) == ""
    ensures FeedStream(START, chunks).buf == "" && !FeedStream(START, chunks).inThink
    ensures ReasonText(FeedStream(START, chunks).ledger) == JoinReasoning(chunks) && ShownText(FeedStream(START, chunks).ledger) == ""
  {
    if chunks != [] {
      var init, chunk := chunks[..|chunks| - 1], chunks[|chunks| - 1];
      assert JoinContent(chunks) == JoinContent(init) + chunk.content;
      FieldsOnly(init);
      var s := FeedStream(START, init);
      assert ReasonText(Begin(s).ledger) == ReasonText(s.ledger) && ShownText(Begin(s).ledger) == ShownText(s.ledger);
      assert JoinReasoning(init) + "" == JoinReasoning(init);
    }
  }

  /** A chunk's field comes right after the reasoning so far, before what its text adds. */
  lemma FieldComesFirst(s: Split, chunk: Chunk)
    ensures ReasonText(s.ledger) + chunk.reasoning <= ReasonText(FeedChunk(s, chunk).ledger)
  {
    var s1 := if chunk.reasoning == "" then s else TakeField(s, chunk.reasoning);
    assert ReasonText(Begin(s).ledger) == ReasonText(s.ledger);
    assert ReasonText(s.ledger) + "" == ReasonText(s.ledger);
    FeedAllExtends(s1, chunk.content);
    ExtendsReason(FeedAll(s1, chunk.content).ledger, s1.ledger);
  }

  lemma {:induction false} ExtendsReason(l: Ledger, base: Ledger)
    requires Extends(l, base)
    ensures ReasonText(base) <= ReasonText(l)
  {
    if l != base { ExtendsReason(l.rest, base); }
  }

  // ----- when thinking ends -----

  /** While a stream is read, thinking is ended by closing a block and by nothing else. */
  lemma FeedEnds(s: Split, c: char)
    requires HasEnded(s.ledger) == HasClosed(s.ledger)
    ensures HasEnded(Feed(s, c).ledger) == HasClosed(Feed(s, c).ledger)
  {
    var b := s.buf + [c];
    if s.inThink && EndsWith(b, CLOSER) {
      assert Feed(s, c).ledger.last == Ended && Feed(s, c).ledger.rest.last.Closed?;
    } else if !s.inThink && OpenTagLength(b) > 0 {
      var l := Begin(s.(buf := "")).ledger;
      assert HasEnded(l) == HasClosed(l);
    }
  }

  lemma {:induction false} FeedAllEnds(s: Split, w: string)
    requires HasEnded(s.ledger) == HasClosed(s.ledger)
    ensures HasEnded(FeedAll(s, w).ledger) == HasClosed(FeedAll(s, w).ledger)
  {
    if w != "" {
      FeedAllEnds(s, w[..|w| - 1]);
      FeedEnds(FeedAll(s, w[..|w| - 1]), w[|w| - 1]);
    }
  }

  lemma {:induction false} StreamEnds(chunks: seq<Chunk>)
    ensures var l := FeedStream(START, chunks).ledger; HasEnded(l) == HasClosed(l)
  {
    if chunks != [] {
      var init, chunk := chunks[..|chunks| - 1], chunks[|chunks| - 1];
      StreamEnds(init);
      var s := FeedStream(START, init);
      var s1 := if chunk.reasoning == "" then s else TakeField(s, chunk.reasoning);
      assert HasEnded(Begin(s).ledger) == HasClosed(Begin(s).ledger);
      FeedAllEnds(s1, chunk.content);
    }
  }

  lemma {:induction false} ClosedHasBegun(l: Ledger)
    requires Shaped(l) && HasClosed(l)
    ensures HasBegun(l)
  {
    if l.last.Closed? { InsideHasBegun(l.rest); } else { ClosedHasBegun(l.rest); }
  }

  // ----- main results -----

  /** Conservation and exactness, for every stream of chunks from the start of a round:
      the ledger spells the whole output, apart from at most 7 characters held back inside
      a block; and it is `Shaped`: each block ends at its first `</think>`, and a
      block still open has not met one. */
  lemma {:induction false} StreamTheorem(chunks: seq<Chunk>)
    ensures var r := FeedStream(START, chunks);
      && Read(r) == JoinContent(chunks)
      && |r.buf| < |CLOSER| && (!r.inThink ==> r.buf == "")
      && Parsed(r)
  {
    if chunks == [] {
      assert Read(START) == "";
    } else {
      var init, last := chunks[..|chunks| - 1], chunks[|chunks| - 1];
      StreamTheorem(init);
      FeedChunkParsed(FeedStream(START, init), last);
      FeedChunkReads(FeedStream(START, init), last);
    }
  }

  /** When the stream is over nothing is pending: the ledger spells the whole output, a block
      left open never met a `</think>`, and thinking that began has been ended
      exactly when no block was left open or an earlier block was closed. */
  lemma FinishTheorem(chunks: seq<Chunk>)
    ensures var r := Finish(FeedStream(START, chunks));
      && r.buf == "" && Spell(r.ledger) == JoinContent(chunks) && Shaped(r.ledger)
      && (r.inThink ==> !Contains(BlockText(r.ledger), CLOSER))
      && (HasEnded(r.ledger) <==> HasBegun(r.ledger) && (!r.inThink || HasClosed(r.ledger)))
  {
    StreamTheorem(chunks);
    StreamEnds(chunks);
    var s := FeedStream(START, chunks);
    assert Spell(s.ledger) + "" == Spell(s.ledger);
    assert BlockText(s.ledger) + "" == BlockText(s.ledger);
    if HasClosed(s.ledger) { ClosedHasBegun(s.ledger); }
  }
}
