/** How far the splitter's result depends on where the stream is cut into chunks:
    not at all inside a think block, and by a 21-character window outside one. */
module ThinkChunking {
  import opened PyText
  import opened ThinkTags
  import opened ThinkTheorems

  // ----- running on -----

  lemma {:induction false} FeedAllConcat(s: Split, a: string, b: string)
    ensures FeedAll(s, a + b) == FeedAll(FeedAll(s, a), b)
  {
    if b == "" {
      assert a + b == a;
    } else {
      FeedAllConcat(s, a, b[..|b| - 1]);
      assert (a + b)[..|a + b| - 1] == a + b[..|b| - 1];
    }
  }

  predicate OnlyText(chunks: seq<Chunk>) {
    forall i :: 0 <= i < |chunks| ==> chunks[i].reasoning == ""
  }

  // ----- inside a block -----

  /** The block's text so far, buffer included. */
  function BlockSoFar(s: Split): string { BlockText(s.ledger) + s.buf }

  /** While the closing tag has not come, every character goes to the block. */
  lemma {:induction false} StaysOpen(s: Split, w: string)
    requires Parsed(s) && s.inThink && !Contains(BlockSoFar(s) + w, CLOSER)
    ensures var r := FeedAll(s, w);
      && r.inThink && Parsed(r) && BlockSoFar(r) == BlockSoFar(s) + w
      && ReasonText(r.ledger) + r.buf == ReasonText(s.ledger) + s.buf + w
      && ShownText(r.ledger) == ShownText(s.ledger)
  {
    FeedAllParsed(s, w);
    if w == "" {
      assert BlockSoFar(s) + w == BlockSoFar(s);
      assert ReasonText(s.ledger) + s.buf + w == ReasonText(s.ledger) + s.buf;
    } else {
      var w0, c := w[..|w| - 1], w[|w| - 1];
      assert w == w0 + [c];
      Assoc(BlockSoFar(s), w0, [c]);
      ContainsSnoc(BlockSoFar(s) + w0, c, CLOSER);
      StaysOpen(s, w0);
      Assoc(ReasonText(s.ledger) + s.buf, w0, [c]);
      OneMoreThought(FeedAll(s, w0), c);
    }
  }

  lemma OneMoreThought(s: Split, c: char)
    requires Parsed(s) && s.inThink && !EndsWith(BlockSoFar(s) + [c], CLOSER)
    ensures var r := Feed(s, c);
      && r.inThink && BlockSoFar(r) == BlockSoFar(s) + [c]
      && ReasonText(r.ledger) + r.buf == ReasonText(s.ledger) + s.buf + [c]
      && ShownText(r.ledger) == ShownText(s.ledger)
  {
    var b := s.buf + [c];
    SeesCloser(s, c);
    hide BufferOk, Watching, EndsWith, Border;
    Assoc(BlockText(s.ledger), s.buf, [c]);
    Assoc(ReasonText(s.ledger), s.buf, [c]);
    if |b| > THINK_LIMIT {
      FlushKeeps(s, b);
      hide SafeFlush;
    }
  }

  lemma FlushKeeps(s: Split, b: string)
    ensures var r := SafeFlush(s, b);
      && r.inThink == s.inThink && BlockSoFar(r) == BlockText(s.ledger) + b
      && ReasonText(r.ledger) + r.buf == ReasonText(s.ledger) + b
      && ShownText(r.ledger) == ShownText(s.ledger)
  {
    var cut := |b| - Border(b, |CLOSER| - 1);
    hide Border, EndsWith;
    SplitReads(BlockText(s.ledger), b, cut);
    SplitReads(ReasonText(s.ledger), b, cut);
    assert SafeFlush(s, b) == (if cut == 0 then s else Book(s, Thought(b[..cut]))).(buf := b[cut..]);
    hide SafeFlush;
    if cut == 0 { assert b[cut..] == b; }
  }

  lemma SeesCloser(s: Split, c: char)
    requires Parsed(s) && s.inThink
    ensures EndsWith(s.buf + [c], CLOSER) <==> EndsWith(BlockSoFar(s) + [c], CLOSER)
  {
    WatchStep(BlockSoFar(s), s.buf, c, CLOSER);
    assert CLOSER[..|CLOSER|] == CLOSER;
  }

  /** The block closes at its first closing tag, and its reasoning is the text before it. */
  lemma {:induction false} ClosesThere(s: Split, w: string)
    requires Parsed(s) && s.inThink && w != "" && FirstCloser(BlockSoFar(s) + w)
    ensures var r := FeedAll(s, w);
      && !r.inThink && r.buf == ""
      && ReasonText(r.ledger) + CLOSER == ReasonText(s.ledger) + s.buf + w
      && ShownText(r.ledger) == ShownText(s.ledger)
  {
    var w0, c := w[..|w| - 1], w[|w| - 1];
    var text := BlockSoFar(s) + w;
    assert w == w0 + [c];
    assert text[..|text| - 1] == BlockSoFar(s) + w0;
    StaysOpen(s, w0);
    Assoc(BlockSoFar(s), w0, [c]);
    Assoc(ReasonText(s.ledger) + s.buf, w0, [c]);
    CloserClosesBlock(FeedAll(s, w0), c);
  }

  lemma CloserClosesBlock(s: Split, c: char)
    requires Parsed(s) && s.inThink && EndsWith(BlockSoFar(s) + [c], CLOSER)
    ensures var r := Feed(s, c);
      && !r.inThink && r.buf == ""
      && ReasonText(r.ledger) + CLOSER == ReasonText(s.ledger) + s.buf + [c]
      && ShownText(r.ledger) == ShownText(s.ledger)
  {
    SeesCloser(s, c);
    var b := s.buf + [c];
    assert b == CLOSER;
    CloseBlockIs(s, b);
    ClosingTexts(s.ledger);
    Assoc(ReasonText(s.ledger), s.buf, [c]);
    hide CloseBlock, BufferOk, Watching;
    assert Feed(s, c) == CloseBlock(s, b);
  }

  lemma ClosingTexts(l: Ledger)
    ensures ReasonText(Closing(l)) == ReasonText(l) && ShownText(Closing(l)) == ShownText(l)
  {
    var l1 := Then(l, Thought(""));
    assert ReasonText(l) + "" == ReasonText(l);
    var l2 := Then(l1, Closed(CLOSER));
    assert ReasonText(l2) == ReasonText(l1) && ShownText(l2) == ShownText(l1);
  }

  /** Chunk ends leave no trace inside a block. */
  lemma {:induction false} ChunkEndsInvisible(s: Split, chunks: seq<Chunk>)
    requires Parsed(s) && s.inThink && OnlyText(chunks)
    requires !Contains(BlockSoFar(s) + JoinContent(chunks), CLOSER)
    ensures FeedStream(s, chunks) == FeedAll(s, JoinContent(chunks))
  {
    if chunks != [] {
      var init, last := chunks[..|chunks| - 1], chunks[|chunks| - 1];
      var w0, w1 := JoinContent(init), last.content;
      Assoc(BlockSoFar(s), w0, w1);
      ContainsPrefix(BlockSoFar(s) + w0, w1, CLOSER);
      ChunkEndsInvisible(s, init);
      FeedAllConcat(s, w0, w1);
      StaysOpen(s, w0 + w1);
      if w1 == "" { assert w0 + w1 == w0; }
    }
  }

  lemma ContainsPrefix(a: string, b: string, t: string)
    requires !Contains(a + b, t)
    ensures !Contains(a, t)
  {
    if i: nat :| OccursAt(a, i, t) {
      OccursLonger(a, b, i, t);
    }
  }

  lemma OccursLonger(a: string, b: string, i: nat, t: string)
    requires OccursAt(a, i, t)
    ensures OccursAt(a + b, i, t)
  {
  }

  /** Two runs over the same block: however its text is cut into chunks, the block closes at
      the same character, with the same reasoning and the same visible text. The
      chunk that brings the closing tag may go on with `rest`. */
  lemma ThinkBlockIgnoresChunking(s: Split, cs: seq<Chunk>, tail: string, rest: string, w: string)
    requires Parsed(s) && s.inThink && OnlyText(cs) && tail != ""
    requires JoinContent(cs) + tail == w && FirstCloser(BlockSoFar(s) + w)
    ensures var r := FeedAll(FeedStream(s, cs), tail);
      && r == FeedAll(s, w)
      && !r.inThink && r.buf == ""
      && ReasonText(r.ledger) + CLOSER == ReasonText(s.ledger) + s.buf + w
      && ShownText(r.ledger) == ShownText(s.ledger)
      && FeedStream(s, cs + [Chunk("", tail + rest)]) == Dump(FeedAll(r, rest))
  {
    var w0 := JoinContent(cs);
    var text := BlockSoFar(s) + w;
    assert text[..|text| - 1] == (BlockSoFar(s) + w0) + tail[..|tail| - 1];
    ContainsPrefix(BlockSoFar(s) + w0, tail[..|tail| - 1], CLOSER);
    ChunkEndsInvisible(s, cs);
    FeedAllConcat(s, w0, tail);
    ClosesThere(s, w);
    var last := Chunk("", tail + rest);
    assert (cs + [last])[..|cs|] == cs;
    FeedAllConcat(FeedStream(s, cs), tail, rest);
  }

  // ----- outside a block -----

  const WINDOW := TEXT_LIMIT + 1

  /** Where the 21-character window that holds character number `n` begins. */
  function WindowStart(n: nat): (q: nat)
    ensures (n == 0 ==> q == 0) && (n > 0 ==> q < n <= q + WINDOW)
  {
    if n == 0 then 0 else WINDOW * ((n - 1) / WINDOW)
  }

  /** A full window is followed by the next one. */
  lemma WindowStartNext(n: nat)
    requires n > 1
    ensures WindowStart(n) == if n - 1 == WindowStart(n - 1) + WINDOW then n - 1 else WindowStart(n - 1)
  {
    var k := (n - 2) / WINDOW;
    if n - 2 - WINDOW * k == WINDOW - 1 {
      assert n - 1 == WINDOW * (k + 1);
      assert (n - 1) / WINDOW == k + 1;
    } else {
      assert (n - 1) / WINDOW == k;
    }
  }

  /** An opening tag ends after `n` characters of `w` and lies wholly within one of the
      consecutive 21-character windows of `w`. */
  predicate WindowTag(w: string, n: nat) {
    0 < n <= |w| && OpenTagLength(w[WindowStart(n)..n]) > 0
  }

  predicate NoWindowTag(w: string) {
    forall n :: 0 < n <= |w| ==> !WindowTag(w, n)
  }

  lemma PrefixWindow(w: string, m: nat, n: nat)
    requires 0 < n <= m <= |w|
    ensures WindowTag(w[..m], n) == WindowTag(w, n)
  {
    assert w[..m][WindowStart(n)..n] == w[WindowStart(n)..n];
  }

  lemma PrefixWindows(w: string, m: nat)
    requires m <= |w| && forall n :: 0 < n <= m ==> !WindowTag(w, n)
    ensures NoWindowTag(w[..m])
  {
    forall n | 0 < n <= m ensures !WindowTag(w[..m], n) { PrefixWindow(w, m, n); }
  }

  /** What the current window still holds unshown. */
  function Unshown(w: string): string {
    var q := WindowStart(|w|);
    if |w| == q + WINDOW then "" else w[q..]
  }

  /** From `s`, the text `w` has been shown window by window. */
  predicate ShownSoFar(s: Split, r: Split, w: string) {
    && !r.inThink && r.started == s.started && r.buf == Unshown(w)
    && ShownText(r.ledger) + r.buf == ShownText(s.ledger) + w
    && ReasonText(r.ledger) == ReasonText(s.ledger)
  }

  lemma WindowStep(s: Split, r: Split, w: string)
    requires w != "" && ShownSoFar(s, r, w[..|w| - 1]) && !WindowTag(w, |w|)
    ensures ShownSoFar(s, Feed(r, w[|w| - 1]), w)
  {
    WindowBuffer(w);
    OneMoreShown(r, w[|w| - 1]);
    ShownSnoc(ShownText(s.ledger), w, ShownText(r.ledger), r.buf);
  }

  /** Without a tag inside a window, the text is shown window by window. */
  lemma {:induction false} WindowRun(s: Split, w: string)
    requires !s.inThink && s.buf == "" && NoWindowTag(w)
    ensures ShownSoFar(s, FeedAll(s, w), w)
  {
    if w == "" {
      assert ShownText(s.ledger) + "" == ShownText(s.ledger) + w;
    } else {
      PrefixWindows(w, |w| - 1);
      WindowRun(s, w[..|w| - 1]);
      WindowStep(s, FeedAll(s, w[..|w| - 1]), w);
    }
  }

  lemma ShownSnoc(before: string, w: string, shown: string, buf: string)
    requires w != "" && shown + buf == before + w[..|w| - 1]
    ensures shown + buf + [w[|w| - 1]] == before + w
  {
  }

  lemma {:induction false} WindowBuffer(w: string)
    requires w != ""
    ensures Unshown(w[..|w| - 1]) + [w[|w| - 1]] == w[WindowStart(|w|)..]
  {
    hide WindowStart;
    if |w| > 1 { WindowStartNext(|w|); }
    LastSlice(w, WindowStart(|w|));
  }

  lemma LastSlice(w: string, q: nat)
    requires q < |w|
    ensures w[..|w| - 1][q..] + [w[|w| - 1]] == w[q..]
  {
  }

  lemma OneMoreShown(s: Split, c: char)
    requires !s.inThink && OpenTagLength(s.buf + [c]) == 0
    ensures var r := Feed(s, c);
      && !r.inThink && r.started == s.started
      && r.buf == (if |s.buf| >= TEXT_LIMIT then "" else s.buf + [c])
      && ShownText(r.ledger) + r.buf == ShownText(s.ledger) + s.buf + [c]
      && ReasonText(r.ledger) == ReasonText(s.ledger)
  {
  }

  /** From visible text with an empty buffer, one chunk's text opens a think block exactly when
      an opening tag lies wholly within one of its 21-character windows. */
  lemma OpeningExact(s: Split, w: string)
    requires !s.inThink && s.buf == ""
    ensures (exists m :: 0 < m <= |w| && FeedAll(s, w[..m]).inThink) <==> (exists n :: WindowTag(w, n))
  {
    if m :| 0 < m <= |w| && FeedAll(s, w[..m]).inThink {
      if forall n :: 0 < n <= m ==> !WindowTag(w, n) {
        PrefixWindows(w, m);
        WindowRun(s, w[..m]);
        assert false;
      }
    }
    if n :| WindowTag(w, n) {
      var m := OpensWithin(s, w, n);
    }
  }

  lemma FeedOpens(s: Split, c: char)
    requires !s.inThink && OpenTagLength(s.buf + [c]) > 0
    ensures Feed(s, c).inThink
  {
  }

  lemma {:induction false} OpensWithin(s: Split, w: string, n: nat) returns (m: nat)
    requires !s.inThink && s.buf == "" && WindowTag(w, n)
    ensures 0 < m <= n && FeedAll(s, w[..m]).inThink && WindowTag(w, m)
    decreases n
  {
    hide WindowTag, FeedAll;
    if k :| 0 < k < n && WindowTag(w, k) {
      m := OpensWithin(s, w, k);
    } else {
      m := n;
      assert 0 < n <= |w| by { TagBounds(w, n); }
      OpensAt(s, w, n);
    }
  }

  lemma TagBounds(w: string, n: nat)
    requires WindowTag(w, n)
    ensures 0 < n <= |w|
  {
  }

  /** The first tag inside a window opens a block where it ends. */
  lemma OpensAt(s: Split, w: string, n: nat)
    requires !s.inThink && s.buf == "" && WindowTag(w, n)
    requires forall k :: 0 < k < n ==> !WindowTag(w, k)
    ensures FeedAll(s, w[..n]).inThink
  {
    hide OpenTagLength, Feed, WindowStart, NoWindowTag, Unshown;
    var v := w[..n];
    PrefixWindows(w, n - 1);
    assert v[..n - 1] == w[..n - 1];
    WindowRun(s, v[..n - 1]);
    WindowBuffer(v);
    assert v[WindowStart(n)..] == w[WindowStart(n)..n];
    FeedOpens(FeedAll(s, v[..n - 1]), v[n - 1]);
  }

  lemma WholeTagOpens()
    ensures FeedAll(START, OPEN_SHORT).inThink
  {
    assert WindowStart(7) == 0 && OPEN_SHORT[0..7] == OPEN_SHORT[..7] == OPEN_SHORT;
    forall k | 0 < k < 7 ensures !WindowTag(OPEN_SHORT, k) { }
    hide FeedAll, MatchesAt, Folds;
    OpensAt(START, OPEN_SHORT, 7);
  }

  /** So the opening tag is sensitive to chunking: whole it opens a block, cut in two it is
      shown as text. */
  lemma OpeningDependsOnChunks()
    ensures FeedAll(START, OPEN_SHORT).inThink
    ensures forall k :: 0 < k < |OPEN_SHORT| ==>
      var r := FeedStream(START, [Chunk("", OPEN_SHORT[..k]), Chunk("", OPEN_SHORT[k..])]);
      !r.inThink && ShownText(r.ledger) == OPEN_SHORT
  {
    WholeTagOpens();
    hide *;
    forall k | 0 < k < |OPEN_SHORT|
      ensures var r := FeedStream(START, [Chunk("", OPEN_SHORT[..k]), Chunk("", OPEN_SHORT[k..])]);
        !r.inThink && ShownText(r.ledger) == OPEN_SHORT
    {
      CutTagIsShown(k);
    }
  }

  /** A text too short to hold a tag is simply shown. */
  lemma PlainChunk(s: Split, w: string)
    requires !s.inThink && s.buf == "" && 0 < |w| < |OPEN_SHORT|
    ensures var r := FeedChunk(s, Chunk("", w));
      !r.inThink && r.buf == "" && ShownText(r.ledger) == ShownText(s.ledger) + w
  {
    assert NoWindowTag(w);
    WindowRun(s, w);
    DumpShows(FeedAll(s, w));
  }

  lemma DumpShows(s: Split)
    requires !s.inThink
    ensures var r := Dump(s);
      !r.inThink && r.buf == "" && ShownText(r.ledger) == ShownText(s.ledger) + s.buf
  {
  }

  lemma CutTagIsShown(k: nat)
    requires 0 < k < |OPEN_SHORT|
    ensures var r := FeedStream(START, [Chunk("", OPEN_SHORT[..k]), Chunk("", OPEN_SHORT[k..])]);
      !r.inThink && ShownText(r.ledger) == OPEN_SHORT
  {
    var a, b := Chunk("", OPEN_SHORT[..k]), Chunk("", OPEN_SHORT[k..]);
    PlainChunk(START, a.content);
    var s1 := FeedChunk(START, a);
    assert [a][..0] == [] && FeedStream(START, [a]) == s1;
    PlainChunk(s1, b.content);
    assert [a, b][..1] == [a];
    assert OPEN_SHORT == OPEN_SHORT[..k] + OPEN_SHORT[k..];
    assert "" + OPEN_SHORT[..k] == OPEN_SHORT[..k];
  }
}
