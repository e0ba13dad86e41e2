/** The character-by-character splitter of the agent loop, in the form the program has it:
    fields updated in place, tags found by a regex search of the whole buffer, and
    the part of a closing tag to keep found by trying its prefixes. */
module ThinkSplitters {
  import opened PyText
  import opened ThinkTags
  import opened ThinkTheorems

  datatype Match = NoMatch | Match(start: nat, length: nat)

  /** `re.search(short|long, s)`: the leftmost match from `i` on, trying `short` first. */
  function Search(s: string, i: nat, short: string, long: string): (m: Match)
    requires i <= |s| && 0 < |short| < |long|
    ensures m == NoMatch <==> forall j :: i <= j <= |s| ==> !MatchesAt(s, j, short) && !MatchesAt(s, j, long)
    ensures m.Match? ==> i <= m.start && MatchesAt(s, m.start, if m.length == |short| then short else long)
    ensures m.Match? ==> m.length == |short| || m.length == |long|
    decreases |s| - i
  {
    if MatchesAt(s, i, short) then Match(i, |short|)
    else if MatchesAt(s, i, long) then Match(i, |long|)
    else if i == |s| then NoMatch
    else Search(s, i + 1, short, long)
  }

  /** `re.sub` with an empty replacement and `count=1`, given the first match. */
  function CutOut(s: string, m: Match): string
    requires m.Match? && m.start + m.length <= |s|
  {
    s[..m.start] + s[m.start + m.length..]
  }

  /** In a buffer that holds neither pattern, one more character completes a match only at the
      end, so the search finds what ends the text. */
  lemma SearchAtEnd(buf: string, c: char, short: string, long: string)
    requires 0 < |short| < |long|
    requires forall i: nat :: !MatchesAt(buf, i, short) && !MatchesAt(buf, i, long)
    requires |buf| + 1 >= |long| && MatchesAt(buf + [c], |buf| + 1 - |long|, long) ==>
      !MatchesAt(buf + [c], |buf| + 1 - |short|, short)
    ensures var b := buf + [c];
      Search(b, 0, short, long) ==
        if |b| >= |short| && MatchesAt(b, |b| - |short|, short) then Match(|b| - |short|, |short|)
        else if |b| >= |long| && MatchesAt(b, |b| - |long|, long) then Match(|b| - |long|, |long|)
        else NoMatch
  {
    hide MatchesAt;
    var b := buf + [c];
    var m := Search(b, 0, short, long);
    if m.Match? {
      TagEndsText(buf, c, m.start, if m.length == |short| then short else long);
    }
  }

  /** In a text buffer the search finds a tag exactly when one ends the buffer. */
  lemma SearchFindsOpenTag(buf: string, c: char)
    requires NoOpenTag(buf)
    ensures var b := buf + [c];
      var n := OpenTagLength(b);
      Search(b, 0, OPEN_SHORT, OPEN_LONG) == if n > 0 then Match(|b| - n, n) else NoMatch
  {
    hide MatchesAt;
    var b := buf + [c];
    if |b| >= |OPEN_LONG| && MatchesAt(b, |b| - |OPEN_LONG|, OPEN_LONG) { OneTagOnly(b); }
    SearchAtEnd(buf, c, OPEN_SHORT, OPEN_LONG);
  }

  /** No text ends with both opening tags. */
  lemma OneTagOnly(b: string)
    requires |b| >= |OPEN_LONG| && MatchesAt(b, |b| - |OPEN_LONG|, OPEN_LONG)
    ensures !MatchesAt(b, |b| - |OPEN_SHORT|, OPEN_SHORT)
  {
    var k, g := OPEN_SHORT[5], OPEN_LONG[8];
    assert |b| - |OPEN_LONG| + 8 == |b| - |OPEN_SHORT| + 5;
    assert Folds(b[|b| - |OPEN_LONG| + 8], g) && g == 'g';
    assert k == 'k' && !Folds(b[|b| - |OPEN_SHORT| + 5], k);
  }

  /** Inside a block the case-insensitive search for either closing tag finds nothing but a
      lower-case `</think>`, because the buffer never holds more than 7 characters
      and, beyond 5, only the beginning of that tag. */
  lemma SearchFindsCloser(s: Split, c: char)
    requires s.inThink && BufferOk(s)
    ensures var b := s.buf + [c];
      Search(b, 0, CLOSER, CLOSER_LONG) == if EndsWith(b, CLOSER) then Match(0, |CLOSER|) else NoMatch
  {
    OnlyCloser(s.buf, c);
    hide MatchesAt, EndsWith, BufferOk;
    var b := s.buf + [c];
    var m := Search(b, 0, CLOSER, CLOSER_LONG);
    assert MatchesAt(b, 0, CLOSER) <==> b == CLOSER;
  }

  lemma OpenIgnoresBuffer(s: Split, b: string, n: nat)
    requires n <= |b|
    ensures OpenBlock(s.(buf := b), b, n) == OpenBlock(s, b, n)
  {
  }

  lemma CloseIgnoresBuffer(s: Split, b: string)
    requires |CLOSER| <= |b|
    ensures CloseBlock(s.(buf := b), b) == CloseBlock(s, b)
  {
  }

  lemma FlushIgnoresBuffer(s: Split, b: string)
    ensures SafeFlush(s.(buf := b), b) == SafeFlush(s, b)
  {
  }

  lemma ShortEnds(b: string)
    requires EndsWith(b, CLOSER) && |b| <= |CLOSER|
    ensures b == CLOSER
  {
  }

  class ThinkSplitter {
    var inThinkTag: bool
    var thinkBuffer: string
    var currentContent: string
    var reasoningContent: string
    var thinkingStarted: bool
    var thinkingEnded: bool
    var events: seq<Event>
    ghost var ledger: Ledger

    ghost function View(): Split
      reads this
    {
      Split(inThinkTag, thinkBuffer, thinkingStarted, thinkingEnded, ledger)
    }

    /** The accumulated texts and the pushed events are what the ledger says. */
    ghost predicate Agrees()
      reads this
    {
      && currentContent == ShownText(ledger)
      && reasoningContent == ReasonText(ledger)
      && events == Events(ledger)
    }

    ghost predicate Valid()
      reads this
    {
      Agrees() && BufferOk(View())
    }

    constructor ()
      ensures Valid() && View() == START
    {
      inThinkTag, thinkBuffer, currentContent, reasoningContent := false, "", "", "";
      thinkingStarted, thinkingEnded, events, ledger := false, false, [], Blank;
    }

    method ShowText(text: string)
      requires Agrees()
      modifies this`currentContent, this`events, this`ledger
      ensures Agrees() && ledger == Then(old(ledger), Shown(text))
    {
      currentContent := currentContent + text;
      events := events + [TextDelta(text)];
      ledger := Then(ledger, Shown(text));
    }

    method AddThought(text: string)
      requires Agrees()
      modifies this`reasoningContent, this`events, this`ledger
      ensures Agrees() && ledger == Then(old(ledger), Thought(text))
    {
      reasoningContent := reasoningContent + text;
      events := events + [ThinkingDelta(text)];
      ledger := Then(ledger, Thought(text));
    }

    method PushStart()
      requires Agrees()
      modifies this`events, this`ledger, this`thinkingStarted
      ensures Agrees() && View() == Begin(old(View()))
    {
      if !thinkingStarted {
        events := events + [ThinkingStart];
        ledger := Then(ledger, Began);
        thinkingStarted := true;
      }
    }

    method PushEnd()
      requires Agrees()
      modifies this`events, this`ledger, this`thinkingEnded
      ensures Agrees() && View() == End(old(View()))
    {
      events := events + [ThinkingEnd];
      ledger := Then(ledger, Ended);
      thinkingEnded := true;
    }

    /** A tag recognised or blank text dropped: nothing is accumulated or pushed. */
    ghost method Note(p: Piece)
      requires Agrees() && (p.Opened? || p.Closed? || p.Dropped?)
      modifies this`ledger
      ensures Agrees() && ledger == Then(old(ledger), p)
    {
      ledger := Then(ledger, p);
    }

    /** An opening tag of length `n` ends the buffer: what is before it is shown or dropped. */
    method OpenTag(m: Match, ghost n: nat)
      requires Agrees() && !inThinkTag && n <= |thinkBuffer| && m == Match(|thinkBuffer| - n, n)
      modifies this
      ensures Agrees() && View() == OpenBlock(old(View()), old(thinkBuffer), n)
    {
      hide IsBlank;
      inThinkTag := true;
      PushStart();
      var beforeTag := CutOut(thinkBuffer, m);
      ghost var tag := thinkBuffer[|thinkBuffer| - n..];
      assert beforeTag == thinkBuffer[..|thinkBuffer| - n];
      thinkBuffer := "";
      if IsBlank(beforeTag) {
        Note(Dropped(beforeTag));
      } else {
        ShowText(beforeTag);
      }
      Note(Opened(tag));
    }

    /** Text mode, one character. */
    method FeedText(c: char)
      requires Valid() && !inThinkTag
      modifies this
      ensures Valid() && View() == Feed(old(View()), c)
    {
      ghost var was := View();
      SearchFindsOpenTag(thinkBuffer, c);
      FeedKeepsBuffer(was, c);
      hide BufferOk, OpenTagLength, Search, OpenBlock, EndsWith, ShownText, ReasonText, Events;
      thinkBuffer := thinkBuffer + [c];
      ghost var b := thinkBuffer;
      var m := Search(thinkBuffer, 0, OPEN_SHORT, OPEN_LONG);
      if m.Match? {
        OpenTag(m, OpenTagLength(b));
        OpenIgnoresBuffer(was, b, OpenTagLength(b));
      } else if |thinkBuffer| > TEXT_LIMIT {
        ShowText(thinkBuffer);
        thinkBuffer := "";
      }
    }

    /** The longest beginning of the closing tag that ends the buffer, tried from 7 down. */
    method KeepLength() returns (k: nat)
      ensures k == Border(thinkBuffer, |CLOSER| - 1)
    {
      k := |CLOSER| - 1;
      while k > 0
        invariant k < |CLOSER| && Border(thinkBuffer, |CLOSER| - 1) == Border(thinkBuffer, k)
      {
        if EndsWith(thinkBuffer, CLOSER[..k]) {
          return;
        }
        k := k - 1;
      }
    }

    /** A closing tag is the whole buffer: the thought before it, which is empty, is released. */
    method CloseTag(m: Match)
      requires Agrees() && inThinkTag && thinkBuffer == CLOSER && m == Match(0, |CLOSER|)
      modifies this
      ensures Agrees() && View() == CloseBlock(old(View()), CLOSER)
    {
      CloseBlockIs(View(), CLOSER);
      inThinkTag := false;
      var thinkContent := CutOut(thinkBuffer, m);
      assert thinkContent == "";
      AddThought(thinkContent);
      Note(Closed(CLOSER));
      PushEnd();
      thinkBuffer := "";
    }

    /** Everything but a possible beginning of the closing tag is released. */
    method FlushThought()
      requires Agrees() && inThinkTag
      modifies this
      ensures Agrees() && View() == SafeFlush(old(View()), old(thinkBuffer))
    {
      hide Border;
      var k := KeepLength();
      var cut := |thinkBuffer| - k;
      if thinkBuffer[..cut] != "" {
        AddThought(thinkBuffer[..cut]);
      }
      thinkBuffer := thinkBuffer[cut..];
    }

    /** Think mode, one character. */
    method FeedThought(c: char)
      requires Valid() && inThinkTag
      modifies this
      ensures Valid() && View() == Feed(old(View()), c)
    {
      ghost var was := View();
      SearchFindsCloser(was, c);
      FeedKeepsBuffer(was, c);
      BufferIsShort(was);
      hide BufferOk, Search, EndsWith, SafeFlush, CloseBlock;
      thinkBuffer := thinkBuffer + [c];
      ghost var b := thinkBuffer;
      var m := Search(thinkBuffer, 0, CLOSER, CLOSER_LONG);
      if m.Match? {
        ShortEnds(b);
        CloseTag(m);
        CloseIgnoresBuffer(was, b);
      } else if |thinkBuffer| > THINK_LIMIT {
        FlushThought();
        FlushIgnoresBuffer(was, b);
      }
    }

    /** The provider's own reasoning field. */
    method AddField(text: string)
      requires Valid()
      modifies this
      ensures Valid() && View() == TakeField(old(View()), text)
    {
      PushStart();
      reasoningContent := reasoningContent + text;
      events := events + [ThinkingDelta(text)];
      ledger := Then(ledger, Given(text));
    }

    /** One chunk's text. */
    method AddContent(text: string)
      requires Valid()
      modifies this
      ensures Valid() && View() == Dump(FeedAll(old(View()), text))
    {
      hide Feed, BufferOk;
      ghost var s := View();
      var i := 0;
      assert text[..0] == "";
      while i < |text|
        invariant 0 <= i <= |text| && Valid()
        invariant View() == FeedAll(s, text[..i])
      {
        FeedAllSnoc(s, text, i);
        if inThinkTag {
          FeedThought(text[i]);
        } else {
          FeedText(text[i]);
        }
        i := i + 1;
      }
      assert text[..i] == text;
      DumpBuffer();
    }

    method DumpBuffer()
      requires Valid()
      modifies this
      ensures Valid() && View() == Dump(old(View()))
    {
      if thinkBuffer != "" && !inThinkTag {
        ShowText(thinkBuffer);
        thinkBuffer := "";
      }
    }

    /** One stream chunk: its reasoning field, then its text. */
    method ProcessChunk(chunk: Chunk)
      requires Valid()
      modifies this
      ensures Valid() && View() == FeedChunk(old(View()), chunk)
    {
      if chunk.reasoning != "" {
        AddField(chunk.reasoning);
      }
      if chunk.content != "" {
        AddContent(chunk.content);
      }
    }

    /** After the last chunk. */
    method FinishStream()
      requires Valid()
      modifies this
      ensures Agrees() && View() == Finish(old(View()))
    {
      if thinkBuffer != "" && inThinkTag {
        AddThought(thinkBuffer);
        thinkBuffer := "";
      }
      if thinkingStarted && !inThinkTag && !thinkingEnded {
        PushEnd();
      }
    }

    /** A whole stream, from the first chunk to the end. */
    method ReadStream(chunks: seq<Chunk>)
      requires Valid() && View() == START
      modifies this
      ensures Agrees() && View() == Finish(FeedStream(START, chunks))
      ensures currentContent == TextDeltas(events) && reasoningContent == ThinkingDeltas(events)
      ensures StartsOnce(events)
      ensures GivenText(ledger) == JoinReasoning(chunks)
      ensures JoinContent(chunks) == "" ==> reasoningContent == JoinReasoning(chunks) && currentContent == ""
    {
      var i := 0;
      while i < |chunks|
        invariant 0 <= i <= |chunks| && Valid()
        invariant View() == FeedStream(START, chunks[..i])
      {
        assert chunks[..i + 1][..i] == chunks[..i];
        ProcessChunk(chunks[i]);
        i := i + 1;
      }
      assert chunks[..i] == chunks;
      FinishStream();
      FinishTheorem(chunks);
      DeltasAre(ledger);
      EventsStartOnce(ledger);
      FieldsArrive(chunks);
      if JoinContent(chunks) == "" { FieldsOnly(chunks); }
    }
  }

  lemma FeedAllSnoc(s: Split, text: string, i: nat)
    requires i < |text|
    ensures FeedAll(s, text[..i + 1]) == Feed(FeedAll(s, text[..i]), text[i])
  {
    assert text[..i + 1][..i] == text[..i];
  }
}
