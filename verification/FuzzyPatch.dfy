/** The patch tool: an edit found by fuzzy matching of normalised lines and mapped back to the
    original text. */
module FuzzyPatch {
  import opened PyText

  // ----- normalising lines -----

  datatype Mode = Trim | Collapse | Indent

  predicate IsGap(c: char) { c == ' ' || c == '\t' }

  /** Each run of spaces and tabs becomes one space. */
  function CollapseGaps(s: string): (r: string)
    ensures forall c :: c in r ==> c in s || c == ' '
  {
    if s == "" then ""
    else if !IsGap(s[0]) then [s[0]] + CollapseGaps(s[1..])
    else if |s| > 1 && IsGap(s[1]) then CollapseGaps(s[1..])
    else [' '] + CollapseGaps(s[1..])
  }

  function NormLine(s: string, mode: Mode): (r: string)
    ensures forall c :: c in r ==> c in s || c == ' '
  {
    match mode
    case Trim => Strip(s)
    case Collapse => Strip(CollapseGaps(s))
    case Indent => LeftStrip(s)
  }

  function NormLines(lines: seq<string>, mode: Mode): (r: seq<string>)
    ensures |r| == |lines| && forall i :: 0 <= i < |r| ==> r[i] == NormLine(lines[i], mode)
  {
    seq(|lines|, i requires 0 <= i < |lines| => NormLine(lines[i], mode))
  }

  function NormText(s: string, mode: Mode): string {
    Join(NormLines(SplitLines(s), mode))
  }

  // ----- the matchers -----

  datatype Found = NotFound | Found(at: nat, text: string)

  /** `lines[k:k+n]` */
  function Block(lines: seq<string>, k: nat, n: nat): seq<string> {
    if k >= |lines| then [] else if k + n > |lines| then lines[k..] else lines[k..k + n]
  }

  /** Sum of `len(line) + 1` over the first `k` lines. */
  function CharOffset(lines: seq<string>, k: nat): nat {
    Offset(lines, if k <= |lines| then k else |lines|)
  }

  /** The line in which a match in the normalised text begins. */
  function MatchLine(content: string, old_: string, mode: Mode): int {
    var text := NormText(content, mode);
    var at := FindFrom(text, NormText(old_, mode), 0);
    if at < 0 then -1 else Newlines(text[..at])
  }

  /** `zip` of two lists of lines agrees. */
  predicate ZipAgrees(a: seq<string>, b: seq<string>) {
    forall i :: 0 <= i < |a| && i < |b| ==> a[i] == b[i]
  }

  function FuzzyMatch(content: string, old_: string, mode: Mode): Found {
    var k := MatchLine(content, old_, mode);
    if k < 0 then NotFound
    else
      var n := |SplitLines(old_)|;
      if mode.Trim? && !ZipAgrees(Block(SplitLines(NormText(content, mode)), k, n), SplitLines(NormText(old_, mode)))
      then NotFound
      else Found(CharOffset(SplitLines(content), k), Join(Block(SplitLines(content), k, n)))
  }

  /** Exact first, then line-trimmed, whitespace-collapsed and indentation-flexible. */
  function FuzzyFind(content: string, old_: string): Found {
    var at := FindFrom(content, old_, 0);
    if at >= 0 then Found(at, old_)
    else if FuzzyMatch(content, old_, Trim).Found? then FuzzyMatch(content, old_, Trim)
    else if FuzzyMatch(content, old_, Collapse).Found? then FuzzyMatch(content, old_, Collapse)
    else FuzzyMatch(content, old_, Indent)
  }

  datatype Result = NoMatch | Ambiguous(count: nat) | Patched(content: string)

  function Patch(content: string, old_: string, new_: string): Result {
    match FuzzyFind(content, old_)
    case NotFound => NoMatch
    case Found(at, text) =>
      if CountFrom(content, text, 0) > 1 then Ambiguous(CountFrom(content, text, 0))
      else Patched(Take(content, at) + new_ + Drop(content, at + |text|))
  }

  /** `s[:n]` and `s[n:]`, with Python's clipping. */
  function Take(s: string, n: nat): string { if n <= |s| then s[..n] else s }
  function Drop(s: string, n: nat): string { if n <= |s| then s[n..] else "" }

  // ----- lines of the original text -----

  /** Equal, except that `b` has a line feed where `a` may have another line break. */
  predicate SameButBreaks(a: string, b: string) {
    |a| == |b| && forall i :: 0 <= i < |a| ==> a[i] == b[i] || (IsBreak(a[i]) && b[i] == '\n')
  }

  lemma PeelLine(s: string)
    requires s != "" && '\r' !in s
    ensures var n := FirstLine(s); var lines := SplitLines(s);
      && |lines| >= 1 && lines[0] == s[..n]
      && (n < |s| ==> lines[1..] == SplitLines(s[n + 1..]) && '\r' !in s[n + 1..])
      && (n == |s| ==> lines == [s])
  {
    hide FirstLine, IsBreak, SplitLines;
    if FirstLine(s) < |s| {
      SplitUnfolds(s);
      assert s[FirstLine(s)] != '\r';
    } else {
      WholeLine(s);
    }
  }

  lemma WholeLine(s: string)
    requires s != "" && FirstLine(s) == |s|
    ensures SplitLines(s) == [s] && s[..|s|] == s
  {
  }

  lemma {:induction false} LinesHaveNoBreaks(s: string)
    ensures forall i, c :: 0 <= i < |SplitLines(s)| && c in SplitLines(s)[i] ==> !IsBreak(c)
    decreases |s|
  {
    if s != "" {
      var n := FirstLine(s);
      if n < |s| {
        LinesHaveNoBreaks(s[n + BreakLength(s, n)..]);
      }
    }
  }

  /** The lines joined are the text, up to its line breaks and a final one. */
  lemma {:induction false} TextIsLines(s: string)
    requires '\r' !in s
    ensures var p := Join(SplitLines(s)); |p| <= |s| && SameButBreaks(s[..|p|], p)
    decreases |s|
  {
    if s != "" {
      var n := FirstLine(s);
      var lines := SplitLines(s);
      PeelLine(s);
      hide SplitLines, FirstLine, IsBreak;
      if n < |s| && |lines| > 1 {
        var rest := s[n + 1..];
        TextIsLines(rest);
        LineThenRest(s, n, Join(SplitLines(rest)));
      } else {
        assert s[..n] == lines[0] == Join(lines);
      }
    }
  }

  lemma LineThenRest(s: string, n: nat, p: string)
    requires n < |s| && IsBreak(s[n]) && |p| <= |s| - n - 1 && SameButBreaks(s[n + 1..][..|p|], p)
    ensures var t := s[..n] + ['\n'] + p; |t| <= |s| && SameButBreaks(s[..|t|], t)
  {
  }

  // ----- lines of the normalised text -----

  predicate Unbroken(lines: seq<string>) {
    forall i :: 0 <= i < |lines| ==> '\n' !in lines[i]
  }

  lemma {:induction false} JoinNewlines(lines: seq<string>)
    requires Unbroken(lines)
    ensures Newlines(Join(lines)) == if lines == [] then 0 else |lines| - 1
  {
    if lines != [] {
      NoNewlines(lines[0]);
      if |lines| > 1 {
        JoinNewlines(lines[1..]);
        NewlinesConcat(lines[0] + ['\n'], Join(lines[1..]));
        NewlinesConcat(lines[0], ['\n']);
        assert ['\n'][1..] == "";
      }
    }
  }

  /** A position with `c` line feeds before it lies in line `c`. */
  lemma {:induction false} PositionInLine(lines: seq<string>, x: nat)
    requires Unbroken(lines) && lines != [] && x <= |Join(lines)|
    ensures var c := Newlines(Join(lines)[..x]);
      c < |lines| && Offset(lines, c) <= x <= Offset(lines, c) + |lines[c]|
  {
    var p := Join(lines);
    var n := |lines[0]|;
    if x <= n {
      assert p[..x] == lines[0][..x];
      NoNewlines(lines[0][..x]);
    } else {
      var rest := Join(lines[1..]);
      PositionInLine(lines[1..], x - n - 1);
      assert p[..x] == (lines[0] + ['\n']) + rest[..x - n - 1];
      NewlinesConcat(lines[0] + ['\n'], rest[..x - n - 1]);
      NewlinesConcat(lines[0], ['\n']);
      NoNewlines(lines[0]);
      assert ['\n'][1..] == "";
    }
  }

  lemma {:induction false} JoinConcat(a: seq<string>, b: seq<string>)
    requires a != [] && b != []
    ensures Join(a + b) == Join(a) + ['\n'] + Join(b)
    decreases |a|
  {
    assert (a + b)[1..] == a[1..] + b;
    if |a| > 1 {
      JoinConcat(a[1..], b);
      Regroup(a[0] + ['\n'], Join(a[1..]), ['\n'], Join(b));
    } else {
      assert a[1..] + b == b;
    }
  }

  lemma Regroup(a: string, b: string, c: string, d: string)
    ensures a + (b + c + d) == a + b + c + d
  {
  }

  lemma {:induction false} OffsetIs(lines: seq<string>, k: nat)
    requires k <= |lines|
    ensures Offset(lines, k) == if k == 0 then 0 else |Join(lines[..k])| + 1
  {
    if k > 1 {
      OffsetIs(lines[1..], k - 1);
      assert lines[..k][1..] == lines[1..][..k - 1];
    } else if k == 1 {
      assert lines[..1] == [lines[0]];
    }
  }

  /** Lines `k` to `k + n` of a joined text are its slice from the start of line `k`. */
  lemma JoinSlice(lines: seq<string>, k: nat, n: nat)
    requires 0 < n && k + n <= |lines|
    ensures OccursAt(Join(lines), Offset(lines, k), Join(lines[k..k + n]))
  {
    hide Join, Offset;
    var t := Join(lines[k..k + n]);
    OffsetIs(lines, k);
    var tail := lines[k..];
    if k + n < |lines| {
      JoinConcat(lines[k..k + n], lines[k + n..]);
      assert lines[k..k + n] + lines[k + n..] == tail;
    } else {
      assert lines[k..k + n] == tail;
    }
    assert OccursAt(Join(tail), 0, t);
    if k > 0 {
      JoinConcat(lines[..k], tail);
      assert lines[..k] + tail == lines;
      OccursAfter(Join(lines[..k]) + ['\n'], Join(tail), t);
    } else {
      assert tail == lines;
    }
  }

  lemma OccursAfter(a: string, b: string, t: string)
    requires OccursAt(b, 0, t)
    ensures OccursAt(a + b, |a|, t)
  {
  }

  /** The end of line `k + n - 1`. */
  lemma {:induction false} BlockEnd(lines: seq<string>, k: nat, n: nat)
    requires 0 < n && k + n <= |lines|
    ensures Offset(lines, k) + |Join(lines[k..k + n])| == Offset(lines, k + n - 1) + |lines[k + n - 1]|
    decreases n
  {
    if n > 1 {
      var a, b := lines[k..k + n - 1], [lines[k + n - 1]];
      assert a + b == lines[k..k + n];
      JoinConcat(a, b);
      BlockEnd(lines, k, n - 1);
      OffsetStep(lines, k + n - 2);
    } else {
      assert lines[k..k + 1] == [lines[k]];
    }
  }

  lemma {:induction false} OffsetStep(lines: seq<string>, k: nat)
    requires k < |lines|
    ensures Offset(lines, k + 1) == Offset(lines, k) + |lines[k]| + 1
  {
    if k > 0 { OffsetStep(lines[1..], k - 1); }
  }

  /** Lines `k` to `k + n` of the original, joined, lie in it where line `k` begins. */
  lemma BlockAt(s: string, k: nat, n: nat)
    requires '\r' !in s && 0 < n && k + n <= |SplitLines(s)|
    ensures var at, t := Offset(SplitLines(s), k), Join(SplitLines(s)[k..k + n]);
      at + |t| <= |s| && SameButBreaks(s[at..at + |t|], t)
  {
    var lines := SplitLines(s);
    TextIsLines(s);
    JoinSlice(lines, k, n);
    hide SplitLines, Join, Offset;
    SameWithin(s, Join(lines), Offset(lines, k), Join(lines[k..k + n]));
  }

  lemma SameWithin(s: string, p: string, at: nat, t: string)
    requires |p| <= |s| && SameButBreaks(s[..|p|], p) && OccursAt(p, at, t)
    ensures at + |t| <= |s| && SameButBreaks(s[at..at + |t|], t)
  {
    hide IsBreak;
    forall i | 0 <= i < |t| ensures s[at + i] == t[i] || (IsBreak(s[at + i]) && t[i] == '\n') {
      assert p[at..at + |t|][i] == p[at + i] && s[..|p|][at + i] == s[at + i];
    }
  }

  // ----- a match in the normalised text covers whole lines of the original -----

  lemma NormUnbroken(s: string, mode: Mode)
    ensures Unbroken(NormLines(SplitLines(s), mode))
  {
    LinesHaveNoBreaks(s);
    var lines := SplitLines(s);
    forall i | 0 <= i < |lines| ensures '\n' !in NormLine(lines[i], mode) {
      assert '\n' in lines[i] ==> !IsBreak('\n');
    }
  }

  lemma MatchSpan(lines: seq<string>, olds: seq<string>, at: nat)
    requires Unbroken(lines) && Unbroken(olds) && lines != [] && olds != []
    requires OccursAt(Join(lines), at, Join(olds))
    ensures at <= at + |Join(olds)| <= |Join(lines)|
    ensures var k, n := Newlines(Join(lines)[..at]), |olds|;
      && k + n <= |lines| && Offset(lines, k) <= at
      && at + |Join(olds)| <= Offset(lines, k + n - 1) + |lines[k + n - 1]|
  {
    hide Join, Offset, Newlines, Unbroken;
    var p, q := Join(lines), Join(olds);
    PositionInLine(lines, at);
    PositionInLine(lines, at + |q|);
    assert p[..at + |q|] == p[..at] + q;
    NewlinesConcat(p[..at], q);
    JoinNewlines(olds);
  }

  /** As many lines from line `k` on as there are in `olds` contain those, all joined. */
  ghost predicate Covers(lines: seq<string>, olds: seq<string>, k: nat) {
    k + |olds| <= |lines| && Contains(Join(lines[k..k + |olds|]), Join(olds))
  }

  /** A found search text with `n` lines lies within lines `k` to `k + n` of the normalised text,
      where `k` is the number of line feeds before it. */
  lemma {:induction false} MatchCovers(lines: seq<string>, olds: seq<string>, at: nat)
    requires Unbroken(lines) && Unbroken(olds) && lines != [] && olds != []
    requires OccursAt(Join(lines), at, Join(olds))
    ensures Covers(lines, olds, Newlines(Join(lines)[..at]))
  {
    MatchSpan(lines, olds, at);
    hide Join, Offset, Newlines, Unbroken, OccursAt;
    var p, q := Join(lines), Join(olds);
    var k, n := Newlines(p[..at]), |olds|;
    JoinSlice(lines, k, n);
    BlockEnd(lines, k, n);
    SubOccurs(p, Offset(lines, k), Join(lines[k..k + n]), at, q);
  }

  lemma SubOccurs(p: string, from: nat, t: string, at: nat, q: string)
    requires OccursAt(p, from, t) && OccursAt(p, at, q) && from <= at && at + |q| <= from + |t|
    ensures OccursAt(t, at - from, q)
  {
    forall i | 0 <= i < |q| ensures t[at - from + i] == q[i] {
      assert t[at - from + i] == p[from..from + |t|][at - from + i] == p[at + i] == p[at..at + |q|][i];
    }
  }

  // ----- main results -----

  /** `lines[k..k + n]` is a block whose normalised lines contain the normalised search lines. */
  ghost predicate Matches(lines: seq<string>, olds: seq<string>, mode: Mode, k: nat) {
    && 0 < |olds| && k + |olds| <= |lines|
    && Contains(Join(NormLines(lines[k..k + |olds|], mode)), Join(NormLines(olds, mode)))
  }

  /** In an empty file exactly the blank search texts are found, at its start; the text found is empty. */
  lemma EmptyFile(old_: string, mode: Mode)
    ensures MatchLine("", old_, mode) == if NormText(old_, mode) == "" then 0 else -1
    ensures FuzzyMatch("", old_, mode) == if NormText(old_, mode) == "" then Found(0, "") else NotFound
  {
    var o := NormText(old_, mode);
    assert NormText("", mode) == "";
    assert OccursAt("", 0, o) <==> o == "";
    hide NormLine, Join;
    assert FindFrom("", o, 0) == if o == "" then 0 else -1;
  }

  /** Such a text, which no block of an empty file's lines contains, since it has none. */
  lemma BlankFoundInEmptyFile()
    ensures FuzzyMatch("", "  ", Trim) == Found(0, "") && SplitLines("") == []
    ensures !Matches(SplitLines(""), SplitLines("  "), Trim, 0)
  {
    EmptyFile("  ", Trim);
    assert SplitLines("  ") == ["  "];
    assert Strip("  ") == "" by { assert LeftStrip("  "[1..]) == ""; }
  }

  /** The line a match begins in starts a block of as many lines as the search text has, which,
      normalised line by line, contains the normalised search text. */
  lemma MatchLineTheorem(content: string, old_: string, mode: Mode)
    requires MatchLine(content, old_, mode) >= 0 && old_ != ""
    ensures if content == "" then MatchLine(content, old_, mode) == 0 && NormText(old_, mode) == ""
            else Matches(SplitLines(content), SplitLines(old_), mode, MatchLine(content, old_, mode))
  {
    EmptyFile(old_, mode);
    hide MatchLine, NormText;
    if content != "" { MatchLineInText(content, old_, mode); }
  }

  lemma MatchLineInText(content: string, old_: string, mode: Mode)
    requires MatchLine(content, old_, mode) >= 0 && content != "" && old_ != ""
    ensures Matches(SplitLines(content), SplitLines(old_), mode, MatchLine(content, old_, mode))
  {
    var lines, olds := SplitLines(content), SplitLines(old_);
    assert lines != [] && olds != [];
    hide SplitLines, Join, Offset, Newlines, NormLine, Unbroken, MatchLine, OccursAt, Covers, Matches;
    var at := MatchAt(content, old_, mode);
    NormUnbroken(content, mode);
    NormUnbroken(old_, mode);
    MatchCovers(NormLines(lines, mode), NormLines(olds, mode), at);
    CoversBlock(lines, olds, mode, MatchLine(content, old_, mode));
  }

  /** The stretch `m` of the text is lines `k` to `k + n`, up to the kind of their line breaks. */
  predicate IsBlock(content: string, k: nat, n: nat, m: Found) {
    && m.Found? && k + n <= |SplitLines(content)|
    && m.at == Offset(SplitLines(content), k) && m.text == Join(SplitLines(content)[k..k + n])
    && LiesAt(content, m)
  }

  predicate LiesAt(content: string, m: Found) {
    m.Found? && m.at + |m.text| <= |content| && SameButBreaks(content[m.at..m.at + |m.text|], m.text)
  }

  /** Whatever a fuzzy strategy finds is such a block of whole lines, and lies in the original text
      where its first line begins. */
  lemma FuzzyMatchTheorem(content: string, old_: string, mode: Mode, m: Found) returns (k: nat)
    requires m == FuzzyMatch(content, old_, mode) && m.Found? && old_ != ""
    requires '\r' !in content
    ensures if content == "" then k == 0 && m == Found(0, "") && NormText(old_, mode) == ""
            else Matches(SplitLines(content), SplitLines(old_), mode, k) && IsBlock(content, k, |SplitLines(old_)|, m)
  {
    FoundShape(content, old_, mode, m);
    EmptyFile(old_, mode);
    k := MatchLine(content, old_, mode);
    hide MatchLine, FuzzyMatch, NormText, Block, CharOffset;
    if content != "" {
      MatchLineInText(content, old_, mode);
      BlockFound(content, k, |SplitLines(old_)|, m);
    }
  }

  lemma BlockFound(content: string, k: nat, n: nat, m: Found)
    requires '\r' !in content && 0 < n && k + n <= |SplitLines(content)|
    requires m == Found(CharOffset(SplitLines(content), k), Join(Block(SplitLines(content), k, n)))
    ensures IsBlock(content, k, n, m)
  {
    var lines := SplitLines(content);
    BlockWithin(lines, k, n);
    BlockAt(content, k, n);
  }

  lemma CoversBlock(lines: seq<string>, olds: seq<string>, mode: Mode, k: nat)
    requires Covers(NormLines(lines, mode), NormLines(olds, mode), k) && olds != []
    ensures Matches(lines, olds, mode, k)
  {
    hide Join, NormLine, Contains;
    NormBlock(lines, k, |olds|, mode);
  }

  lemma FoundShape(content: string, old_: string, mode: Mode, m: Found)
    requires m == FuzzyMatch(content, old_, mode) && m.Found?
    ensures var k := MatchLine(content, old_, mode);
      && k >= 0
      && m == Found(CharOffset(SplitLines(content), k), Join(Block(SplitLines(content), k, |SplitLines(old_)|)))
  {
  }

  lemma BlockWithin(lines: seq<string>, k: nat, n: nat)
    requires k + n <= |lines| && n > 0
    ensures Block(lines, k, n) == lines[k..k + n] && CharOffset(lines, k) == Offset(lines, k)
  {
  }

  lemma MatchAt(content: string, old_: string, mode: Mode) returns (at: nat)
    requires MatchLine(content, old_, mode) >= 0
    ensures OccursAt(NormText(content, mode), at, NormText(old_, mode))
    ensures MatchLine(content, old_, mode) == Newlines(NormText(content, mode)[..at])
  {
    at := FindFrom(NormText(content, mode), NormText(old_, mode), 0);
  }

  lemma NormBlock(lines: seq<string>, k: nat, n: nat, mode: Mode)
    requires k + n <= |lines|
    ensures NormLines(lines, mode)[k..k + n] == NormLines(lines[k..k + n], mode)
  {
  }

  /** What `_fuzzy_find` returns lies at its offset, up to the kind of line break, in any text as
      the tool reads it, without carriage returns. */
  lemma FoundIsThere(content: string, old_: string)
    requires '\r' !in content && FuzzyFind(content, old_).Found?
    ensures LiesAt(content, FuzzyFind(content, old_))
  {
    var at := FindFrom(content, old_, 0);
    if at >= 0 {
      assert content[at..at + |old_|] == old_;
    } else {
      EmptyIsFound(content, old_);
      FuzzyFindIs(content, old_);
      var f := FuzzyFind(content, old_);
      var mode :| f == FuzzyMatch(content, old_, mode);
      FuzzyIsThere(content, old_, mode, f);
    }
  }

  lemma FuzzyFindIs(content: string, old_: string)
    requires FindFrom(content, old_, 0) < 0
    ensures exists mode :: FuzzyFind(content, old_) == FuzzyMatch(content, old_, mode)
  {
    var f := FuzzyFind(content, old_);
    assert f == FuzzyMatch(content, old_, Trim) || f == FuzzyMatch(content, old_, Collapse) || f == FuzzyMatch(content, old_, Indent);
  }

  lemma FuzzyIsThere(content: string, old_: string, mode: Mode, m: Found)
    requires '\r' !in content && old_ != "" && m == FuzzyMatch(content, old_, mode) && m.Found?
    ensures LiesAt(content, m)
  {
    var k := FuzzyMatchTheorem(content, old_, mode, m);
  }

  lemma EmptyIsFound(content: string, old_: string)
    requires FindFrom(content, old_, 0) < 0
    ensures old_ != ""
  {
  }

  /** The text is found exactly as it stands if and only if its own line breaks are line feeds;
      so on text whose only line break is the line feed it always is. */
  lemma FoundExactlyIff(content: string, old_: string)
    requires '\r' !in content && FuzzyFind(content, old_).Found?
    ensures var f := FuzzyFind(content, old_);
      && f.at + |f.text| <= |content|
      && (content[f.at..f.at + |f.text|] == f.text <==>
            forall i :: 0 <= i < |f.text| && f.text[i] == '\n' ==> content[f.at + i] == '\n')
  {
    hide FuzzyFind;
    FoundIsThere(content, old_);
    ExactlyIff(content, FuzzyFind(content, old_).at, FuzzyFind(content, old_).text);
  }

  lemma ExactlyIff(content: string, at: nat, text: string)
    requires at + |text| <= |content| && SameButBreaks(content[at..at + |text|], text)
    ensures content[at..at + |text|] == text <==>
      forall i :: 0 <= i < |text| && text[i] == '\n' ==> content[at + i] == '\n'
    ensures OnlyLineFeeds(content) ==> content[at..at + |text|] == text
  {
    var s := content[at..at + |text|];
    assert forall i :: 0 <= i < |text| ==> s[i] == content[at + i];
    hide IsBreak;
    if forall i :: 0 <= i < |text| && text[i] == '\n' ==> content[at + i] == '\n' {
      assert forall i :: 0 <= i < |text| ==> s[i] == text[i];
    }
  }

  predicate OnlyLineFeeds(content: string) {
    forall i :: 0 <= i < |content| && IsBreak(content[i]) ==> content[i] == '\n'
  }

  /** In a text whose only line break is the line feed, what is found stands there word for word. */
  lemma FoundVerbatim(content: string, old_: string)
    requires OnlyLineFeeds(content) && FuzzyFind(content, old_).Found?
    ensures var f := FuzzyFind(content, old_); OccursAt(content, f.at, f.text)
  {
    hide FuzzyFind;
    NoReturns(content);
    FoundIsThere(content, old_);
    ExactlyIff(content, FuzzyFind(content, old_).at, FuzzyFind(content, old_).text);
  }

  lemma NoReturns(content: string)
    requires OnlyLineFeeds(content)
    ensures '\r' !in content
  {
    assert IsBreak('\r');
  }

  // ----- runs of blanks -----

  predicate Gaps(w: string) {
    w != "" && forall i :: 0 <= i < |w| ==> IsGap(w[i])
  }

  lemma {:induction false} GapRun(w: string, y: string)
    requires Gaps(w)
    ensures CollapseGaps(w + y) == CollapseGaps(" " + y)
  {
    assert (w + y)[1..] == w[1..] + y && (" " + y)[1..] == y;
    if |w| > 1 {
      GapRun(w[1..], y);
    }
  }

  /** Any run of blanks counts as one space. */
  lemma {:induction false} GapsCollapse(x: string, w: string, y: string)
    requires Gaps(w)
    ensures CollapseGaps(x + w + y) == CollapseGaps(x + " " + y)
  {
    if x == "" {
      GapRun(w, y);
      assert x + w == w && x + " " == " ";
    } else {
      GapsCollapse(x[1..], w, y);
      assert (x + w + y)[1..] == x[1..] + w + y && (x + " " + y)[1..] == x[1..] + " " + y;
      hide Gaps;
      assert IsGap(w[0]) by { assert Gaps(w); }
    }
  }

  /** A line without tabs and without two spaces in a row is as it was. */
  lemma {:induction false} NothingToCollapse(s: string)
    requires '\t' !in s && !Contains(s, "  ")
    ensures CollapseGaps(s) == s
  {
    if s != "" {
      var t := s[1..];
      if i: nat :| OccursAt(t, i, "  ") {
        assert t[i..i + 2] == s[i + 1..i + 1 + 2];
        assert OccursAt(s, i + 1, "  ");
      }
      NothingToCollapse(t);
      TwoSpaces(s);
    }
  }

  lemma TwoSpaces(s: string)
    ensures |s| > 1 && s[0] == s[1] == ' ' ==> Contains(s, "  ")
  {
    assert |s| > 1 && s[0] == s[1] == ' ' ==> OccursAt(s, 0, "  ");
  }

  lemma NormFirst(line: string, rest: seq<string>, mode: Mode)
    ensures NormLines([line] + rest, mode) == [NormLine(line, mode)] + NormLines(rest, mode)
  {
  }

  /** So it does in any text, line for line. */
  lemma {:induction false} GapsInText(x: string, w: string, y: string)
    requires Gaps(w)
    ensures NormLines(SplitLines(x + w + y), Collapse) == NormLines(SplitLines(x + " " + y), Collapse)
    decreases |x|
  {
    var n := FirstLine(x);
    assert Gaps(" ");
    hide NormLine, SplitLines, FirstLine, CollapseGaps, Gaps;
    if n < |x| {
      var line, rest := x[..n], x[n + BreakLength(x, n)..];
      GapsInText(rest, w, y);
      AfterBreak(x, w, y);
      AfterBreak(x, " ", y);
      NormFirst(line, SplitLines(rest + w + y), Collapse);
      NormFirst(line, SplitLines(rest + " " + y), Collapse);
    } else {
      GapsInLine(x, w, y);
    }
  }

  lemma GapsInLine(x: string, w: string, y: string)
    requires Gaps(w) && Gaps(" ") && FirstLine(x) == |x|
    ensures NormLines(SplitLines(x + w + y), Collapse) == NormLines(SplitLines(x + " " + y), Collapse)
  {
    hide NormLine, SplitLines, FirstLine, CollapseGaps, Gaps, BreakLength;
    var m := FirstLine(y);
    GapsCollapse(x, w, y[..m]);
    LastLine(x, w, y);
    LastLine(x, " ", y);
    var lines := if m < |y| then SplitLines(y[m + BreakLength(y, m)..]) else [];
    NormFirst(x + w + y[..m], lines, Collapse);
    NormFirst(x + " " + y[..m], lines, Collapse);
    SameCollapsed(x + w + y[..m], x + " " + y[..m]);
  }

  lemma SameCollapsed(a: string, b: string)
    requires CollapseGaps(a) == CollapseGaps(b)
    ensures NormLine(a, Collapse) == NormLine(b, Collapse)
  {
  }

  lemma GapsAreNoBreaks(w: string)
    requires Gaps(w)
    ensures OneLine(w) && w != "" && w[0] != '\n'
  {
  }

  lemma FirstLineStays(x: string, tail: string)
    requires FirstLine(x) < |x|
    ensures FirstLine(x + tail) == FirstLine(x)
  {
    var n := FirstLine(x);
    FirstLineIs(x[..n], x[n..] + tail);
    hide FirstLine, IsBreak;
    assert x[..n] + (x[n..] + tail) == x + tail;
  }

  lemma AfterBreak(x: string, w: string, y: string)
    requires FirstLine(x) < |x| && Gaps(w)
    ensures var n := FirstLine(x);
      SplitLines(x + w + y) == [x[..n]] + SplitLines(x[n + BreakLength(x, n)..] + w + y)
  {
    hide SplitLines, FirstLine, IsBreak;
    GapsAreNoBreaks(w);
    hide Gaps;
    assert x + (w + y) == x + w + y;
    FirstLineStays(x, w + y);
    SplitUnfolds(x + w + y);
    SameBreak(x, w, y, FirstLine(x));
  }

  lemma SameBreak(x: string, w: string, y: string, n: nat)
    requires n < |x| && w != "" && w[0] != '\n'
    ensures (x + w + y)[..n] == x[..n] && BreakLength(x + w + y, n) == BreakLength(x, n)
    ensures (x + w + y)[n + BreakLength(x, n)..] == x[n + BreakLength(x, n)..] + w + y
  {
    var s := x + w + y;
    assert s[n] == x[n] && (n + 1 < |x| ==> s[n + 1] == x[n + 1]) && (n + 1 == |x| ==> s[n + 1] == w[0]);
  }

  lemma LastLine(x: string, w: string, y: string)
    requires FirstLine(x) == |x| && Gaps(w)
    ensures var m := FirstLine(y);
      SplitLines(x + w + y) == [x + w + y[..m]] + if m < |y| then SplitLines(y[m + BreakLength(y, m)..]) else []
  {
    hide SplitLines, FirstLine, IsBreak;
    GapsAreNoBreaks(w);
    hide Gaps;
    var m := FirstLine(y);
    assert OneLine(x) && OneLine(y[..m]);
    hide OneLine;
    LineOf(x, w, y[..m]);
    LastLineSplit(x + w + y[..m], y, m);
    Rejoin(x + w, y, m);
  }

  lemma Rejoin(a: string, y: string, m: nat)
    requires m <= |y|
    ensures a + y[..m] + y[m..] == a + y
  {
  }

  lemma LineOf(x: string, w: string, z: string)
    requires OneLine(x) && OneLine(w) && OneLine(z)
    ensures OneLine(x + w + z)
  {
  }

  lemma LastLineSplit(line: string, y: string, m: nat)
    requires m <= |y| && line != "" && OneLine(line) && (m < |y| ==> IsBreak(y[m]))
    ensures SplitLines(line + y[m..]) == [line] + if m < |y| then SplitLines(y[m + BreakLength(y, m)..]) else []
  {
    hide SplitLines, FirstLine, IsBreak, OneLine, BreakLength;
    if m < |y| {
      FirstLineIs(line, y[m..]);
      SplitUnfolds(line + y[m..]);
      BreakFollows(line, y, m);
    } else {
      assert line + y[m..] == line;
      SplitFirst(line, '\n', "");
    }
  }

  lemma BreakFollows(line: string, y: string, m: nat)
    requires m < |y|
    ensures var s := line + y[m..];
      && s[..|line|] == line && BreakLength(s, |line|) == BreakLength(y, m)
      && s[|line| + BreakLength(y, m)..] == y[m + BreakLength(y, m)..]
  {
    var s, n := line + y[m..], |line|;
    assert s[n] == y[m] && (m + 1 < |y| ==> s[n + 1] == y[m + 1]);
  }

  /** To the strategy that collapses blanks it makes no difference how long a run of blanks in the search
      text is, nor, for where it finds it, in the file. */
  lemma BlanksDoNotMatter(content: string, x: string, w: string, y: string)
    requires Gaps(w)
    ensures FuzzyMatch(content, x + w + y, Collapse) == FuzzyMatch(content, x + " " + y, Collapse)
    ensures MatchLine(x + w + y, content, Collapse) == MatchLine(x + " " + y, content, Collapse)
  {
    GapsInText(x, w, y);
    assert |NormLines(SplitLines(x + w + y), Collapse)| == |SplitLines(x + w + y)|;
    assert |NormLines(SplitLines(x + " " + y), Collapse)| == |SplitLines(x + " " + y)|;
    hide NormLine, SplitLines, Gaps;
  }

  // ----- which strategy wins -----

  /** Collapsing blanks and ignoring indentation find every search text that the file contains once both are
      normalised. */
  lemma FoundIff(content: string, old_: string, mode: Mode)
    ensures MatchLine(content, old_, mode) >= 0 <==> Contains(NormText(content, mode), NormText(old_, mode))
    ensures !mode.Trim? ==> (FuzzyMatch(content, old_, mode).Found? <==> Contains(NormText(content, mode), NormText(old_, mode)))
  {
    hide NormText;
    var at := FindFrom(NormText(content, mode), NormText(old_, mode), 0);
    if at >= 0 {
      assert OccursAt(NormText(content, mode), at, NormText(old_, mode));
    }
  }

  /** The first occurrence as it stands wins; else what trimming lines finds, else collapsing blanks, else
      ignoring indentation; and nothing is found if and only if none of these finds anything. */
  lemma EarlierWins(content: string, old_: string)
    ensures var f := FuzzyFind(content, old_);
      && (Contains(content, old_) ==>
            f.Found? && f.text == old_ && OccursAt(content, f.at, old_) && forall i: nat :: i < f.at ==> !OccursAt(content, i, old_))
      && (!Contains(content, old_) && FuzzyMatch(content, old_, Trim).Found? ==> f == FuzzyMatch(content, old_, Trim))
      && (!Contains(content, old_) && !FuzzyMatch(content, old_, Trim).Found? && FuzzyMatch(content, old_, Collapse).Found? ==>
            f == FuzzyMatch(content, old_, Collapse))
      && (f.NotFound? <==> !Contains(content, old_) && forall mode :: FuzzyMatch(content, old_, mode).NotFound?)
      && (f.Found? && !Contains(content, old_)
            && FuzzyMatch(content, old_, Trim).NotFound? && FuzzyMatch(content, old_, Collapse).NotFound? ==>
            f == FuzzyMatch(content, old_, Indent))
  {
    hide FuzzyMatch;
    var at := FindFrom(content, old_, 0);
    if at >= 0 {
      assert OccursAt(content, at, old_);
    }
    if FuzzyFind(content, old_).NotFound? {
      forall mode ensures FuzzyMatch(content, old_, mode).NotFound? {
        match mode case Trim => case Collapse => case Indent =>
      }
    }
  }

  /** An edit is refused when nothing is found, and as ambiguous if and only if the text found stands in the
      file twice without overlapping itself; the count told is the largest number of such occurrences. */
  lemma RefusedIff(content: string, old_: string, new_: string)
    ensures var f, r := FuzzyFind(content, old_), Patch(content, old_, new_);
      && (r.NoMatch? <==> f.NotFound?)
      && (r.Ambiguous? <==> f.Found? && OccursTwice(content, f.text))
      && (r.Ambiguous? ==>
            && (exists at :: Apart(content, f.text, at) && |at| == r.count)
            && forall at :: Apart(content, f.text, at) ==> |at| <= r.count)
  {
    hide FuzzyFind, CountFrom, Apart, OccursTwice;
    if FuzzyFind(content, old_).Found? { CountIsMost(content, FuzzyFind(content, old_).text); }
  }

  /** The edit replaces exactly the found stretch, which stands there only once: everything before and
      after it stays. */
  lemma PatchReplacesBlock(content: string, old_: string, new_: string)
    requires '\r' !in content && Patch(content, old_, new_).Patched?
    ensures !OccursTwice(content, FuzzyFind(content, old_).text)
    ensures var f := FuzzyFind(content, old_);
      && f.Found? && f.at + |f.text| <= |content|
      && content == content[..f.at] + content[f.at..f.at + |f.text|] + content[f.at + |f.text|..]
      && Patch(content, old_, new_).content == content[..f.at] + new_ + content[f.at + |f.text|..]
  {
    RefusedIff(content, old_, new_);
    hide FuzzyMatch, FuzzyFind, CountFrom, OccursTwice;
    FoundIsThere(content, old_);
  }

  lemma ExactPatch(content: string, old_: string, new_: string)
    requires FindFrom(content, old_, 0) >= 0
    ensures var at, count := FindFrom(content, old_, 0), CountFrom(content, old_, 0);
      && at + |old_| <= |content|
      && Patch(content, old_, new_)
         == if count > 1 then Ambiguous(count) else Patched(content[..at] + new_ + content[at + |old_|..])
  {
  }

  lemma SpliceBack(content: string, at: nat, old_: string, new_: string)
    requires OccursAt(content, at, old_)
    ensures var r := content[..at] + new_ + content[at + |old_|..];
      at + |new_| <= |r| && r[..at] + old_ + r[at + |new_|..] == content
  {
  }

  lemma Spliced(content: string, at: nat, old_: string, new_: string)
    requires OccursAt(content, at, old_)
    ensures OccursAt(content[..at] + new_ + content[at + |old_|..], at, new_)
  {
  }

  /** An exact edit is undone by the opposite edit if and only if the new text occurs in the result
      first, and only once, where it was put. */
  lemma ExactPatchUndone(content: string, old_: string, new_: string, r: string)
    requires FindFrom(content, old_, 0) >= 0 && Patch(content, old_, new_) == Patched(r)
    ensures Patch(r, new_, old_) == Patched(content) <==>
      FindFrom(r, new_, 0) == FindFrom(content, old_, 0) && !OccursTwice(r, new_)
  {
    CountIsMost(r, new_);
    hide Apart, OccursTwice;
    UndoneIff(content, old_, new_, r);
  }

  lemma UndoneIff(content: string, old_: string, new_: string, r: string)
    requires FindFrom(content, old_, 0) >= 0 && Patch(content, old_, new_) == Patched(r)
    ensures Patch(r, new_, old_) == Patched(content) <==>
      FindFrom(r, new_, 0) == FindFrom(content, old_, 0) && CountFrom(r, new_, 0) <= 1
  {
    var at := FindFrom(content, old_, 0);
    ExactPatch(content, old_, new_);
    SpliceBack(content, at, old_, new_);
    Spliced(content, at, old_, new_);
    var p := FindFrom(r, new_, 0);
    assert 0 <= p <= at;
    ExactPatch(r, new_, old_);
    if p < at {
      assert !OccursAt(content, p, old_);
      hide Patch, CountFrom, FindFrom;
      if r[..p] + old_ + r[p + |new_|..] == content {
        Spliced(r, p, new_, old_);
        assert false;
      }
    }
  }
}
