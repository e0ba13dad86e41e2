/** What a fuzzy match means line by line, and what the line-trimmed strategy checks beyond it. */
module FuzzyLines {
  import opened PyText
  import opened FuzzyPatch

  /** One line contains the only line searched for; or the first line ends with the first one, the
      last begins with the last one, and those between are the same. */
  ghost predicate Aligned(bs: seq<string>, os: seq<string>) {
    && |bs| == |os| > 0
    && if |os| == 1 then Contains(bs[0], os[0])
       else EndsWith(bs[0], os[0]) && BeginsWith(bs[1..], os[1..])
  }

  /** The same lines, except that the last one may go on. */
  predicate BeginsWith(bs: seq<string>, os: seq<string>) {
    && |bs| == |os| > 0 && os[|os| - 1] <= bs[|bs| - 1]
    && forall i :: 0 <= i < |os| - 1 ==> bs[i] == os[i]
  }

  lemma JoinCons(lines: seq<string>)
    requires |lines| > 1
    ensures Join(lines) == lines[0] + ['\n'] + Join(lines[1..])
  {
  }

  lemma UnbrokenTail(lines: seq<string>)
    requires Unbroken(lines) && lines != []
    ensures Unbroken(lines[1..]) && '\n' !in lines[0]
  {
  }

  /** The first line feed of two texts that agree from some position on is the same one. */
  lemma SameBreak(s: string, t: string, n: nat, m: nat, d: nat)
    requires d <= n < |s| && m < |t| && d + |t| <= |s|
    requires forall i :: 0 <= i < |t| ==> s[d + i] == t[i]
    requires s[n] == '\n' && forall i :: 0 <= i < n ==> s[i] != '\n'
    requires t[m] == '\n' && forall i :: 0 <= i < m ==> t[i] != '\n'
    ensures d + m == n
  {
    assert s[d + m] == t[m];
    assert forall i :: d <= i < d + m ==> s[i] == t[i - d];
  }

  lemma FirstBreak(b: string, p: string)
    requires '\n' !in b
    ensures var s := b + ['\n'] + p; s[|b|] == '\n' && forall i :: 0 <= i < |b| ==> s[i] != '\n'
  {
  }

  lemma SameFirstLine(b: string, p: string, o: string, q: string, d: nat)
    requires '\n' !in b && '\n' !in o && d <= |b|
    requires OccursAt(b + ['\n'] + p, d, o + ['\n'] + q)
    ensures d + |o| == |b| && b[d..] == o && OccursAt(p, 0, q)
  {
    var s, t := b + ['\n'] + p, o + ['\n'] + q;
    assert forall i :: 0 <= i < |t| ==> s[d + i] == s[d..d + |t|][i] == t[i];
    FirstBreak(b, p);
    FirstBreak(o, q);
    SameBreak(s, t, |b|, |o|, d);
    hide OccursAt;
    assert b[d..] == o by {
      assert forall i :: 0 <= i < |o| ==> b[d..][i] == s[d + i] == t[i] == o[i];
    }
    PrefixThere(s, t, p, q, |b| + 1, |o| + 1);
  }

  lemma PrefixThere(s: string, t: string, p: string, q: string, n: nat, m: nat)
    requires n <= |s| && m <= |t| && s[n..] == p && t[m..] == q && m <= n && n - m + |t| <= |s|
    requires forall i :: 0 <= i < |t| ==> s[n - m + i] == t[i]
    ensures OccursAt(p, 0, q)
  {
  }

  lemma {:induction false} PrefixIff(bs: seq<string>, os: seq<string>)
    requires Unbroken(bs) && Unbroken(os) && |bs| == |os| > 0
    ensures OccursAt(Join(bs), 0, Join(os)) <==> BeginsWith(bs, os)
    decreases |bs|
  {
    if |bs| > 1 {
      UnbrokenTail(bs);
      UnbrokenTail(os);
      PrefixIff(bs[1..], os[1..]);
      JoinCons(bs);
      JoinCons(os);
      var p, q := Join(bs[1..]), Join(os[1..]);
      hide Join, Unbroken;
      BeginsCons(bs, os);
      if OccursAt(Join(bs), 0, Join(os)) {
        SameFirstLine(bs[0], p, os[0], q, 0);
      }
      if BeginsWith(bs, os) {
        AlignedOccurs(bs[0], p, os[0], q);
      }
    }
  }

  lemma BeginsCons(bs: seq<string>, os: seq<string>)
    requires |bs| == |os| > 1
    ensures BeginsWith(bs, os) <==> bs[0] == os[0] && BeginsWith(bs[1..], os[1..])
  {
  }

  /** Containing as many joined lines as there are is being aligned with them, line by line. */
  lemma AlignedIff(bs: seq<string>, os: seq<string>)
    requires Unbroken(bs) && Unbroken(os) && |bs| == |os| > 0
    ensures Contains(Join(bs), Join(os)) <==> Aligned(bs, os)
  {
    if |os| > 1 {
      UnbrokenTail(bs);
      UnbrokenTail(os);
      PrefixIff(bs[1..], os[1..]);
      JoinCons(bs);
      JoinCons(os);
      if d: nat :| OccursAt(Join(bs), d, Join(os)) {
        InFirstLine(bs, os, d);
        SameFirstLine(bs[0], Join(bs[1..]), os[0], Join(os[1..]), d);
      }
      if Aligned(bs, os) {
        AlignedOccurs(bs[0], Join(bs[1..]), os[0], Join(os[1..]));
      }
    }
  }

  lemma AlignedOccurs(b: string, p: string, o: string, q: string)
    requires EndsWith(b, o) && OccursAt(p, 0, q)
    ensures OccursAt(b + ['\n'] + p, |b| - |o|, o + ['\n'] + q)
  {
  }

  lemma InFirstLine(bs: seq<string>, os: seq<string>, d: nat)
    requires Unbroken(bs) && Unbroken(os) && |bs| == |os| > 0
    requires OccursAt(Join(bs), d, Join(os))
    ensures d <= |bs[0]|
  {
    MatchSpan(bs, os, d);
    PositionInLine(bs, d);
  }

  // ----- the strategies -----

  /** Whatever strategy matches, the lines it returns are aligned with those searched for. */
  lemma LineByLine(content: string, old_: string, mode: Mode)
    requires MatchLine(content, old_, mode) >= 0 && old_ != ""
    ensures if content == "" then NormText(old_, mode) == ""
            else Returned(SplitLines(content), SplitLines(old_), mode, MatchLine(content, old_, mode))
  {
    EmptyFile(old_, mode);
    hide MatchLine, NormText, Returned;
    if content != "" { LinesAligned(content, old_, mode); }
  }

  /** As many lines from line `k` on as were searched for are, normalised, aligned with those. */
  ghost predicate Returned(lines: seq<string>, olds: seq<string>, mode: Mode, k: int) {
    && 0 <= k && k + |olds| <= |lines|
    && Aligned(NormLines(lines[k..k + |olds|], mode), NormLines(olds, mode))
  }

  lemma LinesAligned(content: string, old_: string, mode: Mode)
    requires MatchLine(content, old_, mode) >= 0 && content != "" && old_ != ""
    ensures Returned(SplitLines(content), SplitLines(old_), mode, MatchLine(content, old_, mode))
  {
    hide SplitLines, NormLine, MatchLine, Join, Contains, Aligned, Unbroken;
    MatchLineInText(content, old_, mode);
    var k, n, lines := MatchLine(content, old_, mode), |SplitLines(old_)|, SplitLines(content);
    NormUnbroken(content, mode);
    NormUnbroken(old_, mode);
    UnbrokenSlice(NormLines(lines, mode), k, n);
    NormBlock(lines, k, n, mode);
    AlignedIff(NormLines(lines[k..k + n], mode), NormLines(SplitLines(old_), mode));
  }

  lemma UnbrokenSlice(lines: seq<string>, k: nat, n: nat)
    requires Unbroken(lines) && k + n <= |lines|
    ensures Unbroken(lines[k..k + n])
  {
  }

  predicate NoBreaks(lines: seq<string>) {
    forall i, c :: 0 <= i < |lines| && c in lines[i] ==> !IsBreak(c)
  }

  /** All but a last empty line. */
  function Shown(lines: seq<string>): seq<string>
    requires lines != []
  {
    if lines[|lines| - 1] == "" then lines[..|lines| - 1] else lines
  }

  lemma ShownCons(lines: seq<string>)
    requires |lines| > 1
    ensures Shown(lines) == [lines[0]] + Shown(lines[1..])
  {
  }

  /** Splitting joined lines gives them back, but for a last empty one. */
  lemma {:induction false} SplitJoin(lines: seq<string>)
    requires lines != [] && NoBreaks(lines)
    ensures SplitLines(Join(lines)) == Shown(lines)
    decreases |lines|
  {
    NoBreaksTail(lines);
    if |lines| == 1 {
      WholeLine(lines[0]);
      assert lines == [lines[0]];
    } else {
      hide SplitLines, NoBreaks, IsBreak, Join, Shown;
      SplitJoin(lines[1..]);
      JoinCons(lines);
      SplitFirst(lines[0], Join(lines[1..]));
      ShownCons(lines);
    }
  }

  lemma NoBreaksTail(lines: seq<string>)
    requires lines != [] && NoBreaks(lines)
    ensures NoBreaks(lines[1..]) && forall c :: c in lines[0] ==> !IsBreak(c)
  {
  }

  lemma WholeLine(l: string)
    requires forall c :: c in l ==> !IsBreak(c)
    ensures SplitLines(l) == if l == "" then [] else [l]
  {
  }

  lemma SplitFirst(l: string, rest: string)
    requires forall c :: c in l ==> !IsBreak(c)
    ensures SplitLines(l + ['\n'] + rest) == [l] + SplitLines(rest)
  {
    var s := l + ['\n'] + rest;
    var n := FirstLine(s);
    assert s[|l|] == '\n' && IsBreak('\n');
    assert forall i :: 0 <= i < |l| ==> s[i] == l[i] && l[i] in l;
    assert n == |l| && s[..n] == l && s[n + 1..] == rest;
  }

  lemma NormNoBreaks(s: string, mode: Mode)
    ensures NoBreaks(NormLines(SplitLines(s), mode))
  {
    LinesHaveNoBreaks(s);
    var lines := SplitLines(s);
    forall i, c | 0 <= i < |lines| && c in NormLine(lines[i], mode) ensures !IsBreak(c) { }
  }

  /** Line `i` is the same after trimming, or it is the last line searched for and blank. */
  predicate SameTrimmed(lines: seq<string>, olds: seq<string>, k: nat, i: int) {
    0 <= i < |olds| && k + i < |lines| &&
    (NormLine(lines[k + i], Trim) == NormLine(olds[i], Trim) || (i == |olds| - 1 && NormLine(olds[i], Trim) == ""))
  }

  /** The line-trimmed strategy accepts the block a match begins in if and only if the block and the
      search text agree in whole trimmed lines, a blank last line of the search text apart. */
  lemma TrimFindsWholeLines(content: string, old_: string)
    requires MatchLine(content, old_, Trim) >= 0 && old_ != ""
    ensures FuzzyMatch(content, old_, Trim).Found? <==>
      (content == "" || forall i :: 0 <= i < |SplitLines(old_)| ==>
         SameTrimmed(SplitLines(content), SplitLines(old_), MatchLine(content, old_, Trim), i))
  {
    EmptyFile(old_, Trim);
    hide MatchLine, FuzzyMatch, NormText, SplitLines, SameTrimmed;
    if content != "" { TrimInText(content, old_); }
  }

  lemma TrimInText(content: string, old_: string)
    requires MatchLine(content, old_, Trim) >= 0 && content != "" && old_ != ""
    ensures FuzzyMatch(content, old_, Trim).Found? <==>
      forall i :: 0 <= i < |SplitLines(old_)| ==> SameTrimmed(SplitLines(content), SplitLines(old_), MatchLine(content, old_, Trim), i)
  {
    var lines, olds, k := SplitLines(content), SplitLines(old_), MatchLine(content, old_, Trim);
    hide SplitLines, NormLine, MatchLine, FuzzyMatch, Join, Aligned, NoBreaks, ZipAgrees;
    hide SameTrimmed, SameOrBlank, Shown, Block;
    HasLines(content);
    HasLines(old_);
    TrimFound(content, old_);
    LinesAligned(content, old_, Trim);
    NormNoBreaks(content, Trim);
    NormNoBreaks(old_, Trim);
    var ns, os := NormLines(lines, Trim), NormLines(olds, Trim);
    SplitJoin(ns);
    SplitJoin(os);
    NormBlock(lines, k, |olds|, Trim);
    ZipIff(ns, os, k);
    SameIff(lines, olds, k);
  }

  lemma HasLines(s: string)
    requires s != ""
    ensures SplitLines(s) != []
  {
  }

  lemma SameIff(lines: seq<string>, olds: seq<string>, k: nat)
    ensures forall i :: SameTrimmed(lines, olds, k, i) <==> SameOrBlank(NormLines(lines, Trim), NormLines(olds, Trim), k, i)
  {
  }

  lemma TrimFound(content: string, old_: string)
    requires MatchLine(content, old_, Trim) >= 0
    ensures FuzzyMatch(content, old_, Trim).Found? <==>
      ZipAgrees(Block(SplitLines(Join(NormLines(SplitLines(content), Trim))), MatchLine(content, old_, Trim), |SplitLines(old_)|),
                SplitLines(Join(NormLines(SplitLines(old_), Trim))))
  {
  }

  predicate SameOrBlank(ns: seq<string>, os: seq<string>, k: nat, i: int) {
    0 <= i < |os| && k + i < |ns| && (ns[k + i] == os[i] || (i == |os| - 1 && os[i] == ""))
  }

  /** The comparison by `zip` sees every line of the block, a blank last one of the search apart. */
  lemma ZipIff(ns: seq<string>, os: seq<string>, k: nat)
    requires ns != [] && os != [] && k + |os| <= |ns| && Aligned(ns[k..k + |os|], os)
    ensures ZipAgrees(Block(Shown(ns), k, |os|), Shown(os)) <==> forall i :: 0 <= i < |os| ==> SameOrBlank(ns, os, k, i)
  {
    var n := |os|;
    var b, o := Block(Shown(ns), k, n), Shown(os);
    LastLineShown(ns, os, k);
    assert forall i :: 0 <= i < |b| ==> b[i] == ns[k + i];
    assert forall i :: 0 <= i < |o| ==> o[i] == os[i];
    if ZipAgrees(b, o) {
      forall i | 0 <= i < n ensures SameOrBlank(ns, os, k, i) {
        if i < |o| { assert i < |b| && b[i] == o[i]; }
      }
    }
    if forall i :: 0 <= i < n ==> SameOrBlank(ns, os, k, i) {
      forall i | 0 <= i < |b| && i < |o| ensures b[i] == o[i] {
        assert SameOrBlank(ns, os, k, i);
      }
    }
  }

  /** A line of the block that splitting drops is matched by a blank one. */
  lemma LastLineShown(ns: seq<string>, os: seq<string>, k: nat)
    requires ns != [] && os != [] && k + |os| <= |ns| && Aligned(ns[k..k + |os|], os)
    ensures |Shown(os)| <= |Block(Shown(ns), k, |os|)|
  {
  }
}
