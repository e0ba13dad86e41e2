/** The pieces of Python's `str` that the modelled code leans on. */
module PyText {

  /** `str.isspace` for one character: what `strip()` removes. */
  predicate IsSpace(c: char) {
    || '\U{0009}' <= c <= '\U{000D}'
    || '\U{001C}' <= c <= '\U{0020}'
    || c == '\U{0085}' || c == '\U{00A0}' || c == '\U{1680}'
    || '\U{2000}' <= c <= '\U{200A}'
    || c == '\U{2028}' || c == '\U{2029}' || c == '\U{202F}' || c == '\U{205F}' || c == '\U{3000}'
  }

  /** `not s.strip()` */
  predicate IsBlank(s: string) {
    forall i :: 0 <= i < |s| ==> IsSpace(s[i])
  }

  /** `s.endswith(t)` */
  predicate EndsWith(s: string, t: string) {
    |t| <= |s| && s[|s| - |t|..] == t
  }

  /** `t` stands in `s` at offset `i`. */
  predicate OccursAt(s: string, i: nat, t: string) {
    i + |t| <= |s| && s[i..i + |t|] == t
  }

  /** `t in s` */
  ghost predicate Contains(s: string, t: string) {
    exists i: nat :: OccursAt(s, i, t)
  }

  /** Extending a text by one character can only add an occurrence at its end. */
  lemma ContainsSnoc(s: string, c: char, t: string)
    requires |t| > 0
    ensures Contains(s + [c], t) <==> Contains(s, t) || EndsWith(s + [c], t)
  {
    var r := s + [c];
    if Contains(r, t) {
      var i: nat :| OccursAt(r, i, t);
      if i + |t| <= |s| {
        assert s[i..i + |t|] == r[i..i + |t|];
        assert OccursAt(s, i, t);
      }
    }
    if Contains(s, t) {
      var i: nat :| OccursAt(s, i, t);
      assert r[i..i + |t|] == s[i..i + |t|];
      assert OccursAt(r, i, t);
    }
    if EndsWith(r, t) {
      assert OccursAt(r, |r| - |t|, t);
    }
  }

  // ----- searching -----

  /** `s.find(t, i)`: the first occurrence from `i` on, or -1. */
  function FindFrom(s: string, t: string, i: nat): (r: int)
    requires i <= |s|
    ensures r == -1 || (i <= r && OccursAt(s, r, t))
    ensures forall j: nat :: i <= j && (r == -1 || j < r) ==> !OccursAt(s, j, t)
    decreases |s| - i
  {
    if OccursAt(s, i, t) then i
    else if i == |s| then -1
    else FindFrom(s, t, i + 1)
  }

  /** `s.count(t)`: occurrences that do not overlap. */
  function CountFrom(s: string, t: string, i: nat): nat
    requires i <= |s|
    decreases |s| - i
  {
    if t == "" then |s| + 1 - i
    else
      var j := FindFrom(s, t, i);
      if j == -1 then 0 else 1 + CountFrom(s, t, j + |t|)
  }

  /** `t` stands in `s` at these places, in order and without overlapping. */
  ghost predicate Apart(s: string, t: string, at: seq<nat>) {
    && (forall k :: 0 <= k < |at| ==> OccursAt(s, at[k], t))
    && (forall k, l :: 0 <= k < l < |at| ==> at[k] < at[l] && at[k] + |t| <= at[l])
  }

  ghost predicate NotBefore(at: seq<nat>, i: nat) {
    forall k :: 0 <= k < |at| ==> i <= at[k]
  }

  /** Two occurrences that do not overlap. */
  ghost predicate OccursTwice(s: string, t: string) {
    exists i: nat, j: nat :: i < j && i + |t| <= j && OccursAt(s, i, t) && OccursAt(s, j, t)
  }

  /** There are that many occurrences that do not overlap. */
  lemma {:induction false} CountReached(s: string, t: string, i: nat) returns (at: seq<nat>)
    requires i <= |s|
    ensures Apart(s, t, at) && NotBefore(at, i) && |at| == CountFrom(s, t, i)
    decreases |s| - i
  {
    if t == "" {
      at := seq(|s| + 1 - i, k requires 0 <= k => i + k);
    } else {
      at := [];
      var j := FindFrom(s, t, i);
      if j != -1 {
        var rest := CountReached(s, t, j + |t|);
        at := [j as nat] + rest;
      }
    }
  }

  /** And never more. */
  lemma {:induction false} CountBounds(s: string, t: string, i: nat, at: seq<nat>)
    requires i <= |s| && Apart(s, t, at) && NotBefore(at, i)
    ensures |at| <= CountFrom(s, t, i)
    decreases |at|
  {
    if at != [] {
      AfterFirst(s, t, at);
      hide OccursAt, Apart;
      if t == "" {
        if at[0] < |s| { CountBounds(s, t, i + 1, at[1..]); }
      } else {
        CountBounds(s, t, FindFrom(s, t, i) + |t|, at[1..]);
      }
    }
  }

  lemma AfterFirst(s: string, t: string, at: seq<nat>)
    requires Apart(s, t, at) && at != []
    ensures OccursAt(s, at[0], t) && at[0] <= |s| && Apart(s, t, at[1..])
    ensures forall k :: 0 <= k < |at[1..]| ==> at[0] < at[1..][k] && at[0] + |t| <= at[1..][k]
    ensures at[0] == |s| ==> |at| == 1
  {
    assert forall k :: 0 <= k < |at[1..]| ==> at[1..][k] == at[k + 1];
    assert |at| > 1 ==> OccursAt(s, at[1], t);
  }

  /** `s.count(t)` is the largest number of occurrences that do not overlap; it is over 1 if and only if
      there are two such. */
  lemma CountIsMost(s: string, t: string)
    ensures exists at :: Apart(s, t, at) && |at| == CountFrom(s, t, 0)
    ensures forall at :: Apart(s, t, at) ==> |at| <= CountFrom(s, t, 0)
    ensures CountFrom(s, t, 0) > 1 <==> OccursTwice(s, t)
  {
    var most := CountReached(s, t, 0);
    forall at | Apart(s, t, at) ensures |at| <= CountFrom(s, t, 0) {
      CountBounds(s, t, 0, at);
    }
    if CountFrom(s, t, 0) > 1 {
      assert OccursAt(s, most[0], t) && OccursAt(s, most[1], t);
    }
    if OccursTwice(s, t) {
      var i: nat, j: nat :| i < j && i + |t| <= j && OccursAt(s, i, t) && OccursAt(s, j, t);
      assert Apart(s, t, [i, j]);
    }
  }

  // ----- stripping -----

  function LeftStrip(s: string): (r: string)
    ensures forall c :: c in r ==> c in s
  {
    if s != "" && IsSpace(s[0]) then LeftStrip(s[1..]) else s
  }

  function RightStrip(s: string): (r: string)
    ensures forall c :: c in r ==> c in s
  {
    if s != "" && IsSpace(s[|s| - 1]) then RightStrip(s[..|s| - 1]) else s
  }

  /** `s.strip()` */
  function Strip(s: string): (r: string)
    ensures forall c :: c in r ==> c in s
  {
    RightStrip(LeftStrip(s))
  }

  /** `s` is `r` with the space `a` before it. */
  predicate Before(s: string, a: string, r: string) { IsBlank(a) && s == a + r }

  predicate After(s: string, r: string, b: string) { IsBlank(b) && s == r + b }

  lemma {:induction false} LeftStripIs(s: string)
    ensures LeftStrip(s) != "" ==> !IsSpace(LeftStrip(s)[0])
    ensures exists a :: Before(s, a, LeftStrip(s))
  {
    if s != "" && IsSpace(s[0]) {
      LeftStripIs(s[1..]);
      var a :| Before(s[1..], a, LeftStrip(s));
      assert Before(s, [s[0]] + a, LeftStrip(s));
    } else {
      assert Before(s, "", s);
    }
  }

  lemma {:induction false} RightStripIs(s: string)
    ensures RightStrip(s) != "" ==> !IsSpace(RightStrip(s)[|RightStrip(s)| - 1]) && RightStrip(s)[0] == s[0]
    ensures exists b :: After(s, RightStrip(s), b)
  {
    if s != "" && IsSpace(s[|s| - 1]) {
      RightStripIs(s[..|s| - 1]);
      var b :| After(s[..|s| - 1], RightStrip(s), b);
      assert After(s, RightStrip(s), b + [s[|s| - 1]]);
    } else {
      assert After(s, s, "");
    }
  }

  /** `s` is `r` between the space `a` and the space `b`. */
  predicate Between(s: string, a: string, r: string, b: string) {
    IsBlank(a) && IsBlank(b) && s == a + r + b
  }

  /** Stripping takes the space off both ends and nothing else. */
  lemma StripIs(s: string)
    ensures Strip(s) != "" ==> !IsSpace(Strip(s)[0]) && !IsSpace(Strip(s)[|Strip(s)| - 1])
    ensures exists a, b :: Between(s, a, Strip(s), b)
  {
    LeftStripIs(s);
    RightStripIs(LeftStrip(s));
    var a :| Before(s, a, LeftStrip(s));
    var b :| After(LeftStrip(s), Strip(s), b);
    hide IsBlank, IsSpace, LeftStrip, RightStrip, Strip;
    assert Between(s, a, Strip(s), b);
  }

  // ----- lines -----

  /** The characters at which `splitlines` ends a line. */
  predicate IsBreak(c: char) {
    || c == '\n' || c == '\r' || c == '\U{000B}' || c == '\U{000C}'
    || '\U{001C}' <= c <= '\U{001E}'
    || c == '\U{0085}' || c == '\U{2028}' || c == '\U{2029}'
  }

  /** The length of the first line. */
  function FirstLine(s: string): (n: nat)
    ensures n <= |s| && (n < |s| ==> IsBreak(s[n]))
    ensures forall i :: 0 <= i < n ==> !IsBreak(s[i])
  {
    if s == "" || IsBreak(s[0]) then 0 else 1 + FirstLine(s[1..])
  }

  /** The length of the break at `n`: a carriage return and a line feed together are one. */
  function BreakLength(s: string, n: nat): (r: nat)
    requires n < |s|
    ensures 0 < r && n + r <= |s|
  {
    if s[n] == '\r' && n + 1 < |s| && s[n + 1] == '\n' then 2 else 1
  }

  /** `s.splitlines()` */
  function SplitLines(s: string): seq<string>
    decreases |s|
  {
    if s == "" then []
    else
      var n := FirstLine(s);
      if n == |s| then [s]
      else
        [s[..n]] + SplitLines(s[n + BreakLength(s, n)..])
  }

  predicate OneLine(s: string) {
    forall i :: 0 <= i < |s| ==> !IsBreak(s[i])
  }

  /** A line ends at the first break, or with the text. */
  lemma SplitFirst(line: string, c: char, rest: string)
    requires OneLine(line)
    ensures SplitLines(line) == if line == "" then [] else [line]
    ensures IsBreak(c) && !(c == '\r' && "\n" <= rest) ==> SplitLines(line + [c] + rest) == [line] + SplitLines(rest)
    ensures SplitLines(line + ['\r', '\n'] + rest) == [line] + SplitLines(rest)
  {
    FirstLineIs(line, "");
    assert line + "" == line;
    if IsBreak(c) && !(c == '\r' && "\n" <= rest) { BreakAfter(line, [c], rest); }
    BreakAfter(line, ['\r', '\n'], rest);
  }

  lemma {:induction false} FirstLineIs(line: string, rest: string)
    requires OneLine(line) && (rest == "" || IsBreak(rest[0]))
    ensures FirstLine(line + rest) == |line|
  {
    if line == "" {
      assert line + rest == rest;
    } else {
      assert (line + rest)[1..] == line[1..] + rest;
      FirstLineIs(line[1..], rest);
    }
  }

  lemma BreakAfter(line: string, b: string, rest: string)
    requires OneLine(line)
    requires b == ['\r', '\n'] || (|b| == 1 && IsBreak(b[0]) && !(b[0] == '\r' && "\n" <= rest))
    ensures SplitLines(line + b + rest) == [line] + SplitLines(rest)
  {
    var s := line + b + rest;
    FirstLineIs(line, b + rest);
    hide IsBreak, FirstLine, SplitLines;
    assert s == line + (b + rest) && s[..|line|] == line && s[|line|..] == b + rest && s[|line| + |b|..] == rest;
    SplitUnfolds(s);
  }

  lemma SplitUnfolds(s: string)
    requires FirstLine(s) < |s|
    ensures var n := FirstLine(s); SplitLines(s) == [s[..n]] + SplitLines(s[n + BreakLength(s, n)..])
  {
    hide FirstLine, IsBreak;
  }

  /** `"\n".join(lines)` */
  function Join(lines: seq<string>): string {
    if lines == [] then ""
    else if |lines| == 1 then lines[0]
    else lines[0] + ['\n'] + Join(lines[1..])
  }

  /** Where line `k` begins in the joined text. */
  function Offset(lines: seq<string>, k: nat): nat
    requires k <= |lines|
  {
    if k == 0 then 0 else |lines[0]| + 1 + Offset(lines[1..], k - 1)
  }

  /** `s.count("\n")` */
  function Newlines(s: string): nat {
    if s == "" then 0 else Newlines(s[1..]) + if s[0] == '\n' then 1 else 0
  }

  lemma {:induction false} NewlinesConcat(a: string, b: string)
    ensures Newlines(a + b) == Newlines(a) + Newlines(b)
  {
    if a == "" {
      assert a + b == b;
    } else {
      NewlinesConcat(a[1..], b);
      assert (a + b)[1..] == a[1..] + b;
    }
  }

  lemma {:induction false} NoNewlines(s: string)
    requires '\n' !in s
    ensures Newlines(s) == 0
  {
    if s != "" { NoNewlines(s[1..]); }
  }
}
