/** Paging back through a session's messages while new ones keep arriving. */
module HistoryPaging {
  import opened Wrappers

  /** A message row: its id and its creation time. */
  datatype Row = Row(id: nat, time: int)

  const PAGE := 50

  /** A session's messages in creation order; ids are unique, times never go back. */
  predicate Ordered(table: seq<Row>) {
    && (forall i, j :: 0 <= i < j < |table| ==> table[i].time <= table[j].time)
    && (forall i, j :: 0 <= i < j < |table| ==> table[i].id != table[j].id)
  }

  /** Position of the row with this id, or |table|. */
  function Find(table: seq<Row>, id: nat): (n: nat)
    ensures n <= |table| && (n < |table| ==> table[n].id == id)
    ensures forall i :: 0 <= i < n ==> table[i].id != id
  {
    if table == [] || table[0].id == id then 0 else 1 + Find(table[1..], id)
  }

  /** How many leading rows are older than `time`. */
  function OlderThan(table: seq<Row>, time: int): (n: nat)
    ensures n <= |table| && (n < |table| ==> table[n].time >= time)
    ensures forall i :: 0 <= i < n ==> table[i].time < time
  {
    if table == [] || table[0].time >= time then 0 else 1 + OlderThan(table[1..], time)
  }

  /** The rows a query may return: all, or those older than the cursor's row if it exists. */
  function Eligible(table: seq<Row>, before: Option<nat>): nat {
    if before.None? then |table|
    else
      var n := Find(table, before.value);
      if n == |table| then |table| else OlderThan(table, table[n].time)
  }

  datatype Page = Page(messages: seq<Row>, hasMore: bool)

  /** The latest `limit` eligible messages, oldest first. */
  function GetHistory(table: seq<Row>, before: Option<nat>, limit: nat): Page {
    var n := Eligible(table, before);
    if n > limit then Page(table[n - limit..n], true) else Page(table[..n], false)
  }

  // ----- the program: newest first, one too many, cut and reversed in place -----

  class HistoryQuery {
    method Fetch(table: seq<Row>, before: Option<nat>, limit: nat) returns (page: Page)
      requires Ordered(table)
      ensures page == GetHistory(table, before, limit)
    {
      var bound: Option<int> := None;
      if before.Some? {
        var n := Find(table, before.value);
        if n < |table| {
          bound := Some(table[n].time);
        }
      }
      var n := Eligible(table, before);
      EligibleBound(table, before);
      assert forall j :: 0 <= j < |table| ==> (bound.None? || table[j].time < bound.value <==> j < n);
      hide Eligible, Find, OlderThan, Ordered;
      var items := [];
      var i := |table|;
      while i > 0 && |items| < limit + 1
        invariant 0 <= i <= |table|
        invariant |items| <= limit + 1
        invariant |items| == if i < n then n - i else 0
        invariant forall k :: 0 <= k < |items| ==> items[k] == table[n - 1 - k]
      {
        i := i - 1;
        if bound.None? || table[i].time < bound.value {
          items := items + [table[i]];
        }
      }
      var hasMore := |items| > limit;
      var messages := if hasMore then items[..limit] else items;
      var reversed := Reverse(messages);
      page := Page(reversed, hasMore);
      ReversedIsPage(table, before, limit, items, reversed);
    }

    method Reverse(s: seq<Row>) returns (r: seq<Row>)
      ensures |r| == |s| && forall k :: 0 <= k < |s| ==> r[k] == s[|s| - 1 - k]
    {
      var a := new Row[|s|](i requires 0 <= i < |s| => s[i]);
      var i := 0;
      while i < |s| / 2
        invariant 0 <= i <= |s| / 2
        invariant forall k :: 0 <= k < i || |s| - i <= k < |s| ==> a[k] == s[|s| - 1 - k]
        invariant forall k :: i <= k < |s| - i ==> a[k] == s[k]
      {
        a[i], a[|s| - 1 - i] := a[|s| - 1 - i], a[i];
        i := i + 1;
      }
      r := a[..];
    }
  }

  lemma ReversedIsPage(table: seq<Row>, before: Option<nat>, limit: nat, items: seq<Row>, r: seq<Row>)
    requires var n := Eligible(table, before);
      |items| == (if n <= limit then n else limit + 1) && forall k :: 0 <= k < |items| ==> items[k] == table[n - 1 - k]
    requires |r| == if |items| > limit then limit else |items|
    requires forall k :: 0 <= k < |r| ==> r[k] == items[|r| - 1 - k]
    ensures Page(r, |items| > limit) == GetHistory(table, before, limit)
  {
  }

  lemma EligibleBound(table: seq<Row>, before: Option<nat>)
    requires Ordered(table)
    ensures var n, c := Eligible(table, before), if before.Some? then Find(table, before.value) else |table|;
      c < |table| ==> forall i :: 0 <= i < |table| ==> (table[i].time < table[c].time <==> i < n)
  {
  }

  // ----- the client -----

  /** What the page shows: messages, whether there are older ones, and the cursor to ask with. */
  datatype Client = Client(list: seq<Row>, hasMore: bool, cursor: Option<nat>)

  function FirstId(messages: seq<Row>): Option<nat> {
    if messages == [] then None else Some(messages[0].id)
  }

  /** The initial load. */
  function Load(page: Page): Client {
    Client(page.messages, page.hasMore, if page.hasMore then FirstId(page.messages) else None)
  }

  /** `loadMoreHistory` does nothing without a cursor; otherwise it prepends the answer. */
  function LoadMore(c: Client, table: seq<Row>): Client {
    if !c.hasMore || c.cursor.None? then c
    else
      var page := GetHistory(table, c.cursor, PAGE);
      if page.messages == [] then c.(hasMore := false)
      else Client(page.messages + c.list, page.hasMore, if page.hasMore then FirstId(page.messages) else None)
  }

  /** The server appends messages, of which the page appends to its list those it is told of live; or
      the client loads a page. */
  datatype Step = Arrive(rows: seq<Row>, live: seq<Row>) | More

  datatype World = World(table: seq<Row>, client: Client)

  function Next(w: World, s: Step): World {
    match s
    case Arrive(rows, live) => World(w.table + rows, w.client.(list := w.client.list + live))
    case More => w.(client := LoadMore(w.client, w.table))
  }

  function Run(w: World, steps: seq<Step>): World {
    if steps == [] then w else Next(Run(w, steps[..|steps| - 1]), steps[|steps| - 1])
  }

  /** What the page has appended live. */
  function Live(steps: seq<Step>): seq<Row> {
    if steps == [] then [] else
      var s := steps[|steps| - 1];
      Live(steps[..|steps| - 1]) + if s.Arrive? then s.live else []
  }

  /** The page is told of some of the messages that arrive, each once. */
  predicate LiveOk(steps: seq<Step>) {
    forall i :: 0 <= i < |steps| && steps[i].Arrive? ==> Distinct(steps[i].live) && forall x :: x in steps[i].live ==> x in steps[i].rows
  }

  predicate Distinct(rows: seq<Row>) {
    forall i, j :: 0 <= i < j < |rows| ==> rows[i] != rows[j]
  }

  predicate Strict(table: seq<Row>) {
    && (forall i, j :: 0 <= i < j < |table| ==> table[i].time < table[j].time)
    && (forall i, j :: 0 <= i < j < |table| ==> table[i].id != table[j].id)
  }

  /** The client shows rows `lo` to `hi` of the table and then `tail`, and knows whether there are older
      ones. */
  predicate Shows(w: World, lo: nat, hi: nat, tail: seq<Row>) {
    && lo <= hi <= |w.table|
    && w.client.list == w.table[lo..hi] + tail
    && (w.client.hasMore <==> lo > 0)
    && (w.client.hasMore ==> lo < hi && w.client.cursor == Some(w.table[lo].id))
  }

  function Loads(steps: seq<Step>): nat {
    if steps == [] then 0 else Loads(steps[..|steps| - 1]) + if steps[|steps| - 1].More? then 1 else 0
  }

  /** Rows left to load after `n` pages. */
  function LeftAfter(lo: nat, n: nat): nat {
    if lo <= PAGE * n then 0 else lo - PAGE * n
  }

  lemma MoreShows(w: World, lo: nat, hi: nat, tail: seq<Row>)
    requires Strict(w.table) && Shows(w, lo, hi, tail)
    ensures Shows(Next(w, More), LeftAfter(lo, 1), hi, tail)
  {
    if lo > 0 {
      var t := w.table;
      assert Find(t, t[lo].id) == lo;
      assert OlderThan(t, t[lo].time) == lo;
      var from := LeftAfter(lo, 1);
      assert GetHistory(t, Some(t[lo].id), PAGE) == Page(t[from..lo], from > 0);
      Prepended(t, from, lo, hi, tail);
    }
  }

  lemma Prepended(t: seq<Row>, from: nat, lo: nat, hi: nat, tail: seq<Row>)
    requires from <= lo <= hi <= |t|
    ensures t[from..lo] + (t[lo..hi] + tail) == t[from..hi] + tail
  {
  }

  lemma ArriveShows(w: World, rows: seq<Row>, live: seq<Row>, lo: nat, hi: nat, tail: seq<Row>)
    requires Shows(w, lo, hi, tail)
    ensures Shows(Next(w, Arrive(rows, live)), lo, hi, tail + live)
  {
    assert (w.table + rows)[lo..hi] == w.table[lo..hi];
    assert w.table[lo..hi] + tail + live == w.table[lo..hi] + (tail + live);
  }

  /** From the initial load on, in every interleaving of page loads with arriving messages, if no
      two messages have the same creation time, the client shows a contiguous run of the
      history without duplicates that ends where it ended, and below it what was appended
      live; after `n` loads the run reaches `50 n` rows further back; so after finitely
      many loads it is complete, which is exactly when it stops offering more. */
  lemma PagingTheorem(table: seq<Row>, steps: seq<Step>)
    requires Strict(Run(World(table, Load(GetHistory(table, None, PAGE))), steps).table)
    ensures var w := Run(World(table, Load(GetHistory(table, None, PAGE))), steps);
      && Shows(w, LeftAfter(LeftAfter(|table|, 1), Loads(steps)), |table|, Live(steps))
      && w.table[..|table|] == table
      && (!w.client.hasMore <==> w.client.list == table + Live(steps))
  {
    var w0 := World(table, Load(GetHistory(table, None, PAGE)));
    RunGrows(w0, steps);
    assert table[LeftAfter(|table|, 1)..] + [] == table[LeftAfter(|table|, 1)..];
    RunShows(w0, steps, LeftAfter(|table|, 1), |table|);
    var w := Run(w0, steps);
    var lo := LeftAfter(LeftAfter(|table|, 1), Loads(steps));
    assert w.table[..|table|][lo..|table|] == w.table[lo..|table|];
    if lo > 0 { assert |w.client.list| < |table| + |Live(steps)|; }
  }

  /** And none of it twice: what is appended live is newer than everything loaded. */
  lemma ShownOnce(table: seq<Row>, steps: seq<Step>)
    requires Strict(Run(World(table, Load(GetHistory(table, None, PAGE))), steps).table) && LiveOk(steps)
    ensures Distinct(Run(World(table, Load(GetHistory(table, None, PAGE))), steps).client.list)
  {
    var w0 := World(table, Load(GetHistory(table, None, PAGE)));
    var w := Run(w0, steps);
    PagingTheorem(table, steps);
    LiveIsNew(w0, steps);
    var lo := LeftAfter(LeftAfter(|table|, 1), Loads(steps));
    hide Run, Live, Loads, LeftAfter;
    DistinctJoined(w.table, lo, |table|, Live(steps));
  }

  lemma DistinctJoined(t: seq<Row>, lo: nat, hi: nat, tail: seq<Row>)
    requires Strict(t) && lo <= hi <= |t| && Distinct(tail) && forall x :: x in tail ==> x in t[hi..]
    ensures Distinct(t[lo..hi] + tail)
  {
    var r := t[lo..hi] + tail;
    forall i, j | 0 <= i < j < |r| ensures r[i] != r[j] {
      if j >= hi - lo {
        if i < hi - lo {
          assert r[j] == tail[j - (hi - lo)] && r[j] in t[hi..];
          var k :| hi <= k < |t| && t[k] == r[j];
          assert r[i] == t[lo + i];
        } else {
          assert r[i] == tail[i - (hi - lo)] && r[j] == tail[j - (hi - lo)];
        }
      }
    }
  }

  lemma {:induction false} LiveIsNew(w: World, steps: seq<Step>)
    requires Strict(Run(w, steps).table) && LiveOk(steps)
    ensures |w.table| <= |Run(w, steps).table|
    ensures Distinct(Live(steps)) && forall x :: x in Live(steps) ==> x in Run(w, steps).table[|w.table|..]
  {
    if steps != [] {
      var init, s := steps[..|steps| - 1], steps[|steps| - 1];
      var t := Run(w, init).table;
      assert LiveOk(init);
      if s.Arrive? {
        StrictPrefix(t, s.rows);
        LiveIsNew(w, init);
        assert (t + s.rows)[|w.table|..] == t[|w.table|..] + s.rows;
        hide Run, Live;
        MoreDistinct(t, |w.table|, Live(init), s.rows, s.live);
      } else {
        LiveIsNew(w, init);
        assert Live(init) + [] == Live(init);
      }
    }
  }

  lemma MoreDistinct(t: seq<Row>, n: nat, tail: seq<Row>, rows: seq<Row>, live: seq<Row>)
    requires Strict(t + rows) && n <= |t| && Distinct(tail) && Distinct(live)
    requires (forall x :: x in tail ==> x in t[n..]) && (forall x :: x in live ==> x in rows)
    ensures Distinct(tail + live) && forall x :: x in tail + live ==> x in t[n..] + rows
  {
    var r := tail + live;
    forall i, j | 0 <= i < j < |r| ensures r[i] != r[j] {
      if i < |tail| <= j {
        assert r[i] in tail && r[j] == live[j - |tail|] && r[j] in live;
        var a :| n <= a < |t| && t[a] == r[i];
        var b :| 0 <= b < |rows| && rows[b] == r[j];
        assert (t + rows)[a] == r[i] && (t + rows)[|t| + b] == r[j];
      }
    }
  }

  lemma {:induction false} RunGrows(w: World, steps: seq<Step>)
    ensures |Run(w, steps).table| >= |w.table| && Run(w, steps).table[..|w.table|] == w.table
  {
    if steps != [] { RunGrows(w, steps[..|steps| - 1]); }
  }

  lemma StrictPrefix(a: seq<Row>, b: seq<Row>)
    requires Strict(a + b)
    ensures Strict(a)
  {
    assert forall i :: 0 <= i < |a| ==> (a + b)[i] == a[i];
  }

  lemma {:induction false} RunShows(w: World, steps: seq<Step>, lo: nat, hi: nat)
    requires Strict(Run(w, steps).table) && Shows(w, lo, hi, [])
    ensures Shows(Run(w, steps), LeftAfter(lo, Loads(steps)), hi, Live(steps))
  {
    hide Shows, LoadMore;
    if steps != [] {
      var init, s := steps[..|steps| - 1], steps[|steps| - 1];
      var v := Run(w, init);
      if s.Arrive? {
        StrictPrefix(v.table, s.rows);
        RunShows(w, init, lo, hi);
        ArriveShows(v, s.rows, s.live, LeftAfter(lo, Loads(init)), hi, Live(init));
      } else {
        RunShows(w, init, lo, hi);
        MoreShows(v, LeftAfter(lo, Loads(init)), hi, Live(init));
        assert Live(init) + [] == Live(init);
      }
    }
  }

  /** A message is shown twice exactly when one appended live is in the list already or comes twice: the
      page does not look. */
  lemma ArriveOnceIff(w: World, rows: seq<Row>, live: seq<Row>)
    requires Distinct(w.client.list)
    ensures Distinct(Next(w, Arrive(rows, live)).client.list) <==>
      Distinct(live) && forall x :: x in live ==> x !in w.client.list
  {
    var a := w.client.list;
    var r := a + live;
    if Distinct(r) {
      assert forall i :: 0 <= i < |live| ==> live[i] == r[|a| + i];
      forall x | x in live ensures x !in a {
        var j :| 0 <= j < |live| && live[j] == x;
        assert forall i :: 0 <= i < |a| ==> a[i] == r[i] != r[|a| + j];
      }
    }
    if Distinct(live) && forall x :: x in live ==> x !in a {
      forall i, j | 0 <= i < j < |r| ensures r[i] != r[j] {
        if i < |a| <= j { assert r[j] in live && r[i] in a; }
      }
    }
  }

  /** So a message that is in the history when the page loads, and whose event is then replayed, is
      shown twice. */
  lemma ReplayShowsTwice()
    ensures var table := [Row(1, 0)];
      Run(World(table, Load(GetHistory(table, None, PAGE))), [Arrive([], table)]).client.list == table + table
  {
    var table, s := [Row(1, 0)], Arrive([], [Row(1, 0)]);
    var w := World(table, Load(GetHistory(table, None, PAGE)));
    assert [s][..0] == [] && Run(w, [s]) == Next(w, s);
    assert table[..1] == table;
  }

  /** With equal creation times a page load joins on to what is shown if and only if the oldest
      message shown is newer than the one before it: older messages with the very same
      time as the cursor are skipped. */
  lemma JoinsOnIff(table: seq<Row>, lo: nat)
    requires Ordered(table) && 0 < lo < |table|
    ensures var page := GetHistory(table, Some(table[lo].id), PAGE);
      (exists from :: 0 <= from < lo && page.messages == table[from..lo]) <==> table[lo - 1].time < table[lo].time
  {
    var t := table[lo].time;
    assert Find(table, table[lo].id) == lo;
    var n := OlderThan(table, t);
    var page := GetHistory(table, Some(table[lo].id), PAGE);
    if table[lo - 1].time < t {
      assert n == lo;
      var from := if lo > PAGE then lo - PAGE else 0;
      assert page.messages == table[from..lo];
    } else {
      assert n < lo;
      forall from | 0 <= from < lo
        ensures page.messages != table[from..lo]
      {
        var joined := table[from..lo];
        assert joined[|joined| - 1] == table[lo - 1];
        assert page.messages != [] ==> page.messages[|page.messages| - 1] == table[n - 1];
      }
    }
  }
}
